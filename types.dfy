/** The certificate record and the template tag shared by the editor and the renderer. */
module Types {
  import opened Wrappers

  /** The three layouts a certificate can be drawn in. */
  datatype TemplateType = Classic | Traditional | Modern

  /** The string literal each layout is known by in the program. */
  function TagOf(t: TemplateType): (r: string)
    ensures r == "modern" <==> t == Modern
    ensures r == "traditional" <==> t == Traditional
    ensures r == "classic" <==> t == Classic
  {
    match t
    case Classic => "classic"
    case Traditional => "traditional"
    case Modern => "modern"
  }

  /**
   * The data printed on a certificate. Every field is text as typed into the
   * form; `issueDate` is meant to be `YYYY-MM-DD`. The background image is
   * optional (absent, `null` or a string).
   */
  datatype CertificateData = CertificateData(
    studentName: string,
    startYear: string,
    startMonth: string,
    courseName: string,
    coachName: string,
    issueDate: string,
    customBgImage: Option<string>)

  /** The six text fields the form binds by their `name` attribute. */
  datatype Field = StudentName | StartYear | StartMonth | CourseName | CoachName | IssueDate

  function FieldValue(d: CertificateData, f: Field): string {
    match f
    case StudentName => d.studentName
    case StartYear => d.startYear
    case StartMonth => d.startMonth
    case CourseName => d.courseName
    case CoachName => d.coachName
    case IssueDate => d.issueDate
  }

  /** The record `{ ...d, [f]: v }`: the named field replaced, all others kept. */
  function WithField(d: CertificateData, f: Field, v: string): (r: CertificateData)
    ensures FieldValue(r, f) == v
    ensures forall g :: g != f ==> FieldValue(r, g) == FieldValue(d, g)
    ensures r.customBgImage == d.customBgImage
  {
    match f
    case StudentName => d.(studentName := v)
    case StartYear => d.(startYear := v)
    case StartMonth => d.(startMonth := v)
    case CourseName => d.(courseName := v)
    case CoachName => d.(coachName := v)
    case IssueDate => d.(issueDate := v)
  }

  /** JavaScript truthiness of `customBgImage`: present and not the empty string. */
  predicate HasCustomBg(d: CertificateData)
    ensures d.customBgImage.None? ==> !HasCustomBg(d)
    ensures d.customBgImage == Some("") ==> !HasCustomBg(d)
    ensures HasCustomBg(d) ==> |d.customBgImage.value| >= 1
  {
    d.customBgImage.Some? && d.customBgImage.value != ""
  }
}

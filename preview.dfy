/**
 * The certificate renderer: a pure function from the data record and a
 * template tag to a fixed-size document. The document is an ordered stack of
 * layers, bottom first: the base fill of the page, the custom background
 * image, the template's decorations, its borders, and the content, whose text
 * is reduced to the data slots it substitutes (static prose and styling are
 * not modelled).
 */
module Preview {
  import opened Wrappers
  import opened Text
  import opened Types

  /** A4 landscape in CSS pixels, the size every template is drawn at. */
  const BaseWidth: nat := 1122
  const BaseHeight: nat := 794

  /** The colour of the outer wrapper the template is drawn inside, in every case. */
  const PageColor := "white"

  // ---------------------------------------------------------------- dates

  /** What `new Date(issueDate)` yields, read back with its getters (`monthIndex` is `getMonth()`). */
  datatype CalendarDate = CalendarDate(year: nat, monthIndex: nat, day: nat)

  predicate IsLeapYear(y: nat) {
    (y % 4 == 0 && y % 100 != 0) || y % 400 == 0
  }

  function DaysInMonth(y: nat, month: nat): (n: nat)
    requires 1 <= month <= 12
    ensures 28 <= n <= 31
  {
    if month == 2 then (if IsLeapYear(y) then 29 else 28)
    else if month == 4 || month == 6 || month == 9 || month == 11 then 30
    else 31
  }

  predicate ValidDate(dt: CalendarDate) {
    dt.monthIndex < 12 && 1 <= dt.day <= DaysInMonth(dt.year, dt.monthIndex + 1)
  }

  /**
   * The date-only form `YYYY-MM-DD` (a four-digit year, a two-digit month and
   * a two-digit day, all validated), and nothing else.
   */
  function ParseIsoDate(s: string): (r: Option<CalendarDate>)
    ensures r.Some? ==> ValidDate(r.value) && r.value.year < 10000
  {
    if |s| == 10 && s[4] == '-' && s[7] == '-'
       && AllDigits(s[..4]) && AllDigits(s[5..7]) && AllDigits(s[8..])
    then
      var y, m, d := Value(s[..4]), Value(s[5..7]), Value(s[8..]);
      ValueBound(s[..4]);
      if 1 <= m <= 12 && 1 <= d <= DaysInMonth(y, m) then Some(CalendarDate(y, m - 1, d)) else None
    else None
  }

  /** A digit string of width `w` denotes a number below 10^w. */
  lemma {:induction false} ValueBound(s: string)
    requires AllDigits(s)
    ensures Value(s) < Pow10(|s|)
  {
    if s != [] {
      ValueBound(s[..|s| - 1]);
    }
  }

  /** The canonical text of a calendar date, as a date input writes it. */
  function FormatIsoDate(dt: CalendarDate): (s: string)
    ensures |s| == 10
  {
    Digits(dt.year, 4) + "-" + Digits(dt.monthIndex + 1, 2) + "-" + Digits(dt.day, 2)
  }

  /** Every valid four-digit-year date survives formatting and parsing. */
  lemma FormatThenParse(dt: CalendarDate)
    requires ValidDate(dt) && dt.year < 10000
    ensures ParseIsoDate(FormatIsoDate(dt)) == Some(dt)
  {
    var s := FormatIsoDate(dt);
    assert s[..4] == Digits(dt.year, 4);
    assert s[5..7] == Digits(dt.monthIndex + 1, 2);
    assert s[8..] == Digits(dt.day, 2);
    ValueOfDigits(dt.year, 4);
    ValueOfDigits(dt.monthIndex + 1, 2);
    ValueOfDigits(dt.day, 2);
  }

  /** A string the parser accepts is exactly the canonical text of its date. */
  lemma ParseThenFormat(s: string)
    requires ParseIsoDate(s).Some?
    ensures FormatIsoDate(ParseIsoDate(s).value) == s
  {
    var dt := ParseIsoDate(s).value;
    DigitsOfValue(s[..4]);
    DigitsOfValue(s[5..7]);
    DigitsOfValue(s[8..]);
    assert s == s[..4] + "-" + s[5..7] + "-" + s[8..];
  }

  /** Text of the year slot: `getFullYear()`, or `NaN` for an invalid date. */
  function YearText(issueDate: string): (r: string)
    ensures ParseIsoDate(issueDate).None? <==> r == "NaN"
    ensures ParseIsoDate(issueDate).Some? ==>
      |r| >= 1 && AllDigits(r) && (r[0] != '0' || r == "0") && Value(r) == ParseIsoDate(issueDate).value.year
  {
    match ParseIsoDate(issueDate)
    case Some(dt) => ValueOfNatToString(dt.year); NatToString(dt.year)
    case None => "NaN"
  }

  /** Text of the month slot: `getMonth() + 1`, or `NaN` for an invalid date. */
  function MonthText(issueDate: string): (r: string)
    ensures ParseIsoDate(issueDate).None? <==> r == "NaN"
    ensures ParseIsoDate(issueDate).Some? ==>
      |r| >= 1 && AllDigits(r) && r[0] != '0' && Value(r) == ParseIsoDate(issueDate).value.monthIndex + 1
  {
    match ParseIsoDate(issueDate)
    case Some(dt) => ValueOfNatToString(dt.monthIndex + 1); NatToString(dt.monthIndex + 1)
    case None => "NaN"
  }

  /** Text of the day slot: `getDate()`, or `NaN` for an invalid date. */
  function DayText(issueDate: string): (r: string)
    ensures ParseIsoDate(issueDate).None? <==> r == "NaN"
    ensures ParseIsoDate(issueDate).Some? ==>
      |r| >= 1 && AllDigits(r) && r[0] != '0' && Value(r) == ParseIsoDate(issueDate).value.day
  {
    match ParseIsoDate(issueDate)
    case Some(dt) => ValueOfNatToString(dt.day); NatToString(dt.day)
    case None => "NaN"
  }

  /**
   * The traditional template's "end month": the raw second `-`-separated
   * piece of the issue date; when there is none, JavaScript's `undefined`
   * renders as nothing.
   */
  function EndMonthText(issueDate: string): (r: string)
    ensures '-' !in r
  {
    var pieces := Split(issueDate, '-');
    if |pieces| >= 2 then pieces[1] else ""
  }

  // --------------------------------------------------------------- layers

  /** The places in the content where the data record is substituted. */
  datatype SlotKind =
    | StudentNameSlot | StartYearSlot | StartMonthSlot | EndMonthSlot
    | CourseNameSlot | CoachNameSlot | IssueYearSlot | IssueMonthSlot | IssueDaySlot

  datatype Slot = Slot(kind: SlotKind, text: string)

  /** Ornaments that assume a plain page and give way to a custom background. */
  datatype Decoration =
    | CornerAccent | LowerBand | UpperBand   // modern
    | DotPattern                             // traditional
    | Watermark                              // classic

  datatype Corner = TopLeft | TopRight | BottomLeft | BottomRight

  datatype Layer =
    | Fill(color: string)
    | Image(src: string)
    | Decor(decoration: Decoration)
    | Frame(inset: nat, width: nat, color: string)   // inset in Tailwind spacing steps, width in px
    | Ornament(corner: Corner)
    | Content(slots: seq<Slot>)

  /** The wrapper box: its size, its own background colour, and the template's layers inside it. */
  datatype Document = Document(width: nat, height: nat, background: string, layers: seq<Layer>)

  datatype LayerKind = FillKind | ImageKind | DecorationKind | BorderKind | ContentKind

  function KindOf(l: Layer): LayerKind {
    match l
    case Fill(_) => FillKind
    case Image(_) => ImageKind
    case Decor(_) => DecorationKind
    case Frame(_, _, _) => BorderKind
    case Ornament(_) => BorderKind
    case Content(_) => ContentKind
  }

  /** Stacking height of each kind of layer: later layers are painted on top. */
  function Rank(k: LayerKind): nat {
    match k
    case FillKind => 0
    case ImageKind => 1
    case DecorationKind => 2
    case BorderKind => 3
    case ContentKind => 4
  }

  /** The layers of one kind, in stacking order. */
  function OfKind(layers: seq<Layer>, k: LayerKind): (r: seq<Layer>)
    ensures |r| <= |layers|
    ensures forall i | 0 <= i < |r| :: KindOf(r[i]) == k
  {
    if layers == [] then []
    else (if KindOf(layers[0]) == k then [layers[0]] else []) + OfKind(layers[1..], k)
  }

  lemma {:induction false} OfKindConcat(a: seq<Layer>, b: seq<Layer>, k: LayerKind)
    ensures OfKind(a + b, k) == OfKind(a, k) + OfKind(b, k)
  {
    if a == [] {
      assert a + b == b;
    } else {
      assert (a + b)[0] == a[0] && (a + b)[1..] == a[1..] + b;
      OfKindConcat(a[1..], b, k);
    }
  }

  /** Selecting a kind from layers all of one kind gives all of them or none. */
  lemma {:induction false} OfKindUniform(a: seq<Layer>, ka: LayerKind, k: LayerKind)
    requires forall i | 0 <= i < |a| :: KindOf(a[i]) == ka
    ensures OfKind(a, k) == if ka == k then a else []
  {
    if a != [] {
      OfKindUniform(a[1..], ka, k);
      assert a == [a[0]] + a[1..];
    }
  }

  /** The layers are painted bottom to top in the order of `Rank`. */
  ghost predicate Stacked(layers: seq<Layer>) {
    forall i, j | 0 <= i < j < |layers| :: Rank(KindOf(layers[i])) <= Rank(KindOf(layers[j]))
  }

  // ------------------------------------------------------------ templates

  /**
   * The `switch` over the template tag: `'modern'` and `'traditional'` pick
   * their layouts, every other tag (`'classic'` included) the classic one.
   */
  function Variant(tag: string): (t: TemplateType)
    ensures t == Modern <==> tag == "modern"
    ensures t == Traditional <==> tag == "traditional"
  {
    if tag == "modern" then Modern
    else if tag == "traditional" then Traditional
    else Classic
  }

  /** The template's own page colour; only the modern one is the wrapper's white. */
  function FillColor(t: TemplateType): (r: string)
    ensures r != ""
    ensures r == PageColor <==> t == Modern
  {
    match t
    case Modern => "white"
    case Traditional => "#fdfbf7"
    case Classic => "#FFFAF0"
  }

  function Decorations(t: TemplateType): (r: seq<Layer>)
    ensures |r| >= 1 && forall i | 0 <= i < |r| :: r[i].Decor?
  {
    match t
    case Modern => [Decor(CornerAccent), Decor(LowerBand), Decor(UpperBand)]
    case Traditional => [Decor(DotPattern)]
    case Classic => [Decor(Watermark)]
  }

  function Borders(t: TemplateType): (r: seq<Layer>)
    ensures |r| >= 2 && forall i | 0 <= i < |r| :: KindOf(r[i]) == BorderKind
  {
    match t
    case Modern => [Frame(8, 2, "slate-200"), Frame(10, 1, "slate-100")]
    // The ornaments' wrapper is a flex item of the template's `flex` root, so
    // its `z-10` applies; coming after the two `z-10` frames in the tree, the
    // corner ornaments paint above them.
    case Traditional =>
      [Frame(4, 4, "#8b0000"), Frame(6, 1, "#8b0000"),
       Ornament(TopLeft), Ornament(TopRight), Ornament(BottomLeft), Ornament(BottomRight)]
    case Classic => [Frame(4, 12, "#8B4513"), Frame(6, 2, "#DAA520")]
  }

  /** The issue-date slots, shown in every template. */
  function DateSlots(issueDate: string): (r: seq<Slot>)
    ensures |r| == 3 && r[0].kind == IssueYearSlot && r[1].kind == IssueMonthSlot && r[2].kind == IssueDaySlot
  {
    [Slot(IssueYearSlot, YearText(issueDate)), Slot(IssueMonthSlot, MonthText(issueDate)),
     Slot(IssueDaySlot, DayText(issueDate))]
  }

  /** The substituted text of a template, in reading order. */
  function ContentSlots(d: CertificateData, t: TemplateType): (r: seq<Slot>)
    ensures |r| == if t == Traditional then 9 else 8
    ensures r[0] == Slot(StudentNameSlot, d.studentName)
    ensures r[|r| - 3..] == DateSlots(d.issueDate)
    ensures forall i | 0 <= i < |r| :: r[i].kind == EndMonthSlot ==> t == Traditional && r[i].text == EndMonthText(d.issueDate)
  {
    var opening := [Slot(StudentNameSlot, d.studentName), Slot(StartYearSlot, d.startYear),
                    Slot(StartMonthSlot, d.startMonth)];
    var course := [Slot(CourseNameSlot, d.courseName), Slot(CoachNameSlot, d.coachName)];
    match t
    case Traditional => opening + [Slot(EndMonthSlot, EndMonthText(d.issueDate))] + course + DateSlots(d.issueDate)
    case _ => opening + course + DateSlots(d.issueDate)
  }

  /** The page colour, drawn only when there is no custom background. */
  function BaseFill(d: CertificateData, t: TemplateType): (r: seq<Layer>)
    ensures |r| <= 1 && (r == [] <==> HasCustomBg(d))
    ensures forall i | 0 <= i < |r| :: r[i] == Fill(FillColor(t))
  {
    if HasCustomBg(d) then [] else [Fill(FillColor(t))]
  }

  /** The full-bleed `<img>` drawn when there is a custom background, else nothing. */
  function CustomBackground(d: CertificateData): (r: seq<Layer>)
    ensures |r| <= 1 && (r == [] <==> !HasCustomBg(d))
    ensures forall i | 0 <= i < |r| :: r[i] == Image(d.customBgImage.value)
  {
    if HasCustomBg(d) then [Image(d.customBgImage.value)] else []
  }

  /** The template's ornaments, drawn only when there is no custom background. */
  function PlainDecorations(d: CertificateData, t: TemplateType): (r: seq<Layer>)
    ensures r == [] <==> HasCustomBg(d)
    ensures forall i | 0 <= i < |r| :: r[i].Decor?
  {
    if HasCustomBg(d) then [] else Decorations(t)
  }

  /** The layer tree each template builds, bottom first. */
  function Layers(d: CertificateData, t: TemplateType): (r: seq<Layer>)
    ensures |r| >= 3 && r[|r| - 1] == Content(ContentSlots(d, t))
    ensures HasCustomBg(d) ==> r[0] == Image(d.customBgImage.value)
    ensures !HasCustomBg(d) ==> r[0] == Fill(FillColor(t))
  {
    BaseFill(d, t) + CustomBackground(d) + PlainDecorations(d, t) + Borders(t) + [Content(ContentSlots(d, t))]
  }

  /** The certificate for `d` in the layout the tag selects. */
  function Render(d: CertificateData, tag: string): (doc: Document)
    ensures doc.width == BaseWidth && doc.height == BaseHeight && doc.background == PageColor
  {
    Document(BaseWidth, BaseHeight, PageColor, Layers(d, Variant(tag)))
  }

  /** The substituted text of a rendered document: that of its top layer. */
  function SlotsOf(doc: Document): seq<Slot> {
    if |doc.layers| > 0 && doc.layers[|doc.layers| - 1].Content? then doc.layers[|doc.layers| - 1].slots else []
  }

  // --------------------------------------------------- stacks of five parts

  ghost predicate AllOfKind(a: seq<Layer>, k: LayerKind) {
    forall i | 0 <= i < |a| :: KindOf(a[i]) == k
  }

  /** A stack made of a fill part, an image part, a decoration part, a border part and a content part. */
  ghost predicate FiveParts(a: seq<Layer>, b: seq<Layer>, c: seq<Layer>, e: seq<Layer>, f: seq<Layer>) {
    AllOfKind(a, FillKind) && AllOfKind(b, ImageKind) && AllOfKind(c, DecorationKind)
    && AllOfKind(e, BorderKind) && AllOfKind(f, ContentKind)
  }

  /** Selecting one kind from such a stack gives back exactly its part of that kind. */
  lemma {:induction false} FivePartsOfKind(a: seq<Layer>, b: seq<Layer>, c: seq<Layer>, e: seq<Layer>, f: seq<Layer>)
    requires FiveParts(a, b, c, e, f)
    ensures var s := a + b + c + e + f;
      OfKind(s, FillKind) == a && OfKind(s, ImageKind) == b && OfKind(s, DecorationKind) == c
      && OfKind(s, BorderKind) == e && OfKind(s, ContentKind) == f
  {
    forall k: LayerKind
      ensures OfKind(a + b + c + e + f, k)
        == (if k == FillKind then a else []) + (if k == ImageKind then b else [])
           + (if k == DecorationKind then c else []) + (if k == BorderKind then e else [])
           + (if k == ContentKind then f else [])
    {
      OfKindConcat(a + b + c + e, f, k);
      OfKindConcat(a + b + c, e, k);
      OfKindConcat(a + b, c, k);
      OfKindConcat(a, b, k);
      OfKindUniform(a, FillKind, k);
      OfKindUniform(b, ImageKind, k);
      OfKindUniform(c, DecorationKind, k);
      OfKindUniform(e, BorderKind, k);
      OfKindUniform(f, ContentKind, k);
    }
  }

  /** Such a stack is painted in the order of `Rank`. */
  lemma FivePartsStacked(a: seq<Layer>, b: seq<Layer>, c: seq<Layer>, e: seq<Layer>, f: seq<Layer>)
    requires FiveParts(a, b, c, e, f)
    ensures Stacked(a + b + c + e + f)
  {
    var s := a + b + c + e + f;
    forall i, j | 0 <= i < j < |s|
      ensures Rank(KindOf(s[i])) <= Rank(KindOf(s[j]))
    {
      RankAt(a, b, c, e, f, i);
      RankAt(a, b, c, e, f, j);
    }
  }

  /** The rank of a layer of a five-part stack is that of the part it lies in. */
  lemma RankAt(a: seq<Layer>, b: seq<Layer>, c: seq<Layer>, e: seq<Layer>, f: seq<Layer>, i: nat)
    requires FiveParts(a, b, c, e, f)
    requires i < |a + b + c + e + f|
    ensures var r := Rank(KindOf((a + b + c + e + f)[i]));
      && (i < |a| ==> r == 0)
      && (|a| <= i < |a + b| ==> r == 1)
      && (|a + b| <= i < |a + b + c| ==> r == 2)
      && (|a + b + c| <= i < |a + b + c + e| ==> r == 3)
      && (|a + b + c + e| <= i ==> r == 4)
  {
    var s := a + b + c + e + f;
    if i < |a| { assert s[i] == a[i]; }
    else if i < |a + b| { assert s[i] == b[i - |a|]; }
    else if i < |a + b + c| { assert s[i] == c[i - |a + b|]; }
    else if i < |a + b + c + e| { assert s[i] == e[i - |a + b + c|]; }
    else { assert s[i] == f[i - |a + b + c + e|]; }
  }

  /** The layers of every rendering form such a stack, part by part. */
  lemma LayersAreFiveParts(d: CertificateData, t: TemplateType)
    ensures FiveParts(BaseFill(d, t), CustomBackground(d), PlainDecorations(d, t), Borders(t), [Content(ContentSlots(d, t))])
    ensures var s := Layers(d, t);
      OfKind(s, FillKind) == BaseFill(d, t) && OfKind(s, ImageKind) == CustomBackground(d)
      && OfKind(s, DecorationKind) == PlainDecorations(d, t) && OfKind(s, BorderKind) == Borders(t)
      && OfKind(s, ContentKind) == [Content(ContentSlots(d, t))]
      && Stacked(s)
  {
    var a, b, c, e, f := BaseFill(d, t), CustomBackground(d), PlainDecorations(d, t), Borders(t), [Content(ContentSlots(d, t))];
    assert AllOfKind(c, DecorationKind) by {
      var ds := Decorations(t);
      assert forall i | 0 <= i < |ds| :: KindOf(ds[i]) == DecorationKind;
    }
    assert FiveParts(a, b, c, e, f);
    FivePartsOfKind(a, b, c, e, f);
    FivePartsStacked(a, b, c, e, f);
  }

  // ------------------------------------------------------------ properties

  /** The stored tag of each layout selects that layout again. */
  lemma VariantOfTag(t: TemplateType)
    ensures Variant(TagOf(t)) == t
  {
  }

  /** Layers are stacked fill, image, decorations, borders and content, with exactly one content layer, on top. */
  lemma RenderIsStacked(d: CertificateData, tag: string)
    ensures Stacked(Render(d, tag).layers)
    ensures |OfKind(Render(d, tag).layers, ContentKind)| == 1
    ensures SlotsOf(Render(d, tag)) == ContentSlots(d, Variant(tag))
  {
    LayersAreFiveParts(d, Variant(tag));
  }

  /**
   * A custom background is drawn as one full-bleed image at the bottom of the
   * template's stack and replaces both the template's own fill and its
   * decorations; without one there is no image and both are drawn. The
   * wrapper's white is there in either case.
   */
  lemma CustomBackgroundReplacesFillAndDecorations(d: CertificateData, tag: string)
    ensures Render(d, tag).background == PageColor
    ensures var layers := Render(d, tag).layers;
      && OfKind(layers, ImageKind) == (if HasCustomBg(d) then [Image(d.customBgImage.value)] else [])
      && OfKind(layers, FillKind) == (if HasCustomBg(d) then [] else [Fill(FillColor(Variant(tag)))])
      && (OfKind(layers, DecorationKind) == [] <==> HasCustomBg(d))
      && (HasCustomBg(d) ==> layers[0] == Image(d.customBgImage.value))
  {
    LayersAreFiveParts(d, Variant(tag));
  }

  /**
   * The borders of a template (at least two) are drawn whatever the data,
   * with or without a custom background.
   */
  lemma BordersIndependentOfData(d1: CertificateData, d2: CertificateData, tag: string)
    ensures OfKind(Render(d1, tag).layers, BorderKind) == OfKind(Render(d2, tag).layers, BorderKind)
    ensures |OfKind(Render(d1, tag).layers, BorderKind)| >= 2
  {
    LayersAreFiveParts(d1, Variant(tag));
    LayersAreFiveParts(d2, Variant(tag));
  }

  /**
   * Every template prints the student, start year, start month, course and
   * coach verbatim, and the three issue-date slots from the parsed date.
   */
  lemma FieldsShownVerbatim(d: CertificateData, tag: string)
    ensures var slots := SlotsOf(Render(d, tag));
      && Slot(StudentNameSlot, d.studentName) in slots
      && Slot(StartYearSlot, d.startYear) in slots
      && Slot(StartMonthSlot, d.startMonth) in slots
      && Slot(CourseNameSlot, d.courseName) in slots
      && Slot(CoachNameSlot, d.coachName) in slots
      && Slot(IssueYearSlot, YearText(d.issueDate)) in slots
      && Slot(IssueMonthSlot, MonthText(d.issueDate)) in slots
      && Slot(IssueDaySlot, DayText(d.issueDate)) in slots
  {
    RenderIsStacked(d, tag);
  }

  /**
   * The date slots agree with the parsed date: year, `getMonth() + 1` and day
   * for a valid date, `NaN` in all three otherwise.
   */
  lemma DateSlotsFollowParse(issueDate: string)
    ensures ParseIsoDate(issueDate).Some? ==>
      var dt := ParseIsoDate(issueDate).value;
      YearText(issueDate) == NatToString(dt.year) && MonthText(issueDate) == NatToString(dt.monthIndex + 1)
      && DayText(issueDate) == NatToString(dt.day)
      && Value(YearText(issueDate)) == dt.year && Value(MonthText(issueDate)) == dt.monthIndex + 1
      && Value(DayText(issueDate)) == dt.day
    ensures ParseIsoDate(issueDate).None? ==>
      YearText(issueDate) == MonthText(issueDate) == DayText(issueDate) == "NaN"
  {
    if ParseIsoDate(issueDate).Some? {
      var dt := ParseIsoDate(issueDate).value;
      ValueOfNatToString(dt.year);
      ValueOfNatToString(dt.monthIndex + 1);
      ValueOfNatToString(dt.day);
    }
  }

  /** Only the traditional template has an end-month slot, and it holds `EndMonthText`. */
  lemma EndMonthOnlyInTraditional(d: CertificateData, tag: string)
    ensures var slots := SlotsOf(Render(d, tag));
      && (Variant(tag) == Traditional ==> Slot(EndMonthSlot, EndMonthText(d.issueDate)) in slots)
      && (Variant(tag) != Traditional ==> forall s | s in slots :: s.kind != EndMonthSlot)
  {
    RenderIsStacked(d, tag);
  }

  /**
   * For a valid `YYYY-MM-DD` date the end month is the raw `MM` text, leading
   * zero included, and it equals the month slot exactly when `MM` has no
   * leading zero.
   */
  lemma EndMonthIsRawMonthText(issueDate: string)
    requires ParseIsoDate(issueDate).Some?
    ensures EndMonthText(issueDate) == issueDate[5..7]
    ensures MonthText(issueDate) == NatToString(Value(issueDate[5..7]))
    ensures EndMonthText(issueDate) == MonthText(issueDate) <==> issueDate[5] != '0'
  {
    var y, m, r := issueDate[..4], issueDate[5..7], issueDate[8..];
    assert issueDate == y + ['-'] + (m + ['-'] + r);
    assert '-' !in y by { assert forall i | 0 <= i < |y| :: IsDigit(y[i]); }
    assert '-' !in m by { assert forall i | 0 <= i < |m| :: IsDigit(m[i]); }
    SplitAfterPiece(y, '-', m + ['-'] + r);
    SplitAfterPiece(m, '-', r);
    if m[0] != '0' {
      NatToStringOfValue(m);
    } else {
      assert Value(m) < 10 by { assert m[..1] == [m[0]]; }
    }
  }

  /** The issue date `2025-12-23` shows 2025, 12 and 23 in every template. */
  lemma SampleIssueDate(d: CertificateData, tag: string)
    requires d.issueDate == "2025-12-23"
    ensures var slots := SlotsOf(Render(d, tag));
      Slot(IssueYearSlot, "2025") in slots && Slot(IssueMonthSlot, "12") in slots
      && Slot(IssueDaySlot, "23") in slots
  {
    var s := d.issueDate;
    SampleParse();
    FieldsShownVerbatim(d, tag);
  }

  lemma SampleParse()
    ensures ParseIsoDate("2025-12-23") == Some(CalendarDate(2025, 11, 23))
    ensures YearText("2025-12-23") == "2025" && MonthText("2025-12-23") == "12" && DayText("2025-12-23") == "23"
  {
    FormatThenParse(CalendarDate(2025, 11, 23));
    assert Digits(2025, 4) == "2025";
    assert Digits(12, 2) == "12";
    assert Digits(23, 2) == "23";
    assert FormatIsoDate(CalendarDate(2025, 11, 23)) == "2025-12-23";
  }

  /** For September the end month keeps its leading zero while the month slot does not. */
  lemma SeptemberEndMonth()
    ensures EndMonthText("2025-09-05") == "09"
    ensures MonthText("2025-09-05") == "9"
  {
    FormatThenParse(CalendarDate(2025, 8, 5));
    assert Digits(2025, 4) == "2025";
    assert Digits(9, 2) == "09";
    assert Digits(5, 2) == "05";
    assert FormatIsoDate(CalendarDate(2025, 8, 5)) == "2025-09-05";
    EndMonthIsRawMonthText("2025-09-05");
    assert "2025-09-05"[5..7] == "09";
  }
}

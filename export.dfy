/**
 * The export rules that do not depend on the rasterising and PDF libraries:
 * the file name, and which outcomes of the capture-encode-compose step lead
 * to a save.
 */
module Export {
  import opened Wrappers

  /** Appended to the student's name to name the saved PDF. */
  const FileSuffix: string := "_结业证书.pdf"

  /** The name `${studentName}_结业证书.pdf` the PDF is saved under. */
  function FileName(studentName: string): (name: string)
    ensures |name| == |studentName| + |FileSuffix|
    ensures name[..|studentName|] == studentName && name[|studentName|..] == FileSuffix
  {
    studentName + FileSuffix
  }

  /** The student a file name was made for, when it carries the suffix. */
  function StudentNameOf(fileName: string): Option<string> {
    if |fileName| >= |FileSuffix| && fileName[|fileName| - |FileSuffix|..] == FileSuffix
    then Some(fileName[..|fileName| - |FileSuffix|])
    else None
  }

  /** File names and student names correspond one to one. */
  lemma FileNameRoundTrip(studentName: string, fileName: string)
    ensures StudentNameOf(FileName(studentName)) == Some(studentName)
    ensures StudentNameOf(fileName) == Some(studentName) ==> FileName(studentName) == fileName
  {
    var f := FileName(studentName);
    assert f[|f| - |FileSuffix|..] == FileSuffix;
    if StudentNameOf(fileName) == Some(studentName) {
      assert fileName == fileName[..|fileName| - |FileSuffix|] + fileName[|fileName| - |FileSuffix|..];
    }
  }

  /** The certificate for 张三 is saved as `张三_结业证书.pdf`. */
  lemma SampleFileName()
    ensures FileName("张三") == "张三_结业证书.pdf"
  {
  }

  /** The library stage that can throw: rasterising, PNG encoding, page composition, or the save itself. */
  datatype Stage = Capture | Encode | Compose | Save

  /** What rasterising the certificate, encoding it as PNG, placing it on an A4 landscape page and saving it came to. */
  datatype PipelineResult = Rendered | Failed(stage: Stage)

  /** The saves one export performs: exactly one, of `FileName`, on success; none on failure. */
  function Saves(outcome: PipelineResult, studentName: string): (r: seq<string>)
    ensures |r| <= 1
    ensures r != [] <==> outcome.Rendered?
    ensures forall f | f in r :: StudentNameOf(f) == Some(studentName)
  {
    FileNameRoundTrip(studentName, FileName(studentName));
    if outcome.Rendered? then [FileName(studentName)] else []
  }
}

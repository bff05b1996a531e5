/** The names under which the planner is offered for download
    (Contentplanner.py:53 and :65): `f"{topic}_Content_Planner.{ext}"`. */
module Export {
  import opened Wrappers

  const Suffix: string := "_Content_Planner."
  const Csv: string := "csv"
  const Xlsx: string := "xlsx"

  function ExportFileName(topic: string, ext: string): string {
    topic + Suffix + ext
  }

  function CsvFileName(topic: string): string {
    ExportFileName(topic, Csv)
  }

  function XlsxFileName(topic: string): string {
    ExportFileName(topic, Xlsx)
  }

  /** Inverse of ExportFileName for a known extension: the topic a download
      name was made from, if it has the planner's suffix. */
  function TopicOf(name: string, ext: string): (r: Option<string>)
    ensures r.Some? ==> |r.value| + |Suffix| + |ext| == |name|
  {
    var tail := |Suffix| + |ext|;
    if |name| >= tail && name[|name| - tail..] == Suffix + ext
    then Some(name[..|name| - tail])
    else None
  }

  /** The topic can be read back from the name it produced. */
  lemma TopicOfExportFileName(topic: string, ext: string)
    ensures TopicOf(ExportFileName(topic, ext), ext) == Some(topic)
  {
    var name := ExportFileName(topic, ext);
    assert name[|topic|..] == Suffix + ext;
    assert name[..|topic|] == topic;
  }

  /** For every topic the two downloads get different names, each made of the
      topic followed by "_Content_Planner.csv" or "_Content_Planner.xlsx",
      and each name determines the topic it came from. */
  lemma DownloadNames(topic: string, other: string)
    ensures CsvFileName(topic) == topic + "_Content_Planner.csv"
    ensures XlsxFileName(topic) == topic + "_Content_Planner.xlsx"
    ensures CsvFileName(topic) != XlsxFileName(topic)
    ensures (CsvFileName(topic) == CsvFileName(other)) == (topic == other)
    ensures (XlsxFileName(topic) == XlsxFileName(other)) == (topic == other)
  {
    assert |CsvFileName(topic)| != |XlsxFileName(topic)|;
    TopicOfExportFileName(topic, Csv);
    TopicOfExportFileName(other, Csv);
    TopicOfExportFileName(topic, Xlsx);
    TopicOfExportFileName(other, Xlsx);
  }
}

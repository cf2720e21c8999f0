/** The downloadable markdown artifact that `display_report` offers for a report. */
module Downloads {
  import opened Wrappers

  /** What the download button carries: the file body and the file name. */
  datatype Download = Download(text: string, fileName: string)

  const ReportHeading: string := "# Research Report: "
  const HeadingBreak: string := "\n\n"
  const FilePrefix: string := "research_report_"
  const StampSeparator: string := "_"
  const FileExtension: string := ".md"

  /** The file body: a level-one markdown heading naming the topic, a blank line, then the report. */
  function ReportText(topic: string, report: string): (text: string)
    ensures |text| == |ReportHeading| + |topic| + |HeadingBreak| + |report|
    ensures text[..|ReportHeading|] == ReportHeading
    ensures text[|ReportHeading|..|ReportHeading| + |topic|] == topic
    ensures text[|ReportHeading| + |topic|..|ReportHeading| + |topic| + |HeadingBreak|] == HeadingBreak
    ensures text[|text| - |report|..] == report
  {
    ReportHeading + topic + HeadingBreak + report
  }

  /** Reads a file body back into its topic (of the given length) and its report. */
  function SplitReportText(text: string, topicLength: nat): Option<(string, string)>
  {
    var bodyStart := |ReportHeading| + topicLength + |HeadingBreak|;
    if bodyStart <= |text| && text[..|ReportHeading|] == ReportHeading
       && text[|ReportHeading| + topicLength..bodyStart] == HeadingBreak
    then Some((text[|ReportHeading|..|ReportHeading| + topicLength], text[bodyStart..]))
    else None
  }

  /** The file body keeps the topic and the report intact: both can be read back from it. */
  lemma ReportTextRoundTrip(topic: string, report: string)
    ensures SplitReportText(ReportText(topic, report), |topic|) == Some((topic, report))
  {
  }

  /** Every text that reads back as a topic and a report is the file body of exactly those. */
  lemma SplitReportTextSound(text: string, topicLength: nat)
    requires SplitReportText(text, topicLength).Some?
    ensures var (topic, report) := SplitReportText(text, topicLength).value;
            |topic| == topicLength && ReportText(topic, report) == text
  {
  }

  /** `str.replace(' ', '_')`: every space becomes an underscore, every other character stays. */
  function ReplaceSpaces(s: string): (r: string)
    ensures |r| == |s|
    ensures forall i :: 0 <= i < |s| ==> r[i] == if s[i] == ' ' then '_' else s[i]
    ensures ' ' !in r
  {
    if |s| == 0 then "" else [if s[0] == ' ' then '_' else s[0]] + ReplaceSpaces(s[1..])
  }

  /** The replacement changes nothing exactly when there is no space to replace. */
  lemma ReplaceSpacesIdentity(s: string)
    ensures ReplaceSpaces(s) == s <==> ' ' !in s
  {
  }

  /** Replacing twice is replacing once. */
  lemma ReplaceSpacesIdempotent(s: string)
    ensures ReplaceSpaces(ReplaceSpaces(s)) == ReplaceSpaces(s)
  {
  }

  /** The download file name: prefix, the topic with spaces replaced, an underscore, the stamp, `.md`. */
  function FileName(topic: string, stamp: string): (name: string)
    ensures |name| == |FilePrefix| + |topic| + |StampSeparator| + |stamp| + |FileExtension|
    ensures name[..|FilePrefix|] == FilePrefix
    ensures name[|FilePrefix|..|FilePrefix| + |topic|] == ReplaceSpaces(topic)
    ensures ' ' !in name[|FilePrefix|..|FilePrefix| + |topic|]
    ensures name[|FilePrefix| + |topic|] == '_'
    ensures name[|name| - |FileExtension| - |stamp|..|name| - |FileExtension|] == stamp
    ensures name[|name| - |FileExtension|..] == FileExtension
  {
    FilePrefix + ReplaceSpaces(topic) + StampSeparator + stamp + FileExtension
  }

  /** With a stamp free of spaces (as the `%Y%m%d_%H%M%S` stamp of `display_report` is), the whole name is. */
  lemma FileNameHasNoSpaces(topic: string, stamp: string)
    requires ' ' !in stamp
    ensures ' ' !in FileName(topic, stamp)
  {
  }
}

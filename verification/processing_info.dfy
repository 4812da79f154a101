/** `format_processing_info` (gradio/utils.py): the status line that reports
    audio length and processing time after a file transcription. */
module ProcessingInfo {
  import opened Common
  import opened Text

  const Separator := " | "

  /** The audio-length segment, e.g. "Audio length: 12.34s". */
  function LengthSegment(n: Number): string {
    "Audio length: " + n.formatted + "s"
  }

  /** The processing-time segment, e.g. "Processing time: 1.50s". */
  function TimeSegment(n: Number): string {
    "Processing time: " + n.formatted + "s"
  }

  /** The parts that are not empty, in order. */
  function NonEmpty(parts: seq<string>): (r: seq<string>)
    ensures forall i :: 0 <= i < |r| ==> r[i] != ""
    ensures |r| <= |parts|
  {
    if |parts| == 0 then []
    else (if parts[0] == "" then [] else [parts[0]]) + NonEmpty(parts[1..])
  }

  /** `format_processing_info`: prefix, length and time segments, keeping a
      segment only when its value is present (a zero length or time still
      counts) and dropping an empty prefix, joined by " | ". */
  function FormatProcessingInfo(audioLength: Option<Number>, processingTime: Option<Number>, prefix: string)
    : (r: string)
    ensures audioLength.None? && processingTime.None? ==> r == prefix
    ensures prefix != "" && audioLength.Some? && processingTime.None? ==>
              r == prefix + Separator + LengthSegment(audioLength.value)
    ensures prefix != "" && audioLength.None? && processingTime.Some? ==>
              r == prefix + Separator + TimeSegment(processingTime.value)
    ensures prefix != "" && audioLength.Some? && processingTime.Some? ==>
              r == prefix + Separator + LengthSegment(audioLength.value) + Separator + TimeSegment(processingTime.value)
    ensures prefix == "" && audioLength.Some? && processingTime.None? ==> r == LengthSegment(audioLength.value)
    ensures prefix == "" && audioLength.None? && processingTime.Some? ==> r == TimeSegment(processingTime.value)
    ensures prefix == "" && audioLength.Some? && processingTime.Some? ==>
              r == LengthSegment(audioLength.value) + Separator + TimeSegment(processingTime.value)
  {
    var lengthInfo := if audioLength.Some? then LengthSegment(audioLength.value) else "";
    var timeInfo := if processingTime.Some? then TimeSegment(processingTime.value) else "";
    var parts := NonEmpty([prefix, lengthInfo, timeInfo]);
    NonEmptyOfThree(prefix, lengthInfo, timeInfo);
    JoinOfTwoAndThree(Separator);
    assert prefix != "" && audioLength.Some? && processingTime.Some? ==> parts == [prefix, lengthInfo, timeInfo];
    Join(parts, Separator)
  }

  /** With a prefix and a processing time, the line opens with the prefix
      and reports more after it. */
  lemma PrefixLeads(audioLength: Option<Number>, processingTime: Number, prefix: string)
    requires prefix != ""
    ensures var s := FormatProcessingInfo(audioLength, Some(processingTime), prefix);
            |s| > |prefix| && s[..|prefix|] == prefix
  {
    var s := FormatProcessingInfo(audioLength, Some(processingTime), prefix);
    var t := TimeSegment(processingTime);
    var rest := if audioLength.Some? then Separator + LengthSegment(audioLength.value) + Separator + t
                else Separator + t;
    assert s == prefix + rest;
    assert |rest| > 0;
    assert (prefix + rest)[..|prefix|] == prefix;
  }

  lemma NonEmptyOfThree(a: string, b: string, c: string)
    ensures NonEmpty([a, b, c])
         == (if a == "" then [] else [a]) + (if b == "" then [] else [b]) + (if c == "" then [] else [c])
  {
    var na: seq<string> := if a == "" then [] else [a];
    var nb: seq<string> := if b == "" then [] else [b];
    var nc: seq<string> := if c == "" then [] else [c];
    assert [c][1..] == [];
    assert NonEmpty([c]) == nc + [] == nc;
    assert [b, c][1..] == [c];
    assert NonEmpty([b, c]) == nb + nc;
    assert [a, b, c][1..] == [b, c];
    assert NonEmpty([a, b, c]) == na + (nb + nc) == na + nb + nc;
  }

  lemma JoinOfTwoAndThree(sep: string)
    ensures forall x, y :: Join([x, y], sep) == x + sep + y
    ensures forall x, y, z :: Join([x, y, z], sep) == x + sep + y + sep + z
  {
    forall x, y ensures Join([x, y], sep) == x + sep + y {
      assert [x, y][1..] == [y];
    }
    forall x, y, z ensures Join([x, y, z], sep) == x + sep + y + sep + z {
      assert [x, y, z][1..] == [y, z];
      assert [y, z][1..] == [z];
    }
  }
}

/** The parsing half of `OpenAIService.generate_report` (services/openai_service.py): the reply text
    is stripped, split on blank lines, and its first seven pieces become the seven named sections of
    the report. The chat completion call itself is a parameter: the reply's content, or the message
    of the exception the call raised. */
module OpenAIService {
  import opened Wrappers
  import opened PyStr

  const SectionSeparator: string := "\n\n"

  /** The report's keys, in the order the pieces are assigned to them. */
  const SectionKeys: seq<string> := ["patient_medical_assessment", "dr_status_analysis",
    "classification_details", "vulnerable_areas_analysis", "risk_assessment", "recommendations",
    "follow_up_plan"]

  const ApiErrorPrefix: string := "OpenAI API error: "

  /** What `.strip()` raises when the reply carries no content (`content` is None). */
  const NoContentError: string := "'NoneType' object has no attribute 'strip'"

  /** `sections[i] if len(sections) > i else ""`. */
  function SectionAt(sections: seq<string>, i: nat): string
  {
    if |sections| > i then sections[i] else ""
  }

  /** No key is listed twice. */
  lemma SectionKeysDistinct()
    ensures forall i, j :: 0 <= i < j < |SectionKeys| ==> SectionKeys[i] != SectionKeys[j]
  {
    assert "risk_assessment"[1] != "recommendations"[1];
  }

  /** The dict literal that names the pieces: key i of `SectionKeys` maps to piece i. */
  function SectionsRecord(sections: seq<string>): (r: map<string, string>)
    ensures forall i :: 0 <= i < |SectionKeys| ==> SectionKeys[i] in r && r[SectionKeys[i]] == SectionAt(sections, i)
    ensures forall k :: k in r ==> k in SectionKeys
  {
    SectionKeysDistinct();
    map i | 0 <= i < |SectionKeys| :: SectionKeys[i] := SectionAt(sections, i)
  }

  /** A list of distinct keys has as many members as entries. */
  lemma {:induction false} DistinctKeysCount(ks: seq<string>)
    requires forall i, j :: 0 <= i < j < |ks| ==> ks[i] != ks[j]
    ensures |set k | k in ks| == |ks|
  {
    if ks != [] {
      var tail := ks[1..];
      DistinctKeysCount(tail);
      assert (set k | k in ks) == {ks[0]} + (set k | k in tail);
      assert ks[0] !in (set k | k in tail);
    }
  }

  /** The pieces the reply text is cut into. */
  function Sections(content: string): seq<string>
  {
    Split(Strip(content), SectionSeparator)
  }

  function ParseReport(content: string): map<string, string>
  {
    SectionsRecord(Sections(content))
  }

  /** `generate_report` after the completion call: the parsed sections, or the failure behind the
      `OpenAI API error: ` prefix. */
  function GenerateReport(reply: Outcome<Option<string>>): (r: Outcome<map<string, string>>)
    ensures r.Ok? <==> reply.Ok? && reply.value.Some?
    ensures r.Ok? ==> r.value == ParseReport(reply.value.value)
    ensures reply.Fail? ==> r == Fail(ApiErrorPrefix + reply.error)
    ensures reply == Ok(None) ==> r == Fail(ApiErrorPrefix + NoContentError)
    ensures r.Fail? ==> |r.error| >= |ApiErrorPrefix| && r.error[..|ApiErrorPrefix|] == ApiErrorPrefix
  {
    match reply
    case Fail(e) => Fail(ApiErrorPrefix + e)
    case Ok(None) => Fail(ApiErrorPrefix + NoContentError)
    case Ok(Some(text)) => Ok(ParseReport(text))
  }

  /** The report always has exactly the seven section keys. */
  lemma ReportHasSevenKeys(content: string)
    ensures ParseReport(content).Keys == set k | k in SectionKeys
    ensures |ParseReport(content).Keys| == 7
  {
    var r := ParseReport(content);
    assert r.Keys == set k | k in SectionKeys;
    SectionKeysDistinct();
    DistinctKeysCount(SectionKeys);
  }

  /** Section i is piece i of the stripped text when there is one, and empty otherwise; the pieces
      hold no separator and joining them with it gives back the stripped text. */
  lemma SectionsAreThePieces(content: string)
    ensures Join(Sections(content), SectionSeparator) == Strip(content)
    ensures forall k :: 0 <= k < |Sections(content)| ==> !Contains(Sections(content)[k], SectionSeparator)
    ensures forall i :: 0 <= i < 7 ==>
              ParseReport(content)[SectionKeys[i]] ==
                (if i < |Sections(content)| then Sections(content)[i] else "")
    ensures forall i :: 0 <= i < 7 ==> !Contains(ParseReport(content)[SectionKeys[i]], SectionSeparator)
  {
    var pieces := Sections(content);
    assert Join(pieces, SectionSeparator) == Strip(content) by {
      JoinSplit(Strip(content), SectionSeparator);
    }
    assert forall k :: 0 <= k < |pieces| ==> !Contains(pieces[k], SectionSeparator) by {
      PiecesHaveNoSeparator(Strip(content), SectionSeparator);
    }
    var r := ParseReport(content);
    assert forall i :: 0 <= i < 7 ==> r[SectionKeys[i]] == SectionAt(pieces, i);
    forall i | 0 <= i < 7 ensures !Contains(r[SectionKeys[i]], SectionSeparator) {
      if i >= |pieces| {
        assert r[SectionKeys[i]] == "";
        forall j | 0 <= j <= 0 ensures !OccursAt("", SectionSeparator, j) { }
      }
    }
  }

  /** Pieces after the seventh are discarded: the report depends on the first seven pieces only. */
  lemma PiecesAfterSeventhDiscarded(sections: seq<string>, extra: seq<string>)
    requires |sections| == 7
    ensures SectionsRecord(sections + extra) == SectionsRecord(sections)
  {
  }

  /** Text with no blank line lands wholly in the first section, and the other six are empty. */
  lemma NoSeparatorFillsFirstSection(content: string)
    requires !Contains(Strip(content), SectionSeparator)
    ensures ParseReport(content)[SectionKeys[0]] == Strip(content)
    ensures forall i :: 1 <= i < 7 ==> ParseReport(content)[SectionKeys[i]] == ""
  {
    SplitWithoutSeparator(Strip(content), SectionSeparator);
  }

  /** Split of a text holding two separators in a row after its first piece a. */
  lemma AdjacentSeparatorsSplit(a: string, b: string)
    requires forall i :: 0 <= i < |a| ==> !OccursAt(a + SectionSeparator, SectionSeparator, i)
    ensures Split(a + SectionSeparator + SectionSeparator + b, SectionSeparator) == [a, ""] + Split(b, SectionSeparator)
  {
    var sep := SectionSeparator;
    assert a + sep + sep + b == a + sep + (sep + b);
    SplitAtFirstOccurrence(a, sep, sep + b);
    LeadingSeparator(sep, b);
  }

  /** Adjacent separators are not merged: they leave an empty section between their neighbours. */
  lemma AdjacentSeparatorsLeaveEmptySection(content: string, a: string, b: string)
    requires Strip(content) == a + SectionSeparator + SectionSeparator + b
    requires forall i :: 0 <= i < |a| ==> !OccursAt(a + SectionSeparator, SectionSeparator, i)
    ensures ParseReport(content)[SectionKeys[0]] == a
    ensures ParseReport(content)[SectionKeys[1]] == ""
    ensures ParseReport(content)[SectionKeys[2]] == Split(b, SectionSeparator)[0]
  {
    AdjacentSeparatorsSplit(a, b);
    var ps := Sections(content);
    assert ps == [a, ""] + Split(b, SectionSeparator);
    assert SectionAt(ps, 0) == a && SectionAt(ps, 1) == "" && SectionAt(ps, 2) == Split(b, SectionSeparator)[0];
  }

  /** The first section never begins with whitespace, because the text is stripped before it is
      split. */
  lemma FirstSectionHasNoLeadingSpace(content: string)
    ensures var first := ParseReport(content)[SectionKeys[0]];
            first == [] || !IsSpace(first[0])
  {
    FirstPieceIsPrefix(Strip(content), SectionSeparator);
  }
}

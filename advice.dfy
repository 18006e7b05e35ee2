/** The advice side of the dashboard: the language-model collaborator, and
    the formatter that turns a structured reply into display text. */
module Advice {
  import opened Common

  // ---------------------------------------------------------------------
  // The language-model collaborator

  /** The kind of daily snapshot text requested from the model. */
  datatype Topic = FinanceNews | HealthTip | EducationNews

  /** A request made to the language model: a categorised suggestion
      (`get_ai_suggestion`) or one of the three daily snapshot prompts. */
  datatype Request = Suggest(context: string, cat: Category) | Ask(topic: Topic)

  /** The language model, seen from outside: every call is logged in
      `requests`, every text it hands back in `replies`, and what it answers
      is arbitrary. */
  class LanguageModel {
    var requests: seq<Request>
    var replies: seq<string>

    constructor ()
      ensures requests == [] && replies == []
    {
      requests := [];
      replies := [];
    }

    /** `get_ai_suggestion`: always returns some text; its own failures turn
        into an apology text, so it never raises. */
    method Suggest(context: string, cat: Category) returns (s: string)
      modifies this
      ensures requests == old(requests) + [Request.Suggest(context, cat)]
      ensures replies == old(replies) + [s]
    {
      s := *;
      requests := requests + [Request.Suggest(context, cat)];
      replies := replies + [s];
    }

    /** One raw completion of the daily snapshot; `raises` says whether the
        call raises, in which case it hands back nothing. */
    method AskFor(topic: Topic, raises: bool) returns (s: string)
      modifies this
      ensures requests == old(requests) + [Request.Ask(topic)]
      ensures replies == old(replies) + (if raises then [] else [s])
    {
      s := *;
      requests := requests + [Request.Ask(topic)];
      if !raises {
        replies := replies + [s];
      }
    }
  }

  // ---------------------------------------------------------------------
  // Locating the JSON object in a completion

  /** `text.find('{')`: the first index of '{', or -1. */
  function FindBrace(text: string): (k: int)
    ensures -1 <= k < |text|
    ensures k == -1 ==> forall i :: 0 <= i < |text| ==> text[i] != '{'
    ensures k >= 0 ==> text[k] == '{' && forall i :: 0 <= i < k ==> text[i] != '{'
  {
    if |text| == 0 then -1
    else if text[0] == '{' then 0
    else
      var k := FindBrace(text[1..]);
      if k == -1 then -1 else k + 1
  }

  /** The text handed to the JSON parser: from the first '{' on, or the
      whole completion when it has none. */
  function JsonSlice(text: string): (s: string)
    ensures |s| <= |text| && s == text[|text| - |s|..]
    ensures (forall i :: 0 <= i < |text| ==> text[i] != '{') ==> s == text
    ensures (exists i :: 0 <= i < |text| && text[i] == '{') ==>
              |s| > 0 && s[0] == '{' && forall i :: 0 <= i < |text| - |s| ==> text[i] != '{'
  {
    var k := FindBrace(text);
    if k != -1 then text[k..] else text
  }

  // ---------------------------------------------------------------------
  // Formatting a parsed reply

  /** A reply the parser understood.  `summary` is "" when it is missing or
      null; list items and the confidence are held as the text the format
      string renders them to. */
  datatype Reply = Reply(
    summary: string,
    recommendations: seq<string>,
    actions: seq<string>,
    risks: seq<string>,
    confidence: Option<string>)

  const RecommendationsHeader: string := "\n推荐要点:"
  const ActionsHeader: string := "\n可执行步骤:"
  const RisksHeader: string := "\n潜在风险:"

  function ConfidenceLine(c: string): string {
    "\n可信度: " + c + "%"
  }

  /** One `- item` line per item, in order. */
  function Bullets(items: seq<string>): (ls: seq<string>)
    ensures |ls| == |items|
  {
    if |items| == 0 then []
    else Bullets(items[..|items| - 1]) + ["- " + items[|items| - 1]]
  }

  /** A header followed by the bullets, or nothing for an empty list. */
  function Section(header: string, items: seq<string>): seq<string> {
    if |items| == 0 then [] else [header] + Bullets(items)
  }

  function ConfidenceLines(confidence: Option<string>): seq<string> {
    if confidence.Some? then [ConfidenceLine(confidence.value)] else []
  }

  /** Every line after the summary. */
  function BodyLines(p: Reply): seq<string> {
    Section(RecommendationsHeader, p.recommendations)
      + Section(ActionsHeader, p.actions)
      + Section(RisksHeader, p.risks)
      + ConfidenceLines(p.confidence)
  }

  /** The lines the formatter collects, before empty ones are dropped. */
  function ReplyLines(p: Reply): seq<string> {
    [p.summary] + BodyLines(p)
  }

  /** `[l for l in lines if l]` */
  function NonEmpty(lines: seq<string>): (kept: seq<string>)
    ensures |kept| <= |lines|
    ensures forall l :: l in kept ==> l != "" && l in lines
  {
    if |lines| == 0 then []
    else if lines[0] == "" then NonEmpty(lines[1..])
    else [lines[0]] + NonEmpty(lines[1..])
  }

  /** `"\n".join(lines)` */
  function Join(lines: seq<string>): string {
    if |lines| == 0 then ""
    else if |lines| == 1 then lines[0]
    else lines[0] + "\n" + Join(lines[1..])
  }

  /** The display text of a parsed reply. */
  function Rendered(p: Reply): string {
    Join(NonEmpty(ReplyLines(p)))
  }

  /** Builds the formatter's line list as the source does: the summary,
      then each non-empty list under its header, then the confidence. */
  method AppendSection(lines: seq<string>, header: string, items: seq<string>) returns (out: seq<string>)
    ensures out == lines + Section(header, items)
  {
    out := lines;
    if |items| > 0 {
      out := out + [header];
      var i := 0;
      while i < |items|
        invariant 0 <= i <= |items|
        invariant out == lines + [header] + Bullets(items[..i])
      {
        assert items[..i + 1][..i] == items[..i];
        out := out + ["- " + items[i]];
        i := i + 1;
      }
      assert items[..i] == items;
    }
  }

  /** The part of `get_ai_suggestion` that formats a parsed reply. */
  method FormatReply(p: Reply) returns (text: string)
    ensures text == Rendered(p)
  {
    var outLines := [p.summary];
    outLines := AppendSection(outLines, RecommendationsHeader, p.recommendations);
    outLines := AppendSection(outLines, ActionsHeader, p.actions);
    outLines := AppendSection(outLines, RisksHeader, p.risks);
    if p.confidence.Some? {
      outLines := outLines + [ConfidenceLine(p.confidence.value)];
    }
    assert outLines == ReplyLines(p);
    text := Join(NonEmpty(outLines));
  }

  /** What `get_ai_suggestion` makes of a completion: the formatted reply
      when the parser accepts the JSON slice, the raw completion otherwise.
      The parser (`json.loads`) is a parameter. */
  method RenderCompletion(content: string, parse: string -> Option<Reply>) returns (text: string)
    ensures parse(JsonSlice(content)).None? ==> text == content
    ensures parse(JsonSlice(content)).Some? ==> text == Rendered(parse(JsonSlice(content)).value)
  {
    var parsed := parse(JsonSlice(content));
    if parsed.Some? {
      text := FormatReply(parsed.value);
    } else {
      text := content;
    }
  }

  // ---------------------------------------------------------------------
  // What the formatted text is made of

  lemma {:induction false} BulletsAreMarked(items: seq<string>)
    ensures forall l :: l in Bullets(items) ==> |l| >= 2 && l[0] == '-'
  {
    if |items| > 0 {
      BulletsAreMarked(items[..|items| - 1]);
    }
  }

  lemma {:induction false} BulletsHoldItems(items: seq<string>, i: nat)
    requires i < |items|
    ensures Bullets(items)[i] == "- " + items[i]
  {
    if i < |items| - 1 {
      BulletsHoldItems(items[..|items| - 1], i);
    }
  }

  lemma {:induction false} NonEmptyKeepsNonEmpty(lines: seq<string>)
    requires forall l :: l in lines ==> l != ""
    ensures NonEmpty(lines) == lines
  {
    if |lines| > 0 {
      assert lines[0] in lines;
      assert forall l :: l in lines[1..] ==> l in lines;
      NonEmptyKeepsNonEmpty(lines[1..]);
    }
  }

  lemma BodyLinesNonEmpty(p: Reply)
    ensures forall l :: l in BodyLines(p) ==> l != ""
  {
    BulletsAreMarked(p.recommendations);
    BulletsAreMarked(p.actions);
    BulletsAreMarked(p.risks);
  }

  /** Only the summary can be dropped: every other line is a header, a
      `- item` line or the confidence line, none of them empty. */
  lemma OnlyEmptySummaryDropped(p: Reply)
    ensures NonEmpty(ReplyLines(p)) == (if p.summary == "" then [] else [p.summary]) + BodyLines(p)
  {
    BodyLinesNonEmpty(p);
    NonEmptyKeepsNonEmpty(BodyLines(p));
    assert ReplyLines(p)[1..] == BodyLines(p);
  }

  function SectionSize(items: seq<string>): nat {
    if |items| == 0 then 0 else |items| + 1
  }

  /** The entries joined into the text: one for a non-empty summary, a
      header plus one per item for each non-empty list, and one for a
      present confidence.  Headers and the confidence entry begin with a
      newline, so each also shows a blank line before it. */
  lemma RenderedLineCount(p: Reply)
    ensures |NonEmpty(ReplyLines(p))| ==
              (if p.summary == "" then 0 else 1)
              + SectionSize(p.recommendations) + SectionSize(p.actions) + SectionSize(p.risks)
              + (if p.confidence.Some? then 1 else 0)
  {
    OnlyEmptySummaryDropped(p);
  }

  /** The summary leads the text whenever it is non-empty. */
  lemma SummaryFirst(p: Reply)
    requires p.summary != ""
    ensures |Rendered(p)| >= |p.summary| && Rendered(p)[..|p.summary|] == p.summary
  {
    OnlyEmptySummaryDropped(p);
    var kept := NonEmpty(ReplyLines(p));
    assert kept[0] == p.summary;
  }

  lemma HeadersAreDistinct()
    ensures RecommendationsHeader != ActionsHeader && RecommendationsHeader != RisksHeader
    ensures ActionsHeader != RisksHeader
    ensures forall c :: ConfidenceLine(c) != RecommendationsHeader
    ensures forall c :: ConfidenceLine(c) != ActionsHeader
    ensures forall c :: ConfidenceLine(c) != RisksHeader
  {
    assert RecommendationsHeader[1] != ActionsHeader[1];
    assert RecommendationsHeader[1] != RisksHeader[1];
    assert ActionsHeader[1] != RisksHeader[1];
    forall c ensures ConfidenceLine(c) != RecommendationsHeader {
      assert ConfidenceLine(c)[1] != RecommendationsHeader[1];
    }
    forall c ensures ConfidenceLine(c) != ActionsHeader {
      assert ConfidenceLine(c)[2] != ActionsHeader[2];
    }
    forall c ensures ConfidenceLine(c) != RisksHeader {
      assert ConfidenceLine(c)[1] != RisksHeader[1];
    }
  }

  lemma {:induction false} NotABullet(l: string, items: seq<string>)
    requires |l| > 0 && l[0] != '-'
    ensures l !in Bullets(items)
  {
    BulletsAreMarked(items);
  }

  /** A line other than a bullet is in a section only as its header. */
  lemma InSection(l: string, header: string, items: seq<string>)
    requires |l| > 0 && l[0] != '-'
    ensures l in Section(header, items) <==> |items| > 0 && l == header
  {
    NotABullet(l, items);
  }

  lemma NotAConfidenceLine(h: string, confidence: Option<string>)
    requires h == RecommendationsHeader || h == ActionsHeader || h == RisksHeader
    ensures h !in ConfidenceLines(confidence)
  {
    HeadersAreDistinct();
  }

  /** Each header appears after the summary exactly when its list is
      non-empty. */
  lemma SectionsPresentIffNonEmpty(p: Reply)
    ensures RecommendationsHeader in BodyLines(p) <==> |p.recommendations| > 0
    ensures ActionsHeader in BodyLines(p) <==> |p.actions| > 0
    ensures RisksHeader in BodyLines(p) <==> |p.risks| > 0
  {
    HeadersAreDistinct();
    var r := Section(RecommendationsHeader, p.recommendations);
    var a := Section(ActionsHeader, p.actions);
    var k := Section(RisksHeader, p.risks);
    var c := ConfidenceLines(p.confidence);
    assert BodyLines(p) == r + a + k + c;
    forall h | h == RecommendationsHeader || h == ActionsHeader || h == RisksHeader
      ensures h in BodyLines(p) <==> h in r || h in a || h in k
    {
      NotAConfidenceLine(h, p.confidence);
    }
    InSection(RecommendationsHeader, RecommendationsHeader, p.recommendations);
    InSection(RecommendationsHeader, ActionsHeader, p.actions);
    InSection(RecommendationsHeader, RisksHeader, p.risks);
    InSection(ActionsHeader, RecommendationsHeader, p.recommendations);
    InSection(ActionsHeader, ActionsHeader, p.actions);
    InSection(ActionsHeader, RisksHeader, p.risks);
    InSection(RisksHeader, RecommendationsHeader, p.recommendations);
    InSection(RisksHeader, ActionsHeader, p.actions);
    InSection(RisksHeader, RisksHeader, p.risks);
  }

  /** The confidence line closes the text exactly when a confidence is
      given, and it carries that confidence. */
  lemma ConfidenceLast(p: Reply)
    ensures p.confidence.Some? ==>
              |BodyLines(p)| > 0 && BodyLines(p)[|BodyLines(p)| - 1] == ConfidenceLine(p.confidence.value)
    ensures p.confidence.None? ==>
              forall c :: ConfidenceLine(c) !in BodyLines(p)
  {
    if p.confidence.None? {
      forall c ensures ConfidenceLine(c) !in BodyLines(p) {
        HeadersAreDistinct();
        var l := ConfidenceLine(c);
        assert l[0] == '\n';
        InSection(l, RecommendationsHeader, p.recommendations);
        InSection(l, ActionsHeader, p.actions);
        InSection(l, RisksHeader, p.risks);
        assert BodyLines(p) == Section(RecommendationsHeader, p.recommendations)
          + Section(ActionsHeader, p.actions) + Section(RisksHeader, p.risks);
      }
    }
  }

  /** Item `i` of the recommendations is rendered as `- item`, right after
      its header, in list order. */
  lemma RecommendationPlacement(p: Reply, i: nat)
    requires i < |p.recommendations|
    ensures BodyLines(p)[0] == RecommendationsHeader
    ensures BodyLines(p)[i + 1] == "- " + p.recommendations[i]
  {
    BulletsHoldItems(p.recommendations, i);
  }
}

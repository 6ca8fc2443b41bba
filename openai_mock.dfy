/**
 * The deterministic stand-in for the chat-completion client: it reads the
 * topic out of the user's prompt, answers a plan request with five fixed
 * slots and a narration request with one segment per slot it finds in the
 * prompt. `JSON.parse` is a parameter (`parse`) that classifies a piece of
 * text as an array of slot objects, some other JSON value, or not JSON.
 */
module OpenAiMock {
  import opened Wrappers
  import opened Text

  const DefaultTopic := "Test Topic"

  // ---------------------------------------------------------------------
  // extractTopic(messages)
  // ---------------------------------------------------------------------

  /** A chat message; a `null` message is one without a role. */
  datatype Message = Message(role: Option<string>, content: Option<string>)

  /** `msg && msg.role === 'user' && typeof msg.content === 'string'` */
  predicate IsUserText(m: Message) {
    m.role == Some("user") && m.content.Some?
  }

  /** The end of the line that starts at `i`: the first line terminator at or after `i`, or `|s|`. */
  function LineEnd(s: string, i: nat): (e: nat)
    requires i <= |s|
    ensures i <= e <= |s|
    ensures forall k :: i <= k < e ==> !IsLineTerminator(s[k])
    ensures e < |s| ==> IsLineTerminator(s[e])
    decreases |s| - i
  {
    if i == |s| || IsLineTerminator(s[i]) then i else LineEnd(s, i + 1)
  }

  /** The last position in `[lo, hi)` that does not hold a line terminator. */
  function LastNonTerminator(s: string, lo: nat, hi: nat): (r: Option<nat>)
    requires lo <= hi <= |s|
    ensures r.Some? ==> lo <= r.value < hi && !IsLineTerminator(s[r.value])
    ensures r.Some? ==> forall k :: r.value < k < hi ==> IsLineTerminator(s[k])
    ensures r.None? ==> forall k :: lo <= k < hi ==> IsLineTerminator(s[k])
    decreases hi
  {
    if hi == lo then None
    else if !IsLineTerminator(s[hi - 1]) then Some(hi - 1)
    else LastNonTerminator(s, lo, hi - 1)
  }

  /**
   * The group `(.+)` of `/Topic:\s*(.+)/i` on `s`, before trimming. The match
   * starts at the first `topic:` in any letter case. `\s*` first takes all the
   * whitespace that follows; when the text ends there it gives characters
   * back until `.+` finds one that is not a line terminator. When there is
   * none, no later `topic:` can match either (everything after is
   * whitespace), so the whole match fails.
   */
  function Capture(s: string): (r: Option<string>)
    ensures r.Some? ==> Contains(ToLower(s), "topic:")
    ensures r.Some? ==> r.value != "" && forall k :: 0 <= k < |r.value| ==> !IsLineTerminator(r.value[k])
  {
    match IndexOf(ToLower(s), "topic:")
    case None => None
    case Some(p) =>
      var e := SkipSpace(s, p + 6);
      if e < |s| then Some(s[e..LineEnd(s, e)])
      else
        match LastNonTerminator(s, p + 6, |s|)
        case None => None
        case Some(k) => Some(s[k..LineEnd(s, k)])
  }

  /** A message the loop of `extractTopic` stops at. */
  predicate Matches(m: Message) {
    IsUserText(m) && Capture(m.content.value).Some?
  }

  /** The captured text of the first matching user message, trimmed; `Test Topic` when none matches. */
  function ExtractTopic(ms: seq<Message>): (r: string)
    ensures (forall k :: 0 <= k < |ms| ==> !Matches(ms[k])) ==> r == DefaultTopic
    ensures forall k :: 0 <= k < |ms| && Matches(ms[k]) && (forall j :: 0 <= j < k ==> !Matches(ms[j])) ==>
      r == Trim(Capture(ms[k].content.value).value)
  {
    if ms == [] then DefaultTopic
    else if Matches(ms[0]) then Trim(Capture(ms[0].content.value).value)
    else
      assert forall k :: 1 <= k < |ms| ==> ms[1..][k - 1] == ms[k];
      ExtractTopic(ms[1..])
  }

  /** The prompt line `Topic: <t>` that the real client sends, followed by anything on later lines. */
  function TopicPrompt(t: string, rest: string): string {
    "Topic: " + t + "\n" + rest
  }

  /** What `Capture` reads after the `Topic: ` of a prompt. */
  lemma CaptureOfPrompt(t: string, rest: string)
    requires t != [] && !IsSpace(t[0])
    requires forall k :: 0 <= k < |t| ==> !IsLineTerminator(t[k])
    ensures Capture(TopicPrompt(t, rest)) == Some(t)
  {
    var s := TopicPrompt(t, rest);
    assert s == "Topic: " + (t + "\n" + rest);
    assert s[..6] == "Topic:";
    TopicLabelFirst(s);
    assert s[6] == ' ' && s[7] == t[0];
    assert SkipSpace(s, 7) == 7;
    assert SkipSpace(s, 6) == 7;
    LineEndAfter(s, 7, t, "\n" + rest);
    assert s[7..7 + |t|] == t;
  }

  /** A string that starts with `Topic:` has its label at position 0, whatever the case. */
  lemma TopicLabelFirst(s: string)
    requires |s| >= 6 && s[..6] == "Topic:"
    ensures IndexOf(ToLower(s), "topic:") == Some(0)
  {
    assert ToLower(s)[0..6] == "topic:";
    IndexOfPrefix(ToLower(s), "topic:");
  }

  /** The line that holds `t` at `i` and then a line terminator ends right after `t`. */
  lemma {:induction false} LineEndAfter(s: string, i: nat, t: string, rest: string)
    requires i + |t| <= |s| && s[i..] == t + rest
    requires forall k :: 0 <= k < |t| ==> !IsLineTerminator(t[k])
    requires rest != [] && IsLineTerminator(rest[0])
    ensures LineEnd(s, i) == i + |t|
    decreases |t|
  {
    assert s[i] == (t + rest)[0];
    if t != [] {
      assert s[i + 1..] == t[1..] + rest by {
        assert s[i + 1..] == s[i..][1..];
      }
      LineEndAfter(s, i + 1, t[1..], rest);
    } else {
      assert s[i] == rest[0];
    }
  }

  /**
   * The topic round-trips through the prompt: a trimmed, one-line topic put
   * after `Topic: ` is extracted unchanged, whatever follows on later lines.
   */
  lemma TopicRoundTrip(t: string, rest: string)
    requires t != [] && !IsSpace(t[0]) && !IsSpace(t[|t| - 1])
    requires forall k :: 0 <= k < |t| ==> !IsLineTerminator(t[k])
    ensures ExtractTopic([Message(Some("user"), Some(TopicPrompt(t, rest)))]) == t
  {
    CaptureOfPrompt(t, rest);
    TrimOfUnpadded(t);
  }

  /** The first line of a message whose text ends in whitespace after `Topic:` yields an empty topic. */
  lemma BlankTopic()
    ensures ExtractTopic([Message(Some("user"), Some("Topic:  "))]) == ""
  {
    var s := "Topic:  ";
    assert ToLower(s)[0..6] == "topic:";
    IndexOfPrefix(ToLower(s), "topic:");
    assert SkipSpace(s, 8) == 8 && SkipSpace(s, 7) == 8 && SkipSpace(s, 6) == 8;
    assert LastNonTerminator(s, 6, 8) == Some(7);
    assert LineEnd(s, 8) == 8 && LineEnd(s, 7) == 8;
    assert s[7..8] == " ";
    assert Capture(s) == Some(" ");
  }

  // ---------------------------------------------------------------------
  // extractFirstJsonArray(text)
  // ---------------------------------------------------------------------

  /** An element of a parsed array, as `buildNarration` reads it; `null` lacks every field. */
  /** A slot field as `JSON.parse` leaves it: absent, `null`, or a string. */
  datatype Field = Missing | Null | Str(value: string)

  datatype SlotValue = NullSlot | SlotObject(slotId: Field, title: Field, arcLabel: Field)

  /** What `JSON.parse` gives for a piece of text: an array, another value, or an exception. */
  datatype Parsed = JsonArray(items: seq<SlotValue>) | JsonOther | NotJson

  /**
   * The matches of `/\[[\s\S]*?\]/g` from position `from`: each runs from the
   * next `[` to the first `]` after it, and the search goes on after that `]`.
   * A `[` without a later `]` ends the search: so would every later `[`.
   */
  function Brackets(s: string, from: nat): (r: seq<string>)
    requires from <= |s|
    ensures forall k :: 0 <= k < |r| ==> |r[k]| >= 2 && r[k][0] == '[' && r[k][|r[k]| - 1] == ']'
    ensures forall k :: 0 <= k < |r| ==> forall j :: 0 <= j < |r[k]| - 1 ==> r[k][j] != ']'
    decreases |s| - from
  {
    match IndexFrom(s, "[", from)
    case None => []
    case Some(i) =>
      match IndexFrom(s, "]", i + 1)
      case None => []
      case Some(j) =>
        BracketPiece(s, i, j, s[i..j + 1]);
        [s[i..j + 1]] + Brackets(s, j + 1)
  }

  /** From a `[` to the first `]` after it: a bracketed piece with no `]` inside. */
  lemma BracketPiece(s: string, i: nat, j: nat, m: string)
    requires i < j && StartsAt(s, i, "[") && StartsAt(s, j, "]")
    requires forall q :: i + 1 <= q < j ==> !StartsAt(s, q, "]")
    requires m == s[i..j + 1]
    ensures |m| >= 2 && m[0] == '[' && m[|m| - 1] == ']'
    ensures forall q :: 0 <= q < |m| - 1 ==> m[q] != ']'
  {
    assert s[i..i + 1] == "[" && s[j..j + 1] == "]";
    forall q | 0 <= q < |m| - 1
      ensures m[q] != ']'
    {
      if q > 0 {
        assert !StartsAt(s, i + q, "]");
        assert s[i + q..i + q + 1] == [s[i + q]];
      } else {
        assert s[i..i + 1] == [s[i]];
      }
    }
  }

  /** No piece of `ms` parses as an array. */
  predicate NoArray(ms: seq<string>, parse: string -> Parsed) {
    forall k :: 0 <= k < |ms| ==> !parse(ms[k]).JsonArray?
  }

  /** The first match that parses as an array. */
  function FirstArray(ms: seq<string>, parse: string -> Parsed): (r: Option<seq<SlotValue>>)
    ensures r.None? <==> NoArray(ms, parse)
    ensures r.Some? ==> exists k :: (0 <= k < |ms| && parse(ms[k]) == JsonArray(r.value) &&
      forall j :: 0 <= j < k ==> !parse(ms[j]).JsonArray?)
  {
    if ms == [] then None
    else if parse(ms[0]).JsonArray? then Some(parse(ms[0]).items)
    else
      var r := FirstArray(ms[1..], parse);
      assert forall k :: 1 <= k < |ms| ==> ms[1..][k - 1] == ms[k];
      if r.Some? then
        var k :| 0 <= k < |ms[1..]| && parse(ms[1..][k]) == JsonArray(r.value) &&
          forall j :: 0 <= j < k ==> !parse(ms[1..][j]).JsonArray?;
        assert parse(ms[k + 1]) == JsonArray(r.value);
        r
      else r
  }

  /** `null` for a missing or empty text; otherwise the first bracketed match that parses as an array. */
  function ExtractFirstJsonArray(text: Option<string>, parse: string -> Parsed): (r: Option<seq<SlotValue>>)
    ensures text.None? || text.value == "" ==> r.None?
    ensures text.Some? && text.value != "" ==>
      (r.None? <==> NoArray(Brackets(text.value, 0), parse))
    ensures r.Some? ==> text.Some? && exists k :: (0 <= k < |Brackets(text.value, 0)| &&
      parse(Brackets(text.value, 0)[k]) == JsonArray(r.value))
  {
    if text.None? || text.value == "" then None
    else
      FirstArray(Brackets(text.value, 0), parse)
  }

  /**
   * The first bracketed piece of a text is found whichever text precedes or
   * follows it, provided no `[` comes before it and no `]` inside it.
   */
  lemma FirstBracketed(pre: string, body: string, post: string)
    requires '[' !in pre && ']' !in body
    ensures var s := pre + "[" + body + "]" + post;
      |Brackets(s, 0)| >= 1 && Brackets(s, 0)[0] == "[" + body + "]"
  {
    var s := pre + "[" + body + "]" + post;
    var i := |pre|;
    var j := |pre| + 1 + |body|;
    BracketChars(pre, body, post);
    FirstCharAt(s, '[', 0, i);
    FirstCharAt(s, ']', i + 1, j);
    BracketsFirst(s, 0, i, j);
  }

  /** Where the `[` and the `]` of such a text stand, and what lies between them. */
  lemma BracketChars(pre: string, body: string, post: string)
    requires '[' !in pre && ']' !in body
    ensures var s := pre + "[" + body + "]" + post;
      (forall q :: 0 <= q < |pre| ==> s[q] != '[') && s[|pre|] == '[' &&
      (forall q :: |pre| + 1 <= q < |pre| + 1 + |body| ==> s[q] != ']') && s[|pre| + 1 + |body|] == ']' &&
      s[|pre|..|pre| + 2 + |body|] == "[" + body + "]"
  {
    var s := pre + "[" + body + "]" + post;
    var i := |pre|;
    var j := |pre| + 1 + |body|;
    forall q | 0 <= q < i ensures s[q] != '[' { assert s[q] == pre[q]; }
    forall q | i + 1 <= q < j ensures s[q] != ']' { assert s[q] == body[q - i - 1]; }
    var mid := "[" + body + "]";
    assert s == pre + mid + post;
    assert s[i..j + 1] == mid;
  }

  /** The first piece `Brackets` finds runs from the first `[` to the first `]` after it. */
  lemma BracketsFirst(s: string, from: nat, i: nat, j: nat)
    requires from <= |s| && IndexFrom(s, "[", from) == Some(i)
    requires i + 1 <= |s| && IndexFrom(s, "]", i + 1) == Some(j)
    ensures |Brackets(s, from)| >= 1 && Brackets(s, from)[0] == s[i..j + 1]
  {
  }

  /** Searching from `from` for the character `c` finds its first occurrence there or after. */
  lemma FirstCharAt(s: string, c: char, from: nat, at: nat)
    requires from <= at < |s| && s[at] == c
    requires forall q :: from <= q < at ==> s[q] != c
    ensures IndexFrom(s, [c], from) == Some(at)
  {
    forall q | from <= q < at
      ensures !StartsAt(s, q, [c])
    {
      assert s[q..q + 1][0] == s[q];
    }
    assert StartsAt(s, at, [c]) by {
      assert s[at..at + 1] == [c];
    }
  }

  // ---------------------------------------------------------------------
  // buildPlan(topic)
  // ---------------------------------------------------------------------

  datatype Song = Song(title: string, artist: string, album: Option<string>, year: string, youtubeHint: string, note: Option<string>)

  datatype TrackSlot = TrackSlot(
    slotId: string, arcLabel: string, chronologyHint: Option<string>, narrativeFocus: string,
    primary: Song, alternates: seq<Song>)

  datatype Plan = Plan(title: string, topic: string, summary: string, narrativeArc: string, trackSlots: seq<TrackSlot>)

  /** The slot at 0-based position `idx`. */
  function PlanSlot(topic: string, idx: nat): TrackSlot {
    var n := NatToString(idx + 1);
    TrackSlot(
      "slot-" + n, "Chapter " + n, None, "Narrative focus " + n,
      Song(topic + " Song " + n, topic + " Artist", None, "20" + NatToString(10 + idx), "", None),
      [])
  }

  /** The plan for a topic; a missing or empty topic becomes `Test Topic`. */
  function BuildPlan(topic: Option<string>): (r: Plan)
    ensures r.topic == (if topic.Some? && topic.value != "" then topic.value else DefaultTopic)
    ensures r.title == r.topic + " Documentary" && r.summary == r.topic + " summary"
    ensures |r.trackSlots| == 5
    ensures forall k :: 0 <= k < 5 ==> r.trackSlots[k].alternates == [] && r.trackSlots[k].primary.artist == r.topic + " Artist"
  {
    var t := if topic.Some? && topic.value != "" then topic.value else DefaultTopic;
    Plan(t + " Documentary", t, t + " summary", "Intro, rise, climax, fall, outro", seq(5, k requires 0 <= k < 5 => PlanSlot(t, k)))
  }

  function SlotIds(slots: seq<TrackSlot>): seq<string> {
    seq(|slots|, k requires 0 <= k < |slots| => slots[k].slotId)
  }

  function Years(slots: seq<TrackSlot>): seq<string> {
    seq(|slots|, k requires 0 <= k < |slots| => slots[k].primary.year)
  }

  /** Helper for PlanSlotsAndYears: the numbers the five slots are rendered with. */
  lemma Numerals()
    ensures NatToString(1) == "1" && NatToString(2) == "2" && NatToString(3) == "3"
    ensures NatToString(4) == "4" && NatToString(5) == "5"
    ensures NatToString(10) == "10" && NatToString(11) == "11" && NatToString(12) == "12"
    ensures NatToString(13) == "13" && NatToString(14) == "14"
  {
    assert NatToString(1) == [DigitChar(1)];
    assert NatToString(10) == NatToString(1) + [DigitChar(0)];
    assert NatToString(11) == NatToString(1) + [DigitChar(1)];
    assert NatToString(12) == NatToString(1) + [DigitChar(2)];
    assert NatToString(13) == NatToString(1) + [DigitChar(3)];
    assert NatToString(14) == NatToString(1) + [DigitChar(4)];
  }

  /** The five slots are `slot-1` … `slot-5`, with years 2010 … 2014. */
  lemma PlanSlotsAndYears(topic: Option<string>)
    ensures SlotIds(BuildPlan(topic).trackSlots) == ["slot-1", "slot-2", "slot-3", "slot-4", "slot-5"]
    ensures Years(BuildPlan(topic).trackSlots) == ["2010", "2011", "2012", "2013", "2014"]
  {
    var slots := BuildPlan(topic).trackSlots;
    var t := BuildPlan(topic).topic;
    assert forall k :: 0 <= k < 5 ==> slots[k] == PlanSlot(t, k);
    Numerals();
    assert slots[0].slotId == "slot-1" && slots[0].primary.year == "2010";
    assert slots[1].slotId == "slot-2" && slots[1].primary.year == "2011";
    assert slots[2].slotId == "slot-3" && slots[2].primary.year == "2012";
    assert slots[3].slotId == "slot-4" && slots[3].primary.year == "2013";
    assert slots[4].slotId == "slot-5" && slots[4].primary.year == "2014";
  }

  // ---------------------------------------------------------------------
  // buildNarration(trackSlots)
  // ---------------------------------------------------------------------

  datatype Segment = Segment(slotId: Field, title: string, text: string)

  datatype Narration = Narration(intro: Segment, outro: Segment, songSegments: seq<Segment>)

  const Intro := Segment(Str("intro"), "Intro", "Opening narration.")

  const Outro := Segment(Str("outro"), "Outro", "Closing narration.")

  /** The five slots used when the prompt held none. */
  function DefaultSlots(): (r: seq<SlotValue>)
    ensures |r| == 5
  {
    seq(5, k requires 0 <= k < 5 => SlotObject(Str("slot-" + NatToString(k + 1)), Str("Slot " + NatToString(k + 1)), Missing))
  }

  /** A field as a template literal renders it: a missing one reads `undefined`, a `null` one `null`. */
  function Rendered(v: Field): string {
    match v
    case Missing => "undefined"
    case Null => "null"
    case Str(s) => s
  }

  /** `slot.title || slot.arc_label || fallback`: only a non-empty string is truthy. */
  function FirstTruthy(a: Field, b: Field, fallback: Field): Field {
    if a.Str? && a.value != "" then a else if b.Str? && b.value != "" then b else fallback
  }

  /** The segment for one slot object. */
  function SegmentOf(s: SlotValue): Segment
    requires s.SlotObject?
  {
    Segment(
      s.slotId,
      Rendered(FirstTruthy(s.title, s.arcLabel, Str("Chapter"))) + " narration",
      "Narration for " + Rendered(FirstTruthy(s.title, s.arcLabel, s.slotId)) + ".")
  }

  function SegmentIds(segs: seq<Segment>): seq<Field> {
    seq(|segs|, k requires 0 <= k < |segs| => segs[k].slotId)
  }

  function SlotValueIds(slots: seq<SlotValue>): seq<Field> {
    seq(|slots|, k requires 0 <= k < |slots| => if slots[k].SlotObject? then slots[k].slotId else Missing)
  }

  /**
   * One song segment per slot, in the slots' order, or the five default slots
   * when none is given; reading a field of a `null` slot throws (`None`).
   */
  function BuildNarration(slots: seq<SlotValue>): (r: Option<Narration>)
    ensures var src := if |slots| > 0 then slots else DefaultSlots();
      (r.None? <==> exists k :: 0 <= k < |src| && src[k].NullSlot?) &&
      (r.Some? ==> (r.value.intro == Intro && r.value.outro == Outro &&
        |r.value.songSegments| == |src| && SegmentIds(r.value.songSegments) == SlotValueIds(src)))
  {
    var src := if |slots| > 0 then slots else DefaultSlots();
    if exists k :: 0 <= k < |src| && src[k].NullSlot? then None
    else
      var segs := seq(|src|, k requires 0 <= k < |src| => SegmentOf(src[k]));
      assert SegmentIds(segs) == SlotValueIds(src);
      Some(Narration(Intro, Outro, segs))
  }

  /**
   * A slot whose `slot_id` is `null` and that has no title or label keeps the
   * `null` id and is narrated as `null`, as the template literal renders it.
   */
  lemma NullSlotIdNarrated()
    ensures var r := BuildNarration([SlotObject(Null, Missing, Missing)]);
      r.Some? && r.value.songSegments == [Segment(Null, "Chapter narration", "Narration for null.")]
  {
    var s := SlotObject(Null, Missing, Missing);
    assert !s.NullSlot?;
    assert SegmentOf(s) == Segment(Null, "Chapter narration", "Narration for null.");
  }

  /** With no slots the narration has the five default segments. */
  lemma DefaultNarration()
    ensures BuildNarration([]).Some?
    ensures var segs := BuildNarration([]).value.songSegments;
      |segs| == 5 &&
      segs[0] == Segment(Str("slot-1"), "Slot 1 narration", "Narration for Slot 1.") &&
      segs[4] == Segment(Str("slot-5"), "Slot 5 narration", "Narration for Slot 5.")
  {
    DefaultSegments();
    assert "1" == [DigitChar(1)] && "5" == [DigitChar(5)];
    SlotOneSpelled();
    SlotFiveSpelled();
    DefaultSegmentSpelled(0, "1", "slot-1", "Slot 1 narration", "Narration for Slot 1.");
    DefaultSegmentSpelled(4, "5", "slot-5", "Slot 5 narration", "Narration for Slot 5.");
  }

  /** Helper for DefaultNarration: the first default segment's strings, spelled out. */
  lemma SlotOneSpelled()
    ensures "slot-1" == "slot-" + "1" && "Slot 1 narration" == "Slot " + "1" + " narration"
    ensures "Narration for Slot 1." == "Narration for Slot " + "1" + "."
  {
  }

  /** Helper for DefaultNarration: the last default segment's strings, spelled out. */
  lemma SlotFiveSpelled()
    ensures "slot-5" == "slot-" + "5" && "Slot 5 narration" == "Slot " + "5" + " narration"
    ensures "Narration for Slot 5." == "Narration for Slot " + "5" + "."
  {
  }

  /** With no slots every segment is the segment of the default slot at its place. */
  lemma DefaultSegments()
    ensures BuildNarration([]).Some?
    ensures |BuildNarration([]).value.songSegments| == 5
    ensures forall k :: 0 <= k < 5 ==> BuildNarration([]).value.songSegments[k] == SegmentOf(DefaultSlots()[k])
  {
    assert forall k :: 0 <= k < 5 ==> DefaultSlots()[k].SlotObject?;
  }

  /** The segment of default slot `k` spelled out, for `k + 1` written `d`. */
  lemma DefaultSegmentSpelled(k: nat, d: string, id: string, title: string, text: string)
    requires k < 5 && d == [DigitChar(k + 1)]
    requires id == "slot-" + d && title == "Slot " + d + " narration" && text == "Narration for Slot " + d + "."
    ensures SegmentOf(DefaultSlots()[k]) == Segment(Str(id), title, text)
  {
    DefaultSlotSegment(k, d);
  }

  /** The segment of default slot `k`, whose number `k + 1` is written `d`. */
  lemma DefaultSlotSegment(k: nat, d: string)
    requires k < 5 && NatToString(k + 1) == d && d != ""
    ensures SegmentOf(DefaultSlots()[k]) == Segment(Str("slot-" + d), "Slot " + d + " narration", "Narration for Slot " + d + ".")
  {
    var name := "Slot " + d;
    assert DefaultSlots()[k] == SlotObject(Str("slot-" + d), Str(name), Missing);
    assert FirstTruthy(Str(name), Missing, Str("Chapter")) == Str(name);
    assert FirstTruthy(Str(name), Missing, Str("slot-" + d)) == Str(name);
  }

  /** A plan slot as `JSON.parse` gives it back: it has no `title`, so its chapter label is read. */
  function AsSlotValue(s: TrackSlot): SlotValue {
    SlotObject(Str(s.slotId), Missing, Str(s.arcLabel))
  }

  /** Narrating a plan's own slots gives segment `k` the plan's slot id and its chapter label. */
  lemma NarrationOfPlan(topic: Option<string>)
    ensures var slots := BuildPlan(topic).trackSlots;
      var r := BuildNarration(seq(5, k requires 0 <= k < 5 => AsSlotValue(slots[k])));
      r.Some? && |r.value.songSegments| == 5 &&
      forall k :: 0 <= k < 5 ==> (r.value.songSegments[k] ==
        Segment(Str(slots[k].slotId), slots[k].arcLabel + " narration", "Narration for " + slots[k].arcLabel + "."))
  {
    var slots := BuildPlan(topic).trackSlots;
    var src := seq(5, k requires 0 <= k < 5 => AsSlotValue(slots[k]));
    forall k | 0 <= k < 5
      ensures slots[k].arcLabel != ""
    {
      assert slots[k] == PlanSlot(BuildPlan(topic).topic, k);
    }
    assert forall k :: 0 <= k < 5 ==> src[k].SlotObject?;
    var segs := BuildNarration(src).value.songSegments;
    assert forall k :: 0 <= k < 5 ==> segs[k] == SegmentOf(src[k]);
  }

  // ---------------------------------------------------------------------
  // parseCompletion({ messages, response_format })
  // ---------------------------------------------------------------------

  /** The three places a format name is looked up: `name`, `json_schema.name`, `response_format.name`. */
  datatype ResponseFormat = ResponseFormat(name: Option<string>, jsonSchemaName: Option<string>, nestedName: Option<string>)

  datatype Completion = PlanReply(plan: Plan) | NarrationReply(narration: Narration) | Acknowledged

  /** The first truthy of the three names. */
  function FormatName(rf: Option<ResponseFormat>): (r: Option<string>)
    ensures r.Some? ==> r.value != ""
    ensures rf.Some? && rf.value.name.Some? && rf.value.name.value != "" ==> r == rf.value.name
  {
    if rf.None? then None
    else
      var f := rf.value;
      if f.name.Some? && f.name.value != "" then f.name
      else if f.jsonSchemaName.Some? && f.jsonSchemaName.value != "" then f.jsonSchemaName
      else if f.nestedName.Some? && f.nestedName.value != "" then f.nestedName
      else None
  }

  /** The content of the first user message with string content. */
  function FirstUserText(ms: seq<Message>): (r: Option<string>)
    ensures r.None? <==> forall k :: 0 <= k < |ms| ==> !IsUserText(ms[k])
    ensures r.Some? ==> exists k :: (0 <= k < |ms| && IsUserText(ms[k]) && ms[k].content == r &&
      forall j :: 0 <= j < k ==> !IsUserText(ms[j]))
  {
    if ms == [] then None
    else if IsUserText(ms[0]) then ms[0].content
    else
      assert forall k :: 1 <= k < |ms| ==> ms[1..][k - 1] == ms[k];
      var r := FirstUserText(ms[1..]);
      if r.Some? then
        var k :| 0 <= k < |ms[1..]| && IsUserText(ms[1..][k]) && ms[1..][k].content == r &&
          forall j :: 0 <= j < k ==> !IsUserText(ms[1..][j]);
        assert ms[k + 1] == ms[1..][k];
        r
      else r
  }

  /** The mock's answer; `None` when building the narration throws. */
  function ParseCompletion(ms: seq<Message>, rf: Option<ResponseFormat>, parse: string -> Parsed): (r: Option<Completion>) {
    var name := FormatName(rf);
    if name == Some("music_story_plan") then Some(PlanReply(BuildPlan(Some(ExtractTopic(ms)))))
    else if name == Some("music_story_narration") then
      var parsed := match FirstUserText(ms) case None => None case Some(c) => ExtractFirstJsonArray(Some(c), parse);
      match BuildNarration(parsed.GetOr([]))
      case None => None
      case Some(n) => Some(NarrationReply(n))
    else Some(Acknowledged)
  }

  /**
   * The format name alone picks the answer: a plan for `music_story_plan`, a
   * narration (or the error of a `null` slot) for `music_story_narration`,
   * and `{ ok: true }` for anything else, including no name at all.
   */
  lemma Dispatch(ms: seq<Message>, rf: Option<ResponseFormat>, parse: string -> Parsed)
    ensures var r := ParseCompletion(ms, rf, parse);
      && (FormatName(rf) == Some("music_story_plan") ==> r == Some(PlanReply(BuildPlan(Some(ExtractTopic(ms))))))
      && (FormatName(rf) == Some("music_story_narration") ==> r.None? || r.value.NarrationReply?)
      && (FormatName(rf) != Some("music_story_plan") && FormatName(rf) != Some("music_story_narration") ==>
        r == Some(Acknowledged))
      && (r.None? ==> FormatName(rf) == Some("music_story_narration"))
  {
  }

  /** A plan request carrying the client's prompt gets the plan for the prompt's topic. */
  lemma PlanForPrompt(t: string, rest: string, rf: ResponseFormat, parse: string -> Parsed)
    requires t != [] && !IsSpace(t[0]) && !IsSpace(t[|t| - 1])
    requires forall k :: 0 <= k < |t| ==> !IsLineTerminator(t[k])
    requires FormatName(Some(rf)) == Some("music_story_plan")
    ensures ParseCompletion([Message(Some("user"), Some(TopicPrompt(t, rest)))], Some(rf), parse) ==
      Some(PlanReply(BuildPlan(Some(t))))
  {
    TopicRoundTrip(t, rest);
  }

  /** A narration request whose prompt holds no array gets the five default segments. */
  lemma NarrationWithoutSlots(ms: seq<Message>, rf: Option<ResponseFormat>, parse: string -> Parsed)
    requires FormatName(rf) == Some("music_story_narration")
    requires forall k :: 0 <= k < |ms| ==> !IsUserText(ms[k])
    ensures ParseCompletion(ms, rf, parse) == Some(NarrationReply(BuildNarration([]).value))
  {
    DefaultNarration();
  }
}

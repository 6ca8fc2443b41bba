/**
 * The YouTube matching service: ISO 8601 duration parsing, the title
 * normaliser, the additive candidate score, the first-best picker with its
 * fallback to the first candidate, and the per-item timeline mapping loop.
 * The two HTTP calls (search, then video details) are oracles passed in as
 * total functions. Scores are integer hundredths: 0.6 is 60, 1 is 100.
 */
module YouTubeMatch {
  import opened Wrappers
  import opened Text
  import opened Timeline

  // ---------------------------------------------------------------------
  // ISO 8601 durations: `PT(?:(\d+)H)?(?:(\d+)M)?(?:(\d+)S)?`, unanchored
  // ---------------------------------------------------------------------

  /** End of the longest run of digits starting at `p`. */
  function DigitRunEnd(s: string, p: nat): (q: nat)
    requires p <= |s|
    ensures p <= q <= |s|
    ensures forall k :: p <= k < q ==> IsDigit(s[k])
    ensures q == |s| || !IsDigit(s[q])
    decreases |s| - p
  {
    if p < |s| && IsDigit(s[p]) then DigitRunEnd(s, p + 1) else p
  }

  /** What one optional group captured (0 when it does not take part) and how much of the text it used. */
  datatype Group = Group(value: nat, used: nat)

  /**
   * The optional group `(?:(\d+)X)?` tried at the start of `t`. Greedy `\d+`
   * followed by a letter can only succeed on the longest digit run, so
   * backtracking never finds a shorter one.
   */
  function Component(t: string, designator: char): (r: Group)
    ensures r.used <= |t|
  {
    var q := DigitRunEnd(t, 0);
    if q > 0 && q < |t| && t[q] == designator then
      assert AllDigits(t[..q]);
      Group(DigitsValue(t[..q]), q + 1)
    else Group(0, 0)
  }

  /** Hours, minutes and seconds read from `t`, the text after `PT`, each group where the previous one stopped. */
  function TimeFrom(t: string): nat {
    var hours := Component(t, 'H');
    var afterHours := t[hours.used..];
    var minutes := Component(afterHours, 'M');
    var seconds := Component(afterHours[minutes.used..], 'S');
    hours.value * 3600 + minutes.value * 60 + seconds.value
  }

  /**
   * `parseISODurationToSeconds`: `None` for a missing or empty string and for
   * text without `PT`; otherwise hours, minutes and seconds after the first
   * `PT`, each 0 when absent.
   */
  function ParseIsoDuration(iso: Option<string>): (r: Option<nat>)
    ensures r.None? <==> iso.None? || iso.value == "" || !Contains(iso.value, "PT")
  {
    if iso.None? || iso.value == "" then None
    else
      match IndexOf(iso.value, "PT")
      case None => None
      case Some(p) => Some(TimeFrom(iso.value[p + 2..]))
  }

  /** One `<digits><designator>` part of an ISO 8601 time, omitted when zero. */
  function Part(n: nat, designator: char): string {
    if n > 0 then NatToString(n) + [designator] else ""
  }

  /** The canonical `PT…H…M…S` rendering of a duration given as hours, minutes and seconds. */
  function FormatIsoDuration(h: nat, m: nat, sec: nat): string {
    "PT" + Part(h, 'H') + Part(m, 'M') + Part(sec, 'S')
  }

  lemma {:induction false} DigitRunEndOf(s: string, p: nat, w: string)
    requires AllDigits(w) && p + |w| <= |s| && s[p..p + |w|] == w
    requires p + |w| == |s| || !IsDigit(s[p + |w|])
    ensures DigitRunEnd(s, p) == p + |w|
    decreases |w|
  {
    if w != [] {
      assert s[p] == w[0];
      assert s[p + 1..p + 1 + |w[1..]|] == w[1..];
      DigitRunEndOf(s, p + 1, w[1..]);
    }
  }

  /** `x` is the rendering of the group for `designator` with value `n`: empty for 0, else digits then the letter. */
  predicate Piece(x: string, n: nat, designator: char) {
    if n == 0 then x == ""
    else |x| >= 2 && x[|x| - 1] == designator && AllDigits(x[..|x| - 1]) && DigitsValue(x[..|x| - 1]) == n
  }

  lemma PartIsPiece(n: nat, designator: char)
    ensures Piece(Part(n, designator), n, designator)
  {
    if n > 0 {
      var x := Part(n, designator);
      assert x[..|x| - 1] == NatToString(n);
      DigitsValueOfNatToString(n);
    }
  }

  /** A rendered group holds no letter but its own. */
  lemma PieceLacks(x: string, n: nat, designator: char, other: char)
    requires Piece(x, n, designator) && other != designator && !IsDigit(other)
    ensures other !in x
  {
    if n > 0 {
      forall k | 0 <= k < |x| - 1
        ensures x[k] != other
      {
        assert IsDigit(x[..|x| - 1][k]);
      }
    }
  }

  /** The group for `designator` does not take part in text that lacks its letter. */
  lemma ReadAbsent(t: string, designator: char)
    requires designator !in t
    ensures Component(t, designator) == Group(0, 0)
  {
    var q := DigitRunEnd(t, 0);
    if q < |t| {
      assert t[q] in t;
    }
  }

  /** The group reads the digits up to where their run ends, when the designator follows. */
  lemma ReadRun(t: string, q: nat, designator: char)
    requires 0 < q < |t| && DigitRunEnd(t, 0) == q && t[q] == designator
    ensures Component(t, designator) == Group(DigitsValue(t[..q]), q + 1)
  {
  }

  /** A digit run followed by a non-digit `designator` is read as its value. */
  lemma ReadPresent(t: string, w: string, designator: char, rest: string)
    requires t == w + [designator] + rest
    requires |w| >= 1 && AllDigits(w) && !IsDigit(designator)
    ensures Component(t, designator) == Group(DigitsValue(w), |w| + 1)
  {
    assert t[0..|w|] == t[..|w|] == w;
    assert t[|w|] == designator;
    DigitRunEndOf(t, 0, w);
    ReadRun(t, |w|, designator);
  }

  /** A rendered group at the start of `t` is read back, provided its letter does not occur later. */
  lemma ReadPiece(t: string, x: string, n: nat, designator: char, rest: string)
    requires t == x + rest
    requires Piece(x, n, designator) && !IsDigit(designator) && designator !in rest
    ensures Component(t, designator) == Group(n, |x|)
  {
    if n == 0 {
      assert t == rest;
      ReadAbsent(t, designator);
    } else {
      var w := x[..|x| - 1];
      assert x == w + [designator];
      ReadPresent(t, w, designator, rest);
    }
  }

  /** What is left once the first piece has been read. */
  lemma Drop(x: string, rest: string)
    ensures (x + rest)[|x|..] == rest
  {
  }

  /** The three groups read back hours, minutes and seconds of three rendered pieces. */
  lemma TimeOfPieces(a: string, b: string, c: string, h: nat, m: nat, sec: nat)
    requires Piece(a, h, 'H') && Piece(b, m, 'M') && Piece(c, sec, 'S')
    ensures TimeFrom(a + (b + c)) == h * 3600 + m * 60 + sec
  {
    PieceLacks(b, m, 'M', 'H');
    PieceLacks(c, sec, 'S', 'H');
    PieceLacks(c, sec, 'S', 'M');
    ReadPiece(a + (b + c), a, h, 'H', b + c);
    Drop(a, b + c);
    ReadPiece(b + c, b, m, 'M', c);
    Drop(b, c);
    assert c == c + "";
    ReadPiece(c, c, sec, 'S', "");
    TimeFromGroups(a + (b + c), b + c, c, h, |a|, m, |b|, sec);
  }

  /** `TimeFrom` adds up the three groups, each read from what the previous one left. */
  lemma TimeFromGroups(t: string, afterHours: string, afterMinutes: string, h: nat, hUsed: nat, m: nat, mUsed: nat, sec: nat)
    requires Component(t, 'H') == Group(h, hUsed) && hUsed <= |t| && t[hUsed..] == afterHours
    requires Component(afterHours, 'M') == Group(m, mUsed) && mUsed <= |afterHours| && afterHours[mUsed..] == afterMinutes
    requires Component(afterMinutes, 'S').value == sec
    ensures TimeFrom(t) == h * 3600 + m * 60 + sec
  {
  }

  /** Both halves of a concatenation. */
  lemma Split(x: string, y: string)
    ensures StartsAt(x + y, 0, x)
    ensures (x + y)[|x|..] == y
  {
    assert (x + y)[0..|x|] == x;
  }

  /** Text after a leading `PT` is what the groups are read from. */
  lemma ParseAfterPT(t: string, total: nat)
    requires TimeFrom(t) == total
    ensures ParseIsoDuration(Some("PT" + t)) == Some(total)
  {
    Split("PT", t);
    IndexOfPrefix("PT" + t, "PT");
  }

  /** `PT` followed by three rendered groups parses to their total. */
  lemma ParsePieces(a: string, b: string, c: string, h: nat, m: nat, sec: nat, total: nat)
    requires Piece(a, h, 'H') && Piece(b, m, 'M') && Piece(c, sec, 'S')
    requires total == h * 3600 + m * 60 + sec
    ensures ParseIsoDuration(Some("PT" + (a + (b + c)))) == Some(total)
  {
    TimeOfPieces(a, b, c, h, m, sec);
    ParseAfterPT(a + (b + c), total);
  }

  lemma Regroup(w: string, a: string, b: string, c: string)
    ensures w + a + b + c == w + (a + (b + c))
  {
  }

  /** Parsing a canonical rendering gives back its total in seconds. */
  lemma ParseFormatted(h: nat, m: nat, sec: nat, total: nat)
    requires total == h * 3600 + m * 60 + sec
    ensures ParseIsoDuration(Some(FormatIsoDuration(h, m, sec))) == Some(total)
  {
    var a, b, c := Part(h, 'H'), Part(m, 'M'), Part(sec, 'S');
    PartIsPiece(h, 'H');
    PartIsPiece(m, 'M');
    PartIsPiece(sec, 'S');
    Regroup("PT", a, b, c);
    assert FormatIsoDuration(h, m, sec) == "PT" + (a + (b + c));
    ParsePieces(a, b, c, h, m, sec, total);
  }

  /** The example of the service's own comment. */
  lemma ParseThreeMinutesFortyFive()
    ensures ParseIsoDuration(Some("PT3M45S")) == Some(225)
  {
    assert NatToString(3) == "3";
    assert NatToString(45) == NatToString(4) + [DigitChar(5)] == "45";
    assert FormatIsoDuration(0, 3, 45) == "PT3M45S";
    ParseFormatted(0, 3, 45, 225);
  }

  // ---------------------------------------------------------------------
  // normalize(str)
  // ---------------------------------------------------------------------

  /** No upper-case letter, no `-` and no `_`. */
  predicate Clean(s: string) {
    forall k :: 0 <= k < |s| ==> !IsUpper(s[k]) && s[k] != '-' && s[k] != '_'
  }

  /** No two adjacent whitespace characters. */
  predicate NoSpaceRun(s: string) {
    forall j, k :: 0 <= j < |s| && 0 <= k < |s| && k == j + 1 ==> !(IsSpace(s[j]) && IsSpace(s[k]))
  }

  function CloserOf(c: char): Option<char> {
    if c == '(' then Some(')') else if c == '[' then Some(']') else if c == '{' then Some('}') else None
  }

  /**
   * Where a lazy `.*?` followed by `close` ends when started at `k`: the first
   * `close`, unless a line terminator (which `.` does not match) comes first.
   */
  function CloseFrom(s: string, k: nat, close: char): (r: Option<nat>)
    requires k <= |s|
    requires !IsLineTerminator(close)
    ensures r.Some? ==> k <= r.value < |s| && s[r.value] == close
    ensures r.Some? ==> forall j :: k <= j < r.value ==> s[j] != close && !IsLineTerminator(s[j])
    ensures r.None? ==> forall j :: k <= j < |s| && s[j] == close ==> exists l :: k <= l < j && IsLineTerminator(s[l])
    decreases |s| - k
  {
    if k == |s| then None
    else if s[k] == close then Some(k)
    else if IsLineTerminator(s[k]) then None
    else CloseFrom(s, k + 1, close)
  }

  /** `.replace(/\(.*?\)|\[.*?\]|\{.*?\}/g, ' ')` applied to `s[i..]`. */
  function StripBracketsFrom(s: string, i: nat): (r: string)
    requires i <= |s|
    ensures HasNoUpper(s) ==> HasNoUpper(r)
    decreases |s| - i
  {
    if i == |s| then ""
    else
      var close := CloserOf(s[i]);
      var end := if close.Some? then CloseFrom(s, i + 1, close.value) else None;
      if end.Some? then " " + StripBracketsFrom(s, end.value + 1)
      else [s[i]] + StripBracketsFrom(s, i + 1)
  }

  /** `.replace(/[-_]/g, ' ')`. */
  function Dashes(s: string): (r: string)
    ensures |r| == |s|
    ensures forall k :: 0 <= k < |s| ==> r[k] == if s[k] == '-' || s[k] == '_' then ' ' else s[k]
    ensures HasNoUpper(s) ==> Clean(r)
  {
    seq(|s|, k requires 0 <= k < |s| => if s[k] == '-' || s[k] == '_' then ' ' else s[k])
  }

  /** A `\b` position: a word character on exactly one side. */
  predicate Boundary(s: string, p: nat) {
    (0 < p <= |s| && IsWordChar(s[p - 1])) != (p < |s| && IsWordChar(s[p]))
  }

  /** `\bw\b` matches at `i`. */
  predicate WordAt(s: string, i: nat, w: string) {
    StartsAt(s, i, w) && Boundary(s, i) && Boundary(s, i + |w|)
  }

  /**
   * Length of the text the noise alternation matches at `i`, alternatives
   * tried in source order (greedy optionals first), 0 when none matches.
   * The `i` flag changes nothing on a string already lower-cased.
   */
  function NoiseLen(s: string, i: nat): (r: nat)
    ensures r > 0 ==> i + r <= |s|
  {
    if StartsAt(s, i, "taylor's version") then 16
    else if StartsAt(s, i, "taylors version") then 15
    else if StartsAt(s, i, "remastered") then 10
    else if StartsAt(s, i, "remaster") then 8
    else if StartsAt(s, i, "official video") then 14
    else if StartsAt(s, i, "audio") then 5
    else if StartsAt(s, i, "lyrics") then 6
    else if StartsAt(s, i, "lyric") then 5
    else if StartsAt(s, i, "video") then 5
    else if StartsAt(s, i, "hd") then 2
    else if StartsAt(s, i, "hq") then 2
    else if WordAt(s, i, "ft") then 2
    else if WordAt(s, i, "official") then 8
    else 0
  }

  /** The global replace of the noise alternation by `' '`, applied to `s[i..]`. */
  function StripNoiseFrom(s: string, i: nat): (r: string)
    requires i <= |s|
    ensures Clean(s) ==> Clean(r)
    decreases |s| - i
  {
    if i == |s| then ""
    else
      var n := NoiseLen(s, i);
      if n > 0 then " " + StripNoiseFrom(s, i + n)
      else [s[i]] + StripNoiseFrom(s, i + 1)
  }

  /** `.replace(/\s+/g, ' ')` applied to `s[i..]`. */
  function CollapseFrom(s: string, i: nat): (r: string)
    requires i <= |s|
    ensures r == [] <==> i == |s|
    ensures i < |s| && IsSpace(s[i]) ==> r[0] == ' '
    ensures i < |s| && !IsSpace(s[i]) ==> r[0] == s[i]
    ensures Clean(s) ==> Clean(r)
    ensures NoSpaceRun(r)
    decreases |s| - i
  {
    if i == |s| then ""
    else if IsSpace(s[i]) then
      var j := SkipSpace(s, i + 1);
      " " + CollapseFrom(s, j)
    else [s[i]] + CollapseFrom(s, i + 1)
  }

  /** The passes `normalize` chains after lower-casing, in order. */
  function Pass(k: nat, s: string): string {
    if k == 0 then StripBracketsFrom(s, 0)
    else if k == 1 then Dashes(s)
    else if k == 2 then StripNoiseFrom(s, 0)
    else if k == 3 then CollapseFrom(s, 0)
    else Trim(s)
  }

  /** Passes `k` to 4 applied to `s`. */
  function PassesFrom(s: string, k: nat): string
    decreases 5 - k
  {
    if k >= 5 then s else PassesFrom(Pass(k, s), k + 1)
  }

  /** `normalize`: the staged clean-up of a title before containment tests. */
  function Normalize(str: Option<string>): string {
    PassesFrom(ToLower(Or(str, "")), 0)
  }

  lemma InfixKeepsShape(s: string, r: string)
    requires Contains(s, r)
    requires Clean(s) && NoSpaceRun(s)
    ensures Clean(r) && NoSpaceRun(r)
  {
    var i :| 0 <= i <= |s| && StartsAt(s, i, r);
    assert forall k :: 0 <= k < |r| ==> r[k] == s[i + k];
  }

  /** What `normalize` guarantees of every output. */
  lemma NormalizeShape(str: Option<string>)
    ensures HasNoUpper(Normalize(str))
    ensures forall k :: 0 <= k < |Normalize(str)| ==> Normalize(str)[k] != '-' && Normalize(str)[k] != '_'
    ensures Normalize(str) == [] || (!IsSpace(Normalize(str)[0]) && !IsSpace(Normalize(str)[|Normalize(str)| - 1]))
    ensures NoSpaceRun(Normalize(str))
  {
    var s0 := ToLower(Or(str, ""));
    var s1 := StripBracketsFrom(s0, 0);
    var s2 := Dashes(s1);
    var s3 := StripNoiseFrom(s2, 0);
    var s4 := CollapseFrom(s3, 0);
    var s5 := Trim(s4);
    assert PassesFrom(s0, 0) == PassesFrom(s1, 1) == PassesFrom(s2, 2) == PassesFrom(s3, 3)
      == PassesFrom(s4, 4) == PassesFrom(s5, 5) == s5;
    InfixKeepsShape(s4, s5);
  }

  /** A missing title normalises to the empty string. */
  lemma NormalizeEmpty(str: Option<string>)
    requires str.None? || str == Some("")
    ensures Normalize(str) == ""
  {
    assert Or(str, "") == "";
    assert ToLower("") == "";
    assert StripBracketsFrom("", 0) == "";
    assert Dashes("") == "";
    assert StripNoiseFrom("", 0) == "";
    assert CollapseFrom("", 0) == "";
    assert PassesFrom("", 0) == PassesFrom("", 1) == PassesFrom("", 2) == PassesFrom("", 3)
      == PassesFrom("", 4) == PassesFrom("", 5) == "";
  }

  // ---------------------------------------------------------------------
  // scoreCandidate
  // ---------------------------------------------------------------------

  /**
   * What the matcher reads of a video: `id`, `snippet.title`,
   * `snippet.channelId`, `snippet.channelTitle` and the parsed
   * `contentDetails.duration`.
   */
  datatype Candidate = Candidate(
    videoId: Option<string>,
    title: Option<string>,
    channelId: Option<string>,
    channelTitle: Option<string>,
    durationSec: Option<nat>)

  predicate TitleHit(c: Candidate, title: string) {
    Contains(Normalize(c.title), Normalize(Some(title)))
  }

  predicate ArtistHit(c: Candidate, artist: string) {
    Contains(Normalize(c.title), Normalize(Some(artist)))
  }

  /** The channel test compares with the lower-cased, not normalised, artist. */
  predicate ChannelHit(c: Candidate, artist: string) {
    var ch := ToLower(Or(c.channelTitle, ""));
    Contains(ch, "topic") || Contains(ch, ToLower(artist))
  }

  function Abs(x: int): nat {
    if x < 0 then -x else x
  }

  /** 25 within 10 s, 15 within 20 s, only when both durations are known. */
  function DurationPoints(targetSec: Option<int>, durationSec: Option<nat>): (r: int)
    ensures (targetSec.None? || durationSec.None?) ==> r == 0
    ensures targetSec.Some? && durationSec.Some? ==>
      var d := Abs(durationSec.value - targetSec.value);
      (d <= 10 <==> r == 25) && (10 < d <= 20 <==> r == 15) && (d > 20 <==> r == 0)
  {
    if targetSec.None? || durationSec.None? then 0
    else
      var d := Abs(durationSec.value - targetSec.value);
      if d <= 10 then 25 else if d <= 20 then 15 else 0
  }

  /** The capped sum of the four tests' weights. */
  function Total(titleHit: bool, artistHit: bool, channelHit: bool, durationPoints: int): (r: int)
    requires durationPoints == 0 || durationPoints == 15 || durationPoints == 25
    ensures 0 <= r <= 100 && r % 5 == 0
    ensures titleHit ==> r >= 60
    ensures !titleHit ==> r <= 60
    ensures titleHit && artistHit && durationPoints == 25 ==> r == 100
    ensures r == 0 <==> !titleHit && !artistHit && !channelHit && durationPoints == 0
  {
    var sum := (if titleHit then 60 else 0) + (if artistHit then 20 else 0)
      + (if channelHit then 15 else 0) + durationPoints;
    if sum < 100 then sum else 100
  }

  /** `scoreCandidate`, in hundredths. */
  function Score(c: Candidate, title: string, artist: string, targetSec: Option<int>): (r: int)
    ensures 0 <= r <= 100 && r % 5 == 0
  {
    Total(TitleHit(c, title), ArtistHit(c, artist), ChannelHit(c, artist), DurationPoints(targetSec, c.durationSec))
  }

  /** How the four tests decide the score. */
  lemma ScoreWeights(c: Candidate, title: string, artist: string, targetSec: Option<int>)
    ensures TitleHit(c, title) ==> Score(c, title, artist, targetSec) >= 60
    ensures !TitleHit(c, title) ==> Score(c, title, artist, targetSec) <= 60
    ensures TitleHit(c, title) && ArtistHit(c, artist) && DurationPoints(targetSec, c.durationSec) == 25 ==>
      Score(c, title, artist, targetSec) == 100
    ensures Score(c, title, artist, targetSec) == 0 <==>
      !TitleHit(c, title) && !ArtistHit(c, artist) && !ChannelHit(c, artist) && DurationPoints(targetSec, c.durationSec) == 0
  {
    var _ := Total(TitleHit(c, title), ArtistHit(c, artist), ChannelHit(c, artist), DurationPoints(targetSec, c.durationSec));
  }

  /** With an empty target title and artist every containment test succeeds. */
  lemma EmptyTargetsScoreHigh(c: Candidate, targetSec: Option<int>)
    ensures Score(c, "", "", targetSec) >= 95
  {
    NormalizeEmpty(Some(""));
    ContainsEmpty(Normalize(c.title));
    assert ToLower("") == "";
    ContainsEmpty(ToLower(Or(c.channelTitle, "")));
  }

  // ---------------------------------------------------------------------
  // Best-pick
  // ---------------------------------------------------------------------

  /** `scoreCandidate` with the target title, artist and duration fixed, as the picking loop calls it. */
  function ScoreFor(title: string, artist: string, targetSec: Option<int>): Candidate -> int {
    c => Score(c, title, artist, targetSec)
  }

  function Scores(cands: seq<Candidate>, score: Candidate -> int): (r: seq<int>)
    ensures |r| == |cands|
    ensures forall k :: 0 <= k < |cands| ==> r[k] == score(cands[k])
  {
    seq(|cands|, k requires 0 <= k < |cands| => score(cands[k]))
  }

  /** The score of one candidate. */
  lemma ScoreAt(cands: seq<Candidate>, title: string, artist: string, targetSec: Option<int>, k: nat)
    requires k < |cands|
    ensures k < |Scores(cands, ScoreFor(title, artist, targetSec))|
    ensures Scores(cands, ScoreFor(title, artist, targetSec))[k] == Score(cands[k], title, artist, targetSec)
  {
  }

  /** Without a best index no candidate scores above 0. */
  lemma NoBestMeansNoPositive(cands: seq<Candidate>, title: string, artist: string, targetSec: Option<int>)
    requires BestIndex(Scores(cands, ScoreFor(title, artist, targetSec))).None?
    ensures forall k :: 0 <= k < |cands| ==> Score(cands[k], title, artist, targetSec) <= 0
  {
    forall k | 0 <= k < |cands|
      ensures Score(cands[k], title, artist, targetSec) <= 0
    {
      ScoreAt(cands, title, artist, targetSec, k);
    }
  }

  /** `k` holds the largest score, and every earlier score is strictly smaller. */
  predicate FirstArgMax(scores: seq<int>, k: int) {
    0 <= k < |scores| &&
    (forall j :: 0 <= j < |scores| ==> scores[j] <= scores[k]) &&
    (forall j :: 0 <= j < k ==> scores[j] < scores[k])
  }

  /**
   * The candidate the loop `if (s > bestScore) best = c` settles on, starting
   * from `bestScore = 0`: the first maximal score, if it is positive.
   */
  function BestIndex(scores: seq<int>): (r: Option<nat>)
    ensures r.Some? ==> FirstArgMax(scores, r.value) && scores[r.value] > 0
    ensures r.None? ==> forall j :: 0 <= j < |scores| ==> scores[j] <= 0
  {
    if scores == [] then None
    else
      var n := |scores| - 1;
      var pre := BestIndex(scores[..n]);
      var bestScore := if pre.Some? then scores[pre.value] else 0;
      assert forall j :: 0 <= j < n ==> scores[..n][j] == scores[j];
      if scores[n] > bestScore then Some(n) else pre
  }

  /** With no positive score and a first score that is not negative, that first score is 0 and maximal. */
  lemma NoBestMeansFirst(scores: seq<int>)
    requires scores != [] && BestIndex(scores).None? && scores[0] >= 0
    ensures FirstArgMax(scores, 0) && scores[0] == 0
  {
  }

  /**
   * The loop over the candidates, tracking `best` and `bestScore`; the service
   * and the route run the same loop with their own `scoreCandidate`.
   */
  method PickBest(cands: seq<Candidate>, score: Candidate -> int)
    returns (best: Option<nat>, bestScore: int)
    ensures best == BestIndex(Scores(cands, score))
    ensures best.Some? ==> best.value < |cands| && bestScore == score(cands[best.value])
    ensures best.None? ==> bestScore == 0
  {
    ghost var scores := Scores(cands, score);
    best := None;
    bestScore := 0;
    var i := 0;
    while i < |cands|
      invariant 0 <= i <= |cands|
      invariant best == BestIndex(scores[..i])
      invariant best.Some? ==> best.value < i
      invariant bestScore == if best.Some? then scores[best.value] else 0
    {
      var s := score(cands[i]);
      assert scores[..i + 1][..i] == scores[..i];
      if s > bestScore {
        best := Some(i);
        bestScore := s;
      }
      i := i + 1;
    }
    assert scores[..i] == scores;
  }

  /** The `youtube` field built from a chosen candidate. */
  function RefOf(c: Candidate, score: int): YouTubeRef {
    YouTubeRef(c.videoId, c.title, c.channelId, c.durationSec, score)
  }

  /**
   * The service's choice, with fallback. Since scores are never negative this
   * is always the first candidate of maximal score, with that score as the
   * confidence; no candidates give the null-video shape.
   */
  function ServiceChoice(cands: seq<Candidate>, title: string, artist: string, targetSec: Option<int>): (r: YouTubeRef)
    ensures cands == [] ==> r == NoVideo
    ensures cands != [] ==>
      exists k :: FirstArgMax(Scores(cands, ScoreFor(title, artist, targetSec)), k) &&
        r == RefOf(cands[k], Score(cands[k], title, artist, targetSec))
  {
    var scores := Scores(cands, ScoreFor(title, artist, targetSec));
    match BestIndex(scores)
    case Some(b) =>
      ScoreAt(cands, title, artist, targetSec, b);
      RefOf(cands[b], scores[b])
    case None =>
      if cands == [] then NoVideo
      else
        ScoreAt(cands, title, artist, targetSec, 0);
        NoBestMeansFirst(scores);
        RefOf(cands[0], 0)
  }

  /** When every candidate scores 0 the service still answers with the first one, at confidence 0. */
  lemma FallbackUsesFirstCandidate(cands: seq<Candidate>, title: string, artist: string, targetSec: Option<int>)
    requires cands != []
    requires forall k :: 0 <= k < |cands| ==> Score(cands[k], title, artist, targetSec) == 0
    ensures ServiceChoice(cands, title, artist, targetSec) == RefOf(cands[0], 0)
  {
    var scores := Scores(cands, ScoreFor(title, artist, targetSec));
    var best := BestIndex(scores);
    if best.Some? {
      ScoreAt(cands, title, artist, targetSec, best.value);
    }
  }

  // ---------------------------------------------------------------------
  // The HTTP oracles
  // ---------------------------------------------------------------------

  /** The search call: an error status with its body, or the `id.videoId` of each returned item. */
  datatype SearchResponse = SearchFailed(status: int, body: string) | SearchOk(itemIds: seq<Option<string>>)

  /** A `videos` item: `id`, `snippet.title`, `snippet.channelId`, `snippet.channelTitle`, `contentDetails.duration`. */
  datatype Video = Video(
    id: Option<string>,
    title: Option<string>,
    channelId: Option<string>,
    channelTitle: Option<string>,
    duration: Option<string>)

  /** The video-details call: an error status with its body, or the returned items. */
  datatype VideosResponse = VideosFailed(status: int, body: string) | VideosOk(items: seq<Video>)

  /** `status === 403 && /quota/i.test(body)`. */
  predicate IsQuota(status: int, body: string) {
    status == 403 && Contains(ToLower(body), "quota")
  }

  /** `.filter(Boolean)` on the item ids. */
  function TruthyIds(ids: seq<Option<string>>): (r: seq<string>)
    ensures |r| <= |ids|
    ensures forall k :: 0 <= k < |r| ==> r[k] != ""
    ensures forall k :: 0 <= k < |ids| && Truthy(ids[k]) ==> ids[k].value in r
    ensures forall x :: x in r ==> Some(x) in ids
    decreases |ids|
  {
    if ids == [] then []
    else if Truthy(ids[0]) then [ids[0].value] + TruthyIds(ids[1..])
    else
      assert forall k :: 1 <= k < |ids| ==> ids[k] == ids[1..][k - 1];
      TruthyIds(ids[1..])
  }

  /** `.filter(Boolean).slice(0, 6)`. */
  function VideoIds(ids: seq<Option<string>>): (r: seq<string>)
    ensures |r| <= 6
    ensures forall x :: x in r ==> x != "" && Some(x) in ids
    ensures |TruthyIds(ids)| <= 6 ==> r == TruthyIds(ids)
    ensures r == [] <==> forall k :: 0 <= k < |ids| ==> !Truthy(ids[k])
  {
    var t := TruthyIds(ids);
    assert t != [] ==> t[0] in t;
    if |t| <= 6 then t else t[..6]
  }

  function CandidateOf(v: Video): Candidate {
    Candidate(v.id, v.title, v.channelId, v.channelTitle, ParseIsoDuration(v.duration))
  }

  function Candidates(vs: seq<Video>): (r: seq<Candidate>)
    ensures |r| == |vs|
    ensures forall k :: 0 <= k < |vs| ==> r[k] == CandidateOf(vs[k])
  {
    seq(|vs|, k requires 0 <= k < |vs| => CandidateOf(vs[k]))
  }

  /** `Math.round(ms / 1000)`: the nearest whole second, halves rounded up. */
  function RoundedSeconds(ms: int): (r: int)
    ensures 1000 * r - 500 <= ms < 1000 * r + 500
  {
    (ms + 500) / 1000
  }

  function TargetSeconds(e: Entry): Option<int> {
    match e.durationMs
    case Some(ms) => Some(RoundedSeconds(ms))
    case None => None
  }

  // ---------------------------------------------------------------------
  // mapTimelineToYouTube
  // ---------------------------------------------------------------------

  /** `item.title || item.name || ''` */
  function SongTitle(e: Entry): string {
    Or(e.title, Or(e.name, ""))
  }

  /** The search query: the quoted title when non-empty, the artist and the hint, trimmed. */
  function ServiceQuery(e: Entry): string {
    var title := SongTitle(e);
    Trim((if title != "" then "\"" + title + "\"" else "") + " " + Or(e.artist, "") + " " + Or(e.youtubeHint, ""))
  }

  /** A non-empty title leads the query, in quotes. */
  lemma QueryLeadsWithQuotedTitle(e: Entry)
    requires SongTitle(e) != ""
    ensures |ServiceQuery(e)| >= |SongTitle(e)| + 2
    ensures ServiceQuery(e)[..|SongTitle(e)| + 2] == "\"" + SongTitle(e) + "\""
  {
    var title := SongTitle(e);
    var q := "\"" + title + "\"";
    var t := q + " " + Or(e.artist, "") + " " + Or(e.youtubeHint, "");
    assert t[0] == '"';
    assert t[|title| + 1] == '"' && !IsSpace(t[|title| + 1]);
    var b := SkipSpaceBack(t, 0, |t|);
    assert SkipSpace(t, 0) == 0;
    assert b >= |title| + 2;
    assert ServiceQuery(e) == t[..b];
  }

  /** An entry with no title, artist or hint is searched with the empty query. */
  lemma EmptyQuery(e: Entry)
    requires SongTitle(e) == "" && Or(e.artist, "") == "" && Or(e.youtubeHint, "") == ""
    ensures ServiceQuery(e) == ""
  {
    assert ("" + " " + "" + " " + "") == "  ";
    TrimEmptyIffBlank("  ");
  }

  /** One of the two calls made for `e` answered 403 with a body mentioning the quota. */
  predicate QuotaHit(e: Entry, search: string -> SearchResponse, videos: seq<string> -> VideosResponse) {
    var sr := search(ServiceQuery(e));
    || (sr.SearchFailed? && IsQuota(sr.status, sr.body))
    || (sr.SearchOk? && VideoIds(sr.itemIds) != [] &&
        var vr := videos(VideoIds(sr.itemIds));
        vr.VideosFailed? && IsQuota(vr.status, vr.body))
  }

  /**
   * The `youtube` field for one song, or `None` when the service gives up
   * with a quota error. Any other failure, and a search with no usable ids,
   * leaves the song with the null reference.
   */
  function ServiceRef(e: Entry, search: string -> SearchResponse, videos: seq<string> -> VideosResponse): (r: Option<YouTubeRef>)
    ensures r.None? <==> QuotaHit(e, search, videos)
    ensures (var sr := search(ServiceQuery(e));
      sr.SearchFailed? && !IsQuota(sr.status, sr.body) ==> r == Some(NoVideo))
    ensures (var sr := search(ServiceQuery(e));
      sr.SearchOk? && VideoIds(sr.itemIds) == [] ==> r == Some(NoVideo))
    ensures (var sr := search(ServiceQuery(e));
      (sr.SearchOk? && VideoIds(sr.itemIds) != [] && videos(VideoIds(sr.itemIds)).VideosFailed? && !QuotaHit(e, search, videos))
      ==> r == Some(NoVideo))
  {
    match search(ServiceQuery(e))
    case SearchFailed(status, body) => if IsQuota(status, body) then None else Some(NoVideo)
    case SearchOk(itemIds) =>
      var ids := VideoIds(itemIds);
      if ids == [] then Some(NoVideo)
      else
        match videos(ids)
        case VideosFailed(status, body) =>
          if IsQuota(status, body) then None else Some(ServiceChoice([], SongTitle(e), Or(e.artist, ""), TargetSeconds(e)))
        case VideosOk(items) => Some(ServiceChoice(Candidates(items), SongTitle(e), Or(e.artist, ""), TargetSeconds(e)))
  }

  /** One timeline item after mapping; `None` is the quota error. */
  function ServiceEntry(e: Entry, search: string -> SearchResponse, videos: seq<string> -> VideosResponse): Option<Entry> {
    if !IsSong(e) then Some(e)
    else match ServiceRef(e, search, videos)
      case None => None
      case Some(y) => Some(e.(youtube := Some(y)))
  }

  /** The mapped timeline, or `None` when some song met a quota error. */
  function ServiceTimeline(es: seq<Entry>, search: string -> SearchResponse, videos: seq<string> -> VideosResponse): (r: Option<seq<Entry>>)
    ensures r.Some? <==> forall k :: 0 <= k < |es| ==> ServiceEntry(es[k], search, videos).Some?
    ensures r.Some? ==>
      (|r.value| == |es| && forall k :: 0 <= k < |es| ==> ServiceEntry(es[k], search, videos) == Some(r.value[k]))
  {
    if es == [] then Some([])
    else
      var n := |es| - 1;
      assert forall k :: 0 <= k < n ==> es[..n][k] == es[k];
      match ServiceTimeline(es[..n], search, videos)
      case None => None
      case Some(pre) =>
        match ServiceEntry(es[n], search, videos)
        case None => None
        case Some(x) =>
          ServiceSnoc(es, pre, x, search, videos);
          Some(pre + [x])
  }

  /** Appending the last item's mapping to the mapped prefix maps every item. */
  lemma ServiceSnoc(es: seq<Entry>, pre: seq<Entry>, x: Entry, search: string -> SearchResponse, videos: seq<string> -> VideosResponse)
    requires |es| > 0 && |pre| == |es| - 1
    requires forall k :: 0 <= k < |pre| ==> ServiceEntry(es[k], search, videos) == Some(pre[k])
    requires ServiceEntry(es[|es| - 1], search, videos) == Some(x)
    ensures forall k :: 0 <= k < |es| ==> ServiceEntry(es[k], search, videos) == Some((pre + [x])[k])
  {
    forall k | 0 <= k < |es|
      ensures ServiceEntry(es[k], search, videos) == Some((pre + [x])[k])
    {
      if k < |pre| {
        assert (pre + [x])[k] == pre[k];
      } else {
        assert k == |es| - 1 && (pre + [x])[k] == x;
      }
    }
  }

  /** One more item of the input: the mapped prefix grows by that item's mapping, or the whole fails. */
  lemma ServiceTimelineStep(es: seq<Entry>, i: nat, out: seq<Entry>, search: string -> SearchResponse, videos: seq<string> -> VideosResponse)
    requires i < |es| && ServiceTimeline(es[..i], search, videos) == Some(out)
    ensures ServiceTimeline(es[..i + 1], search, videos) ==
      match ServiceEntry(es[i], search, videos)
      case None => None
      case Some(x) => Some(out + [x])
  {
    var s := es[..i + 1];
    assert |s| - 1 == i && s[..i] == es[..i] && s[i] == es[i];
  }

  /**
   * The output keeps the input's length and order; items that are not songs
   * are pushed unchanged; songs keep every field and gain a `youtube` field.
   */
  lemma ServiceTimelineShape(es: seq<Entry>, search: string -> SearchResponse, videos: seq<string> -> VideosResponse)
    requires ServiceTimeline(es, search, videos).Some?
    ensures |ServiceTimeline(es, search, videos).value| == |es|
    ensures forall k :: 0 <= k < |es| ==>
      var out := ServiceTimeline(es, search, videos).value[k];
      (!IsSong(es[k]) ==> out == es[k]) &&
      (IsSong(es[k]) ==> out.youtube.Some? && out == es[k].(youtube := out.youtube))
  {
    var out := ServiceTimeline(es, search, videos).value;
    forall k | 0 <= k < |es|
      ensures (!IsSong(es[k]) ==> out[k] == es[k]) &&
        (IsSong(es[k]) ==> out[k].youtube.Some? && out[k] == es[k].(youtube := out[k].youtube))
    {
      assert ServiceEntry(es[k], search, videos) == Some(out[k]);
    }
  }

  /** The mapping fails exactly when some song's search or details call hit the quota. */
  lemma ServiceTimelineFails(es: seq<Entry>, search: string -> SearchResponse, videos: seq<string> -> VideosResponse)
    ensures ServiceTimeline(es, search, videos).None? <==>
      exists k :: 0 <= k < |es| && IsSong(es[k]) && ServiceRef(es[k], search, videos).None?
  {
    if ServiceTimeline(es, search, videos).None? {
      var k :| 0 <= k < |es| && ServiceEntry(es[k], search, videos).None?;
      assert IsSong(es[k]) && ServiceRef(es[k], search, videos).None?;
    }
  }

  /** The per-song body of the loop: search, details, best-pick, fallback. */
  method MapSong(e: Entry, search: string -> SearchResponse, videos: seq<string> -> VideosResponse)
    returns (r: Option<YouTubeRef>)
    ensures r == ServiceRef(e, search, videos)
  {
    var title := SongTitle(e);
    var artist := Or(e.artist, "");
    var targetSec := TargetSeconds(e);
    var searchResp := search(ServiceQuery(e));
    if searchResp.SearchFailed? {
      if IsQuota(searchResp.status, searchResp.body) {
        return None;
      }
      return Some(NoVideo);
    }
    var ids := VideoIds(searchResp.itemIds);
    if ids == [] {
      return Some(NoVideo);
    }
    var videosResp := videos(ids);
    var items: seq<Video> := [];
    if videosResp.VideosFailed? {
      if IsQuota(videosResp.status, videosResp.body) {
        return None;
      }
    } else {
      items := videosResp.items;
    }
    var cands := Candidates(items);
    var best, bestScore := PickBest(cands, ScoreFor(title, artist, targetSec));
    if best.None? && |cands| > 0 {
      best := Some(0);
      bestScore := 0;
    }
    if best.Some? {
      r := Some(RefOf(cands[best.value], bestScore));
    } else {
      r := Some(NoVideo);
    }
  }

  /**
   * `mapTimelineToYouTube`: errors for a missing API key, a timeline that is
   * not an array (`None`) and a quota failure; otherwise the mapped timeline.
   */
  method MapTimelineToYouTube(
    apiKey: Option<string>, timeline: Option<seq<Entry>>,
    search: string -> SearchResponse, videos: seq<string> -> VideosResponse)
    returns (r: Result<seq<Entry>, string>)
    ensures !Truthy(apiKey) ==> r == Err("YouTube API key not configured")
    ensures Truthy(apiKey) && timeline.None? ==> r == Err("timeline must be an array")
    ensures Truthy(apiKey) && timeline.Some? ==>
      match ServiceTimeline(timeline.value, search, videos)
      case Some(out) => r == Ok(out)
      case None => r == Err("YouTube quota exceeded")
  {
    if !Truthy(apiKey) {
      return Err("YouTube API key not configured");
    }
    if timeline.None? {
      return Err("timeline must be an array");
    }
    var mapped := MapEntries(timeline.value, search, videos);
    if mapped.None? {
      return Err("YouTube quota exceeded");
    }
    r := Ok(mapped.value);
  }

  /** The loop over the timeline; `None` as soon as a song meets a quota error. */
  method MapEntries(es: seq<Entry>, search: string -> SearchResponse, videos: seq<string> -> VideosResponse)
    returns (r: Option<seq<Entry>>)
    ensures r == ServiceTimeline(es, search, videos)
  {
    var out: seq<Entry> := [];
    var i := 0;
    while i < |es|
      invariant 0 <= i <= |es|
      invariant ServiceTimeline(es[..i], search, videos) == Some(out)
    {
      ServiceTimelineStep(es, i, out, search, videos);
      var item := es[i];
      if !IsSong(item) {
        out := out + [item];
      } else {
        var y := MapSong(item, search, videos);
        if y.None? {
          assert ServiceEntry(es[i], search, videos).None?;
          return None;
        }
        out := out + [item.(youtube := Some(y.value))];
      }
      i := i + 1;
    }
    assert es[..i] == es;
    r := Some(out);
  }
}

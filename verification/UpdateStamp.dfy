/** The update timestamp of a generated export: put in when the content changes, ignored when comparing. */
module UpdateStamp {
  import opened Options

  const MARK: string := "Last updated: "

  predicate IsBreak(s: string, i: nat) {
    i + 1 < |s| && s[i] == '\n' && s[i + 1] == '\n'
  }

  /** The first blank line at or after `from`. */
  function FindBreak(s: string, from: nat): (r: Option<nat>)
    ensures r.Some? ==> from <= r.value && IsBreak(s, r.value)
    ensures forall i :: from <= i && (r.None? || i < r.value) ==> !IsBreak(s, i)
    decreases |s| - from
  {
    if from >= |s| then None
    else if IsBreak(s, from) then Some(from)
    else FindBreak(s, from + 1)
  }

  /** The end of the line that `from` is in. */
  function LineEnd(s: string, from: nat): (e: nat)
    requires from <= |s|
    ensures from <= e <= |s| && (e < |s| ==> s[e] == '\n')
    ensures forall i :: from <= i < e ==> s[i] != '\n'
    decreases |s| - from
  {
    if from == |s| || s[from] == '\n' then from else LineEnd(s, from + 1)
  }

  predicate IsLineStart(s: string, i: nat) {
    i <= |s| && (i == 0 || s[i - 1] == '\n')
  }

  /** There is a timestamp line at `i`, followed by a blank line. */
  predicate IsStampAt(s: string, i: nat) {
    && i + |MARK| <= |s| && IsLineStart(s, i) && s[i..i + |MARK|] == MARK
    && LineEnd(s, i + |MARK|) > i + |MARK|
    && IsBreak(s, LineEnd(s, i + |MARK|))
  }

  /** `re.search` for the first timestamp line. */
  function FindStamp(s: string, from: nat): (r: Option<nat>)
    ensures r.Some? ==> from <= r.value && IsStampAt(s, r.value)
    ensures forall i :: from <= i && (r.None? || i < r.value) ==> !IsStampAt(s, i)
    decreases |s| - from
  {
    if from >= |s| then None
    else if IsStampAt(s, from) then Some(from)
    else FindStamp(s, from + 1)
  }

  /** `previous` without its first timestamp line. */
  function Unstamped(previous: string): Option<string> {
    match FindStamp(previous, 0)
    case None => None
    case Some(i) => Some(previous[..i] + previous[LineEnd(previous, i + |MARK|) + 2..])
  }

  /** Where the title ends and where the summary ends; None when the content has fewer than three parts. */
  function Parts(content: string): (r: Option<(nat, nat)>)
    ensures r.Some? ==>
              && r.value.0 + 2 <= r.value.1 && IsBreak(content, r.value.0) && IsBreak(content, r.value.1)
              && (forall i :: 0 <= i < r.value.0 || r.value.0 + 2 <= i < r.value.1 ==> !IsBreak(content, i))
  {
    match FindBreak(content, 0)
    case None => None
    case Some(t) =>
      match FindBreak(content, t + 2)
      case None => None
      case Some(u) => Some((t, u))
  }

  function StampLine(now: string): string {
    MARK + now + "\n\n"
  }

  /** The content with a timestamp line after its summary; None is the `ValueError` of the unpacking. */
  function Stamped(content: string, now: string): (r: Option<string>)
    ensures r.Some? <==> Parts(content).Some?
  {
    match Parts(content)
    case None => None
    case Some((_, u)) => Some(content[..u + 2] + StampLine(now) + content[u + 2..])
  }

  /** `with_update_timestamp`. */
  function Regenerated(previous: Option<string>, content: string, now: string): Option<string> {
    if previous.Some? && Unstamped(previous.value) == Some(content) then previous
    else Stamped(content, now)
  }

  // ---------------------------------------------------------------- when the round trip holds

  predicate IsTimestamp(now: string) {
    now != "" && '\n' !in now
  }

  /** From `i` on, the text is one timestamp line. */
  predicate IsStampTail(text: string, i: nat) {
    i + |MARK| < |text| && IsLineStart(text, i) && text[i..i + |MARK|] == MARK &&
    forall k :: i <= k < |text| ==> text[k] != '\n'
  }

  /** The last line of the text is itself a timestamp line. */
  predicate EndsInStamp(text: string) {
    exists i :: 0 <= i < |text| && IsStampTail(text, i)
  }

  /** Neither the title nor the summary ends in a timestamp line of its own. */
  predicate Unambiguous(content: string)
    requires Parts(content).Some?
  {
    var (t, u) := Parts(content).value;
    !EndsInStamp(content[..t]) && !EndsInStamp(content[t + 2..u])
  }

  /** Where a timestamp line that starts before the end of the summary must end. */
  lemma EarlyStampEnds(content: string, previous: string, s: nat)
    requires Parts(content).Some? && s < Parts(content).value.1 + 2
    requires content[..Parts(content).value.1 + 2] <= previous && IsStampAt(previous, s)
    ensures var (t, u) := Parts(content).value;
            var e := LineEnd(previous, s + |MARK|);
            (e == t || e == u) && (e == u ==> t + 2 <= s) && s + |MARK| < e
  {
    var (t, u) := Parts(content).value;
    var e := LineEnd(previous, s + |MARK|);
    MarkHasNoBreak(previous, s);
    assert forall i :: 0 <= i < u + 2 ==> previous[i] == content[i];
    assert previous[u] == '\n' && previous[u + 1] == '\n' && previous[t] == '\n' && previous[t + 1] == '\n';
    assert e <= u;
    assert IsBreak(content, e);
  }

  /** A timestamp line before the inserted one is the last line of the title or of the summary. */
  lemma EarlyStamp(content: string, previous: string, s: nat)
    requires Parts(content).Some? && s < Parts(content).value.1 + 2
    requires content[..Parts(content).value.1 + 2] <= previous && IsStampAt(previous, s)
    ensures !Unambiguous(content)
  {
    var (t, u) := Parts(content).value;
    var e := LineEnd(previous, s + |MARK|);
    EarlyStampEnds(content, previous, s);
    MarkHasNoBreak(previous, s);
    if e == t {
      TailOfPart(content, previous, s, 0, t);
    } else {
      TailOfPart(content, previous, s, t + 2, u);
    }
  }

  lemma TailOfPart(content: string, previous: string, s: nat, from: nat, end: nat)
    requires from <= s && s + |MARK| < end <= |content| && content[..end] <= previous
    requires IsStampAt(previous, s) && LineEnd(previous, s + |MARK|) == end
    ensures EndsInStamp(content[from..end])
  {
    hide LineEnd;
    MarkHasNoBreak(previous, s);
    var part := content[from..end];
    var k := s - from;
    assert forall i :: 0 <= i < end ==> previous[i] == content[i];
    assert part[k..k + |MARK|] == previous[s..s + |MARK|];
    assert IsStampTail(part, k);
  }

  /** And such a last line is found where it is. */
  lemma TailIsStamp(content: string, previous: string, from: nat, end: nat, k: nat)
    requires from <= end && end + 2 <= |content| && content[..end + 2] <= previous && IsBreak(content, end)
    requires from == 0 || (from > 1 && content[from - 1] == '\n')
    requires k < end - from && IsStampTail(content[from..end], k)
    ensures IsStampAt(previous, from + k) && LineEnd(previous, from + k + |MARK|) == end
  {
    var s := from + k;
    var part := content[from..end];
    assert forall i :: 0 <= i < end + 2 ==> previous[i] == content[i];
    assert forall i :: s <= i < end ==> previous[i] == part[i - from];
    assert part[k..k + |MARK|] == MARK;
    assert previous[s..s + |MARK|] == part[k..k + |MARK|];
    LineEndIs(previous, s + |MARK|, end);
  }

  lemma LineEndIs(s: string, from: nat, end: nat)
    requires from <= end < |s| && s[end] == '\n' && forall i :: from <= i < end ==> s[i] != '\n'
    ensures LineEnd(s, from) == end
  {
  }

  /** The whole timestamp line is free of newlines. */
  lemma MarkHasNoBreak(s: string, i: nat)
    requires IsStampAt(s, i)
    ensures forall k :: i <= k < LineEnd(s, i + |MARK|) ==> s[k] != '\n'
  {
    forall k | i <= k < i + |MARK| ensures s[k] != '\n' {
      assert s[k] == MARK[k - i];
    }
  }

  /** The inserted line is a timestamp line. */
  lemma InsertedIsStamp(content: string, now: string)
    requires Parts(content).Some? && IsTimestamp(now)
    ensures var p := Parts(content).value.1 + 2;
            var previous := Stamped(content, now).value;
            && content[..p] <= previous && IsStampAt(previous, p)
            && LineEnd(previous, p + |MARK|) == p + |MARK| + |now|
            && content == previous[..p] + previous[p + |MARK| + |now| + 2..]
  {
    var p := Parts(content).value.1 + 2;
    assert content[p - 1] == '\n';
    InsertedLine(content[..p], now, content[p..]);
    hide Parts, IsStampAt, LineEnd;
    assert Stamped(content, now).value == content[..p] + StampLine(now) + content[p..];
    assert content == content[..p] + content[p..];
  }

  lemma InsertedLine(before: string, now: string, rest: string)
    requires before != "" && before[|before| - 1] == '\n' && IsTimestamp(now)
    ensures var p := |before|;
            var text := before + StampLine(now) + rest;
            && IsStampAt(text, p) && LineEnd(text, p + |MARK|) == p + |MARK| + |now|
            && text[..p] == before && text[p + |MARK| + |now| + 2..] == rest
  {
    var p := |before|;
    var text := before + StampLine(now) + rest;
    assert text[p..p + |MARK|] == MARK;
    assert forall i :: 0 <= i < |now| ==> text[p + |MARK| + i] == now[i];
    assert text[p + |MARK| + |now|] == '\n' == text[p + |MARK| + |now| + 1];
    LineEndIs(text, p + |MARK|, p + |MARK| + |now|);
  }

  /**
   * Stripping what stamping put in gives back the content, whatever the timestamp, exactly when the title and the
   * summary do not themselves end in a timestamp line.
   */
  lemma RoundTripIff(content: string, now: string, other: string)
    requires Parts(content).Some? && IsTimestamp(now) && IsTimestamp(other) && now != other
    ensures Unambiguous(content) <==>
            && Unstamped(Stamped(content, now).value) == Some(content)
            && Unstamped(Stamped(content, other).value) == Some(content)
  {
    if Unambiguous(content) {
      RoundTrip(content, now);
      RoundTrip(content, other);
    } else {
      EarlierIsRemoved(content, now, other);
    }
  }

  lemma RoundTrip(content: string, now: string)
    requires Parts(content).Some? && IsTimestamp(now) && Unambiguous(content)
    ensures Unstamped(Stamped(content, now).value) == Some(content)
  {
    hide *;
    var p := Parts(content).value.1 + 2;
    var previous := Stamped(content, now).value;
    InsertedIsStamp(content, now);
    InsertedIsFirst(content, previous);
    UnstampedIs(previous, p, p + |MARK| + |now| + 2);
  }

  /** Nothing before the end of an unambiguous summary is a timestamp line. */
  lemma InsertedIsFirst(content: string, previous: string)
    requires Parts(content).Some? && Unambiguous(content)
    requires content[..Parts(content).value.1 + 2] <= previous && IsStampAt(previous, Parts(content).value.1 + 2)
    ensures FindStamp(previous, 0) == Some(Parts(content).value.1 + 2)
  {
    hide *;
    var found := FindStamp(previous, 0);
    if found.value < Parts(content).value.1 + 2 {
      EarlyStamp(content, previous, found.value);
    }
  }

  /** The first stamp before the inserted one is the same whatever is inserted. */
  lemma SameEarlyStamp(content: string, a: string, b: string, s: nat)
    requires Parts(content).Some? && s < Parts(content).value.1 + 2
    requires content[..Parts(content).value.1 + 2] <= a && content[..Parts(content).value.1 + 2] <= b
    requires IsStampAt(a, s)
    ensures IsStampAt(b, s) && LineEnd(b, s + |MARK|) == LineEnd(a, s + |MARK|) < Parts(content).value.1 + 1
  {
    var e := LineEnd(a, s + |MARK|);
    var p := Parts(content).value.1 + 2;
    EarlyStampEnds(content, a, s);
    assert forall i :: 0 <= i < p ==> a[i] == content[i] == b[i];
    assert a[s..s + |MARK|] == b[s..s + |MARK|];
    LineEndIs(b, s + |MARK|, e);
  }

  /** A title or summary that ends in a timestamp line makes one appear before the inserted one. */
  lemma EarlyStampExists(content: string, previous: string) returns (s: nat)
    requires Parts(content).Some? && !Unambiguous(content)
    requires content[..Parts(content).value.1 + 2] <= previous
    ensures s < Parts(content).value.1 + 2 && IsStampAt(previous, s)
  {
    hide IsStampAt, IsStampTail, LineEnd, Parts;
    var (t, u) := Parts(content).value;
    if EndsInStamp(content[..t]) {
      assert content[0..t] == content[..t];
      var k :| 0 <= k < t && IsStampTail(content[..t], k);
      assert content[..t + 2] <= previous by { assert previous[..t + 2] == content[..u + 2][..t + 2]; }
      TailIsStamp(content, previous, 0, t, k);
      s := k;
    } else {
      var k :| 0 <= k < u - (t + 2) && IsStampTail(content[t + 2..u], k);
      TailIsStamp(content, previous, t + 2, u, k);
      s := t + 2 + k;
    }
  }

  /** With a timestamp line of its own, the content keeps the inserted one: two different ones cannot both vanish. */
  lemma EarlierIsRemoved(content: string, now: string, other: string)
    requires Parts(content).Some? && IsTimestamp(now) && IsTimestamp(other) && now != other && !Unambiguous(content)
    ensures Unstamped(Stamped(content, now).value) != Some(content) ||
            Unstamped(Stamped(content, other).value) != Some(content)
  {
    var p := Parts(content).value.1 + 2;
    var a, b := Stamped(content, now).value, Stamped(content, other).value;
    assert a == content[..p] + StampLine(now) + content[p..];
    assert b == content[..p] + StampLine(other) + content[p..];
    hide *;
    InsertedIsStamp(content, now);
    InsertedIsStamp(content, other);
    var s := FirstStampsAgree(content, a, b);
    var e := LineEnd(a, s + |MARK|) + 2;
    DifferentInserts(content[..p], content[p..], now, other, s, e);
    UnstampedIs(a, s, e);
    UnstampedIs(b, s, e);
  }

  lemma UnstampedIs(previous: string, s: nat, e: nat)
    requires FindStamp(previous, 0) == Some(s) && e == LineEnd(previous, s + |MARK|) + 2
    ensures e <= |previous| && Unstamped(previous) == Some(previous[..s] + previous[e..])
  {
  }

  lemma FirstStampsAgree(content: string, a: string, b: string) returns (s: nat)
    requires Parts(content).Some? && !Unambiguous(content)
    requires content[..Parts(content).value.1 + 2] <= a && content[..Parts(content).value.1 + 2] <= b
    ensures FindStamp(a, 0) == FindStamp(b, 0) == Some(s)
    ensures s + |MARK| <= |a| && s + |MARK| <= |b|
    ensures LineEnd(a, s + |MARK|) == LineEnd(b, s + |MARK|) <= Parts(content).value.1
  {
    hide *;
    var inA := EarlyStampExists(content, a);
    var inB := EarlyStampExists(content, b);
    s := FindStamp(a, 0).value;
    SameEarlyStamp(content, a, b, s);
    SameEarlyStamp(content, b, a, FindStamp(b, 0).value);
    StampFits(a, s);
    StampFits(b, s);
  }

  lemma StampFits(s: string, i: nat)
    requires IsStampAt(s, i)
    ensures i + |MARK| <= |s|
  {
  }

  lemma DifferentInserts(head: string, tail: string, now: string, other: string, s: nat, e: nat)
    requires s <= e <= |head| && now != other
    ensures var a := head + StampLine(now) + tail;
            var b := head + StampLine(other) + tail;
            a[..s] + a[e..] != b[..s] + b[e..]
  {
    var a := head + StampLine(now) + tail;
    var b := head + StampLine(other) + tail;
    var ra, rb := a[..s] + a[e..], b[..s] + b[e..];
    if |now| == |other| {
      var i :| 0 <= i < |now| && now[i] != other[i];
      var k := |head| + |MARK| + i;
      assert a[k] == now[i] && b[k] == other[i];
      assert ra[s + k - e] == a[k] && rb[s + k - e] == b[k];
    } else {
      assert |ra| == |a| - (e - s) && |rb| == |b| - (e - s);
    }
  }

  /** Regenerating unchanged content over its own output changes nothing, whenever it is done. */
  lemma RegenerationIsStable(content: string, now: string, later: string)
    requires Parts(content).Some? && IsTimestamp(now) && Unambiguous(content)
    ensures Regenerated(Stamped(content, now), content, later) == Stamped(content, now)
  {
    RoundTrip(content, now);
  }

  /** Ambiguous content gets a new timestamp on some run although it did not change. */
  lemma AmbiguousContentIsRestamped(content: string, now: string, other: string)
    requires Parts(content).Some? && IsTimestamp(now) && IsTimestamp(other) && now != other
    ensures Unambiguous(content) <==>
            && Regenerated(Stamped(content, now), content, other) == Stamped(content, now)
            && Regenerated(Stamped(content, other), content, now) == Stamped(content, other)
  {
    RoundTripIff(content, now, other);
    StampsDiffer(content, now, other);
  }

  lemma StampsDiffer(content: string, now: string, other: string)
    requires Parts(content).Some? && now != other
    ensures Stamped(content, now) != Stamped(content, other)
  {
    var p := Parts(content).value.1 + 2;
    DifferentInserts(content[..p], content[p..], now, other, 0, 0);
    var a, b := Stamped(content, now).value, Stamped(content, other).value;
    assert a[..0] + a[0..] == a && b[..0] + b[0..] == b;
  }

  /** An export is stamped again whenever its content differs from what the last output was made of. */
  lemma ChangedContentIsRestamped(content: string, changed: string, now: string, later: string)
    requires Parts(content).Some? && IsTimestamp(now) && Unambiguous(content) && changed != content
    ensures Regenerated(Stamped(content, now), changed, later) == Stamped(changed, later)
  {
    RoundTrip(content, now);
  }

  /** A one-line title and a one-line summary are the first two parts. */
  lemma HeadedParts(title: string, summary: string, body: string)
    requires '\n' !in title && '\n' !in summary
    ensures var content := title + "\n\n" + summary + "\n\n" + body;
            var u := |title| + 2 + |summary|;
            Parts(content) == Some((|title|, u)) && content[..|title|] == title && content[|title| + 2..u] == summary
  {
    var content := title + "\n\n" + summary + "\n\n" + body;
    var t, u := |title|, |title| + 2 + |summary|;
    assert forall i :: 0 <= i < t ==> content[i] == title[i];
    assert forall i :: t + 2 <= i < u ==> content[i] == summary[i - (t + 2)];
    assert IsBreak(content, t) && IsBreak(content, u);
    assert Parts(content) == Some((t, u));
  }

  /** The line that a stamp puts in comes right after the summary. */
  lemma StampsAfterSummary(title: string, summary: string, body: string, now: string)
    requires '\n' !in title && '\n' !in summary
    ensures Stamped(title + "\n\n" + summary + "\n\n" + body, now) ==
            Some(title + "\n\n" + summary + "\n\n" + "Last updated: " + now + "\n\n" + body)
  {
    var head := title + "\n\n" + summary + "\n\n";
    HeadedParts(title, summary, body);
    assert (head + body)[..|head|] == head && (head + body)[|head|..] == body;
    assert head + StampLine(now) + body == head + "Last updated: " + now + "\n\n" + body;
    hide Parts;
  }

  /** Both exports open with a heading line and a quoted line, so their regeneration is stable. */
  lemma HeadedContentIsUnambiguous(title: string, summary: string, body: string)
    requires '\n' !in title && '\n' !in summary && !(MARK <= title) && !(MARK <= summary)
    ensures var content := title + "\n\n" + summary + "\n\n" + body;
            Parts(content) == Some((|title|, |title| + 2 + |summary|)) && Unambiguous(content)
  {
    HeadedParts(title, summary, body);
    OneLineEndsInStampIff(title);
    OneLineEndsInStampIff(summary);
  }

  lemma OneLineEndsInStampIff(line: string)
    requires '\n' !in line && !(MARK <= line)
    ensures !EndsInStamp(line)
  {
    assert |MARK| <= |line| ==> line[..|MARK|] == line[0..|MARK|];
  }

  /** Content whose summary is a timestamp line, for one, is ambiguous. */
  lemma StampSummaryIsAmbiguous(title: string, date: string, body: string)
    requires '\n' !in title && IsTimestamp(date)
    ensures var content := title + "\n\n" + (MARK + date) + "\n\n" + body;
            Parts(content).Some? && !Unambiguous(content)
  {
    var summary := MARK + date;
    HeadedParts(title, summary, body);
    assert summary[0..|MARK|] == MARK;
    assert IsStampTail(summary, 0);
  }
}

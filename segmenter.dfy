/** The time-coding of a one-minute short: `split_script_to_segments` cuts a
    script into exactly five slots (a hook, three points and a call to
    action) on a fixed 8/15/15/15/7-second schedule. */
module Segmenter {
  import opened Text

  datatype Role = Hook | Point1 | Point2 | Point3 | Cta {
    /** The `role` value stored in the segment. */
    function Name(): string {
      match this
      case Hook => "hook"
      case Point1 => "point1"
      case Point2 => "point2"
      case Point3 => "point3"
      case Cta => "cta"
    }
  }

  /** `f'point{i+1}'` for the three points. */
  function PointRole(i: nat): Role
    requires i < 3
  {
    [Point1, Point2, Point3][i]
  }

  /** Different roles are stored under different names. */
  lemma NamesDistinct(a: Role, b: Role)
    requires a != b
    ensures a.Name() != b.Name()
  {
  }

  /** One slot of the short: the segment dict with its five keys, all in seconds. */
  datatype Segment = Segment(role: Role, text: string, duration: nat, start: nat, end: nat)

  const HookSeconds: nat := 8
  const PointSeconds: nat := 15
  const CtaSeconds: nat := 7

  // ---------------------------------------------------------- specification

  /** The script's non-empty stripped lines. */
  function Lines(script: string): seq<string> {
    Clean(Split(script, '\n'))
  }

  /** `parts[0] if parts else ""`: the first line, or "" when there is none. */
  function HookOf(parts: seq<string>): (r: string)
    ensures parts != [] ==> parts == [r] + parts[1..]
    ensures parts == [] ==> r == ""
  {
    if |parts| > 0 then parts[0] else ""
  }

  /** `parts[1:-1] if len(parts) > 2 else parts[1:]`: with three or more
      lines, everything strictly between the hook and the call to action;
      with exactly two, the second line, which is also the call to action;
      with one or none, nothing. */
  function MiddleOf(parts: seq<string>): (r: seq<string>)
    ensures |parts| > 2 ==> parts == [HookOf(parts)] + r + [CtaOf(parts)]
    ensures |parts| == 2 ==> r == [CtaOf(parts)]
    ensures |parts| <= 1 ==> r == []
  {
    if |parts| > 2 then
      assert parts == [parts[0]] + parts[1..|parts| - 1] + [parts[|parts| - 1]];
      parts[1..|parts| - 1]
    else if |parts| > 0 then parts[1..]
    else []
  }

  /** `parts[-1] if len(parts) > 1 else ""`: the last line, but only when it
      is not also the first. */
  function CtaOf(parts: seq<string>): (r: string)
    ensures |parts| > 1 ==> parts == parts[..|parts| - 1] + [r]
    ensures |parts| <= 1 ==> r == ""
  {
    if |parts| > 1 then parts[|parts| - 1] else ""
  }

  /** The '.'-pieces of one middle line, stripped, empty ones dropped.  Unlike
      the summaries the lines are not searched for newlines (they have none). */
  function Pieces(line: string): seq<string> {
    Clean(Split(line, '.'))
  }

  /** All pieces of the middle lines, in line order then piece order. */
  function PointSentences(middle: seq<string>): seq<string> {
    if |middle| == 0 then []
    else PointSentences(middle[..|middle| - 1]) + Pieces(middle[|middle| - 1])
  }

  /** `xs` padded with empty strings up to length `n`. */
  function PadTo(xs: seq<string>, n: nat): (r: seq<string>)
    ensures |r| == if |xs| < n then n else |xs|
    ensures r[..|xs|] == xs
    ensures forall k :: |xs| <= k < |r| ==> r[k] == ""
    decreases n - |xs|
  {
    if |xs| >= n then xs else PadTo(xs + [""], n)
  }

  /** The three point texts: the first three pieces, padded with "". */
  function PointsOf(middle: seq<string>): (r: seq<string>)
    ensures |r| == 3
    ensures forall k :: 0 <= k < 3 ==>
      r[k] == if k < |PointSentences(middle)| then PointSentences(middle)[k] else ""
  {
    var ps := PointSentences(middle);
    var t := Take(ps, 3);
    var r := PadTo(t, 3);
    assert forall k :: 0 <= k < |t| ==> r[k] == r[..|t|][k] == ps[k];
    r
  }

  /** The five slots before timing: roles, texts and durations. */
  function Slots(script: string): seq<Segment> {
    var parts := Lines(script);
    SlotsOf(HookOf(parts), PointsOf(MiddleOf(parts)), CtaOf(parts))
  }

  /** The five slots for a hook, three points and a call to action. */
  function SlotsOf(hook: string, points: seq<string>, cta: string): seq<Segment>
    requires |points| == 3
  {
    [Segment(Hook, hook, HookSeconds, 0, 0),
     Segment(Point1, points[0], PointSeconds, 0, 0),
     Segment(Point2, points[1], PointSeconds, 0, 0),
     Segment(Point3, points[2], PointSeconds, 0, 0),
     Segment(Cta, cta, CtaSeconds, 0, 0)]
  }

  /** Each slot starts where the previous one ended, the first at `cur`. */
  function Timed(segs: seq<Segment>, cur: nat): seq<Segment> {
    if |segs| == 0 then []
    else
      var s := segs[0];
      [s.(start := cur, end := cur + s.duration)] + Timed(segs[1..], cur + s.duration)
  }

  /** What `split_script_to_segments` returns, for every script: five
      segments hook, point1, point2, point3, cta, of 8, 15, 15, 15 and 7
      seconds, starting at 0, 8, 23, 38 and 53, each starting where the
      previous one ended, the last ending at 60. */
  function SegmentsOf(script: string): (r: seq<Segment>)
    ensures |r| == 5
    ensures r[0].role == Hook && r[1].role == Point1 && r[2].role == Point2 && r[3].role == Point3 && r[4].role == Cta
    ensures r[0].duration == 8 && r[1].duration == 15 && r[2].duration == 15 && r[3].duration == 15 && r[4].duration == 7
    ensures r[0].start == 0 && r[1].start == 8 && r[2].start == 23 && r[3].start == 38 && r[4].start == 53
    ensures forall k :: 0 < k < 5 ==> r[k].start == r[k - 1].end
    ensures forall k :: 0 <= k < 5 ==> r[k].end == r[k].start + r[k].duration
    ensures r[4].end == 60
  {
    var parts := Lines(script);
    SlotsShape(HookOf(parts), PointsOf(MiddleOf(parts)), CtaOf(parts));
    ScheduleOf(Slots(script));
    Timed(Slots(script), 0)
  }

  // ---------------------------------------------------------- properties

  /** Timing keeps role, text and duration, starts at `cur`, chains every
      start to the previous end and makes each end its start plus its duration. */
  lemma {:induction false} TimedSpec(segs: seq<Segment>, cur: nat)
    ensures |Timed(segs, cur)| == |segs|
    ensures forall k :: 0 <= k < |segs| ==>
      Timed(segs, cur)[k].role == segs[k].role && Timed(segs, cur)[k].text == segs[k].text &&
      Timed(segs, cur)[k].duration == segs[k].duration &&
      Timed(segs, cur)[k].end == Timed(segs, cur)[k].start + segs[k].duration
    ensures |segs| > 0 ==> Timed(segs, cur)[0].start == cur
    ensures forall k :: 0 < k < |segs| ==> Timed(segs, cur)[k].start == Timed(segs, cur)[k - 1].end
  {
    if |segs| > 0 {
      var s := segs[0];
      TimedSpec(segs[1..], cur + s.duration);
    }
  }

  /** The five slots carry the fixed roles and durations. */
  lemma SlotsShape(hook: string, points: seq<string>, cta: string)
    requires |points| == 3
    ensures var s := SlotsOf(hook, points, cta);
      |s| == 5 &&
      s[0].role == Hook && s[1].role == Point1 && s[2].role == Point2 && s[3].role == Point3 && s[4].role == Cta &&
      s[0].duration == 8 && s[1].duration == 15 && s[2].duration == 15 && s[3].duration == 15 && s[4].duration == 7
  {
  }

  lemma ScheduleOf(s: seq<Segment>)
    requires |s| == 5
    requires s[0].role == Hook && s[1].role == Point1 && s[2].role == Point2 && s[3].role == Point3 && s[4].role == Cta
    requires s[0].duration == 8 && s[1].duration == 15 && s[2].duration == 15 && s[3].duration == 15 && s[4].duration == 7
    ensures var r := Timed(s, 0);
      |r| == 5 &&
      r[0].role == Hook && r[1].role == Point1 && r[2].role == Point2 && r[3].role == Point3 && r[4].role == Cta &&
      r[0].duration == 8 && r[1].duration == 15 && r[2].duration == 15 && r[3].duration == 15 && r[4].duration == 7 &&
      r[0].start == 0 && r[1].start == 8 && r[2].start == 23 && r[3].start == 38 && r[4].start == 53 &&
      (forall k :: 0 < k < 5 ==> r[k].start == r[k - 1].end) &&
      (forall k :: 0 <= k < 5 ==> r[k].end == r[k].start + r[k].duration) &&
      r[4].end == 60
  {
    TimedSpec(s, 0);
  }

  /** The texts: the first line is the hook, the first three pieces of the
      middle lines (padded with "") are the points, the last line is the
      call to action. */
  lemma Texts(script: string)
    ensures var r := SegmentsOf(script);
      var parts := Lines(script);
      var ps := PointSentences(MiddleOf(parts));
      |r| == 5 && r[0].text == HookOf(parts) && r[4].text == CtaOf(parts) &&
      forall k :: 0 <= k < 3 ==> r[k + 1].text == if k < |ps| then ps[k] else ""
  {
    var parts := Lines(script);
    var points := PointsOf(MiddleOf(parts));
    SlotTexts(HookOf(parts), points, CtaOf(parts));
    TextsOf(Slots(script));
  }

  lemma SlotTexts(hook: string, points: seq<string>, cta: string)
    requires |points| == 3
    ensures var s := SlotsOf(hook, points, cta);
      |s| == 5 && s[0].text == hook && s[4].text == cta &&
      s[1].text == points[0] && s[2].text == points[1] && s[3].text == points[2]
  {
  }

  lemma TextsOf(s: seq<Segment>)
    ensures var r := Timed(s, 0);
      |r| == |s| && forall k :: 0 <= k < |s| ==> r[k].text == s[k].text
  {
    TimedSpec(s, 0);
  }

  /** Every line is non-empty, stripped and holds no newline. */
  lemma LinesWellFormed(script: string)
    ensures forall k :: 0 <= k < |Lines(script)| ==>
      Lines(script)[k] != [] && IsStripped(Lines(script)[k]) && '\n' !in Lines(script)[k]
  {
    var ps := Split(script, '\n');
    CleanWellFormed(ps);
    CleanAvoids(ps, '\n');
    forall k | 0 <= k < |Clean(ps)|
      ensures IsStripped(Clean(ps)[k])
    {
      assert Clean(ps)[k] == Strip(Clean(ps)[k]);
    }
  }

  lemma PointSentencesLast(m: seq<string>)
    requires |m| > 0
    ensures PointSentences(m) == PointSentences(m[..|m| - 1]) + Pieces(m[|m| - 1])
  {
  }

  /** Pieces of concatenated middles are the concatenated pieces: line order, then piece order. */
  lemma {:induction false} PointSentencesConcat(a: seq<string>, b: seq<string>)
    ensures PointSentences(a + b) == PointSentences(a) + PointSentences(b)
    decreases |b|
  {
    if |b| == 0 {
      assert a + b == a;
    } else {
      var ab := a + b;
      var init := b[..|b| - 1];
      var last := b[|b| - 1];
      assert ab[..|ab| - 1] == a + init;
      assert ab[|ab| - 1] == last;
      PointSentencesLast(ab);
      PointSentencesLast(b);
      PointSentencesConcat(a, init);
      Assoc(PointSentences(a), PointSentences(init), Pieces(last));
    }
  }

  /** Every point text is empty or a non-empty stripped string without '.'. */
  lemma {:induction false} PointSentencesWellFormed(middle: seq<string>)
    ensures forall k :: 0 <= k < |PointSentences(middle)| ==>
      PointSentences(middle)[k] != [] && IsStripped(PointSentences(middle)[k]) && '.' !in PointSentences(middle)[k]
  {
    if |middle| > 0 {
      var ps := Split(middle[|middle| - 1], '.');
      PointSentencesWellFormed(middle[..|middle| - 1]);
      CleanWellFormed(ps);
      CleanAvoids(ps, '.');
    }
  }

  // ---------------------------------------------------------- the procedure

  /** One turn of the collecting loop: a piece is appended exactly while fewer than three are kept. */
  lemma CollectStep(before: seq<string>, sents: seq<string>, j: nat)
    requires j < |sents|
    ensures var points := Take(before + sents[..j], 3);
      Take(before + sents[..j + 1], 3) == if |points| < 3 then points + [sents[j]] else points
  {
    TakeSnoc(before + sents[..j], sents[j], 3);
    assert sents[..j + 1] == sents[..j] + [sents[j]];
    Assoc(before, sents[..j], [sents[j]]);
  }

  /** The pieces of the first `i + 1` middle lines: those of the first `i`, then those of line `i`. */
  lemma CollectLine(middle: seq<string>, i: nat)
    requires i < |middle|
    ensures PointSentences(middle[..i + 1]) == PointSentences(middle[..i]) + Pieces(middle[i])
  {
    assert middle[..i + 1][..i] == middle[..i] && middle[..i + 1][i] == middle[i];
    PointSentencesLast(middle[..i + 1]);
  }

  lemma WholePrefix<T>(s: seq<T>)
    ensures s[..|s|] == s
  {
  }

  lemma EmptyPrefix<T>(a: seq<T>, s: seq<T>)
    ensures a + s[..0] == a
  {
  }

  /** The point-collecting loops of `split_script_to_segments`: every piece of
      every middle line is appended while fewer than three are kept, then the
      list is padded with "" up to three. */
  method CollectPoints(middle: seq<string>) returns (points: seq<string>)
    ensures points == PointsOf(middle)
  {
    points := [];
    var i := 0;
    while i < |middle|
      invariant 0 <= i <= |middle|
      invariant points == Take(PointSentences(middle[..i]), 3)
    {
      var sents := Pieces(middle[i]);
      ghost var before := PointSentences(middle[..i]);
      var j := 0;
      EmptyPrefix(before, sents);
      while j < |sents|
        invariant 0 <= j <= |sents|
        invariant points == Take(before + sents[..j], 3)
      {
        CollectStep(before, sents, j);
        if |points| < 3 {
          points := points + [sents[j]];
        }
        j := j + 1;
      }
      CollectLine(middle, i);
      WholePrefix(sents);
      i := i + 1;
    }
    WholePrefix(middle);
    while |points| < 3
      invariant |points| <= 3
      invariant PadTo(points, 3) == PointsOf(middle)
      decreases 3 - |points|
    {
      points := points + [""];
    }
  }

  /** The five appends of `split_script_to_segments`: the hook, the three
      points in order, the call to action, each with its duration. */
  method AppendSlots(hook: string, points: seq<string>, cta: string) returns (segs: seq<Segment>)
    requires |points| == 3
    ensures segs == SlotsOf(hook, points, cta)
  {
    segs := [Segment(Hook, hook, HookSeconds, 0, 0)];
    for n := 0 to 3
      invariant |segs| == n + 1 && segs[0] == Segment(Hook, hook, HookSeconds, 0, 0)
      invariant forall k :: 0 <= k < n ==> segs[k + 1] == Segment(PointRole(k), points[k], PointSeconds, 0, 0)
    {
      segs := segs + [Segment(PointRole(n), points[n], PointSeconds, 0, 0)];
    }
    segs := segs + [Segment(Cta, cta, CtaSeconds, 0, 0)];
  }

  lemma TimedFirst(segs: seq<Segment>, cur: nat)
    requires |segs| > 0
    ensures Timed(segs, cur)
         == [segs[0].(start := cur, end := cur + segs[0].duration)] + Timed(segs[1..], cur + segs[0].duration)
  {
  }

  /** The timing loop of `split_script_to_segments`: the running time `cur`
      starts at 0; each slot in turn gets `start := cur` and
      `end := cur + duration`, written in place, and `cur` moves to its end. */
  method AssignTimes(slots: seq<Segment>) returns (segs: seq<Segment>)
    ensures segs == Timed(slots, 0)
  {
    segs := slots;
    var cur: nat := 0;
    var k := 0;
    while k < |segs|
      invariant 0 <= k <= |segs| == |slots|
      invariant segs[..k] + Timed(slots[k..], cur) == Timed(slots, 0)
      invariant segs[k..] == slots[k..]
    {
      var s := segs[k];
      ghost var before := segs[..k];
      TimedFirst(slots[k..], cur);
      assert slots[k..][0] == s && slots[k..][1..] == slots[k + 1..];
      s := s.(start := cur, end := cur + s.duration);
      segs := segs[k := s];
      assert segs[..k + 1] == before + [s];
      assert segs[k + 1..] == slots[k + 1..];
      Assoc(before, [s], Timed(slots[k + 1..], s.end));
      cur := s.end;
      k := k + 1;
    }
    assert segs[..k] == segs;
  }

  /** `split_script_to_segments`: cut the script into lines, pick the hook,
      the middle lines and the call to action, collect the points, append
      the five slots and time them.  `lang` is accepted and, as in the
      script, never consulted. */
  method SplitScriptToSegments(scriptText: string, lang: string) returns (segs: seq<Segment>)
    ensures segs == SegmentsOf(scriptText)
  {
    var parts := Lines(scriptText);
    var hook := if |parts| > 0 then parts[0] else "";
    var middle := if |parts| > 2 then parts[1..|parts| - 1] else if |parts| > 0 then parts[1..] else [];
    var cta := if |parts| > 1 then parts[|parts| - 1] else "";
    var points := CollectPoints(middle);
    var slots := AppendSlots(hook, points, cta);
    segs := AssignTimes(slots);
  }
}

/** The three deterministic synthesizers used whenever external generation
    is not available or fails.  Each one reads the summary's sentences
    (`Text.Sentences`) and fills a fixed template; the language test is
    `lang.startswith("vi")`, anything else gets the English wording. */
module Fallback {
  import opened Text
  import opened Prompts

  // ---------------------------------------------------------------- long

  const IntroTail: string := " là một chủ đề lịch sử thú vị."

  /** Intro used when the summary has no sentence; Vietnamese in both languages. */
  function DefaultIntro(topic: string): string {
    topic + IntroTail
  }

  const LongCtaVi: string := "Nếu bạn muốn tìm hiểu " + "sâu hơn, hãy theo dõi kênh " + "để xem các video tiếp theo"
  const LongCtaEn: string := "If you want to learn more, " + "subscribe for future videos"

  /** The long script's closing call to action, without its final '.'. */
  function LongCtaBody(lang: string): string {
    if LocaleOf(lang) == Vi then LongCtaVi else LongCtaEn
  }

  function LongCta(lang: string): string {
    LongCtaBody(lang) + "."
  }

  lemma LongCtaIsSentence(lang: string)
    ensures IsSentence(LongCtaBody(lang))
  {
    if LocaleOf(lang) == Vi {
      LongCtaViIsSentence(LongCtaVi);
    } else {
      LongCtaEnIsSentence(LongCtaEn);
    }
  }

  lemma LongCtaViIsSentence(r: string)
    requires r == "Nếu bạn muốn tìm hiểu " + "sâu hơn, hãy theo dõi kênh " + "để xem các video tiếp theo"
    ensures IsSentence(r)
  {
    var a, b, c := "Nếu bạn muốn tìm hiểu ", "sâu hơn, hãy theo dõi kênh ", "để xem các video tiếp theo";
    PlainVi1(a);
    PlainVi2(b);
    PlainVi3(c);
    assert a[0] == 'N' && c[|c| - 1] == 'o';
    SentenceOfParts(a, b, c);
  }

  lemma LongCtaEnIsSentence(r: string)
    requires r == "If you want to learn more, " + "subscribe for future videos"
    ensures IsSentence(r)
  {
    var a, b := "If you want to learn more, ", "subscribe for future videos";
    PlainEn1(a);
    PlainEn2(b);
    assert a[0] == 'I' && b[|b| - 1] == 's';
    SentenceOfParts(a, [], b);
  }

  /** No '.' and no newline. */
  predicate Plain(s: string) {
    '.' !in s && '\n' !in s
  }

  lemma PlainVi1(s: string)
    requires s == "Nếu bạn muốn tìm hiểu "
    ensures Plain(s)
  {
  }

  lemma PlainVi2(s: string)
    requires s == "sâu hơn, hãy theo dõi kênh "
    ensures Plain(s)
  {
  }

  lemma PlainVi3(s: string)
    requires s == "để xem các video tiếp theo"
    ensures Plain(s)
  {
  }

  lemma PlainEn1(s: string)
    requires s == "If you want to learn more, "
    ensures Plain(s)
  {
  }

  lemma PlainEn2(s: string)
    requires s == "subscribe for future videos"
    ensures Plain(s)
  {
  }

  lemma SentenceOfParts(a: string, b: string, c: string)
    requires a != [] && c != [] && !IsSpace(a[0]) && !IsSpace(c[|c| - 1])
    requires Plain(a) && Plain(b) && Plain(c)
    ensures IsSentence(a + b + c)
  {
    var r := a + b + c;
    assert r[0] == a[0] && r[|r| - 1] == c[|c| - 1];
  }

  /** Sentences 1 to 5 of the summary (fewer if it is shorter), joined by one space. */
  function LongMiddle(sents: seq<string>): string {
    Join(" ", Slice(sents, 1, 6))
  }

  /** Everything of the long script in front of its last ". " and call to
      action: it opens with the first sentence (or the default intro) and
      ". ", and closes with ". " and the seventh sentence, if there is one. */
  function LongHead(topic: string, sents: seq<string>): (r: string)
    ensures StartsWith(r, (if |sents| > 0 then sents[0] else DefaultIntro(topic)) + ". ")
    ensures EndsWith(r, ". " + (if |sents| > 6 then sents[6] else ""))
  {
    var intro := if |sents| > 0 then sents[0] else DefaultIntro(topic);
    var closing := if |sents| > 6 then sents[6] else "";
    var middle := LongMiddle(sents);
    StartsWithAppend(intro + ". ", middle + ". " + closing);
    EndsWithAppend(intro + ". " + middle, ". " + closing);
    Assoc(intro + ". ", middle + ". ", closing);
    Assoc(intro + ". ", middle, ". ");
    Assoc(intro + ". " + middle, ". ", closing);
    intro + ". " + middle + ". " + closing
  }

  /** `local_fallback_formatter_long`: intro, middle and closing, each
      followed by ". ", then the call to action. */
  function FormatLong(topic: string, summary: string, lang: string): (r: string)
    ensures EndsWith(r, ". " + LongCta(lang))
  {
    var head := LongHead(topic, Sentences(summary));
    EndsWithAppend(head, ". " + LongCta(lang));
    head + (". " + LongCta(lang))
  }

  /** With no sentence at all the script is the default intro and three empty slots. */
  lemma LongWithoutSentences(topic: string, summary: string, lang: string)
    requires Sentences(summary) == []
    ensures FormatLong(topic, summary, lang) == DefaultIntro(topic) + ". . . " + LongCta(lang)
  {
    assert LongMiddle([]) == [];
    EmptyLongShape(DefaultIntro(topic), LongCta(lang));
  }

  lemma EmptyLongShape(d: string, cta: string)
    ensures (d + ". " + [] + ". " + []) + (". " + cta) == d + ". . . " + cta
  {
    assert d + ". " + [] + ". " + [] == d + (". " + ". ");
    assert ". " + ". " + ". " == ". . . ";
    Assoc(d, ". " + ". ", ". " + cta);
    Assoc(". " + ". ", ". ", cta);
    Assoc(d, ". . . ", cta);
  }

  /** Only the first seven sentences matter: summaries that agree on them give the same script. */
  lemma LongReadsFirstSeven(topic: string, a: string, b: string, lang: string)
    requires Take(Sentences(a), 7) == Take(Sentences(b), 7)
    ensures FormatLong(topic, a, lang) == FormatLong(topic, b, lang)
  {
    LongHeadReadsFirstSeven(topic, Sentences(a), Sentences(b));
  }

  lemma LongHeadReadsFirstSeven(topic: string, sa: seq<string>, sb: seq<string>)
    requires Take(sa, 7) == Take(sb, 7)
    ensures LongHead(topic, sa) == LongHead(topic, sb)
  {
    SliceOfTake(sa, 1, 6, 7);
    SliceOfTake(sb, 1, 6, 7);
    assert |sa| > 0 ==> sa[0] == Take(sa, 7)[0];
    assert |sb| > 0 ==> sb[0] == Take(sb, 7)[0];
    assert |sa| > 6 ==> sa[6] == Take(sa, 7)[6];
    assert |sb| > 6 ==> sb[6] == Take(sb, 7)[6];
  }

  /** Splitting the long script again yields the intro, the whole middle
      as ONE sentence (it is joined with spaces, not with ". "), the
      closing when there is one, and the call to action. */
  lemma LongResplit(topic: string, summary: string, lang: string)
    requires Sentences(summary) != []
    ensures var s := Sentences(summary);
      Sentences(FormatLong(topic, summary, lang))
      == [s[0]] + (if |s| > 1 then [LongMiddle(s)] else [])
         + (if |s| > 6 then [s[6]] else []) + [LongCtaBody(lang)]
  {
    var s := Sentences(summary);
    var middle := LongMiddle(s);
    var closing := if |s| > 6 then s[6] else "";
    JoinSpaceIsSentence(Slice(s, 1, 6));
    assert middle != [] <==> |s| > 1;
    var body := LongCtaBody(lang);
    LongCtaIsSentence(lang);
    assert FormatLong(topic, summary, lang) == (s[0] + ". " + middle + ". " + closing) + (". " + (body + "."));
    LongAsJoin(s[0], middle, closing, body);
    ResplitLong(s[0], middle, closing, body);
  }

  /** The re-split of a long script given by its four parts. */
  lemma ResplitLong(intro: string, middle: string, closing: string, body: string)
    requires IsSentence(intro) && IsSentence(body)
    requires middle == [] || IsSentence(middle)
    requires closing == [] || IsSentence(closing)
    ensures Sentences(Join(".", [intro, " " + middle, " " + closing, " " + body, []]))
         == [intro] + (if middle != [] then [middle] else [])
            + (if closing != [] then [closing] else []) + [body]
  {
    var pieces := [intro, " " + middle, " " + closing, " " + body, []];
    assert forall k :: 0 <= k < |pieces| ==> '.' !in pieces[k] && '\n' !in pieces[k];
    ResplitPieces(pieces);
    CleanLongPieces(intro, middle, closing, body);
  }

  lemma LongAsJoin(intro: string, middle: string, closing: string, body: string)
    ensures (intro + ". " + middle + ". " + closing) + (". " + (body + "."))
         == Join(".", [intro, " " + middle, " " + closing, " " + body, []])
  {
    var ps := [intro, " " + middle, " " + closing, " " + body, []];
    var j3 := " " + body + ".";
    assert Join(".", ps[3..]) == j3 by {
      assert ps[3..][1..] == [[]];
      assert j3 + [] == j3;
    }
    var j2 := " " + closing + "." + j3;
    assert Join(".", ps[2..]) == j2 by {
      assert ps[2..][1..] == ps[3..];
    }
    var j1 := " " + middle + "." + j2;
    assert Join(".", ps[1..]) == j1 by {
      assert ps[1..][1..] == ps[2..];
    }
    assert Join(".", ps) == intro + "." + j1;
    var tail := ". " + (body + ".");
    assert tail == "." + j3 by { Assoc(". ", body, "."); assert ". " == "." + " "; }
    var m := ". " + closing + tail;
    assert m == "." + j2;
    assert ". " + middle + m == "." + j1;
    assert intro + ". " + middle + ". " + closing + tail == intro + "." + j1;
  }

  /** The pieces carry no '.' or newline, so splitting their '.'-join restores them. */
  lemma ResplitPieces(pieces: seq<string>)
    requires |pieces| >= 1
    requires forall k :: 0 <= k < |pieces| ==> '.' !in pieces[k] && '\n' !in pieces[k]
    ensures Sentences(Join(".", pieces)) == Clean(pieces)
  {
    var j := Join(".", pieces);
    JoinAvoids(".", pieces, '\n');
    ReplaceAbsent(j, '\n', ' ');
    SplitJoin(pieces, '.');
  }

  lemma CleanLongPieces(intro: string, middle: string, closing: string, body: string)
    requires IsSentence(intro) && IsSentence(body)
    requires middle == [] || IsSentence(middle)
    requires closing == [] || IsSentence(closing)
    ensures Clean([intro, " " + middle, " " + closing, " " + body, []])
         == [intro] + (if middle != [] then [middle] else [])
            + (if closing != [] then [closing] else []) + [body]
  {
    var rest := [" " + middle, " " + closing, " " + body, []];
    var om: seq<string> := if middle != [] then [middle] else [];
    var oc: seq<string> := if closing != [] then [closing] else [];
    calc {
      Clean([intro, " " + middle, " " + closing, " " + body, []]);
      { assert [] + intro == intro; assert [intro, " " + middle, " " + closing, " " + body, []] == [intro] + rest; }
      Clean([[] + intro] + rest);
      { CleanStripped([], intro, rest); }
      [intro] + Clean(rest);
      { CleanMiddlePieces(middle, closing, body); }
      [intro] + (om + oc + [body]);
      { Assoc([intro], om + oc, [body]); Assoc([intro], om, oc); }
      [intro] + om + oc + [body];
    }
  }
  lemma CleanMiddlePieces(middle: string, closing: string, body: string)
    requires IsSentence(body)
    requires middle == [] || IsSentence(middle)
    requires closing == [] || IsSentence(closing)
    ensures Clean([" " + middle, " " + closing, " " + body, []])
         == (if middle != [] then [middle] else []) + (if closing != [] then [closing] else []) + [body]
  {
    var rest := [" " + closing, " " + body, []];
    var om: seq<string> := if middle != [] then [middle] else [];
    var oc: seq<string> := if closing != [] then [closing] else [];
    SpaceFacts();
    CleanClosingPieces(closing, body);
    CleanStripped(" ", middle, rest);
    Cons4(" " + middle, " " + closing, " " + body, []);
    Assoc(om, oc, [body]);
  }
  lemma CleanClosingPieces(closing: string, body: string)
    requires IsSentence(body)
    requires closing == [] || IsSentence(closing)
    ensures Clean([" " + closing, " " + body, []]) == (if closing != [] then [closing] else []) + [body]
  {
    var rest := [" " + body, []];
    SpaceFacts();
    CleanBodyPieces(body);
    CleanStripped(" ", closing, rest);
    Cons3(" " + closing, " " + body, []);
  }
  lemma CleanBodyPieces(body: string)
    requires IsSentence(body)
    ensures Clean([" " + body, []]) == [body]
  {
    var e: seq<string> := [];
    SpaceFacts();
    CleanStripped([], [], e);
    CleanStripped(" ", body, [[] + []] + e);
    assert [[] + []] + e == [[]];
    Cons2(" " + body, []);
  }

  /** A summary of seven or more sentences "s0. s1. ... sn.": the first opens,
      the next five run together with spaces, the seventh closes and the
      rest are dropped. */
  lemma LongOfSentences(topic: string, xs: seq<string>, lang: string)
    requires |xs| >= 7
    requires forall k :: 0 <= k < |xs| ==> IsSentence(xs[k])
    ensures FormatLong(topic, Join(". ", xs) + ".", lang)
         == xs[0] + ". " + Join(" ", xs[1..6]) + ". " + xs[6] + ". " + LongCta(lang)
  {
    SentencesOfJoined(xs);
    LongHeadOfMany(topic, xs);
    LongSplitsAtHead(topic, Join(". ", xs) + ".", lang);
  }

  lemma LongHeadOfMany(topic: string, xs: seq<string>)
    requires |xs| >= 7
    ensures LongHead(topic, xs) == xs[0] + ". " + Join(" ", xs[1..6]) + ". " + xs[6]
  {
    assert Slice(xs, 1, 6) == xs[1..6];
  }

  lemma LongSplitsAtHead(topic: string, summary: string, lang: string)
    ensures FormatLong(topic, summary, lang) == LongHead(topic, Sentences(summary)) + ". " + LongCta(lang)
  {
    Assoc(LongHead(topic, Sentences(summary)), ". ", LongCta(lang));
  }

  // -------------------------------------------------------- from_summary

  const AttributionVi: string := " Nguồn: Wikipedia."
  const AttributionEn: string := " Sources: Wikipedia."

  /** The attribution suffix, with its leading space. */
  function Attribution(lang: string): string {
    if LocaleOf(lang) == Vi then AttributionVi else AttributionEn
  }

  /** `local_fallback_formatter_fromsummary` (it takes no topic): the first
      six sentences joined by one space, then the attribution. */
  function FormatFromSummary(summary: string, lang: string): (r: string)
    ensures EndsWith(r, Attribution(lang))
  {
    var body := Join(" ", Take(Sentences(summary), 6));
    EndsWithAppend(body, Attribution(lang));
    body + Attribution(lang)
  }

  /** An empty summary (or one without sentences) yields exactly the attribution. */
  lemma FromSummaryWithoutSentences(summary: string, lang: string)
    requires Sentences(summary) == []
    ensures FormatFromSummary(summary, lang) == Attribution(lang)
  {
    assert Take(Sentences(summary), 6) == [];
    assert [] + Attribution(lang) == Attribution(lang);
  }

  /** Only the first six sentences matter. */
  lemma FromSummaryReadsFirstSix(a: string, b: string, lang: string)
    requires Take(Sentences(a), 6) == Take(Sentences(b), 6)
    ensures FormatFromSummary(a, lang) == FormatFromSummary(b, lang)
  {
  }

  /** For a summary written as sentences "s0. s1. ... sn.", the result is
      the first six of those sentences, space-joined, then the attribution. */
  lemma FromSummaryOfSentences(xs: seq<string>, lang: string)
    requires forall k :: 0 <= k < |xs| ==> IsSentence(xs[k])
    ensures FormatFromSummary(Join(". ", xs) + ".", lang) == Join(" ", Take(xs, 6)) + Attribution(lang)
  {
    SentencesOfJoined(xs);
  }

  // --------------------------------------------------------------- short

  const HookViOpening: string := "Bạn có biết về "
  const HookEnOpening: string := "Did you know about "
  const ShortCtaVi: string := "Nếu bạn thích, hãy like và theo dõi."
  const ShortCtaEn: string := "Like and subscribe for more."
  const PointTail: string := " có nhiều điều thú vị"

  function HookOpening(lang: string): string {
    if LocaleOf(lang) == Vi then HookViOpening else HookEnOpening
  }

  function ShortHook(topic: string, lang: string): string {
    HookOpening(lang) + topic + "?"
  }

  function ShortCta(lang: string): string {
    if LocaleOf(lang) == Vi then ShortCtaVi else ShortCtaEn
  }

  /** The tag in front of point `i + 1`: "Point 1:" or "Ý 1:" and so on.  In the
      script it is followed by one space. */
  function PointTag(lang: string, i: nat): string
    requires i < 3
  {
    (if LocaleOf(lang) == Vi then ["Ý 1:", "Ý 2:", "Ý 3:"] else ["Point 1:", "Point 2:", "Point 3:"])[i]
  }

  /** First point when the summary has no sentence; Vietnamese in both languages. */
  function DefaultPoint(topic: string): string {
    topic + PointTail + "."
  }

  /** The three points: sentences 0, 1 and 2, or "" when missing, except
      that a missing first point becomes `DefaultPoint(topic)`. */
  function ShortPoints(topic: string, summary: string): (p: seq<string>)
    ensures |p| == 3 && p[0] != []
  {
    var s := Sentences(summary);
    [if |s| > 0 then s[0] else DefaultPoint(topic),
     if |s| > 1 then s[1] else "",
     if |s| > 2 then s[2] else ""]
  }

  /** Point 1 is the first sentence or the default, points 2 and 3 are
      sentences or empty. */
  lemma ShortPointsWellFormed(topic: string, summary: string)
    ensures var p := ShortPoints(topic, summary);
      (IsSentence(p[0]) || p[0] == DefaultPoint(topic)) &&
      (p[1] == [] || IsSentence(p[1])) && (p[2] == [] || IsSentence(p[2]))
    ensures Sentences(summary) == [] ==> ShortPoints(topic, summary) == [DefaultPoint(topic), [], []]
    ensures var s := Sentences(summary); var p := ShortPoints(topic, summary);
      (|s| > 0 ==> p[0] == s[0]) &&
      (p[1] == [] <==> |s| < 2) && (|s| >= 2 ==> p[1] == s[1]) &&
      (p[2] == [] <==> |s| < 3) && (|s| >= 3 ==> p[2] == s[2])
  {
  }

  /** For a summary written "s0. s1. … sn." the points are s0, s1 and s2,
      with the default first point and "" for the missing ones. */
  lemma ShortPointsOfSentences(topic: string, xs: seq<string>)
    requires forall k :: 0 <= k < |xs| ==> IsSentence(xs[k])
    ensures ShortPoints(topic, Join(". ", xs) + ".")
         == [if |xs| > 0 then xs[0] else DefaultPoint(topic),
             if |xs| > 1 then xs[1] else "",
             if |xs| > 2 then xs[2] else ""]
  {
    SentencesOfJoined(xs);
  }

  /** One labelled point of the body: "Point 1: p1." */
  function Clause(tag: string, p: string): string {
    tag + " " + p + "."
  }

  /** "Point 1: p1. Point 2: p2. Point 3: p3.": the three clauses, one space
      apart, on one line when the points hold no newline. */
  function ShortBody(lang: string, p: seq<string>): (r: string)
    requires |p| == 3
    ensures StartsWith(r, Clause(PointTag(lang, 0), p[0]) + " ")
    ensures EndsWith(r, " " + Clause(PointTag(lang, 2), p[2]))
    ensures '\n' !in p[0] && '\n' !in p[1] && '\n' !in p[2] ==> '\n' !in r
  {
    var c0 := Clause(PointTag(lang, 0), p[0]);
    var c1 := Clause(PointTag(lang, 1), p[1]);
    var c2 := Clause(PointTag(lang, 2), p[2]);
    SpacedEnds(c0, c1, c2);
    c0 + " " + c1 + " " + c2
  }

  /** Three texts one space apart: the result opens with the first and closes
      with the last, and holds a newline only if one of them does. */
  lemma SpacedEnds(a: string, b: string, c: string)
    ensures StartsWith(a + " " + b + " " + c, a + " ")
    ensures EndsWith(a + " " + b + " " + c, " " + c)
    ensures '\n' !in a && '\n' !in b && '\n' !in c ==> '\n' !in a + " " + b + " " + c
  {
    StartsWithAppend(a + " ", b + " " + c);
    EndsWithAppend(a + " " + b, " " + c);
    Assoc(a + " ", b + " ", c);
    Assoc(a + " ", b, " ");
    Assoc(a + " " + b, " ", c);
  }

  /** `local_fallback_formatter_short`: hook, body and call to action,
      separated by blank lines. */
  function FormatShort(topic: string, summary: string, lang: string): (r: string)
    ensures StartsWith(r, ShortHook(topic, lang))
    ensures EndsWith(r, ShortCta(lang))
  {
    var hook := ShortHook(topic, lang);
    var rest := "\n\n" + ShortBody(lang, ShortPoints(topic, summary)) + "\n\n";
    StartsWithAppend(hook, rest + ShortCta(lang));
    EndsWithAppend(hook + rest, ShortCta(lang));
    Assoc(hook, rest, ShortCta(lang));
    hook + (rest + ShortCta(lang))
  }
}

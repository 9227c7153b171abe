/** String primitives the pipeline is built from, each modelled on the Python
    built-in it stands for: `str.isspace`, `str.strip`, `str.split(c)` with a
    one-character separator, `str.join`, `str.replace` of one character,
    `str.startswith`, list slicing, and the pattern
    `[p.strip() for p in pieces if p.strip()]` that the script uses everywhere. */
module Text {

  /** Python's `str.isspace()` table: U+0009..U+000D, U+001C..U+001F, U+0020,
      U+0085, U+00A0, U+1680, U+2000..U+200A, U+2028, U+2029, U+202F, U+205F
      and U+3000.  `str.strip()` without arguments removes exactly these. */
  predicate IsSpace(c: char) {
    ('\t' <= c <= '\r') || ('\U{1C}' <= c <= '\U{1F}') || c == ' ' || c == '\U{85}' || c == '\U{A0}'
    || c == '\U{1680}' || ('\U{2000}' <= c <= '\U{200A}') || c == '\U{2028}' || c == '\U{2029}'
    || c == '\U{202F}' || c == '\U{205F}' || c == '\U{3000}'
  }

  predicate AllSpace(s: string) {
    forall k :: 0 <= k < |s| ==> IsSpace(s[k])
  }

  /** A string that `strip` leaves alone: empty, or not starting or ending in whitespace. */
  predicate IsStripped(s: string) {
    s == [] || (!IsSpace(s[0]) && !IsSpace(s[|s| - 1]))
  }

  /** Number of whitespace characters at the front of `s`. */
  function LeadingSpaces(s: string): (n: nat)
    ensures n <= |s|
    ensures forall k :: 0 <= k < n ==> IsSpace(s[k])
    ensures n < |s| ==> !IsSpace(s[n])
  {
    if |s| == 0 || !IsSpace(s[0]) then 0
    else 1 + LeadingSpaces(s[1..])
  }

  /** Number of whitespace characters at the end of `s`. */
  function TrailingSpaces(s: string): (n: nat)
    ensures n <= |s|
    ensures forall k :: |s| - n <= k < |s| ==> IsSpace(s[k])
    ensures n < |s| ==> !IsSpace(s[|s| - 1 - n])
  {
    if |s| == 0 || !IsSpace(s[|s| - 1]) then 0
    else 1 + TrailingSpaces(s[..|s| - 1])
  }

  /** Python `s.strip()`: `s` is whitespace, then the result, then whitespace,
      and the result neither starts nor ends with whitespace. */
  function Strip(s: string): (r: string)
    ensures |r| <= |s|
    ensures LeadingSpaces(s) + |r| <= |s|
    ensures r == s[LeadingSpaces(s)..LeadingSpaces(s) + |r|]
    ensures forall k :: 0 <= k < LeadingSpaces(s) ==> IsSpace(s[k])
    ensures forall k :: LeadingSpaces(s) + |r| <= k < |s| ==> IsSpace(s[k])
    ensures IsStripped(r)
  {
    var i := LeadingSpaces(s);
    if i == |s| then []
    else s[i..|s| - TrailingSpaces(s)]
  }

  /** `strip` has exactly one answer: whatever stripped core sits between
      two runs of whitespace. */
  lemma StripUnique(w1: string, x: string, w2: string)
    requires AllSpace(w1) && AllSpace(w2) && IsStripped(x)
    ensures Strip(w1 + x + w2) == x
  {
    var s := w1 + x + w2;
    assert forall k :: 0 <= k < |w1| ==> s[k] == w1[k];
    assert forall k :: 0 <= k < |x| ==> s[|w1| + k] == x[k];
    assert forall k :: |w1| + |x| <= k < |s| ==> s[k] == w2[k - |w1| - |x|];
    var n := LeadingSpaces(s);
    var r := Strip(s);
    if x == [] {
      assert n == |s|;
    } else {
      assert !IsSpace(s[|w1|]) && !IsSpace(s[|w1| + |x| - 1]);
      assert n == |w1|;
      assert |r| == |x|;
      assert r == s[n..n + |x|];
    }
  }

  lemma StripStripped(x: string)
    requires IsStripped(x)
    ensures Strip(x) == x
  {
    StripUnique([], x, []);
    assert [] + x + [] == x;
  }

  /** `s.strip().strip() == s.strip()`. */
  lemma StripIdempotent(s: string)
    ensures Strip(Strip(s)) == Strip(s)
  {
    StripStripped(Strip(s));
  }

  /** A character absent from `s` is absent from `s.strip()`. */
  lemma StripAvoids(s: string, c: char)
    requires c !in s
    ensures c !in Strip(s)
  {
    var r := Strip(s);
    var i := LeadingSpaces(s);
    assert forall k :: 0 <= k < |r| ==> r[k] == s[i + k] && s[i + k] in s;
  }

  /** Python `s.split(c)` for a one-character separator `c`: always at least
      one piece, no piece contains `c`. */
  function Split(s: string, c: char): (r: seq<string>)
    ensures |r| >= 1
    ensures forall k :: 0 <= k < |r| ==> c !in r[k]
  {
    if |s| == 0 then [[]]
    else if s[0] == c then [[]] + Split(s[1..], c)
    else
      var t := Split(s[1..], c);
      [[s[0]] + t[0]] + t[1..]
  }

  /** Python `sep.join(xs)`. */
  function Join(sep: string, xs: seq<string>): string {
    if |xs| == 0 then []
    else if |xs| == 1 then xs[0]
    else xs[0] + sep + Join(sep, xs[1..])
  }

  lemma JoinConsHead(sep: string, a: string, b: string, rest: seq<string>)
    ensures Join(sep, [a + b] + rest) == a + Join(sep, [b] + rest)
  {
    if |rest| > 0 {
      assert ([a + b] + rest)[1..] == rest == ([b] + rest)[1..];
    }
  }

  /** Splitting then joining with the same separator gives the string back. */
  lemma {:induction false} JoinSplit(s: string, c: char)
    ensures Join([c], Split(s, c)) == s
  {
    if |s| == 0 {
    } else if s[0] == c {
      var t := Split(s[1..], c);
      JoinSplit(s[1..], c);
      assert ([[]] + t)[1..] == t;
      assert Join([c], [[]] + t) == [] + [c] + Join([c], t);
      assert s == [c] + s[1..];
    } else {
      var t := Split(s[1..], c);
      JoinSplit(s[1..], c);
      JoinConsHead([c], [s[0]], t[0], t[1..]);
      assert [t[0]] + t[1..] == t;
      assert s == [s[0]] + s[1..];
    }
  }

  /** A string without the separator is one piece. */
  lemma {:induction false} SplitNoSep(s: string, c: char)
    requires c !in s
    ensures Split(s, c) == [s]
  {
    if |s| > 0 {
      assert forall k :: 0 <= k < |s| - 1 ==> s[1..][k] == s[k + 1] && s[k + 1] in s;
      SplitNoSep(s[1..], c);
      assert s == [s[0]] + s[1..];
    }
  }

  /** Splitting distributes over a separator occurrence. */
  lemma {:induction false} SplitConcat(a: string, c: char, b: string)
    ensures Split(a + [c] + b, c) == Split(a, c) + Split(b, c)
  {
    var s := a + [c] + b;
    var sb := Split(b, c);
    if |a| == 0 {
      assert s[0] == c && s[1..] == b;
    } else {
      ConsParts(a, [c] + b);
      Assoc(a, [c], b);
      Assoc(a[1..], [c], b);
      SplitConcat(a[1..], c, b);
      var u := Split(a[1..], c);
      if a[0] == c {
        Assoc([[]], u, sb);
      } else {
        ConsParts(u, sb);
        Assoc([[a[0]] + u[0]], u[1..], sb);
      }
    }
  }

  lemma ConsParts<T>(a: seq<T>, b: seq<T>)
    requires |a| > 0
    ensures (a + b)[0] == a[0] && (a + b)[1..] == a[1..] + b
  {
  }

  /** Joining separator-free pieces then splitting gives the pieces back. */
  lemma {:induction false} SplitJoin(xs: seq<string>, c: char)
    requires |xs| >= 1
    requires forall k :: 0 <= k < |xs| ==> c !in xs[k]
    ensures Split(Join([c], xs), c) == xs
  {
    SplitNoSep(xs[0], c);
    if |xs| > 1 {
      SplitJoin(xs[1..], c);
      SplitConcat(xs[0], c, Join([c], xs[1..]));
      HeadTail(xs);
    }
  }

  /** Python `s.replace(a, b)` for single characters. */
  function ReplaceChar(s: string, a: char, b: char): (r: string)
    ensures |r| == |s|
    ensures forall k :: 0 <= k < |s| ==> r[k] == (if s[k] == a then b else s[k])
  {
    if |s| == 0 then []
    else [if s[0] == a then b else s[0]] + ReplaceChar(s[1..], a, b)
  }

  lemma ReplaceAbsent(s: string, a: char, b: char)
    requires a !in s
    ensures ReplaceChar(s, a, b) == s
  {
  }

  predicate StartsWith(s: string, prefix: string) {
    |prefix| <= |s| && s[..|prefix|] == prefix
  }

  predicate EndsWith(s: string, suffix: string) {
    |suffix| <= |s| && s[|s| - |suffix|..] == suffix
  }

  lemma StartsWithAppend(a: string, b: string)
    ensures StartsWith(a + b, a)
  {
    assert (a + b)[..|a|] == a;
  }

  lemma EndsWithAppend(a: string, b: string)
    ensures EndsWith(a + b, b)
  {
    assert (a + b)[|a|..] == b;
  }

  function Min(a: int, b: int): int {
    if a <= b then a else b
  }

  /** Python `s[:n]`. */
  function Take<T>(s: seq<T>, n: nat): (r: seq<T>)
    ensures |r| == Min(n, |s|)
    ensures r == s[..|r|]
  {
    if |s| <= n then s else s[..n]
  }

  /** Python `s[lo:hi]` for `0 <= lo <= hi`. */
  function Slice<T>(s: seq<T>, lo: nat, hi: nat): (r: seq<T>)
    requires lo <= hi
    ensures |r| == (if Min(hi, |s|) <= lo then 0 else Min(hi, |s|) - lo)
    ensures forall k :: 0 <= k < |r| ==> r[k] == s[lo + k]
  {
    var t := Take(s, hi);
    if lo <= |t| then t[lo..] else []
  }

  /** A slice that ends inside a prefix sees only that prefix. */
  lemma SliceOfTake<T>(s: seq<T>, lo: nat, hi: nat, n: nat)
    requires lo <= hi <= n
    ensures Slice(s, lo, hi) == Slice(Take(s, n), lo, hi)
  {
  }

  /** Taking one more element than `Take` kept only grows the prefix while it is short. */
  lemma TakeSnoc<T>(xs: seq<T>, x: T, n: nat)
    ensures Take(xs + [x], n) == if |Take(xs, n)| < n then Take(xs, n) + [x] else Take(xs, n)
  {
    if |xs| >= n {
      assert (xs + [x])[..n] == xs[..n];
    }
  }

  /** `[p.strip() for p in ps if p.strip()]`. */
  function Clean(ps: seq<string>): (r: seq<string>)
    ensures |r| <= |ps|
  {
    if |ps| == 0 then []
    else
      var x := Strip(ps[0]);
      (if x != [] then [x] else []) + Clean(ps[1..])
  }

  /** What survives cleaning is non-empty and already stripped. */
  lemma {:induction false} CleanWellFormed(ps: seq<string>)
    ensures forall k :: 0 <= k < |Clean(ps)| ==> Clean(ps)[k] != [] && Strip(Clean(ps)[k]) == Clean(ps)[k]
  {
    if |ps| > 0 {
      CleanWellFormed(ps[1..]);
      StripIdempotent(ps[0]);
    }
  }

  lemma {:induction false} CleanConcat(a: seq<string>, b: seq<string>)
    ensures Clean(a + b) == Clean(a) + Clean(b)
  {
    if |a| == 0 {
      assert a + b == b;
    } else {
      var x := a[0];
      var head := if Strip(x) != [] then [Strip(x)] else [];
      CleanConcat(a[1..], b);
      HeadTail(a);
      Assoc([x], a[1..], b);
      CleanCons(x, a[1..] + b);
      CleanCons(x, a[1..]);
      Assoc(head, Clean(a[1..]), Clean(b));
    }
  }

  /** A character that no piece contains is in no cleaned piece. */
  lemma {:induction false} CleanAvoids(ps: seq<string>, c: char)
    requires forall k :: 0 <= k < |ps| ==> c !in ps[k]
    ensures forall k :: 0 <= k < |Clean(ps)| ==> c !in Clean(ps)[k]
  {
    if |ps| > 0 {
      StripAvoids(ps[0], c);
      CleanAvoids(ps[1..], c);
    }
  }

  /** Cleaning and then cleaning again changes nothing. */
  lemma {:induction false} CleanIdempotent(ps: seq<string>)
    ensures Clean(Clean(ps)) == Clean(ps)
  {
    if |ps| > 0 {
      var x := Strip(ps[0]);
      CleanIdempotent(ps[1..]);
      CleanConcat(if x != [] then [x] else [], Clean(ps[1..]));
      if x != [] {
        StripIdempotent(ps[0]);
        assert Clean([x]) == [x] + Clean([]);
      }
    }
  }

  /** Cleaning a list sees its first element on its own. */
  lemma CleanCons(x: string, rest: seq<string>)
    ensures Clean([x] + rest) == (if Strip(x) != [] then [Strip(x)] else []) + Clean(rest)
  {
    var ps := [x] + rest;
    assert ps[0] == x && ps[1..] == rest;
  }

  /** A first element that is whitespace followed by stripped text cleans to that text. */
  lemma CleanStripped(w: string, x: string, rest: seq<string>)
    requires AllSpace(w) && IsStripped(x)
    ensures Clean([w + x] + rest) == (if x != [] then [x] else []) + Clean(rest)
  {
    CleanCons(w + x, rest);
    StripUnique(w, x, []);
    assert w + x + [] == w + x;
  }

  lemma HeadTail<T>(xs: seq<T>)
    requires |xs| > 0
    ensures [xs[0]] + xs[1..] == xs
  {
  }

  /** Displays seen as a head and the rest, proved away from any string facts. */
  lemma Cons2<T>(a: T, b: T)
    ensures [a] + [b] == [a, b]
  {
  }

  lemma Cons3<T>(a: T, b: T, c: T)
    ensures [a] + [b, c] == [a, b, c]
  {
  }

  lemma Cons4<T>(a: T, b: T, c: T, d: T)
    ensures [a] + [b, c, d] == [a, b, c, d]
  {
  }

  lemma Assoc<T>(a: seq<T>, b: seq<T>, c: seq<T>)
    ensures a + (b + c) == a + b + c
  {
  }

  /** One piece made of whitespace and then a stripped core cleans to that core. */
  lemma CleanOne(w: string, x: string)
    requires AllSpace(w) && IsStripped(x)
    ensures Clean([w + x]) == if x == [] then [] else [x]
  {
    StripUnique(w, x, []);
    assert w + x + [] == w + x;
    assert [w + x][1..] == [];
  }

  /** Cleaning the pieces of `w + Join([c] + pad, xs)` returns `xs`, when the
      elements are non-empty, stripped and free of `c`, and `w` and `pad`
      are whitespace. */
  lemma {:induction false} CleanSplitJoinFrom(w: string, xs: seq<string>, c: char, pad: string)
    requires AllSpace(w) && c !in w
    requires AllSpace(pad) && c !in pad
    requires forall k :: 0 <= k < |xs| ==> xs[k] != [] && IsStripped(xs[k]) && c !in xs[k]
    ensures Clean(Split(w + Join([c] + pad, xs), c)) == xs
    decreases |xs|
  {
    if |xs| <= 1 {
      CleanSplitJoinShort(w, xs, c, pad);
    } else {
      var rest := Join([c] + pad, xs[1..]);
      CleanSplitJoinFrom(pad, xs[1..], c, pad);
      CleanSplitJoinStep(w, xs, c, pad, rest);
    }
  }

  lemma CleanSplitJoinShort(w: string, xs: seq<string>, c: char, pad: string)
    requires |xs| <= 1
    requires AllSpace(w) && c !in w
    requires forall k :: 0 <= k < |xs| ==> xs[k] != [] && IsStripped(xs[k]) && c !in xs[k]
    ensures Clean(Split(w + Join([c] + pad, xs), c)) == xs
  {
    var x := if xs == [] then [] else xs[0];
    assert w + Join([c] + pad, xs) == w + x;
    assert c !in w + x;
    SplitNoSep(w + x, c);
    CleanOne(w, x);
  }

  lemma CleanSplitJoinStep(w: string, xs: seq<string>, c: char, pad: string, rest: string)
    requires |xs| > 1 && rest == Join([c] + pad, xs[1..])
    requires AllSpace(w) && c !in w
    requires xs[0] != [] && IsStripped(xs[0]) && c !in xs[0]
    requires Clean(Split(pad + rest, c)) == xs[1..]
    ensures Clean(Split(w + Join([c] + pad, xs), c)) == xs
  {
    SplitJoinFirst(w, xs, c, pad, rest);
    CleanStripped(w, xs[0], Split(pad + rest, c));
    HeadTail(xs);
  }

  /** The first piece of `w + Join([c] + pad, xs)` is `w + xs[0]`. */
  lemma SplitJoinFirst(w: string, xs: seq<string>, c: char, pad: string, rest: string)
    requires |xs| > 1 && rest == Join([c] + pad, xs[1..])
    requires c !in w && c !in xs[0]
    ensures Split(w + Join([c] + pad, xs), c) == [w + xs[0]] + Split(pad + rest, c)
  {
    JoinFirst(w, xs, [c] + pad, rest);
    Regroup(w, xs[0], c, pad, rest);
    SplitFirst(w, xs[0], c, pad, rest);
  }

  lemma JoinFirst(w: string, xs: seq<string>, sep: string, rest: string)
    requires |xs| > 1 && rest == Join(sep, xs[1..])
    ensures w + Join(sep, xs) == w + (xs[0] + sep + rest)
  {
  }

  lemma Regroup(w: string, x: string, c: char, pad: string, rest: string)
    ensures w + (x + ([c] + pad) + rest) == (w + x) + [c] + (pad + rest)
  {
  }

  lemma SplitFirst(w: string, x: string, c: char, pad: string, rest: string)
    requires c !in w && c !in x
    ensures Split((w + x) + [c] + (pad + rest), c) == [w + x] + Split(pad + rest, c)
  {
    assert c !in w + x;
    SplitConcat(w + x, c, pad + rest);
    SplitNoSep(w + x, c);
  }

  /** A character absent from `s` is absent from every piece of `s.split(c)`. */
  lemma {:induction false} SplitAvoids(s: string, c: char, d: char)
    requires d !in s
    ensures forall k :: 0 <= k < |Split(s, c)| ==> d !in Split(s, c)[k]
  {
    if |s| > 0 {
      assert forall k :: 0 <= k < |s| - 1 ==> s[1..][k] == s[k + 1] && s[k + 1] in s;
      SplitAvoids(s[1..], c, d);
    }
  }

  /** A character in neither the separator nor any part is not in the join. */
  lemma {:induction false} JoinAvoids(sep: string, xs: seq<string>, d: char)
    requires d !in sep
    requires forall k :: 0 <= k < |xs| ==> d !in xs[k]
    ensures d !in Join(sep, xs)
  {
    if |xs| > 1 {
      JoinAvoids(sep, xs[1..], d);
    }
  }

  /** What the script calls a sentence: non-empty, stripped, without '.' or a newline. */
  predicate IsSentence(x: string) {
    x != [] && IsStripped(x) && '.' !in x && '\n' !in x
  }

  /** The script's sentence split of a summary or script: newlines become
      spaces, the text is cut at every '.', each piece is stripped and empty
      pieces are dropped. */
  function Sentences(text: string): (r: seq<string>)
    ensures forall k :: 0 <= k < |r| ==> IsSentence(r[k]) && Strip(r[k]) == r[k]
  {
    var t := ReplaceChar(text, '\n', ' ');
    var ps := Split(t, '.');
    SplitAvoids(t, '.', '\n');
    CleanAvoids(ps, '.');
    CleanAvoids(ps, '\n');
    CleanWellFormed(ps);
    forall k | 0 <= k < |Clean(ps)|
      ensures IsSentence(Clean(ps)[k])
    {
      var x := Clean(ps)[k];
      assert x == Strip(x);
    }
    Clean(ps)
  }

  /** Sentences written out as "s0. s1. s2" (with or without a final '.')
      split back into exactly those sentences. */
  lemma SentencesOfJoined(xs: seq<string>)
    requires forall k :: 0 <= k < |xs| ==> IsSentence(xs[k])
    ensures Sentences(Join(". ", xs)) == xs
    ensures Sentences(Join(". ", xs) + ".") == xs
  {
    var j := Join(". ", xs);
    NoNewline(xs);
    ReplaceAbsent(j, '\n', ' ');
    JoinedPieces(xs);
    ReplaceAbsent(j + ".", '\n', ' ');
    TrailingDot(j, xs);
  }

  lemma NoNewline(xs: seq<string>)
    requires forall k :: 0 <= k < |xs| ==> IsSentence(xs[k])
    ensures '\n' !in Join(". ", xs) && '\n' !in Join(". ", xs) + "."
  {
    JoinAvoids(". ", xs, '\n');
  }

  lemma TrailingDot(j: string, xs: seq<string>)
    requires Clean(Split(j, '.')) == xs
    ensures Clean(Split(j + ".", '.')) == xs
  {
    assert j + ['.'] + [] == j + ".";
    SplitConcat(j, '.', []);
    CleanConcat(Split(j, '.'), [[]]);
  }

  lemma DotSpace(xs: seq<string>)
    ensures Join(". ", xs) == Join(['.'] + " ", xs)
  {
    assert ". " == ['.'] + " ";
  }

  lemma JoinedPieces(xs: seq<string>)
    requires forall k :: 0 <= k < |xs| ==> IsSentence(xs[k])
    ensures Clean(Split(Join(". ", xs), '.')) == xs
  {
    DotSpace(xs);
    JoinedPiecesFrom(xs);
    assert [] + Join(['.'] + " ", xs) == Join(['.'] + " ", xs);
  }

  lemma JoinedPiecesFrom(xs: seq<string>)
    requires forall k :: 0 <= k < |xs| ==> IsSentence(xs[k])
    ensures Clean(Split([] + Join(['.'] + " ", xs), '.')) == xs
  {
    SpaceFacts();
    SentencesArePieces(xs, '.');
    CleanSplitJoinFrom([], xs, '.', " ");
  }

  lemma SentencesArePieces(xs: seq<string>, c: char)
    requires c == '.'
    requires forall k :: 0 <= k < |xs| ==> IsSentence(xs[k])
    ensures forall k :: 0 <= k < |xs| ==> xs[k] != [] && IsStripped(xs[k]) && c !in xs[k]
  {
  }

  lemma SpaceFacts()
    ensures AllSpace([]) && AllSpace(" ") && '.' !in " " && ',' !in " "
  {
  }

  /** A space-joined run of sentences is itself one sentence (when non-empty). */
  lemma {:induction false} JoinSpaceIsSentence(xs: seq<string>)
    requires forall k :: 0 <= k < |xs| ==> IsSentence(xs[k])
    ensures Join(" ", xs) == [] <==> xs == []
    ensures xs != [] ==> IsSentence(Join(" ", xs))
  {
    JoinAvoids(" ", xs, '.');
    JoinAvoids(" ", xs, '\n');
    if |xs| > 1 {
      JoinSpaceIsSentence(xs[1..]);
      var r := Join(" ", xs[1..]);
      assert Join(" ", xs) == xs[0] + " " + r;
      assert (xs[0] + " " + r)[0] == xs[0][0];
      assert (xs[0] + " " + r)[|xs[0]| + 1 + |r| - 1] == r[|r| - 1];
    }
  }

  /** A string template with one placeholder, as filled by Python's
      `str.format` or an f-string: the text before and the text after. */
  datatype Template = Template(before: string, after: string)

  /** Fill the placeholder with `value`, verbatim. */
  function Format(t: Template, value: string): (r: string)
    ensures StartsWith(r, t.before) && EndsWith(r, t.after)
    ensures |r| == |t.before| + |value| + |t.after|
    ensures r[|t.before|..|t.before| + |value|] == value
  {
    t.before + value + t.after
  }

  /** The inverse of `Format`: recover the value from a filled template. */
  function Unformat(t: Template, r: string): (v: Option<string>)
    ensures v.Some? ==> Format(t, v.value) == r
  {
    if |t.before| + |t.after| <= |r| && StartsWith(r, t.before) && EndsWith(r, t.after) then
      var v := r[|t.before|..|r| - |t.after|];
      assert r == t.before + v + t.after by {
        assert r == r[..|t.before|] + v + r[|r| - |t.after|..];
      }
      Some(v)
    else None
  }

  lemma FormatRoundTrip(t: Template, value: string)
    ensures Unformat(t, Format(t, value)) == Some(value)
  {
    var r := Format(t, value);
    assert r[|t.before|..|r| - |t.after|] == value;
  }

  datatype Option<T> = None | Some(value: T)
}

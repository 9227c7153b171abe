/** What the segmenter makes of the deterministic short script: its three
    lines become hook, middle and call to action, and the labelled points
    of the middle line become the three point segments. */
module Composition {
  import opened Text
  import opened Prompts
  import opened Fallback
  import opened Segmenter

  /** What a labelled point looks like once stripped: the tag alone when
      the point is empty, otherwise the tag, one space and the point. */
  function Labelled(tag: string, p: string): (r: string)
    ensures StartsWith(r, tag)
  {
    if p == [] then tag
    else
      StartsWithAppend(tag, " " + p);
      assert tag + " " + p == tag + (" " + p);
      tag + " " + p
  }

  /** The first point as it shows in the segment: the first sentence, or the
      default point without its final '.' (the segmenter cuts there). */
  function FirstPointText(topic: string, summary: string): string {
    var s := Sentences(summary);
    if |s| > 0 then s[0] else topic + PointTail
  }

  lemma TagFacts(lang: string, i: nat)
    requires i < 3
    ensures var t := PointTag(lang, i);
      t != [] && IsStripped(t) && '.' !in t && '\n' !in t
  {
  }

  lemma HookFacts(topic: string, lang: string)
    requires '\n' !in topic
    ensures var h := ShortHook(topic, lang);
      h != [] && IsStripped(h) && '\n' !in h
  {
    var o := HookOpening(lang);
    var h := ShortHook(topic, lang);
    assert o != [] && !IsSpace(o[0]) && '\n' !in o;
    assert h == o + (topic + "?");
    assert h[0] == o[0];
    assert h[|h| - 1] == '?';
  }

  lemma CtaFacts(lang: string)
    ensures var c := ShortCta(lang);
      c != [] && IsStripped(c) && '\n' !in c
  {
    if LocaleOf(lang) == Vi {
      ShortCtaViFacts(ShortCtaVi);
    } else {
      ShortCtaEnFacts(ShortCtaEn);
    }
  }

  lemma ShortCtaViFacts(c: string)
    requires c == "Nếu bạn thích, hãy like và theo dõi."
    ensures c != [] && IsStripped(c) && '\n' !in c
  {
  }

  lemma ShortCtaEnFacts(c: string)
    requires c == "Like and subscribe for more."
    ensures c != [] && IsStripped(c) && '\n' !in c
  {
  }

  /** The body line is non-empty, stripped and has no newline. */
  lemma BodyFacts(topic: string, summary: string, lang: string)
    requires '\n' !in topic
    ensures var b := ShortBody(lang, ShortPoints(topic, summary));
      b != [] && IsStripped(b) && '\n' !in b
  {
    var p := ShortPoints(topic, summary);
    PointsOneLine(topic, summary);
    TagFacts(lang, 0);
    TagFacts(lang, 1);
    TagFacts(lang, 2);
    ClauseFacts(PointTag(lang, 0), p[0]);
    ClauseFacts(PointTag(lang, 1), p[1]);
    ClauseFacts(PointTag(lang, 2), p[2]);
    ClausesFacts(Clause(PointTag(lang, 0), p[0]), Clause(PointTag(lang, 1), p[1]), Clause(PointTag(lang, 2), p[2]));
  }

  lemma PointsOneLine(topic: string, summary: string)
    requires '\n' !in topic
    ensures var p := ShortPoints(topic, summary);
      '\n' !in p[0] && '\n' !in p[1] && '\n' !in p[2]
  {
    assert '\n' !in DefaultPoint(topic);
  }

  lemma ClauseFacts(t: string, p: string)
    requires t != [] && !IsSpace(t[0]) && '\n' !in t && '\n' !in p
    ensures var c := Clause(t, p);
      c != [] && !IsSpace(c[0]) && c[|c| - 1] == '.' && '\n' !in c
  {
    var c := Clause(t, p);
    assert c[0] == t[0];
  }

  lemma ClausesFacts(c0: string, c1: string, c2: string)
    requires c0 != [] && !IsSpace(c0[0]) && '\n' !in c0
    requires c2 != [] && c2[|c2| - 1] == '.' && '\n' !in c1 && '\n' !in c2
    ensures var b := c0 + " " + c1 + " " + c2;
      b != [] && IsStripped(b) && '\n' !in b
  {
    var b := c0 + " " + c1 + " " + c2;
    assert b[0] == c0[0] && b[|b| - 1] == c2[|c2| - 1];
  }

  /** Splitting at a newline: the piece before it, cleaned, then the rest. */
  lemma LinesCons(a: string, rest: string)
    requires '\n' !in a
    ensures Clean(Split(a + ['\n'] + rest, '\n')) == Clean([a]) + Clean(Split(rest, '\n'))
  {
    SplitConcat(a, '\n', rest);
    SplitNoSep(a, '\n');
    CleanConcat([a], Split(rest, '\n'));
  }

  lemma CleanSingle(x: string)
    requires IsStripped(x)
    ensures Clean([x]) == if x == [] then [] else [x]
  {
    CleanOne([], x);
    assert [] + x == x;
  }

  /** A leading newline only adds an empty piece, which cleaning drops. */
  lemma LinesNewline(rest: string)
    ensures Clean(Split(['\n'] + rest, '\n')) == Clean(Split(rest, '\n'))
  {
    var s := ['\n'] + rest;
    assert s[0] == '\n' && s[1..] == rest;
    CleanCons([], Split(rest, '\n'));
  }

  lemma ShortAsLines(h: string, b: string, c: string)
    ensures h + (("\n\n" + b + "\n\n") + c) == h + ['\n'] + (['\n'] + (b + ['\n'] + (['\n'] + c)))
  {
    var nn := ['\n'] + ['\n'];
    assert "\n\n" == nn;
    calc {
      ("\n\n" + b + "\n\n") + c;
      { Assoc("\n\n" + b, "\n\n", c); }
      ("\n\n" + b) + ("\n\n" + c);
      { Assoc(['\n'], ['\n'], c); }
      ("\n\n" + b) + (['\n'] + (['\n'] + c));
      { Assoc("\n\n", b, ['\n'] + (['\n'] + c)); }
      "\n\n" + (b + (['\n'] + (['\n'] + c)));
      { Assoc(b, ['\n'], ['\n'] + c); }
      "\n\n" + (b + ['\n'] + (['\n'] + c));
      { Assoc(['\n'], ['\n'], b + ['\n'] + (['\n'] + c)); }
      ['\n'] + (['\n'] + (b + ['\n'] + (['\n'] + c)));
    }
    Assoc(h, ['\n'], ['\n'] + (b + ['\n'] + (['\n'] + c)));
  }

  /** The short script has exactly three lines: hook, body and call to action. */
  lemma ShortLines(topic: string, summary: string, lang: string)
    requires '\n' !in topic
    ensures Lines(FormatShort(topic, summary, lang))
         == [ShortHook(topic, lang), ShortBody(lang, ShortPoints(topic, summary)), ShortCta(lang)]
  {
    HookFacts(topic, lang);
    BodyFacts(topic, summary, lang);
    CtaFacts(lang);
    LinesOf(ShortHook(topic, lang), ShortBody(lang, ShortPoints(topic, summary)), ShortCta(lang));
  }

  /** Three stripped, newline-free, non-empty lines separated by blank lines. */
  lemma LinesOf(h: string, b: string, c: string)
    requires h != [] && IsStripped(h) && '\n' !in h
    requires b != [] && IsStripped(b) && '\n' !in b
    requires c != [] && IsStripped(c) && '\n' !in c
    ensures Lines(h + (("\n\n" + b + "\n\n") + c)) == [h, b, c]
  {
    var x2 := b + ['\n'] + (['\n'] + c);
    calc {
      Lines(h + (("\n\n" + b + "\n\n") + c));
      { ShortAsLines(h, b, c); }
      Clean(Split(h + ['\n'] + (['\n'] + x2), '\n'));
      { LinesCons(h, ['\n'] + x2); CleanSingle(h); }
      [h] + Clean(Split(['\n'] + x2, '\n'));
      { LinesNewline(x2); }
      [h] + Clean(Split(x2, '\n'));
      { LinesCons(b, ['\n'] + c); CleanSingle(b); }
      [h] + ([b] + Clean(Split(['\n'] + c, '\n')));
      { LinesNewline(c); SplitNoSep(c, '\n'); CleanSingle(c); }
      [h] + ([b] + [c]);
      { Cons3(h, b, c); Cons2(b, c); }
      [h, b, c];
    }
  }

  // ------------------------------------------------------- the body's pieces

  lemma BodyAsPieces(t0: string, p0: string, t1: string, p1: string, t2: string, p2: string)
    ensures Clause(t0, p0) + " " + Clause(t1, p1) + " " + Clause(t2, p2)
         == (t0 + " " + p0) + ['.'] + ((" " + t1 + " " + p1) + ['.'] + ((" " + t2 + " " + p2) + ['.'] + []))
  {
    var x0, a, b := t0 + " " + p0, " " + t1 + " " + p1, " " + t2 + " " + p2;
    assert Clause(t0, p0) == x0 + ['.'];
    assert " " + Clause(t1, p1) == a + ['.'];
    assert " " + Clause(t2, p2) == b + ['.'];
    calc {
      Clause(t0, p0) + " " + Clause(t1, p1) + " " + Clause(t2, p2);
      { Assoc(Clause(t0, p0), " ", Clause(t1, p1));
        Assoc(Clause(t0, p0) + " " + Clause(t1, p1), " ", Clause(t2, p2)); }
      ((x0 + ['.']) + (a + ['.'])) + (b + ['.']);
      { Assoc(x0 + ['.'], a + ['.'], b + ['.']); }
      (x0 + ['.']) + ((a + ['.']) + (b + ['.']));
      { Assoc(x0, ['.'], (a + ['.']) + (b + ['.'])); }
      x0 + ['.'] + ((a + ['.']) + (b + ['.']));
      { assert b + ['.'] + [] == b + ['.']; Assoc(a, ['.'], b + ['.']); }
      x0 + ['.'] + (a + ['.'] + (b + ['.'] + []));
    }
  }

  /** Splitting at a '.': the pieces before it, then the pieces after it. */
  lemma PiecesCons(x: string, rest: string)
    ensures Pieces(x + ['.'] + rest) == Pieces(x) + Pieces(rest)
  {
    SplitConcat(x, '.', rest);
    CleanConcat(Split(x, '.'), Split(rest, '.'));
  }

  lemma PiecesEmpty()
    ensures Pieces([]) == []
  {
    CleanSingle([]);
  }

  lemma PiecesOne(x: string)
    requires '.' !in x && x != [] && IsStripped(x)
    ensures Pieces(x) == [x]
  {
    SplitNoSep(x, '.');
    CleanSingle(x);
  }

  /** A tagged point with a space in front strips to its labelled form. */
  lemma LabelledPiece(t: string, p: string)
    requires t != [] && IsStripped(t) && '.' !in t
    requires p == [] || (IsStripped(p) && '.' !in p)
    ensures Pieces(" " + t + " " + p) == [Labelled(t, p)]
  {
    var x := " " + t + " " + p;
    assert '.' !in x;
    SplitNoSep(x, '.');
    if p == [] {
      assert x == " " + t + " ";
      StripUnique(" ", t, " ");
    } else {
      var y := t + " " + p;
      assert y[0] == t[0] && y[|y| - 1] == p[|p| - 1];
      assert x == " " + y + [];
      StripUnique(" ", y, []);
    }
    CleanCons(x, []);
  }

  lemma PointTailFacts(r: string)
    requires r == " có nhiều điều thú vị"
    ensures r != [] && !IsSpace(r[|r| - 1]) && '.' !in r
  {
  }

  lemma FirstPointFacts(topic: string, summary: string)
    requires '.' !in topic
    ensures var f := FirstPointText(topic, summary);
      f != [] && !IsSpace(f[|f| - 1]) && '.' !in f
  {
    var s := Sentences(summary);
    if |s| > 0 {
      assert IsSentence(s[0]);
    } else {
      PointTailFacts(PointTail);
      var f := topic + PointTail;
      assert f[|f| - 1] == PointTail[|PointTail| - 1];
    }
  }

  /** The first clause's text is one piece, also when the point carries its own final '.'. */
  lemma FirstPiece(t: string, p0: string, f: string)
    requires t != [] && IsStripped(t) && '.' !in t
    requires f != [] && !IsSpace(f[|f| - 1]) && '.' !in f
    requires p0 == f || p0 == f + "."
    ensures Pieces(t + " " + p0) == [t + " " + f]
  {
    var x := t + " " + f;
    assert x[0] == t[0] && x[|x| - 1] == f[|f| - 1];
    PiecesOne(x);
    if p0 != f {
      assert t + " " + p0 == x + ['.'] + [];
      PiecesCons(x, []);
      PiecesEmpty();
    }
  }

  /** The body line splits into exactly the three labelled points. */
  lemma BodyPieces(t0: string, p0: string, f: string, t1: string, p1: string, t2: string, p2: string)
    requires t0 != [] && IsStripped(t0) && '.' !in t0
    requires t1 != [] && IsStripped(t1) && '.' !in t1
    requires t2 != [] && IsStripped(t2) && '.' !in t2
    requires f != [] && !IsSpace(f[|f| - 1]) && '.' !in f
    requires p0 == f || p0 == f + "."
    requires p1 == [] || (IsStripped(p1) && '.' !in p1)
    requires p2 == [] || (IsStripped(p2) && '.' !in p2)
    ensures Pieces(Clause(t0, p0) + " " + Clause(t1, p1) + " " + Clause(t2, p2))
         == [t0 + " " + f, Labelled(t1, p1), Labelled(t2, p2)]
  {
    var x0, a, b := t0 + " " + p0, " " + t1 + " " + p1, " " + t2 + " " + p2;
    BodyAsPieces(t0, p0, t1, p1, t2, p2);
    FirstPiece(t0, p0, f);
    LabelledPiece(t1, p1);
    LabelledPiece(t2, p2);
    PiecesEmpty();
    calc {
      Pieces(x0 + ['.'] + (a + ['.'] + (b + ['.'] + [])));
      { PiecesCons(x0, a + ['.'] + (b + ['.'] + [])); }
      Pieces(x0) + Pieces(a + ['.'] + (b + ['.'] + []));
      { PiecesCons(a, b + ['.'] + []); }
      [t0 + " " + f] + ([Labelled(t1, p1)] + Pieces(b + ['.'] + []));
      { PiecesCons(b, []); }
      [t0 + " " + f] + ([Labelled(t1, p1)] + ([Labelled(t2, p2)] + []));
      { Triple(t0 + " " + f, Labelled(t1, p1), Labelled(t2, p2)); }
      [t0 + " " + f, Labelled(t1, p1), Labelled(t2, p2)];
    }
  }

  lemma Triple<T>(a: T, b: T, c: T)
    ensures [a] + ([b] + ([c] + [])) == [a, b, c]
  {
  }

  /** The points of the short script meet what `BodyPieces` asks of them. */
  lemma ShortPointFacts(topic: string, summary: string, lang: string)
    requires '.' !in topic
    ensures var p := ShortPoints(topic, summary);
      var f := FirstPointText(topic, summary);
      f != [] && !IsSpace(f[|f| - 1]) && '.' !in f && (p[0] == f || p[0] == f + ".") &&
      (p[1] == [] || (IsStripped(p[1]) && '.' !in p[1])) &&
      (p[2] == [] || (IsStripped(p[2]) && '.' !in p[2]))
  {
    FirstPointFacts(topic, summary);
    ShortPointsWellFormed(topic, summary);
  }

  // ------------------------------------------------------------ the result

  /** A three-line script: the second line is the whole middle. */
  lemma ThreeLines(h: string, b: string, c: string)
    ensures var parts := [h, b, c];
      HookOf(parts) == h && CtaOf(parts) == c && PointSentences(MiddleOf(parts)) == Pieces(b)
  {
    var parts := [h, b, c];
    assert |parts| == 3;
    assert MiddleOf(parts) == parts[1..2];
    assert parts[1..2] == [b];
    PointSentencesLast([b]);
    assert [b][..0] == [];
  }

  /** Segmenting the deterministic short script of a topic without '.' or
      newline: the hook and call to action are the script's own, and the
      three points are its three labelled clauses, each starting with its tag. */
  lemma ShortScriptSegments(topic: string, summary: string, lang: string)
    requires '.' !in topic && '\n' !in topic
    ensures var r := SegmentsOf(FormatShort(topic, summary, lang));
      var p := ShortPoints(topic, summary);
      |r| == 5 &&
      r[0].text == ShortHook(topic, lang) && r[4].text == ShortCta(lang) &&
      r[1].text == PointTag(lang, 0) + " " + FirstPointText(topic, summary) &&
      r[2].text == Labelled(PointTag(lang, 1), p[1]) &&
      r[3].text == Labelled(PointTag(lang, 2), p[2])
  {
    var p := ShortPoints(topic, summary);
    ShortLines(topic, summary, lang);
    ShortBodyPieces(topic, summary, lang);
    ThreeLineSegments(FormatShort(topic, summary, lang), ShortHook(topic, lang), ShortBody(lang, p), ShortCta(lang),
      PointTag(lang, 0) + " " + FirstPointText(topic, summary), Labelled(PointTag(lang, 1), p[1]), Labelled(PointTag(lang, 2), p[2]));
  }

  /** The body line of the short script splits into its three labelled points. */
  lemma ShortBodyPieces(topic: string, summary: string, lang: string)
    requires '.' !in topic
    ensures var p := ShortPoints(topic, summary);
      Pieces(ShortBody(lang, p))
      == [PointTag(lang, 0) + " " + FirstPointText(topic, summary), Labelled(PointTag(lang, 1), p[1]), Labelled(PointTag(lang, 2), p[2])]
  {
    ShortPointFacts(topic, summary, lang);
    BodyOfPoints(lang, ShortPoints(topic, summary), FirstPointText(topic, summary));
  }

  /** `BodyPieces` for the tags of a language. */
  lemma BodyOfPoints(lang: string, p: seq<string>, f: string)
    requires |p| == 3
    requires f != [] && !IsSpace(f[|f| - 1]) && '.' !in f && (p[0] == f || p[0] == f + ".")
    requires p[1] == [] || (IsStripped(p[1]) && '.' !in p[1])
    requires p[2] == [] || (IsStripped(p[2]) && '.' !in p[2])
    ensures Pieces(ShortBody(lang, p))
         == [PointTag(lang, 0) + " " + f, Labelled(PointTag(lang, 1), p[1]), Labelled(PointTag(lang, 2), p[2])]
  {
    TagFacts(lang, 0);
    TagFacts(lang, 1);
    TagFacts(lang, 2);
    BodyPieces(PointTag(lang, 0), p[0], f, PointTag(lang, 1), p[1], PointTag(lang, 2), p[2]);
  }

  /** A script of three lines whose middle line has three pieces: the lines
      and pieces are the five segment texts. */
  lemma ThreeLineSegments(script: string, h: string, b: string, c: string, x: string, y: string, z: string)
    requires Lines(script) == [h, b, c]
    requires Pieces(b) == [x, y, z]
    ensures var r := SegmentsOf(script);
      |r| == 5 && r[0].text == h && r[1].text == x && r[2].text == y && r[3].text == z && r[4].text == c
  {
    Texts(script);
    ThreeLines(h, b, c);
  }

  /** Each point segment of the short script starts with its tag. */
  lemma ShortPointsTagged(topic: string, summary: string, lang: string)
    requires '.' !in topic && '\n' !in topic
    ensures var r := SegmentsOf(FormatShort(topic, summary, lang));
      |r| == 5 && forall i :: 0 <= i < 3 ==> StartsWith(r[i + 1].text, PointTag(lang, i))
  {
    ShortScriptSegments(topic, summary, lang);
    var r := SegmentsOf(FormatShort(topic, summary, lang));
    var p := ShortPoints(topic, summary);
    var t0, f := PointTag(lang, 0), FirstPointText(topic, summary);
    TaggedTexts(r, [t0, PointTag(lang, 1), PointTag(lang, 2)], f, p[1], p[2]);
    assert forall i :: 0 <= i < 3 ==> PointTag(lang, i) == [t0, PointTag(lang, 1), PointTag(lang, 2)][i];
  }

  lemma TaggedTexts(r: seq<Segment>, tags: seq<string>, f: string, p1: string, p2: string)
    requires |r| == 5 && |tags| == 3
    requires r[1].text == tags[0] + " " + f
    requires r[2].text == Labelled(tags[1], p1) && r[3].text == Labelled(tags[2], p2)
    ensures forall i :: 0 <= i < 3 ==> StartsWith(r[i + 1].text, tags[i])
  {
    StartsWithAppend(tags[0], " " + f);
    assert tags[0] + " " + f == tags[0] + (" " + f);
  }

  /** The English instance: "Did you know about {topic}?", "Like and
      subscribe for more." and points tagged "Point 1:", "Point 2:", "Point 3:". */
  lemma EnglishShortSegments(topic: string, summary: string, lang: string)
    requires '.' !in topic && '\n' !in topic && !StartsWith(lang, "vi")
    ensures var r := SegmentsOf(FormatShort(topic, summary, lang));
      |r| == 5 &&
      r[0].text == "Did you know about " + topic + "?" && r[4].text == "Like and subscribe for more." &&
      StartsWith(r[1].text, "Point 1:") && StartsWith(r[2].text, "Point 2:") && StartsWith(r[3].text, "Point 3:")
  {
    ShortScriptSegments(topic, summary, lang);
    ShortPointsTagged(topic, summary, lang);
    assert PointTag(lang, 0) == "Point 1:" && PointTag(lang, 1) == "Point 2:" && PointTag(lang, 2) == "Point 3:";
  }
}

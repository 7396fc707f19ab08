/**
 The comparison of program output with expected output: `norm(s)` joins the words of `s` with newlines,
 and two outputs are equal when their norms are. Words are what Python's `str.split()` returns.
 */
module OutputComparison {

  /** Python's str.isspace: the characters `strip` and `split` without arguments treat as white space. */
  predicate IsSpace(c: char) {
    || '\U{9}' <= c <= '\U{D}' || '\U{1C}' <= c <= '\U{20}' || c == '\U{85}' || c == '\U{A0}'
    || c == '\U{1680}' || '\U{2000}' <= c <= '\U{200A}' || c == '\U{2028}' || c == '\U{2029}'
    || c == '\U{202F}' || c == '\U{205F}' || c == '\U{3000}'
  }

  predicate Blank(s: string) { forall i | 0 <= i < |s| :: IsSpace(s[i]) }

  predicate Word(s: string) { s != [] && forall i | 0 <= i < |s| :: !IsSpace(s[i]) }

  predicate Words(ts: seq<string>) { forall i | 0 <= i < |ts| :: Word(ts[i]) }

  function WordLength(s: string): (n: nat)
    ensures n <= |s| && (forall i | 0 <= i < n :: !IsSpace(s[i])) && (n < |s| ==> IsSpace(s[n]))
  {
    if s == [] || IsSpace(s[0]) then 0 else 1 + WordLength(s[1..])
  }

  function LStrip(s: string): string {
    if s != [] && IsSpace(s[0]) then LStrip(s[1..]) else s
  }

  function RStrip(s: string): string {
    if s != [] && IsSpace(s[|s| - 1]) then RStrip(s[..|s| - 1]) else s
  }

  function Strip(s: string): string { RStrip(LStrip(s)) }

  function Split(s: string): seq<string>
    decreases |s|
  {
    if s == [] then []
    else if IsSpace(s[0]) then Split(s[1..])
    else [s[..WordLength(s)]] + Split(s[WordLength(s)..])
  }

  function Join(ts: seq<string>): string {
    if ts == [] then [] else if |ts| == 1 then ts[0] else ts[0] + "\n" + Join(ts[1..])
  }

  function Norm(s: string): string { Join(Split(Strip(s))) }

  // ----- an independent definition of the words of a text -----

  /** gaps[0] + words[0] + gaps[1] + ... + words[n-1] + gaps[n] */
  function Woven(gaps: seq<string>, ts: seq<string>): string
    requires |gaps| == |ts| + 1
    decreases |ts|
  {
    if ts == [] then gaps[0] else gaps[0] + ts[0] + Woven(gaps[1..], ts[1..])
  }

  /** The gaps are blank, and those between two words are not empty. */
  predicate Gaps(gaps: seq<string>) {
    && (forall i | 0 <= i < |gaps| :: Blank(gaps[i]))
    && (forall i | 0 < i < |gaps| - 1 :: gaps[i] != [])
  }

  /** `ts` is the sequence of maximal runs of non-space characters of `s`. */
  ghost predicate WordsOf(s: string, ts: seq<string>) {
    Words(ts) && exists gaps :: |gaps| == |ts| + 1 && Gaps(gaps) && s == Woven(gaps, ts)
  }

  lemma {:induction false} SplitSkipsBlank(g: string, s: string)
    requires Blank(g)
    ensures Split(g + s) == Split(s)
  {
    if g == [] {
      assert g + s == s;
    } else {
      assert (g + s)[1..] == g[1..] + s;
      SplitSkipsBlank(g[1..], s);
    }
  }

  lemma {:induction false} WordLengthOf(w: string, s: string)
    requires Word(w) && (s == [] || IsSpace(s[0]))
    ensures WordLength(w + s) == |w|
  {
    if |w| == 1 {
      assert (w + s)[1..] == s;
    } else {
      assert (w + s)[1..] == w[1..] + s;
      WordLengthOf(w[1..], s);
    }
  }

  lemma SplitTakesWord(w: string, s: string)
    requires Word(w) && (s == [] || IsSpace(s[0]))
    ensures Split(w + s) == [w] + Split(s)
  {
    WordLengthOf(w, s);
    assert (w + s)[..|w|] == w && (w + s)[|w|..] == s;
  }

  lemma {:induction false} SplitOfWoven(gaps: seq<string>, ts: seq<string>)
    requires |gaps| == |ts| + 1 && Gaps(gaps) && Words(ts)
    ensures Split(Woven(gaps, ts)) == ts
    decreases |ts|
  {
    if ts == [] {
      SplitSkipsBlank(gaps[0], []);
      assert gaps[0] + [] == gaps[0];
    } else {
      var rest := Woven(gaps[1..], ts[1..]);
      assert gaps[0] + ts[0] + rest == gaps[0] + (ts[0] + rest);
      SplitSkipsBlank(gaps[0], ts[0] + rest);
      assert rest == [] || IsSpace(rest[0]) by {
        assert gaps[1..][0] == gaps[1];
        if |ts| > 1 {
          assert gaps[1] != [] && Blank(gaps[1]);
          assert rest[0] == gaps[1][0];
        } else {
          assert ts[1..] == [];
        }
      }
      SplitTakesWord(ts[0], rest);
      assert Gaps(gaps[1..]) by {
        assert forall i | 0 <= i < |gaps[1..]| :: gaps[1..][i] == gaps[i + 1];
      }
      SplitOfWoven(gaps[1..], ts[1..]);
    }
  }

  lemma BlankInFront(c: char, gaps: seq<string>, ts: seq<string>)
    requires |gaps| == |ts| + 1 && Gaps(gaps) && IsSpace(c)
    ensures Gaps([[c] + gaps[0]] + gaps[1..])
    ensures Woven([[c] + gaps[0]] + gaps[1..], ts) == [c] + Woven(gaps, ts)
  {
    hide IsSpace;
    var wider := [[c] + gaps[0]] + gaps[1..];
    assert wider[1..] == gaps[1..];
    if ts != [] {
      var rest := Woven(gaps[1..], ts[1..]);
      assert ([c] + gaps[0]) + ts[0] + rest == [c] + (gaps[0] + ts[0] + rest);
    }
  }

  lemma WordInFront(w: string, gaps: seq<string>, ts: seq<string>)
    requires |gaps| == |ts| + 1 && Gaps(gaps) && (ts != [] ==> gaps[0] != [])
    ensures Gaps([[]] + gaps) && Woven([[]] + gaps, [w] + ts) == w + Woven(gaps, ts)
  {
    assert ([[]] + gaps)[1..] == gaps && ([w] + ts)[1..] == ts;
    assert [] + w == w;
  }

  /** The words split() returns, with the gaps that were between them. */
  lemma {:induction false} SplitIsWoven(s: string) returns (gaps: seq<string>)
    ensures Words(Split(s)) && |gaps| == |Split(s)| + 1 && Gaps(gaps) && s == Woven(gaps, Split(s))
    ensures s != [] && IsSpace(s[0]) ==> gaps[0] != []
    decreases |s|
  {
    hide Woven, Gaps, IsSpace;
    if s == [] {
      gaps := [[]];
      EmptyIsWoven();
    } else if IsSpace(s[0]) {
      var g := SplitIsWoven(s[1..]);
      BlankInFront(s[0], g, Split(s[1..]));
      gaps := [[s[0]] + g[0]] + g[1..];
      assert s == [s[0]] + s[1..];
    } else {
      var n := WordLength(s);
      var g := SplitIsWoven(s[n..]);
      WordInFront(s[..n], g, Split(s[n..]));
      gaps := [[]] + g;
      assert s == s[..n] + s[n..];
    }
  }

  lemma EmptyIsWoven()
    ensures Gaps([[]]) && Woven([[]], []) == []
  {
  }

  /** split() returns the words of its text, and nothing else is the words of that text. */
  lemma SplitIsExact(s: string, ts: seq<string>)
    ensures WordsOf(s, ts) <==> ts == Split(s)
  {
    var g := SplitIsWoven(s);
    assert WordsOf(s, Split(s));
    if WordsOf(s, ts) {
      var gaps :| |gaps| == |ts| + 1 && Gaps(gaps) && s == Woven(gaps, ts);
      SplitOfWoven(gaps, ts);
    }
  }

  // ----- strip, join, norm -----

  lemma {:induction false} SplitOfJoin(ts: seq<string>)
    requires Words(ts)
    ensures Split(Join(ts)) == ts
  {
    if |ts| == 1 {
      SplitTakesWord(ts[0], []);
      assert ts[0] + [] == ts[0];
    } else if |ts| > 1 {
      var rest := "\n" + Join(ts[1..]);
      assert Join(ts) == ts[0] + rest;
      SplitTakesWord(ts[0], rest);
      SplitSkipsBlank("\n", Join(ts[1..]));
      SplitOfJoin(ts[1..]);
    }
  }

  lemma {:induction false} SplitThenBlank(s: string, g: string)
    requires Blank(g)
    ensures Split(s + g) == Split(s)
    decreases |s|
  {
    if s == [] {
      SplitSkipsBlank(g, []);
      assert s + g == g + [];
    } else if IsSpace(s[0]) {
      assert (s + g)[1..] == s[1..] + g;
      SplitThenBlank(s[1..], g);
    } else {
      var n := WordLength(s);
      var w, r := s[..n], s[n..];
      assert s == w + r && s + g == w + (r + g);
      SplitTakesWord(w, r);
      assert r + g == [] || IsSpace((r + g)[0]);
      SplitTakesWord(w, r + g);
      SplitThenBlank(r, g);
    }
  }

  lemma {:induction false} SplitOfLStrip(s: string)
    ensures Split(LStrip(s)) == Split(s)
  {
    if s != [] && IsSpace(s[0]) {
      SplitOfLStrip(s[1..]);
    }
  }

  lemma {:induction false} SplitOfRStrip(s: string)
    ensures Split(RStrip(s)) == Split(s)
  {
    if s != [] && IsSpace(s[|s| - 1]) {
      assert s == s[..|s| - 1] + [s[|s| - 1]];
      SplitThenBlank(s[..|s| - 1], [s[|s| - 1]]);
      SplitOfRStrip(s[..|s| - 1]);
    }
  }

  /** The strip before the split changes nothing. */
  lemma StripIsRedundant(s: string)
    ensures Split(Strip(s)) == Split(s)
  {
    SplitOfLStrip(s);
    SplitOfRStrip(LStrip(s));
  }

  /** Two texts compare equal exactly when they have the same words in the same order. */
  lemma NormIsWordEquality(a: string, b: string)
    ensures Norm(a) == Norm(b) <==> Split(a) == Split(b)
  {
    StripIsRedundant(a);
    StripIsRedundant(b);
    var g := SplitIsWoven(a);
    var h := SplitIsWoven(b);
    SplitOfJoin(Split(a));
    SplitOfJoin(Split(b));
  }

  lemma NormIsIdempotent(s: string)
    ensures Norm(Norm(s)) == Norm(s)
  {
    StripIsRedundant(s);
    StripIsRedundant(Norm(s));
    var g := SplitIsWoven(s);
    SplitOfJoin(Split(s));
  }

  /** Around white space the words of a text are those of its parts. */
  lemma {:induction false} SplitAtBlank(a: string, g: string, b: string)
    requires Blank(g) && g != []
    ensures Split(a + g + b) == Split(a) + Split(b)
    decreases |a|
  {
    assert a + g + b == a + (g + b);
    if a == [] {
      SplitSkipsBlank(g, b);
      assert a + (g + b) == g + b;
    } else if IsSpace(a[0]) {
      assert (a + g + b)[1..] == a[1..] + g + b;
      SplitAtBlank(a[1..], g, b);
    } else {
      var n := WordLength(a);
      var w, r := a[..n], a[n..];
      assert a == w + r && a + g + b == w + (r + g + b);
      SplitTakesWord(w, r);
      assert IsSpace((r + g + b)[0]);
      SplitTakesWord(w, r + g + b);
      SplitAtBlank(r, g, b);
    }
  }

  /** So how the words are laid out never changes a verdict. */
  lemma LayoutIsIgnored(a: string, g: string, h: string, b: string)
    requires Blank(g) && g != [] && Blank(h) && h != []
    ensures Norm(a + g + b) == Norm(a + h + b) && Norm(g + a + h) == Norm(a)
  {
    SplitAtBlank(a, g, b);
    SplitAtBlank(a, h, b);
    NormIsWordEquality(a + g + b, a + h + b);
    SplitSkipsBlank(g, a + h);
    SplitThenBlank(a, h);
    assert g + a + h == g + (a + h);
    NormIsWordEquality(g + a + h, a);
  }
}

/** Trimming and splitting of text, shared by node labels, template expressions and secret references. */
module Text {

  /** The Unicode White_Space characters, which Rust's `trim` removes. */
  predicate IsSpace(c: char) {
    || '\U{0009}' <= c <= '\U{000D}'
    || c == ' '
    || c == '\U{0085}'
    || c == '\U{00A0}'
    || c == '\U{1680}'
    || '\U{2000}' <= c <= '\U{200A}'
    || c == '\U{2028}'
    || c == '\U{2029}'
    || c == '\U{202F}'
    || c == '\U{205F}'
    || c == '\U{3000}'
  }

  function TrimStart(s: string): string {
    if s != "" && IsSpace(s[0]) then TrimStart(s[1..]) else s
  }

  function TrimEnd(s: string): string {
    if s != "" && IsSpace(s[|s| - 1]) then TrimEnd(s[..|s| - 1]) else s
  }

  function Trim(s: string): string {
    TrimEnd(TrimStart(s))
  }

  /** White space, character by character. */
  const WHITE: string :=
    "\U{0009}\U{000A}\U{000B}\U{000C}\U{000D} \U{0085}\U{00A0}\U{1680}\U{2000}\U{2001}\U{2002}\U{2003}\U{2004}"
    + "\U{2005}\U{2006}\U{2007}\U{2008}\U{2009}\U{200A}\U{2028}\U{2029}\U{202F}\U{205F}\U{3000}"

  lemma WhiteIsSpace(c: char)
    ensures IsSpace(c) <==> c in WHITE
  {
    var first :=
      "\U{0009}\U{000A}\U{000B}\U{000C}\U{000D} \U{0085}\U{00A0}\U{1680}\U{2000}\U{2001}\U{2002}\U{2003}\U{2004}";
    var second := "\U{2005}\U{2006}\U{2007}\U{2008}\U{2009}\U{200A}\U{2028}\U{2029}\U{202F}\U{205F}\U{3000}";
    assert c in WHITE <==> c in first || c in second;
  }

  predicate AllWhite(s: string) {
    forall c :: c in s ==> c in WHITE
  }

  /** No white space at either end. */
  predicate Bare(s: string) {
    s != "" ==> s[0] !in WHITE && s[|s| - 1] !in WHITE
  }

  lemma {:induction false} TrimStartIs(p: string, s: string)
    requires AllWhite(p) && (s != "" ==> s[0] !in WHITE)
    ensures TrimStart(p + s) == s
  {
    if p == "" {
      assert p + s == s;
      if s != "" { WhiteIsSpace(s[0]); }
    } else {
      WhiteIsSpace(p[0]);
      assert (p + s)[1..] == p[1..] + s;
      TrimStartIs(p[1..], s);
    }
  }

  lemma {:induction false} TrimEndIs(s: string, q: string)
    requires AllWhite(q) && (s != "" ==> s[|s| - 1] !in WHITE)
    ensures TrimEnd(s + q) == s
    decreases |q|
  {
    if q == "" {
      assert s + q == s;
      if s != "" { WhiteIsSpace(s[|s| - 1]); }
    } else {
      WhiteIsSpace(q[|q| - 1]);
      assert (s + q)[..|s + q| - 1] == s + q[..|q| - 1];
      TrimEndIs(s, q[..|q| - 1]);
    }
  }

  /** Trimming takes off exactly the white space around a text. */
  lemma TrimIs(p: string, s: string, q: string)
    requires AllWhite(p) && Bare(s) && AllWhite(q)
    ensures Trim(p + s + q) == s
  {
    if s == "" {
      assert p + s + q == (p + q) + "";
      TrimStartIs(p + q, "");
    } else {
      assert p + s + q == p + (s + q);
      TrimStartIs(p, s + q);
      TrimEndIs(s, q);
    }
  }

  /** The parts of a text between the separators; there is always at least one. */
  function SplitOn(s: string, c: char): (parts: seq<string>)
    ensures parts != []
  {
    if s == "" then [""]
    else if s[0] == c then [""] + SplitOn(s[1..], c)
    else
      var parts := SplitOn(s[1..], c);
      [[s[0]] + parts[0]] + parts[1..]
  }

  /** Text without the separator is one part. */
  lemma {:induction false} SplitOnPlain(s: string, c: char)
    requires c !in s
    ensures SplitOn(s, c) == [s]
  {
    if s != "" {
      assert s == [s[0]] + s[1..];
      SplitOnPlain(s[1..], c);
    }
  }

  /** The parts of a text with one more character in front. */
  function Grown(x: char, parts: seq<string>, c: char): seq<string>
    requires parts != []
  {
    if x == c then [""] + parts else [[x] + parts[0]] + parts[1..]
  }

  lemma GrownConcat(x: char, p: seq<string>, q: seq<string>, c: char)
    requires p != []
    ensures Grown(x, p + q, c) == Grown(x, p, c) + q
  {
    if x == c {
      assert [""] + (p + q) == [""] + p + q;
    } else {
      assert (p + q)[0] == p[0] && (p + q)[1..] == p[1..] + q;
    }
  }

  lemma SplitOnCons(x: char, s: string, c: char)
    ensures SplitOn([x] + s, c) == Grown(x, SplitOn(s, c), c)
  {
    assert ([x] + s)[1..] == s;
  }

  /** One more character in front of a text that splits in two. */
  lemma SplitOnGrows(x: char, s: string, t: string, c: char, p: seq<string>, q: seq<string>)
    requires SplitOn(s, c) == p + q && SplitOn(t, c) == p
    ensures SplitOn([x] + s, c) == SplitOn([x] + t, c) + q
  {
    SplitOnCons(x, s, c);
    SplitOnCons(x, t, c);
    GrownConcat(x, p, q, c);
  }

  /** Splitting in two at one separator, wherever it stands. */
  lemma {:induction false} SplitOnAt(s: string, i: nat, c: char)
    requires i < |s| && s[i] == c
    ensures SplitOn(s, c) == SplitOn(s[..i], c) + SplitOn(s[i + 1..], c)
    decreases i
  {
    if i == 0 {
      assert s[..0] == "";
    } else {
      var rest := s[1..];
      SplitOnAt(rest, i - 1, c);
      SplitOnGrows(s[0], rest, rest[..i - 1], c, SplitOn(rest[..i - 1], c), SplitOn(rest[i..], c));
      assert s == [s[0]] + rest && s[..i] == [s[0]] + rest[..i - 1] && s[i + 1..] == rest[i..];
    }
  }

  lemma SplitOnConcat(a: string, b: string, c: char)
    ensures SplitOn(a + [c] + b, c) == SplitOn(a, c) + SplitOn(b, c)
  {
    var s := a + [c] + b;
    SplitOnAt(s, |a|, c);
    assert s[..|a|] == a && s[|a| + 1..] == b;
  }

  /** There is one part more than there are separators. */
  lemma {:induction false} SplitOnCount(s: string, c: char)
    ensures |SplitOn(s, c)| == 1 + multiset(s)[c]
  {
    if s != "" {
      assert s == [s[0]] + s[1..];
      assert multiset(s) == multiset{s[0]} + multiset(s[1..]);
      SplitOnCount(s[1..], c);
    }
  }
}

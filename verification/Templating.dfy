/**
 Template text with {{placeholders}} (backend/src/engine/templating.rs).
 */
module Templating {
  import opened Wrappers
  import opened JsonValues
  import Text

  // ---- Finding doubled braces ----

  predicate PairAt(s: string, c: char, i: int) {
    0 <= i < |s| - 1 && s[i] == c && s[i + 1] == c
  }

  /** The index of the first doubled `c` at or after `i`, or -1. */
  function FindFrom(s: string, c: char, i: nat): (r: int)
    ensures r == -1 || (i <= r && PairAt(s, c, r))
    ensures forall k :: i <= k && (r == -1 || k < r) ==> !PairAt(s, c, k)
    decreases |s| - i
  {
    if i >= |s| then -1 else if PairAt(s, c, i) then i else FindFrom(s, c, i + 1)
  }

  function Find(s: string, c: char): (r: int)
    ensures r == -1 || PairAt(s, c, r)
    ensures forall k :: 0 <= k && (r == -1 || k < r) ==> !PairAt(s, c, k)
  {
    FindFrom(s, c, 0)
  }

  // ---- Literals and placeholders ----

  datatype Template =
    | End(text: string)                                   // no placeholder left
    | Open(text: string, tail: string)                    // an unclosed "{{...", kept as it is
    | Hole(text: string, raw: string, rest: Template)     // a literal, then "{{...}}"

  function Split(s: string): Template
    decreases |s|
  {
    var start := Find(s, '{');
    if start == -1 then End(s)
    else
      var tail := s[start..];
      var end := Find(tail, '}');
      if end == -1 then Open(s[..start], tail)
      else Hole(s[..start], tail[..end + 2], Split(tail[end + 2..]))
  }

  function Unsplit(t: Template): string {
    match t
    case End(text) => text
    case Open(text, tail) => text + tail
    case Hole(text, raw, rest) => text + raw + Unsplit(rest)
  }

  /** The template's own grammar: where each literal and placeholder of `s` must begin and end. */
  predicate Reads(t: Template, s: string) {
    match t
    case End(text) =>
      text == s && forall k :: 0 <= k < |s| ==> !PairAt(s, '{', k)
    case Open(text, tail) =>
      && s == text + tail
      && PairAt(s, '{', |text|) && (forall k :: 0 <= k < |text| ==> !PairAt(s, '{', k))
      && (forall k :: 0 <= k < |tail| ==> !PairAt(tail, '}', k))
    case Hole(text, raw, rest) =>
      && |raw| >= 2 && |text| + |raw| <= |s|
      && s[..|text|] == text && s[|text|..|text| + |raw|] == raw
      && PairAt(s, '{', |text|) && (forall k :: 0 <= k < |text| ==> !PairAt(s, '{', k))
      && PairAt(raw, '}', |raw| - 2) && (forall k :: 0 <= k < |raw| - 2 ==> !PairAt(raw, '}', k))
      && Reads(rest, s[|text| + |raw|..])
  }

  /** The split obeys the grammar, and nothing else does: every text has exactly one reading. */
  lemma {:induction false} SplitIsTheOnlyReading(t: Template, s: string)
    ensures Reads(t, s) <==> t == Split(s)
    decreases |s|
  {
    SplitReads(s);
    if Reads(t, s) {
      ReadingIsSplit(t, s);
    }
  }

  lemma {:induction false} SplitReads(s: string)
    ensures Reads(Split(s), s)
    decreases |s|
  {
    var start := Find(s, '{');
    if start != -1 {
      var tail := s[start..];
      var end := Find(tail, '}');
      if end != -1 {
        var raw := tail[..end + 2];
        assert PairAt(raw, '}', end);
        forall k | 0 <= k < end
          ensures !PairAt(raw, '}', k)
        {
          assert PairAt(raw, '}', k) ==> PairAt(tail, '}', k);
        }
        SplitReads(tail[end + 2..]);
        assert tail[end + 2..] == s[start + end + 2..];
      } else {
        assert s == s[..start] + tail;
      }
    }
  }

  lemma FindIs(s: string, c: char, i: nat)
    requires PairAt(s, c, i) && forall k :: 0 <= k < i ==> !PairAt(s, c, k)
    ensures Find(s, c) == i
  {
  }

  lemma FindInPrefix(s: string, prefix: string, c: char, i: nat)
    requires prefix <= s && PairAt(prefix, c, i) && forall k :: 0 <= k < i ==> !PairAt(prefix, c, k)
    ensures Find(s, c) == i
  {
    forall k | 0 <= k < i
      ensures !PairAt(s, c, k)
    {
      assert !PairAt(prefix, c, k);
    }
    FindIs(s, c, i);
  }

  lemma OpenIsSplit(text: string, tail: string, s: string)
    requires Reads(Open(text, tail), s)
    ensures Open(text, tail) == Split(s)
  {
    FindIs(s, '{', |text|);
    assert s[|text|..] == tail && s[..|text|] == text;
  }

  /** Where the first placeholder of a reading begins and ends. */
  lemma HoleIsFound(text: string, raw: string, rest: Template, s: string, tail: string)
    requires Reads(Hole(text, raw, rest), s) && tail == s[|text|..]
    ensures Find(s, '{') == |text| && Find(tail, '}') == |raw| - 2
    ensures raw == tail[..|raw|] && Reads(rest, tail[|raw|..])
  {
    FindIs(s, '{', |text|);
    assert raw == tail[..|raw|];
    FindInPrefix(tail, raw, '}', |raw| - 2);
    assert tail[|raw|..] == s[|text| + |raw|..];
  }

  lemma {:induction false} ReadingIsSplit(t: Template, s: string)
    requires Reads(t, s)
    ensures t == Split(s)
    decreases |s|
  {
    match t
    case End(text) =>
    case Open(text, tail) =>
      OpenIsSplit(text, tail, s);
    case Hole(text, raw, rest) =>
      var tail := s[|text|..];
      HoleIsFound(text, raw, rest, s, tail);
      ReadingIsSplit(rest, tail[|raw|..]);
  }

  /** Splitting loses no character. */
  lemma {:induction false} SplitKeepsText(s: string)
    ensures Unsplit(Split(s)) == s
    decreases |s|
  {
    var start := Find(s, '{');
    if start != -1 {
      var head, tail := s[..start], s[start..];
      assert s == head + tail;
      var end := Find(tail, '}');
      if end != -1 {
        var raw, rest := tail[..end + 2], tail[end + 2..];
        assert tail == raw + rest;
        SplitKeepsText(rest);
        UnsplitHole(head, raw, rest, Split(rest));
      }
    }
  }

  lemma UnsplitHole(head: string, raw: string, rest: string, t: Template)
    requires Unsplit(t) == rest
    ensures Unsplit(Hole(head, raw, t)) == head + (raw + rest)
  {
    assert head + raw + rest == head + (raw + rest);
  }

  // ---- Rendering ----

  type Lookup = string -> Option<string>

  function StripOpening(s: string): string {
    if PairAt(s, '{', 0) then StripOpening(s[2..]) else s
  }

  function StripClosing(s: string): string {
    if PairAt(s, '}', |s| - 2) then StripClosing(s[..|s| - 2]) else s
  }

  /** The expression inside a placeholder: all outer brace pairs off, then white space. */
  function Expression(raw: string): string {
    Text.Trim(StripClosing(StripOpening(raw)))
  }

  function ValueOf(raw: string, lookup: Lookup): string {
    match lookup(Expression(raw)) case Some(v) => v case None => ""
  }

  function Render(t: Template, lookup: Lookup): string {
    match t
    case End(text) => text
    case Open(text, tail) => text + tail
    case Hole(text, raw, rest) => text + ValueOf(raw, lookup) + Render(rest, lookup)
  }

  /** Rendering up to the end of the first placeholder, and then the rest. */
  lemma RenderHole(s: string, lookup: Lookup, start: nat, end: nat)
    requires start == Find(s, '{') && end == Find(s[start..], '}')
    ensures Render(Split(s), lookup)
         == s[..start] + ValueOf(s[start..][..end + 2], lookup) + Render(Split(s[start..][end + 2..]), lookup)
  {
  }

  lemma RenderOpen(s: string, lookup: Lookup, start: nat)
    requires start == Find(s, '{') && Find(s[start..], '}') == -1
    ensures Render(Split(s), lookup) == s[..start] + s[start..]
  {
  }

  lemma RenderEnd(s: string, lookup: Lookup)
    requires Find(s, '{') == -1
    ensures Render(Split(s), lookup) == s
  {
  }

  lemma Regroup(a: string, b: string, c: string, d: string)
    ensures a + (b + c + d) == a + b + c + d
  {
  }

  /** The scanning loop: it terminates, and never looks into substituted text. */
  method TemplStr(s: string, lookup: Lookup) returns (out: string)
    ensures out == Render(Split(s), lookup)
  {
    out := "";
    var rest := s;
    var start := Find(rest, '{');
    while start != -1
      invariant start == Find(rest, '{')
      invariant Render(Split(s), lookup) == out + Render(Split(rest), lookup)
      decreases |rest|
    {
      var head, tail := rest[..start], rest[start..];
      var end := Find(tail, '}');
      if end == -1 {
        RenderOpen(rest, lookup, start);
        assert out + (head + tail) == out + head + tail;
        return out + head + tail;
      }
      var raw, newRest := tail[..end + 2], tail[end + 2..];
      RenderHole(rest, lookup, start, end);
      Regroup(out, head, ValueOf(raw, lookup), Render(Split(newRest), lookup));
      out := out + head + ValueOf(raw, lookup);
      rest := newRest;
      start := Find(rest, '{');
    }
    RenderEnd(rest, lookup);
    out := out + rest;
  }

  // ---- Laws ----

  /** Text in which no "}}" follows the first "{{" is rendered unchanged. */
  lemma NothingToFill(s: string, lookup: Lookup)
    requires forall j :: 0 <= Find(s, '{') <= j ==> !PairAt(s, '}', j)
    ensures Render(Split(s), lookup) == s
  {
    var start := Find(s, '{');
    if start != -1 {
      var tail := s[start..];
      var end := Find(tail, '}');
      if end != -1 {
        assert PairAt(s, '}', start + end);
        assert false;
      }
      assert s == s[..start] + tail;
    }
  }

  predicate NoBraces(s: string) {
    '{' !in s && '}' !in s
  }

  lemma WhiteHasNoBraces(s: string)
    requires Text.AllWhite(s)
    ensures NoBraces(s)
  {
    Text.WhiteIsSpace('{');
    Text.WhiteIsSpace('}');
  }

  /** n doubled opening braces. */
  function Opening(n: nat): string {
    if n == 0 then "" else "{{" + Opening(n - 1)
  }

  lemma {:induction false} OpeningComesOff(n: nat, y: string)
    requires !PairAt(y, '{', 0)
    ensures StripOpening(Opening(n) + y) == y
    ensures forall c :: c in Opening(n) ==> c == '{'
  {
    if n == 0 {
      assert Opening(0) + y == y;
    } else {
      var s := Opening(n) + y;
      assert PairAt(s, '{', 0) && s[2..] == Opening(n - 1) + y;
      OpeningComesOff(n - 1, y);
    }
  }

  lemma ExpressionIs(n: nat, p: string, e: string, q: string)
    requires Text.AllWhite(p) && Text.Bare(e) && NoBraces(e) && Text.AllWhite(q)
    ensures Expression("{{" + (Opening(n) + (p + e + q)) + "}}") == e
  {
    WhiteHasNoBraces(p);
    WhiteHasNoBraces(q);
    StripsBraces(n, p + e + q);
    Text.TrimIs(p, e, q);
  }

  lemma StripsBraces(n: nat, x: string)
    requires NoBraces(x)
    ensures StripClosing(StripOpening("{{" + (Opening(n) + x) + "}}")) == x
  {
    var open := x + "}}";
    assert "{{" + (Opening(n) + x) + "}}" == Opening(n + 1) + open;
    assert !PairAt(open, '{', 0) by { if x != "" { assert open[0] == x[0] && x[0] in x; } }
    OpeningComesOff(n + 1, open);
    ClosingComesOff(x, open);
  }

  lemma ClosingComesOff(x: string, open: string)
    requires NoBraces(x) && open == x + "}}"
    ensures StripClosing(open) == x
  {
    assert PairAt(open, '}', |open| - 2) && open[..|open| - 2] == x;
    assert !PairAt(x, '}', |x| - 2) by { if |x| >= 2 { assert x[|x| - 1] in x; } }
  }

  /** Where the only placeholder of a text begins. */
  lemma OnlyOpening(a: string, x: string, b: string, s: string)
    requires NoBraces(a) && s == a + ("{{" + x + "}}" + b)
    ensures Find(s, '{') == |a| && s[|a|..] == "{{" + x + "}}" + b && s[..|a|] == a
  {
    forall k | 0 <= k < |a|
      ensures !PairAt(s, '{', k)
    {
      assert s[k] == a[k] && a[k] in a;
    }
    assert s[|a|] == '{' && s[|a| + 1] == '{';
    FindIs(s, '{', |a|);
  }

  /** And where it ends. */
  lemma OnlyClosing(x: string, b: string, tail: string)
    requires '}' !in x && tail == "{{" + x + "}}" + b
    ensures Find(tail, '}') == |x| + 2
    ensures tail[..|x| + 4] == "{{" + x + "}}" && tail[|x| + 4..] == b
  {
    forall k | 0 <= k < |x| + 2
      ensures !PairAt(tail, '}', k)
    {
      if k >= 2 { assert tail[k] == x[k - 2] && x[k - 2] in x; }
    }
    assert tail[|x| + 2] == '}' && tail[|x| + 3] == '}';
    FindIs(tail, '}', |x| + 2);
  }

  lemma RenderPlain(b: string, lookup: Lookup)
    requires NoBraces(b)
    ensures Render(Split(b), lookup) == b
  {
    forall k
      ensures !PairAt(b, '{', k)
    {
      assert 0 <= k < |b| ==> b[k] in b;
    }
    RenderEnd(b, lookup);
  }

  /**
   A placeholder asks for the expression between its braces, however many pairs open it, without
   the white space around it, and is replaced by the answer, or by nothing.
   */
  lemma PlaceholderIsFilled(a: string, n: nat, p: string, e: string, q: string, b: string, lookup: Lookup)
    requires NoBraces(a) && NoBraces(e) && NoBraces(b)
    requires Text.AllWhite(p) && Text.Bare(e) && Text.AllWhite(q)
    ensures Render(Split(a + ("{{" + (Opening(n) + (p + e + q)) + "}}" + b)), lookup)
         == a + (if lookup(e).Some? then lookup(e).value else "") + b
  {
    var x := Opening(n) + (p + e + q);
    WhiteHasNoBraces(p);
    WhiteHasNoBraces(q);
    OpeningComesOff(n, "");
    var s := a + ("{{" + x + "}}" + b);
    OnlyOpening(a, x, b, s);
    var tail := s[|a|..];
    OnlyClosing(x, b, tail);
    RenderHole(s, lookup, |a|, |x| + 2);
    ExpressionIs(n, p, e, q);
    RenderPlain(b, lookup);
  }

  /** The last part of a text leaves no placeholder open. */
  predicate Closed(t: Template) {
    match t
    case End(_) => true
    case Open(_, _) => false
    case Hole(_, _, rest) => Closed(rest)
  }

  /** A "{{" made of the last character of one text and the first of the next. */
  predicate Straddles(a: string, b: string) {
    a != "" && b != "" && a[|a| - 1] == '{' && b[0] == '{'
  }

  lemma FindAfterPlain(a: string, b: string)
    requires Find(a, '{') == -1 && !Straddles(a, b)
    ensures Find(a + b, '{') == if Find(b, '{') == -1 then -1 else |a| + Find(b, '{')
  {
    var s := a + b;
    forall k | 0 <= k < |s| - 1
      ensures PairAt(s, '{', k) <==> k >= |a| && PairAt(b, '{', k - |a|)
    {
      if k < |a| - 1 {
        assert !PairAt(a, '{', k);
      }
    }
    if Find(b, '{') != -1 {
      FindIs(s, '{', |a| + Find(b, '{'));
    }
  }

  /** Plain text in front is copied. */
  lemma PlainPrefix(a: string, b: string, lookup: Lookup)
    requires Find(a, '{') == -1 && !Straddles(a, b)
    ensures Render(Split(a + b), lookup) == a + Render(Split(b), lookup)
  {
    FindAfterPlain(a, b);
    var start := Find(b, '{');
    if start == -1 {
      RenderEnd(a + b, lookup);
      RenderEnd(b, lookup);
    } else {
      assert (a + b)[|a| + start..] == b[start..];
      assert (a + b)[..|a| + start] == a + b[..start];
      var end := Find(b[start..], '}');
      if end == -1 {
        RenderOpen(a + b, lookup, |a| + start);
        RenderOpen(b, lookup, start);
        assert a + b[..start] + b[start..] == a + (b[..start] + b[start..]);
      } else {
        RenderHole(a + b, lookup, |a| + start, end);
        RenderHole(b, lookup, start, end);
        var raw, rest := b[start..][..end + 2], b[start..][end + 2..];
        Regroup(a, b[..start], ValueOf(raw, lookup), Render(Split(rest), lookup));
      }
    }
  }

  lemma FindPrefix(a: string, b: string, c: char)
    requires Find(a, c) != -1
    ensures Find(a + b, c) == Find(a, c)
  {
    FindInPrefix(a + b, a, c, Find(a, c));
  }

  lemma ClosedHole(a: string, start: int, end: int)
    requires start == Find(a, '{') != -1 && end == Find(a[start..], '}') && Closed(Split(a))
    ensures end != -1 && Closed(Split(a[start..][end + 2..]))
  {
  }

  /** Text behind a placeholder leaves what is before it alone. */
  lemma HolePrefix(a: string, b: string, lookup: Lookup, start: nat, end: nat)
    requires start == Find(a, '{') && end == Find(a[start..], '}')
    ensures Render(Split(a + b), lookup)
         == a[..start] + ValueOf(a[start..][..end + 2], lookup) + Render(Split(a[start..][end + 2..] + b), lookup)
  {
    var tail := a[start..];
    FindPrefix(a, b, '{');
    FindPrefix(tail, b, '}');
    assert (a + b)[start..] == tail + b;
    assert (a + b)[..start] == a[..start];
    assert (tail + b)[..end + 2] == tail[..end + 2];
    assert (tail + b)[end + 2..] == tail[end + 2..] + b;
    RenderHole(a + b, lookup, start, end);
  }

  lemma Regroup2(a: string, b: string, c: string, d: string)
    ensures a + b + (c + d) == a + b + c + d
  {
  }

  /** Rendering distributes over a join that neither splits a placeholder nor forms a new "{{". */
  lemma {:induction false} RenderConcat(a: string, b: string, lookup: Lookup)
    requires Closed(Split(a)) && !Straddles(a, b)
    ensures Render(Split(a + b), lookup) == Render(Split(a), lookup) + Render(Split(b), lookup)
    decreases |a|
  {
    var start := Find(a, '{');
    if start == -1 {
      PlainPrefix(a, b, lookup);
    } else {
      var tail := a[start..];
      var end := Find(tail, '}');
      var rest := tail[end + 2..];
      ClosedHole(a, start, end);
      RenderConcat(rest, b, lookup);
      HolePrefix(a, b, lookup, start, end);
      RenderHole(a, lookup, start, end);
      Regroup2(a[..start], ValueOf(tail[..end + 2], lookup), Render(Split(rest), lookup), Render(Split(b), lookup));
    }
  }

  // ---- Looking a path up in the context ----

  function SplitDots(path: string): seq<string> {
    Text.SplitOn(path, '.')
  }

  const USIZE_MAX: int := 0xFFFF_FFFF_FFFF_FFFF

  function DigitsValue(s: string): Option<nat> {
    if s == "" then Some(0)
    else
      var last := s[|s| - 1];
      match DigitsValue(s[..|s| - 1])
      case Some(n) => if '0' <= last <= '9' then Some(10 * n + (last as int - '0' as int)) else None
      case None => None
  }

  /** Decimal digits with an optional plus sign, within a machine word. */
  function ParseIndex(part: string): Option<nat> {
    var digits := if part != "" && part[0] == '+' then part[1..] else part;
    match DigitsValue(digits)
    case Some(n) => if digits != "" && n <= USIZE_MAX then Some(n) else None
    case None => None
  }

  function TrimQuotes(s: string): string {
    if s != "" && s[0] == '"' then TrimQuotes(s[1..])
    else if s != "" && s[|s| - 1] == '"' then TrimQuotes(s[..|s| - 1])
    else s
  }

  /** Where a path leads: to a value, nowhere, or past a scalar, whose text then ends the search. */
  datatype Place = At(value: Value) | Nowhere | PastScalar(scalar: Value)

  function Enter(v: Value, part: string): Place {
    if part == "" then At(v)
    else
      match v
      case Object(m) => if part in m then At(m[part]) else Nowhere
      case Array(items) =>
        (match ParseIndex(part)
         case Some(i) => if i < |items| then At(items[i]) else Nowhere
         case None => Nowhere)
      case _ => PastScalar(v)
  }

  function Navigate(v: Value, parts: seq<string>): Place {
    if parts == [] then At(v)
    else
      match Enter(v, parts[0])
      case At(w) => Navigate(w, parts[1..])
      case other => other
  }

  /** The text of a place; `jsonText` is the JSON text of a value. */
  function TextAt(p: Place, jsonText: Value -> string): Option<string> {
    match p
    case Nowhere => None
    case PastScalar(v) => Some(TrimQuotes(jsonText(v)))
    case At(String(s)) => Some(s)
    case At(v) => Some(jsonText(v))
  }

  method LookupCtx(path: string, ctx: Value, jsonText: Value -> string) returns (r: Option<string>)
    ensures r == TextAt(Navigate(ctx, SplitDots(path)), jsonText)
  {
    var parts := SplitDots(path);
    var cur := ctx;
    for i := 0 to |parts|
      invariant Navigate(ctx, parts) == Navigate(cur, parts[i..])
    {
      var part := parts[i];
      if part != "" {
        match cur {
          case Object(m) =>
            if part !in m { return None; }
            cur := m[part];
          case Array(items) =>
            var index := ParseIndex(part);
            if index.None? || index.value >= |items| { return None; }
            cur := items[index.value];
          case _ =>
            return Some(TrimQuotes(jsonText(cur)));
        }
      }
    }
    match cur {
      case String(s) => return Some(s);
      case _ => return Some(jsonText(cur));
    }
  }

  // ---- What a path means ----

  /** The decimal digits of a number. */
  function Decimal(n: nat): (s: string)
    ensures s != "" && '.' !in s
  {
    var digit := ['0' + (n % 10) as char];
    if n < 10 then digit else Decimal(n / 10) + digit
  }

  lemma {:induction false} DigitsOfDecimal(n: nat)
    ensures DigitsValue(Decimal(n)) == Some(n)
    ensures forall c :: c in Decimal(n) ==> '0' <= c <= '9'
  {
    var digit := ['0' + (n % 10) as char];
    if n < 10 {
      assert Decimal(n) == digit && digit[..0] == "";
      assert DigitsValue("") == Some(0);
    } else {
      DigitsOfDecimal(n / 10);
      var s := Decimal(n / 10);
      assert (s + digit)[..|s + digit| - 1] == s;
    }
  }

  lemma IndexOfDecimal(n: nat)
    ensures ParseIndex(Decimal(n)) == if n < 0x1_0000_0000_0000_0000 then Some(n) else None
    ensures ParseIndex("+" + Decimal(n)) == ParseIndex(Decimal(n))
  {
    DigitsOfDecimal(n);
    assert Decimal(n)[0] in Decimal(n);
    assert ("+" + Decimal(n))[1..] == Decimal(n);
  }

  lemma {:induction false} OnlyDigitsCount(s: string)
    ensures DigitsValue(s).Some? <==> forall i :: 0 <= i < |s| ==> '0' <= s[i] <= '9'
  {
    if s != "" {
      var init, last := s[..|s| - 1], s[|s| - 1];
      OnlyDigitsCount(init);
      assert forall i :: 0 <= i < |init| ==> init[i] == s[i];
      assert DigitsValue(s).Some? <==> DigitsValue(init).Some? && '0' <= last <= '9';
    }
  }

  /** A number as a step of a path takes that element of a list, and no other text takes any, but for a plus sign. */
  lemma NumbersIndexLists(items: seq<Value>, n: nat, part: string)
    requires |items| <= 0x1_0000_0000_0000_0000
    ensures Navigate(Array(items), [Decimal(n)]) == if n < |items| then At(items[n]) else Nowhere
    ensures Navigate(Array(items), ["+" + Decimal(n)]) == if n < |items| then At(items[n]) else Nowhere
    ensures
      part != "" ==>
        var digits := if part[0] == '+' then part[1..] else part;
        digits == "" || (exists i :: 0 <= i < |digits| && !('0' <= digits[i] <= '9')) ==>
          Navigate(Array(items), [part]) == Nowhere
  {
    IndexOfDecimal(n);
    if part != "" {
      OnlyDigitsCount(if part[0] == '+' then part[1..] else part);
    }
  }

  /** A name as a step of a path takes that field of an object. */
  lemma NamesSelectFields(fields: map<string, Value>, name: string, index: nat, items: seq<Value>)
    requires name != "" && '.' !in name
    requires name in fields && fields[name] == Array(items) && index < |items| <= 0x1_0000_0000_0000_0000
    ensures Navigate(Object(fields), SplitDots(name + ['.'] + Decimal(index))) == At(items[index])
  {
    DottedPathsCompose(Object(fields), name, Decimal(index));
    Text.SplitOnPlain(name, '.');
    Text.SplitOnPlain(Decimal(index), '.');
    assert Navigate(Object(fields), [name]) == At(Array(items));
    NumbersIndexLists(items, index, "");
  }

  predicate Quotes(s: string) {
    forall i :: 0 <= i < |s| ==> s[i] == '"'
  }

  /** Text past a scalar loses exactly the quotes around it. */
  lemma {:induction false} QuotesComeOff(p: string, s: string, q: string)
    requires Quotes(p) && Quotes(q) && (s != "" ==> s[0] != '"' && s[|s| - 1] != '"')
    ensures TrimQuotes(p + s + q) == s
    decreases |p| + |q|
  {
    var all := p + s + q;
    if p != "" {
      assert all[1..] == p[1..] + s + q;
      QuotesComeOff(p[1..], s, q);
    } else if s == "" && q != "" {
      assert all == q && all[1..] == "" + "" + q[1..];
      QuotesComeOff("", "", q[1..]);
    } else if q != "" {
      assert all[..|all| - 1] == "" + s + q[..|q| - 1];
      QuotesComeOff("", s, q[..|q| - 1]);
    } else {
      assert all == s;
    }
  }

  lemma {:induction false} NavigateConcat(v: Value, p: seq<string>, q: seq<string>)
    ensures Navigate(v, p + q) == match Navigate(v, p) case At(w) => Navigate(w, q) case other => other
    decreases |p|
  {
    if p == [] {
      assert p + q == q;
    } else {
      assert (p + q)[1..] == p[1..] + q;
      match Enter(v, p[0])
      case At(w) => NavigateConcat(w, p[1..], q);
      case _ =>
    }
  }

  /** A dotted path is followed one side after the other. */
  lemma DottedPathsCompose(v: Value, a: string, b: string)
    ensures Navigate(v, SplitDots(a + ['.'] + b))
         == match Navigate(v, SplitDots(a)) case At(w) => Navigate(w, SplitDots(b)) case other => other
  {
    Text.SplitOnConcat(a, b, '.');
    NavigateConcat(v, SplitDots(a), SplitDots(b));
  }
}

/**
 * Template expressions as trees, with their text and their meaning. The trees are
 * concrete syntax: every gap of white space is part of them, and parentheses are nodes
 * of their own, needed only around an equality that is negated or stands to the left of
 * another one.
 */
module Syntax {
  import opened Options
  import opened Resolve

  datatype Word = True | False | Null | Undefined

  datatype Expr =
    | Literal(word: Word)
    | Num(digits: string)
    | Str(quote: char, text: string)
    | Path(head: string, segs: Segs)
    | Group(before: string, inner: Expr, after: string)
    | Not(gap: string, arg: Expr)
    | Equal(left: Expr, gapLeft: string, op: Op, gapRight: string, right: Expr)

  datatype Segs =
    | End
    | Dot(name: string, rest: Segs)
    | At(before: string, key: Expr, after: string, rest: Segs)

  // ---------- well-formed trees and their text ----------

  predicate AllSpace(s: string) {
    forall i :: 0 <= i < |s| ==> IsSpace(s[i])
  }

  predicate IsIdent(s: string) {
    s != "" && IsIdentStart(s[0]) && forall i :: 0 <= i < |s| ==> IsIdentPart(s[i])
  }

  predicate IsIndex(s: string) {
    s != "" && forall i :: 0 <= i < |s| ==> IsDigit(s[i])
  }

  function WordText(w: Word): string {
    match w
    case True => "true"
    case False => "false"
    case Null => "null"
    case Undefined => "undefined"
  }

  predicate Keyword(s: string) {
    s == "true" || s == "false" || s == "null" || s == "undefined"
  }

  /** No brackets of any kind, no `=` and no `!`. */
  predicate Quiet(s: string) {
    forall i :: 0 <= i < |s| ==>
      s[i] != '(' && s[i] != ')' && s[i] != '[' && s[i] != ']' && s[i] != '=' && s[i] != '!'
  }

  predicate IsQuote(c: char) {
    c == '"' || c == '\''
  }

  /** The lowest depth a scan of `s` passes through. */
  function Low(k: Kind, s: string): int {
    if s == "" then 0
    else
      var before := Low(k, s[..|s| - 1]);
      if Depth(k, s) < before then Depth(k, s) else before
  }

  predicate Balanced(k: Kind, s: string) {
    Depth(k, s) == 0 && Low(k, s) >= 0
  }

  /** Every `=` or `!` outside brackets is followed, within the text, by something else than `=`. */
  ghost predicate Flat(s: string) {
    forall i :: 0 <= i < |s| && IsEqStart(s[i]) && Depth(Both, s[..i]) == 0 ==> i + 1 < |s| && s[i + 1] != '='
  }

  /** Brackets are balanced however they are counted. */
  ghost predicate Nested(s: string) {
    Balanced(Round, s) && Balanced(Square, s) && Balanced(Both, s)
  }

  /** Nothing in the text disturbs a scan that passes over it. */
  ghost predicate Plain(s: string) {
    Nested(s) && Flat(s)
  }

  ghost predicate WellFormed(e: Expr) {
    match e
    case Literal(_) => true
    case Num(digits) => IsNumber(digits)
    case Str(quote, text) => IsQuote(quote) && Plain([quote] + text + [quote])
    case Path(head, segs) => IsIdent(head) && (segs == End ==> !Keyword(head)) && WellFormedSegs(segs)
    case Group(before, inner, after) => AllSpace(before) && AllSpace(after) && WellFormed(inner)
    case Not(gap, arg) => AllSpace(gap) && !arg.Equal? && WellFormed(arg)
    case Equal(left, g1, _, g2, right) =>
      AllSpace(g1) && AllSpace(g2) && !left.Equal? && WellFormed(left) && WellFormed(right)
  }

  ghost predicate WellFormedSegs(s: Segs) {
    match s
    case End => true
    case Dot(name, rest) => (IsIdent(name) || IsIndex(name)) && WellFormedSegs(rest)
    case At(before, key, after, rest) => AllSpace(before) && AllSpace(after) && WellFormed(key) && WellFormedSegs(rest)
  }

  function OpText(op: Op): (s: string)
    ensures |s| == OpLen(op)
  {
    match op
    case StrictEq => "==="
    case StrictNe => "!=="
    case LooseEq => "=="
    case LooseNe => "!="
  }

  function Text(e: Expr): string {
    match e
    case Literal(w) => WordText(w)
    case Num(digits) => digits
    case Str(quote, text) => [quote] + text + [quote]
    case Path(head, segs) => head + SegsText(segs)
    case Group(before, inner, after) => "(" + (before + Text(inner) + after) + ")"
    case Not(gap, arg) => "!" + (gap + Text(arg))
    case Equal(left, g1, op, g2, right) => (Text(left) + g1) + (OpText(op) + (g2 + Text(right)))
  }

  function SegsText(s: Segs): string {
    match s
    case End => ""
    case Dot(name, rest) => ("." + name) + SegsText(rest)
    case At(before, key, after, rest) => ("[" + (before + Text(key) + after) + "]") + SegsText(rest)
  }

  // ---------- meaning ----------

  function Meaning<V>(js: Js<V>, vals: V, e: Expr): V {
    match e
    case Literal(True) => js.truth(true)
    case Literal(False) => js.truth(false)
    case Literal(Null) => js.nil
    case Literal(Undefined) => js.undefined
    case Num(digits) => js.number(digits)
    case Str(_, text) => js.str(text)
    case Path(head, segs) => Follow(js, vals, segs, Member(js, vals, js.str(head)))
    case Group(_, inner, _) => Meaning(js, vals, inner)
    case Not(_, arg) => js.truth(!js.truthy(Meaning(js, vals, arg)))
    case Equal(left, _, op, _, right) =>
      var l, r := Meaning(js, vals, left), Meaning(js, vals, right);
      js.truth(match op
               case StrictEq => js.strictEq(l, r)
               case StrictNe => !js.strictEq(l, r)
               case LooseEq => js.looseEq(l, r)
               case LooseNe => !js.looseEq(l, r))
  }

  function Follow<V>(js: Js<V>, vals: V, s: Segs, cur: V): V {
    match s
    case End => cur
    case Dot(name, rest) => Follow(js, vals, rest, Member(js, cur, js.str(name)))
    case At(_, key, _, rest) => Follow(js, vals, rest, Member(js, cur, Meaning(js, vals, key)))
  }

  // ---------- trimming ----------

  predicate Tight(s: string) {
    s != "" && !IsSpace(s[0]) && !IsSpace(s[|s| - 1])
  }

  lemma {:induction false} TrimLeftPadded(g: string, s: string)
    requires AllSpace(g) && (s != "" ==> !IsSpace(s[0]))
    ensures TrimLeft(g + s) == s
    decreases |g|
  {
    if g == "" {
      assert g + s == s;
    } else {
      assert (g + s)[1..] == g[1..] + s;
      TrimLeftPadded(g[1..], s);
    }
  }

  lemma {:induction false} TrimRightPadded(s: string, g: string)
    requires AllSpace(g) && (s != "" ==> !IsSpace(s[|s| - 1]))
    ensures TrimRight(s + g) == s
    decreases |g|
  {
    if g == "" {
      assert s + g == s;
    } else {
      var n := |g| - 1;
      assert (s + g)[..|s + g| - 1] == s + g[..n];
      TrimRightPadded(s, g[..n]);
    }
  }

  lemma TrimPadded(before: string, s: string, after: string)
    requires AllSpace(before) && AllSpace(after) && Tight(s)
    ensures Trim(before + s + after) == s
  {
    assert before + s + after == before + (s + after);
    TrimLeftPadded(before, s + after);
    TrimRightPadded(s, after);
  }

  lemma TrimAlone(s: string)
    requires Tight(s)
    ensures Trim(s) == s
  {
    TrimPadded("", s, "");
    assert "" + s + "" == s;
  }

  lemma TrimAfter(s: string, g: string)
    requires AllSpace(g) && Tight(s)
    ensures Trim(s + g) == s
  {
    TrimPadded("", s, g);
    assert "" + s + g == s + g;
  }

  lemma TrimBefore(g: string, s: string)
    requires AllSpace(g) && Tight(s)
    ensures Trim(g + s) == s
  {
    TrimPadded(g, s, "");
    assert g + s + "" == g + s;
  }

  /** White space around an expression does not change its value. */
  lemma ValuePadded<V>(js: Js<V>, vals: V, before: string, s: string, after: string)
    requires AllSpace(before) && AllSpace(after) && Tight(s)
    ensures Value(js, vals, before + s + after) == Value(js, vals, s)
  {
    TrimPadded(before, s, after);
    TrimAlone(s);
  }

  // ---------- nesting of a text ----------

  lemma {:induction false} DepthAppend(k: Kind, a: string, b: string)
    ensures Depth(k, a + b) == Depth(k, a) + Depth(k, b)
    decreases |b|
  {
    if b == "" {
      assert a + b == a;
    } else {
      assert (a + b)[..|a + b| - 1] == a + b[..|b| - 1];
      DepthAppend(k, a, b[..|b| - 1]);
    }
  }

  lemma DepthOfPrefix(k: Kind, a: string, b: string, i: nat)
    requires i <= |a + b|
    ensures i <= |a| ==> Depth(k, (a + b)[..i]) == Depth(k, a[..i])
    ensures i >= |a| ==> Depth(k, (a + b)[..i]) == Depth(k, a) + Depth(k, b[..i - |a|])
  {
    if i <= |a| {
      assert (a + b)[..i] == a[..i];
    }
    if i >= |a| {
      assert (a + b)[..i] == a + b[..i - |a|];
      DepthAppend(k, a, b[..i - |a|]);
    }
  }

  lemma {:induction false} LowAppend(k: Kind, a: string, b: string)
    ensures var low := Depth(k, a) + Low(k, b); Low(k, a + b) == if low < Low(k, a) then low else Low(k, a)
    decreases |b|
  {
    if b == "" {
      assert a + b == a;
      LowIsLowest(k, a, |a|);
      assert a[..|a|] == a;
    } else {
      assert (a + b)[..|a + b| - 1] == a + b[..|b| - 1];
      LowAppend(k, a, b[..|b| - 1]);
      DepthAppend(k, a, b);
    }
  }

  /** No prefix reaches below it. */
  lemma {:induction false} LowIsLowest(k: Kind, s: string, i: nat)
    requires i <= |s|
    ensures Low(k, s) <= Depth(k, s[..i])
    decreases |s|
  {
    if i < |s| {
      assert s[..|s| - 1][..i] == s[..i];
      LowIsLowest(k, s[..|s| - 1], i);
    } else {
      assert s[..i] == s;
    }
  }

  lemma BalancedAppend(k: Kind, a: string, b: string)
    requires Balanced(k, a) && Balanced(k, b)
    ensures Balanced(k, a + b)
  {
    DepthAppend(k, a, b);
    LowAppend(k, a, b);
  }

  lemma {:induction false} QuietDepth(k: Kind, s: string)
    requires Quiet(s)
    ensures Depth(k, s) == 0 && Low(k, s) == 0
    decreases |s|
  {
    if s != "" {
      QuietDepth(k, s[..|s| - 1]);
    }
  }

  lemma QuietFlat(s: string)
    requires Quiet(s)
    ensures Flat(s)
  {
  }

  lemma OneDepth(k: Kind, c: char)
    ensures Depth(k, [c]) == Delta(k, c)
  {
    assert [c][..0] == "";
  }

  /** Depth inside a pair of brackets, after the first `i` characters of the content. */
  lemma DepthInside(k: Kind, o: char, x: string, c: char, i: nat)
    requires i <= |x|
    ensures ([o] + x + [c])[..i + 1] == [o] + x[..i]
    ensures Depth(k, ([o] + x + [c])[..i + 1]) == Delta(k, o) + Depth(k, x[..i])
  {
    assert ([o] + x + [c])[..i + 1] == [o] + x[..i];
    DepthAppend(k, [o], x[..i]);
    OneDepth(k, o);
  }

  lemma BalancedWrap(k: Kind, o: char, x: string, c: char)
    requires Balanced(k, x) && Delta(k, o) >= 0 && Delta(k, c) == -Delta(k, o)
    ensures Balanced(k, [o] + x + [c])
  {
    var s := [o] + x + [c];
    DepthAppend(k, [o] + x, [c]);
    DepthAppend(k, [o], x);
    OneDepth(k, o);
    OneDepth(k, c);
    LowAppend(k, [o] + x, [c]);
    LowAppend(k, [o], x);
    OneLow(k, o);
    OneLow(k, c);
  }

  lemma OneLow(k: Kind, c: char)
    ensures Low(k, [c]) == if Delta(k, c) < 0 then Delta(k, c) else 0
  {
    OneDepth(k, c);
    assert [c][..0] == "" && Low(k, [c][..0]) == 0;
  }

  lemma FlatWrap(o: char, x: string, c: char)
    requires Balanced(Both, x) && Delta(Both, o) == 1 && !IsEqStart(c)
    ensures Flat([o] + x + [c])
  {
    var s := [o] + x + [c];
    forall i | 0 <= i < |s| && IsEqStart(s[i]) ensures Depth(Both, s[..i]) != 0 {
      if 0 < i {
        DepthInside(Both, o, x, c, i - 1);
        LowIsLowest(Both, x, i - 1);
      }
    }
  }

  lemma FlatAppend(a: string, b: string)
    requires Depth(Both, a) == 0 && Flat(a) && Flat(b)
    ensures Flat(a + b)
  {
    var s := a + b;
    forall i | 0 <= i < |s| && IsEqStart(s[i]) && Depth(Both, s[..i]) == 0 ensures i + 1 < |s| && s[i + 1] != '=' {
      DepthOfPrefix(Both, a, b, i);
      if i >= |a| {
        assert s[i] == b[i - |a|];
      }
    }
  }

  lemma NotShape(y: string)
    requires y != "" && y[0] != '=' && Flat(y)
    ensures Flat("!" + y)
  {
    var s := "!" + y;
    OneDepth(Both, '!');
    forall i | 0 <= i < |s| && IsEqStart(s[i]) && Depth(Both, s[..i]) == 0 ensures i + 1 < |s| && s[i + 1] != '=' {
      if i > 0 {
        DepthOfPrefix(Both, "!", y, i);
        assert s[i] == y[i - 1];
      }
    }
  }

  // ---------- the shape of every text ----------

  lemma NestedAppend(a: string, b: string)
    requires Nested(a) && Nested(b)
    ensures Nested(a + b)
  {
    BalancedAppend(Round, a, b);
    BalancedAppend(Square, a, b);
    BalancedAppend(Both, a, b);
  }

  lemma NestedWrap(o: char, x: string, c: char)
    requires Nested(x) && ((o == '(' && c == ')') || (o == '[' && c == ']'))
    ensures Nested([o] + x + [c])
  {
    BalancedWrap(Round, o, x, c);
    BalancedWrap(Square, o, x, c);
    BalancedWrap(Both, o, x, c);
  }

  lemma QuietNested(s: string)
    requires Quiet(s)
    ensures Plain(s)
  {
    QuietDepth(Round, s);
    QuietDepth(Square, s);
    QuietDepth(Both, s);
    QuietFlat(s);
  }

  lemma EqStartNested(s: string)
    requires forall i :: 0 <= i < |s| ==> IsEqStart(s[i])
    ensures Nested(s)
  {
    EqStartDepth(Round, s);
    EqStartDepth(Square, s);
    EqStartDepth(Both, s);
  }

  lemma {:induction false} EqStartDepth(k: Kind, s: string)
    requires forall i :: 0 <= i < |s| ==> IsEqStart(s[i])
    ensures Depth(k, s) == 0 && Low(k, s) == 0
    decreases |s|
  {
    if s != "" {
      EqStartDepth(k, s[..|s| - 1]);
    }
  }

  lemma {:induction false} DigitsAreDigits(s: string)
    ensures forall i :: 0 <= i < DigitsLen(s) ==> IsDigit(s[i])
    ensures DigitsLen(s) < |s| ==> !IsDigit(s[DigitsLen(s)])
    decreases |s|
  {
    if s != "" && IsDigit(s[0]) {
      DigitsAreDigits(s[1..]);
      forall i | 0 <= i < DigitsLen(s) ensures IsDigit(s[i]) {
        assert i > 0 ==> s[i] == s[1..][i - 1];
      }
    }
  }

  predicate NumberChar(c: char) {
    IsDigit(c) || c == '-' || c == '.'
  }

  lemma NumberShape(s: string)
    requires IsNumber(s)
    ensures s != "" && (IsDigit(s[0]) || s[0] == '-') && IsDigit(s[|s| - 1])
    ensures Quiet(s)
  {
    var t := if s[0] == '-' then s[1..] else s;
    var n := DigitsLen(t);
    DigitsAreDigits(t);
    if n < |t| {
      DigitsAreDigits(t[n + 1..]);
      forall i | 0 <= i < |t| ensures NumberChar(t[i]) {
        assert i > n ==> t[i] == t[n + 1..][i - n - 1];
      }
    }
    forall i | 0 <= i < |s| ensures NumberChar(s[i]) {
      assert s[0] == '-' && i > 0 ==> s[i] == t[i - 1];
    }
    assert s[|s| - 1] == t[|t| - 1];
    assert n < |t| ==> t[|t| - 1] == t[n + 1..][|t| - n - 2];
  }

  /** What the text of an expression looks like from outside. */
  ghost predicate Shape(e: Expr) {
    var s := Text(e);
    && Tight(s) && Nested(s) && s[0] != '='
    && (!e.Equal? ==> Plain(s) && !IsEqStart(s[|s| - 1]))
    && (s[0] == '(' && !e.Equal? ==> e.Group?)
  }

  /** The text of the rest of a path. */
  ghost predicate SegsShape(segs: Segs) {
    var s := SegsText(segs);
    && Plain(s)
    && (s != "" ==> (s[0] == '.' || s[0] == '[') && !IsSpace(s[|s| - 1]) && !IsEqStart(s[|s| - 1]))
    && (s == "" <==> segs == End)
  }

  lemma SpacesQuiet(s: string)
    requires AllSpace(s)
    ensures Quiet(s)
  {
  }

  /** White space around a nested text keeps it nested. */
  lemma PaddedNested(before: string, x: string, after: string)
    requires AllSpace(before) && AllSpace(after) && Nested(x)
    ensures Nested(before + x + after)
  {
    SpacesQuiet(before);
    SpacesQuiet(after);
    QuietNested(before);
    QuietNested(after);
    NestedAppend(before, x);
    NestedAppend(before + x, after);
  }

  /** The ends of a joined text. */
  lemma JoinEnds(a: string, b: string)
    requires a != "" || b != ""
    ensures a + b != ""
    ensures (a + b)[0] == if a == "" then b[0] else a[0]
    ensures (a + b)[|a + b| - 1] == if b == "" then a[|a| - 1] else b[|b| - 1]
  {
  }

  lemma PlainAppend(a: string, b: string)
    requires Plain(a) && Plain(b)
    ensures Plain(a + b)
  {
    NestedAppend(a, b);
    FlatAppend(a, b);
  }

  lemma IdentQuiet(name: string)
    requires IsIdent(name)
    ensures Tight(name) && Quiet(name) && !IsEqStart(name[|name| - 1]) && name[0] != '='
  {
  }

  lemma PathShape(head: string, segs: Segs)
    requires IsIdent(head) && SegsShape(segs)
    ensures Shape(Path(head, segs))
  {
    IdentQuiet(head);
    QuietNested(head);
    PlainAppend(head, SegsText(segs));
    JoinEnds(head, SegsText(segs));
  }

  lemma GapPlain(gap: string, s: string)
    requires AllSpace(gap) && Plain(s) && s != "" && s[0] != '='
    ensures Plain(gap + s) && gap + s != "" && (gap + s)[0] != '='
  {
    SpacesQuiet(gap);
    QuietNested(gap);
    PlainAppend(gap, s);
    JoinEnds(gap, s);
  }

  lemma {:induction false} NotPlain(y: string)
    requires Plain(y) && y != "" && y[0] != '='
    ensures Plain("!" + y)
  {
    EqStartNested("!");
    NestedAppend("!", y);
    NotShape(y);
  }

  lemma NotText(gap: string, x: string)
    requires AllSpace(gap) && Plain(x) && Tight(x) && x[0] != '='
    ensures var s := "!" + (gap + x); Plain(s) && s[0] == '!' && s[|s| - 1] == x[|x| - 1]
  {
    GapPlain(gap, x);
    JoinEnds(gap, x);
    NotPlain(gap + x);
    JoinEnds("!", gap + x);
  }

  lemma NotExprShape(gap: string, arg: Expr)
    requires AllSpace(gap) && !arg.Equal? && Shape(arg)
    ensures Shape(Not(gap, arg))
  {
    NotText(gap, Text(arg));
  }

  lemma WrapEnds(o: char, x: string, c: char)
    ensures var s := [o] + x + [c]; |s| == |x| + 2 && s[0] == o && s[|s| - 1] == c
  {
  }

  lemma WrapPlain(o: char, x: string, c: char)
    requires Nested(x) && ((o == '(' && c == ')') || (o == '[' && c == ']'))
    ensures Plain([o] + x + [c])
  {
    NestedWrap(o, x, c);
    FlatWrap(o, x, c);
  }

  lemma GroupShape(before: string, inner: Expr, after: string)
    requires AllSpace(before) && AllSpace(after) && Shape(inner)
    ensures Shape(Group(before, inner, after))
  {
    PaddedNested(before, Text(inner), after);
    WrapPlain('(', before + Text(inner) + after, ')');
    WrapEnds('(', before + Text(inner) + after, ')');
  }

  /** An equation's text, taken apart at its operator. */
  lemma EquationParts(a: string, g1: string, o: string, g2: string, r: string)
    requires a != "" && r != ""
    ensures var s := (a + g1) + (o + (g2 + r));
            && s[..|a + g1|] == a + g1
            && s[|a + g1| + |o|..] == g2 + r
            && s != "" && s[0] == a[0] && s[|s| - 1] == r[|r| - 1]
            && s == a + (g1 + (o + (g2 + r)))
  {
  }

  lemma EquationNested(a: string, g1: string, op: Op, g2: string, r: string)
    requires Nested(a) && AllSpace(g1) && AllSpace(g2) && Nested(r)
    ensures Nested((a + g1) + (OpText(op) + (g2 + r)))
  {
    SpacesQuiet(g1);
    SpacesQuiet(g2);
    QuietNested(g1);
    QuietNested(g2);
    EqStartNested(OpText(op));
    NestedAppend(a, g1);
    NestedAppend(g2, r);
    NestedAppend(OpText(op), g2 + r);
    NestedAppend(a + g1, OpText(op) + (g2 + r));
  }

  lemma EquationEnds(a: string, g1: string, o: string, g2: string, r: string)
    requires a != "" && r != ""
    ensures var s := (a + g1) + (o + (g2 + r)); s != "" && s[0] == a[0] && s[|s| - 1] == r[|r| - 1]
  {
  }

  lemma EqualShape(left: Expr, g1: string, op: Op, g2: string, right: Expr)
    requires AllSpace(g1) && AllSpace(g2) && !left.Equal? && Shape(left) && Shape(right)
    ensures Shape(Equal(left, g1, op, g2, right))
  {
    EquationEnds(Text(left), g1, OpText(op), g2, Text(right));
    EquationNested(Text(left), g1, op, g2, Text(right));
  }

  lemma StrShape(quote: char, text: string)
    requires IsQuote(quote) && Plain([quote] + text + [quote])
    ensures Shape(Str(quote, text))
  {
    WrapEnds(quote, text, quote);
  }

  /** A literal without brackets, `=` and `!` is well formed. */
  lemma QuietIsPlain(quote: char, text: string)
    requires IsQuote(quote) && Quiet(text)
    ensures Plain([quote] + text + [quote])
  {
    QuietNested([quote] + text + [quote]);
  }

  lemma DotQuiet(name: string)
    requires IsIdent(name) || IsIndex(name)
    ensures Quiet("." + name) && !IsSpace(name[|name| - 1]) && !IsEqStart(name[|name| - 1])
  {
  }

  lemma DotShape(name: string, rest: Segs)
    requires (IsIdent(name) || IsIndex(name)) && SegsShape(rest)
    ensures SegsShape(Dot(name, rest))
  {
    DotQuiet(name);
    QuietNested("." + name);
    PlainAppend("." + name, SegsText(rest));
    JoinEnds("." + name, SegsText(rest));
    JoinEnds(".", name);
  }

  lemma WordShape(w: Word)
    ensures Shape(Literal(w))
  {
    QuietNested(WordText(w));
  }

  lemma NumShape(digits: string)
    requires IsNumber(digits)
    ensures Shape(Num(digits))
  {
    NumberShape(digits);
    QuietNested(digits);
  }

  lemma {:induction false} ShapeOf(e: Expr)
    requires WellFormed(e)
    ensures Shape(e)
    decreases e
  {
    match e {
      case Literal(w) => WordShape(w);
      case Num(digits) => NumShape(digits);
      case Str(quote, text) => StrShape(quote, text);
      case Path(head, segs) =>
        SegsShapeOf(segs);
        PathShape(head, segs);
      case Group(before, inner, after) =>
        ShapeOf(inner);
        GroupShape(before, inner, after);
      case Not(gap, arg) =>
        ShapeOf(arg);
        NotExprShape(gap, arg);
      case Equal(left, g1, op, g2, right) =>
        ShapeOf(left);
        ShapeOf(right);
        EqualShape(left, g1, op, g2, right);
    }
  }

  lemma {:induction false} SegsShapeOf(segs: Segs)
    requires WellFormedSegs(segs)
    ensures SegsShape(segs)
    decreases segs
  {
    match segs {
      case End => QuietNested("");
      case Dot(name, rest) =>
        SegsShapeOf(rest);
        DotShape(name, rest);
      case At(before, key, after, rest) =>
        ShapeOf(key);
        SegsShapeOf(rest);
        AtShape(before, key, after, rest);
    }
  }

  lemma SegmentShape(s: string, rest: Segs)
    requires Plain(s) && s != "" && SegsShape(rest)
    ensures Plain(s + SegsText(rest))
  {
    PlainAppend(s, SegsText(rest));
  }

  lemma BracketShape(x: string, rest: Segs)
    requires Nested(x) && SegsShape(rest)
    ensures var s := ("[" + x + "]") + SegsText(rest);
            && Plain(s) && s != "" && s[0] == '['
            && !IsSpace(s[|s| - 1]) && !IsEqStart(s[|s| - 1])
  {
    WrapPlain('[', x, ']');
    WrapEnds('[', x, ']');
    SegmentShape("[" + x + "]", rest);
    JoinEnds("[" + x + "]", SegsText(rest));
  }

  lemma {:induction false} AtShape(before: string, key: Expr, after: string, rest: Segs)
    requires AllSpace(before) && AllSpace(after) && Shape(key) && SegsShape(rest)
    ensures SegsShape(At(before, key, after, rest))
  {
    var x := before + Text(key) + after;
    assert Nested(x) by { PaddedNested(before, Text(key), after); }
    BracketShape(x, rest);
  }
}

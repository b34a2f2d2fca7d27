/**
 * Evaluating the text of a template expression gives its meaning: the scans over the
 * string and the syntax tree agree.
 */
module Templates {
  import opened Options
  import opened Resolve
  import opened Syntax

  // ---------- evaluation of each form ----------

  lemma FlatHasNoEquality(s: string)
    requires Flat(s)
    ensures FirstEquality(s, 0) == None
  {
  }

  lemma GroupIsWrapped(x: string)
    requires Balanced(Round, x)
    ensures Wrapped("(" + x + ")")
  {
    var s := "(" + x + ")";
    forall i | 0 <= i < |s| - 1 && s[i] == ')' ensures Depth(Round, s[..i + 1]) != 0 {
      DepthInside(Round, '(', x, ')', i);
      LowIsLowest(Round, x, i);
    }
  }

  lemma WrappedValue<V>(js: Js<V>, vals: V, x: string)
    requires Balanced(Round, x)
    ensures Value(js, vals, "(" + x + ")") == Value(js, vals, x)
  {
    var s := "(" + x + ")";
    GroupIsWrapped(x);
    TrimAlone(s);
    assert s[1..|s| - 1] == x;
  }

  lemma GroupValue<V>(js: Js<V>, vals: V, before: string, inner: Expr, after: string)
    requires AllSpace(before) && AllSpace(after) && Shape(inner)
    ensures Value(js, vals, Text(Group(before, inner, after))) == Value(js, vals, Text(inner))
  {
    PaddedNested(before, Text(inner), after);
    WrappedValue(js, vals, before + Text(inner) + after);
    ValuePadded(js, vals, before, Text(inner), after);
  }

  lemma NegatedValue<V>(js: Js<V>, vals: V, s: string)
    requires Tight(s) && s[0] == '!' && FirstEquality(s, 0) == None
    ensures Value(js, vals, s) == js.truth(!js.truthy(Value(js, vals, s[1..])))
  {
    TrimAlone(s);
  }

  lemma NotValue<V>(js: Js<V>, vals: V, gap: string, arg: Expr)
    requires AllSpace(gap) && !arg.Equal? && Shape(arg)
    ensures Value(js, vals, Text(Not(gap, arg))) == js.truth(!js.truthy(Value(js, vals, Text(arg))))
  {
    var s := Text(Not(gap, arg));
    NotExprShape(gap, arg);
    FlatHasNoEquality(s);
    NegatedValue(js, vals, s);
    assert s[1..] == gap + Text(arg);
    TrimBefore(gap, Text(arg));
    TrimAlone(Text(arg));
  }

  /** What may stand to the left of an equality: its text hides its operators and is not a part of a group. */
  ghost predicate Leads(a: string) {
    && Tight(a) && Plain(a) && !IsEqStart(a[|a| - 1])
    && (a[0] == '(' ==> a[|a| - 1] == ')')
  }

  lemma LeadsOf(e: Expr)
    requires !e.Equal? && Shape(e)
    ensures Leads(Text(e))
  {
    if e.Group? {
      WrapEnds('(', e.before + Text(e.inner) + e.after, ')');
    }
  }

  /** Nothing before the operator is an equality. */
  lemma NoneBefore(a: string, gap: string, t: string, i: nat)
    requires Flat(a) && AllSpace(gap) && i < |a + gap|
    ensures !EqualityAt((a + gap) + t, i)
  {
    var p := a + gap;
    var s := p + t;
    DepthOfPrefix(Both, p, t, i);
    assert s[i] == p[i];
    if i < |a| {
      DepthOfPrefix(Both, a, gap, i);
      assert i + 1 < |a| ==> s[i + 1] == a[i + 1];
    }
  }

  lemma EqualityHere(a: string, gap: string, op: Op, rest: string)
    requires Tight(a) && Balanced(Both, a) && !IsEqStart(a[|a| - 1]) && AllSpace(gap)
    requires rest != "" && rest[0] != '='
    ensures var s := (a + gap) + (OpText(op) + rest); EqualityAt(s, |a + gap|) && OpAt(s, |a + gap|) == op
  {
    var p := a + gap;
    var s := p + (OpText(op) + rest);
    var n := |p|;
    SpacesQuiet(gap);
    QuietDepth(Both, gap);
    DepthAppend(Both, a, gap);
    assert s[..n] == p && s[n] == OpText(op)[0] && s[n + 1] == OpText(op)[1];
    assert s[n + 2] == if OpLen(op) == 3 then OpText(op)[2] else rest[0];
    assert s[n - 1] == p[n - 1];
    TrimAfter(a, gap);
  }

  lemma FirstIs(s: string, n: nat)
    requires n < |s| && EqualityAt(s, n) && forall i :: 0 <= i < n ==> !EqualityAt(s, i)
    ensures FirstEquality(s, 0) == Some(n)
  {
  }

  /** The operator is the first equality of an equation: nothing before it is one. */
  lemma EqualityFound(a: string, gap: string, op: Op, rest: string)
    requires Leads(a) && AllSpace(gap) && rest != "" && rest[0] != '='
    ensures var s := (a + gap) + (OpText(op) + rest);
            FirstEquality(s, 0) == Some(|a + gap|) && OpAt(s, |a + gap|) == op
  {
    var s := (a + gap) + (OpText(op) + rest);
    EqualityHere(a, gap, op, rest);
    forall i | 0 <= i < |a + gap| ensures !EqualityAt(s, i) {
      NoneBefore(a, gap, OpText(op) + rest, i);
    }
    FirstIs(s, |a + gap|);
  }

  /** An equation that starts with a group is not wrapped as a whole. */
  lemma EquationNotWrapped(a: string, rest: string)
    requires Tight(a) && Balanced(Round, a) && (a[0] == '(' ==> a[|a| - 1] == ')') && rest != ""
    ensures !Wrapped(a + rest)
  {
    var s := a + rest;
    if s[0] == '(' {
      var i := |a| - 1;
      assert s[i] == ')' && s[..i + 1] == a;
    }
  }

  /** Evaluating a text that is an equation. */
  lemma CutValue<V>(js: Js<V>, vals: V, s: string, n: nat, op: Op, l: string, r: string)
    requires s != "" && Trim(s) == s && !Wrapped(s) && FirstEquality(s, 0) == Some(n) && OpAt(s, n) == op
    requires n + OpLen(op) <= |s| && s[..n] == l && s[n + OpLen(op)..] == r
    ensures Value(js, vals, s) == Compare(js, op, Value(js, vals, l), Value(js, vals, r))
  {
  }

  /** Evaluating an equation's text compares the values of its two sides. */
  lemma EquationValue<V>(js: Js<V>, vals: V, a: string, g1: string, op: Op, g2: string, r: string)
    requires AllSpace(g1) && AllSpace(g2) && Leads(a) && Tight(r) && r[0] != '='
    ensures Value(js, vals, (a + g1) + (OpText(op) + (g2 + r)))
            == Compare(js, op, Value(js, vals, a), Value(js, vals, r))
  {
    EquationSplits(a, g1, op, g2, r);
    CutValue(js, vals, (a + g1) + (OpText(op) + (g2 + r)), |a + g1|, op, a + g1, g2 + r);
    TrimAfter(a, g1);
    TrimBefore(g2, r);
    TrimAlone(a);
    TrimAlone(r);
  }

  /** Where the evaluator cuts an equation's text. */
  lemma EquationSplits(a: string, g1: string, op: Op, g2: string, r: string)
    requires AllSpace(g1) && AllSpace(g2) && Leads(a) && Tight(r) && r[0] != '='
    ensures var s := (a + g1) + (OpText(op) + (g2 + r));
            var n := |a + g1|;
            && Trim(s) == s && !Wrapped(s) && FirstEquality(s, 0) == Some(n) && OpAt(s, n) == op
            && s[..n] == a + g1 && s[n + OpLen(op)..] == g2 + r
  {
    EquationParts(a, g1, OpText(op), g2, r);
    TrimAlone((a + g1) + (OpText(op) + (g2 + r)));
    EquationNotWrapped(a, g1 + (OpText(op) + (g2 + r)));
    assert g2 + r != "" && (g2 + r)[0] != '=' by { assert g2 != "" ==> IsSpace(g2[0]); }
    EqualityFound(a, g1, op, g2 + r);
  }

  lemma {:induction false} EqualValue<V>(js: Js<V>, vals: V, left: Expr, g1: string, op: Op, g2: string, right: Expr)
    requires AllSpace(g1) && AllSpace(g2) && !left.Equal? && Shape(left) && Shape(right)
    ensures Value(js, vals, Text(Equal(left, g1, op, g2, right)))
            == Compare(js, op, Value(js, vals, Text(left)), Value(js, vals, Text(right)))
  {
    LeadsOf(left);
    EquationValue(js, vals, Text(left), g1, op, g2, Text(right));
  }

  // ---------- paths ----------

  lemma {:induction false} PartsRun(name: string, rest: string)
    requires forall i :: 0 <= i < |name| ==> IsIdentPart(name[i])
    requires rest == "" || !IsIdentPart(rest[0])
    ensures PartsLen(name + rest) == |name|
    decreases |name|
  {
    if name == "" {
      assert name + rest == rest;
    } else {
      assert (name + rest)[1..] == name[1..] + rest;
      PartsRun(name[1..], rest);
    }
  }

  lemma IdentRun(name: string, rest: string)
    requires IsIdent(name) && (rest == "" || !IsIdentPart(rest[0]))
    ensures IdentLen(name + rest) == |name|
  {
    assert (name + rest)[1..] == name[1..] + rest;
    PartsRun(name[1..], rest);
  }

  lemma {:induction false} DigitsRun(name: string, rest: string)
    requires forall i :: 0 <= i < |name| ==> IsDigit(name[i])
    requires rest == "" || !IsDigit(rest[0])
    ensures DigitsLen(name + rest) == |name|
    decreases |name|
  {
    if name == "" {
      assert name + rest == rest;
    } else {
      assert (name + rest)[1..] == name[1..] + rest;
      DigitsRun(name[1..], rest);
    }
  }

  /** Scanning a balanced content leads to the bracket after it. */
  lemma {:induction false} BracketCloses(e: string, from: nat, x: string, t: nat)
    requires Balanced(Square, x) && t <= |x| && from + |x| < |e|
    requires e[from..from + |x|] == x && e[from + |x|] == ']'
    ensures Depth(Square, x[..t]) >= 0
    ensures ClosingBracket(e, from + t, 1 + Depth(Square, x[..t])) == Some(from + |x|)
    decreases |x| - t
  {
    LowIsLowest(Square, x, t);
    if t == |x| {
      assert x[..t] == x;
    } else {
      assert x[..t + 1][..t] == x[..t];
      assert e[from + t] == x[t];
      LowIsLowest(Square, x, t + 1);
      BracketCloses(e, from, x, t + 1);
    }
  }

  lemma {:induction false} NameRun(name: string, rest: string)
    requires (IsIdent(name) || IsIndex(name)) && (rest == "" || rest[0] == '.' || rest[0] == '[')
    ensures NameLen(name + rest) == |name| && |name| > 0
  {
    if IsIdent(name) {
      IdentRun(name, rest);
    } else {
      DigitsRun(name, rest);
    }
  }

  lemma DotParts(s: string, name: string, rest: string)
    requires s == ("." + name) + rest
    ensures |s| >= 1 + |name| && s[0] == '.' && s[1..] == name + rest
    ensures s[1..1 + |name|] == name && s[1 + |name|..] == rest
  {
  }

  lemma WalkDot<V>(js: Js<V>, vals: V, s: string, name: string, rest: string, cur: V)
    requires |s| >= 1 + |name| && s[0] == '.' && s[1..1 + |name|] == name && s[1 + |name|..] == rest
    requires NameLen(s[1..]) == |name| && |name| > 0
    ensures Walk(js, vals, s, cur) == Walk(js, vals, rest, Member(js, cur, js.str(name)))
  {
  }

  lemma StepDot<V>(js: Js<V>, vals: V, s: string, name: string, rest: string, cur: V)
    requires (IsIdent(name) || IsIndex(name)) && (rest == "" || rest[0] == '.' || rest[0] == '[')
    requires s == ("." + name) + rest
    ensures Walk(js, vals, s, cur) == Walk(js, vals, rest, Member(js, cur, js.str(name)))
  {
    DotParts(s, name, rest);
    NameRun(name, rest);
    WalkDot(js, vals, s, name, rest, cur);
  }

  lemma KeyParts(s: string, x: string, rest: string)
    requires s == ("[" + x + "]") + rest
    ensures |s| >= 2 + |x| && s[0] == '[' && s[1..1 + |x|] == x && s[1 + |x|] == ']' && s[2 + |x|..] == rest
  {
  }

  lemma KeyCloses(s: string, x: string, rest: string)
    requires Balanced(Square, x) && s == ("[" + x + "]") + rest
    ensures ClosingBracket(s, 1, 1) == Some(1 + |x|)
  {
    KeyParts(s, x, rest);
    assert x[..0] == "";
    BracketCloses(s, 1, x, 0);
  }

  lemma WalkKey<V>(js: Js<V>, vals: V, s: string, x: string, rest: string, cur: V)
    requires |s| >= 2 + |x| && s[0] == '[' && s[1..1 + |x|] == x && s[2 + |x|..] == rest
    requires ClosingBracket(s, 1, 1) == Some(1 + |x|)
    ensures Walk(js, vals, s, cur) == Walk(js, vals, rest, Member(js, cur, Value(js, vals, x)))
  {
  }

  lemma StepAt<V>(js: Js<V>, vals: V, s: string, x: string, rest: string, cur: V)
    requires Balanced(Square, x) && s == ("[" + x + "]") + rest
    ensures Walk(js, vals, s, cur) == Walk(js, vals, rest, Member(js, cur, Value(js, vals, x)))
  {
    KeyParts(s, x, rest);
    KeyCloses(s, x, rest);
    WalkKey(js, vals, s, x, rest, cur);
  }

  /** The value of a key, with the white space around it. */
  lemma KeyValue<V>(js: Js<V>, vals: V, before: string, key: Expr, after: string)
    requires AllSpace(before) && AllSpace(after) && WellFormed(key)
    requires Value(js, vals, Text(key)) == Meaning(js, vals, key)
    ensures Balanced(Square, before + Text(key) + after)
    ensures Value(js, vals, before + Text(key) + after) == Meaning(js, vals, key)
  {
    ShapeOf(key);
    PaddedNested(before, Text(key), after);
    ValuePadded(js, vals, before, Text(key), after);
  }

  /** Walking along the text of a path follows its segments. */
  lemma {:induction false} WalkFollows<V>(js: Js<V>, vals: V, segs: Segs, cur: V)
    requires WellFormedSegs(segs)
    ensures Walk(js, vals, SegsText(segs), cur) == Follow(js, vals, segs, cur)
    decreases segs
  {
    match segs {
      case End =>
      case Dot(name, rest) =>
        SegsShapeOf(rest);
        StepDot(js, vals, SegsText(segs), name, SegsText(rest), cur);
        WalkFollows(js, vals, rest, Member(js, cur, js.str(name)));
      case At(before, key, after, rest) =>
        TextMeans(js, vals, key);
        KeyValue(js, vals, before, key, after);
        StepAt(js, vals, SegsText(segs), before + Text(key) + after, SegsText(rest), cur);
        WalkFollows(js, vals, rest, Member(js, cur, Meaning(js, vals, key)));
    }
  }

  // ---------- literals ----------

  lemma AtomValue<V>(js: Js<V>, vals: V, s: string)
    requires Tight(s) && Flat(s) && s[0] != '(' && s[0] != '!'
    ensures Value(js, vals, s) == ResolveAtom(js, vals, s)
  {
    TrimAlone(s);
    FlatHasNoEquality(s);
  }

  lemma NumberIsNotKeyword(s: string)
    requires IsNumber(s)
    ensures !Keyword(s)
  {
    NumberShape(s);
  }

  lemma StartIsNotNumber(s: string)
    requires s != "" && !IsDigit(s[0]) && s[0] != '-'
    ensures !IsNumber(s)
  {
  }

  lemma KeywordIsIdent(s: string)
    requires Keyword(s)
    ensures forall i :: 0 <= i < |s| ==> IsIdentPart(s[i])
  {
  }

  lemma JoinAt(a: string, b: string)
    ensures (a + b)[..|a|] == a && (a + b)[|a|..] == b && (b != "" ==> (a + b)[|a|] == b[0])
    ensures b == "" ==> a + b == a
  {
  }

  lemma JoinIsNoKeyword(head: string, rest: string)
    requires (rest == "" && !Keyword(head)) || (rest != "" && !IsIdentPart(rest[0]))
    ensures !Keyword(head + rest)
  {
    JoinAt(head, rest);
    var s := head + rest;
    if Keyword(s) {
      KeywordIsIdent(s);
    }
  }

  lemma AtomIsPath<V>(js: Js<V>, vals: V, s: string)
    requires s != "" && IsIdentStart(s[0]) && !Keyword(s)
    ensures ResolveAtom(js, vals, s) == ResolvePath(js, vals, s)
  {
    StartIsNotNumber(s);
  }

  lemma PathStarts<V>(js: Js<V>, vals: V, head: string, rest: string)
    requires IsIdent(head) && (rest == "" || rest[0] == '.' || rest[0] == '[')
    ensures ResolvePath(js, vals, head + rest) == Walk(js, vals, rest, Member(js, vals, js.str(head)))
  {
    IdentRun(head, rest);
    JoinAt(head, rest);
  }

  lemma {:induction false} PathIsAtom<V>(js: Js<V>, vals: V, head: string, segs: Segs)
    requires WellFormed(Path(head, segs)) && SegsShape(segs)
    ensures Value(js, vals, head + SegsText(segs)) == ResolvePath(js, vals, head + SegsText(segs))
  {
    PathShape(head, segs);
    JoinIsNoKeyword(head, SegsText(segs));
    assert Shape(Path(head, segs));
    AtomValue(js, vals, head + SegsText(segs));
    AtomIsPath(js, vals, head + SegsText(segs));
  }

  lemma {:induction false} PathValue<V>(js: Js<V>, vals: V, head: string, segs: Segs)
    requires WellFormed(Path(head, segs)) && SegsShape(segs)
    ensures Value(js, vals, head + SegsText(segs))
            == Walk(js, vals, SegsText(segs), Member(js, vals, js.str(head)))
  {
    PathIsAtom(js, vals, head, segs);
    PathStarts(js, vals, head, SegsText(segs));
  }

  lemma QuotedAtom<V>(js: Js<V>, vals: V, quote: char, text: string)
    requires IsQuote(quote)
    ensures ResolveAtom(js, vals, [quote] + text + [quote]) == js.str(text)
  {
    var s := [quote] + text + [quote];
    StartIsNotNumber(s);
    assert s[1..|s| - 1] == text;
  }

  lemma StrValue<V>(js: Js<V>, vals: V, quote: char, text: string)
    requires IsQuote(quote) && Plain([quote] + text + [quote])
    ensures Value(js, vals, [quote] + text + [quote]) == js.str(text)
  {
    AtomValue(js, vals, [quote] + text + [quote]);
    QuotedAtom(js, vals, quote, text);
  }

  lemma EqualCompares<V>(js: Js<V>, vals: V, left: Expr, g1: string, op: Op, g2: string, right: Expr)
    ensures Meaning(js, vals, Equal(left, g1, op, g2, right))
            == Compare(js, op, Meaning(js, vals, left), Meaning(js, vals, right))
  {
  }

  lemma EqualMeans<V>(js: Js<V>, vals: V, left: Expr, g1: string, op: Op, g2: string, right: Expr)
    requires WellFormed(Equal(left, g1, op, g2, right))
    requires Value(js, vals, Text(left)) == Meaning(js, vals, left)
    requires Value(js, vals, Text(right)) == Meaning(js, vals, right)
    ensures Value(js, vals, Text(Equal(left, g1, op, g2, right)))
            == Meaning(js, vals, Equal(left, g1, op, g2, right))
  {
    ShapeOf(left);
    ShapeOf(right);
    EqualValue(js, vals, left, g1, op, g2, right);
    EqualCompares(js, vals, left, g1, op, g2, right);
  }

  /**
   * Evaluating the text of a well-formed expression gives its meaning: the scans
   * over the string and the syntax tree agree.
   */
  lemma {:induction false} TextMeans<V>(js: Js<V>, vals: V, e: Expr)
    requires WellFormed(e)
    ensures Value(js, vals, Text(e)) == Meaning(js, vals, e)
    decreases e
  {
    match e {
      case Literal(w) =>
        ShapeOf(e);
        AtomValue(js, vals, Text(e));
      case Num(digits) =>
        ShapeOf(e);
        NumberShape(digits);
        AtomValue(js, vals, digits);
        NumberIsNotKeyword(digits);
      case Str(quote, text) => StrValue(js, vals, quote, text);
      case Path(head, segs) =>
        SegsShapeOf(segs);
        PathValue(js, vals, head, segs);
        WalkFollows(js, vals, segs, Member(js, vals, js.str(head)));
      case Group(before, inner, after) =>
        ShapeOf(inner);
        GroupValue(js, vals, before, inner, after);
        TextMeans(js, vals, inner);
      case Not(gap, arg) =>
        ShapeOf(arg);
        NotValue(js, vals, gap, arg);
        TextMeans(js, vals, arg);
      case Equal(left, g1, op, g2, right) =>
        TextMeans(js, vals, left);
        TextMeans(js, vals, right);
        EqualMeans(js, vals, left, g1, op, g2, right);
    }
  }

  // ---------- which string literals are read as such ----------

  /** An operator in the quoted text, outside brackets and not the tail of another one. */
  ghost predicate OperatorIn(text: string, i: int) {
    && 0 <= i < |text| - 1
    && (text[i] == '=' || text[i] == '!') && text[i + 1] == '='
    && Depth(Both, text[..i]) == 0
    && !(i > 0 && (text[i - 1] == '=' || text[i - 1] == '!'))
  }

  lemma {:induction false} TrimLeftTight(s: string)
    requires s != "" && !IsSpace(s[0])
    ensures Trim(s) != ""
    decreases |s|
  {
    if IsSpace(s[|s| - 1]) {
      TrimLeftTight(s[..|s| - 1]);
    }
  }

  lemma OperatorsSeen(quote: char, text: string, i: nat)
    requires IsQuote(quote) && i < |text| + 2
    ensures EqualityAt([quote] + text + [quote], i) <==> OperatorIn(text, i - 1)
  {
    var s := [quote] + text + [quote];
    if 0 < i <= |text| {
      DepthInside(Both, quote, text, quote, i - 1);
      TrimLeftTight(s[..i]);
      assert s[i] == text[i - 1];
      assert i < |text| ==> s[i + 1] == text[i];
      assert i > 1 ==> s[i - 1] == text[i - 2];
    }
  }

  /** Truth values and strings told apart, and nothing else. */
  function TwoValues(): Js<nat> {
    Js(0, 0, _ => 0, _ => 0, _ => 1, (_, _) => 0, _ => true, _ => false, (_, _) => false, (_, _) => false)
  }

  lemma QuotedValue<V>(js: Js<V>, vals: V, quote: char, text: string)
    requires IsQuote(quote)
    ensures var s := [quote] + text + [quote];
            var at := FirstEquality(s, 0);
            Value(js, vals, s) == if at == None then js.str(text)
                                  else Compare(js, OpAt(s, at.value), Value(js, vals, s[..at.value]),
                                               Value(js, vals, s[at.value + OpLen(OpAt(s, at.value))..]))
  {
    TrimAlone([quote] + text + [quote]);
    QuotedAtom(js, vals, quote, text);
  }

  lemma NoOperatorSeen(quote: char, text: string)
    requires IsQuote(quote) && forall i :: !OperatorIn(text, i)
    ensures FirstEquality([quote] + text + [quote], 0) == None
  {
    var s := [quote] + text + [quote];
    forall i: nat | i < |s| ensures !EqualityAt(s, i) {
      OperatorsSeen(quote, text, i);
    }
  }

  lemma OperatorSeen(quote: char, text: string, i: int)
    requires IsQuote(quote) && OperatorIn(text, i)
    ensures Value(TwoValues(), 0, [quote] + text + [quote]) == 0
  {
    OperatorsSeen(quote, text, i + 1);
    QuotedValue(TwoValues(), 0, quote, text);
  }

  /** A quoted text is a string literal exactly when no operator stands in it at the top level. */
  lemma LiteralIff(quote: char, text: string)
    requires IsQuote(quote)
    ensures (forall js: Js<nat>, vals: nat :: Value(js, vals, [quote] + text + [quote]) == js.str(text))
            <==> forall i :: !OperatorIn(text, i)
  {
    if i :| OperatorIn(text, i) {
      OperatorSeen(quote, text, i);
      assert TwoValues().str(text) == 1;
    } else {
      NoOperatorSeen(quote, text);
      forall js: Js<nat>, vals: nat ensures Value(js, vals, [quote] + text + [quote]) == js.str(text) {
        QuotedValue(js, vals, quote, text);
      }
    }
  }

  /** `"a==b"` compares the atoms `"a` and `b"`, neither of which is a literal. */
  lemma QuotedComparison()
    ensures Value(TwoValues(), 0, ['"'] + "a==b" + ['"']) != TwoValues().str("a==b")
  {
    assert "a==b"[..1] == "a" && "a"[..0] == "";
    assert OperatorIn("a==b", 1);
    OperatorsSeen('"', "a==b", 2);
    QuotedValue(TwoValues(), 0, '"', "a==b");
  }
}

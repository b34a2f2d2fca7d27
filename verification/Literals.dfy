/**
 * Which quoted texts stand for themselves inside larger expressions: as the left side of
 * an equality, and as the key of a path. Both conditions are exact, and can be read off
 * the text: the scans that look for operators and brackets also look between the quotes.
 */
module Literals {
  import opened Options
  import opened Resolve
  import opened ResolveLoops
  import opened Syntax
  import opened Templates

  function Lit(quote: char, text: string): string {
    [quote] + text + [quote]
  }

  /** Of quotes around a text, only the text counts. */
  lemma LitDepth(k: Kind, quote: char, text: string)
    requires IsQuote(quote)
    ensures Depth(k, Lit(quote, text)) == Depth(k, text)
    ensures Low(k, Lit(quote, text)) == (if Low(k, text) < 0 then Low(k, text) else 0)
  {
    DepthAppend(k, [quote] + text, [quote]);
    DepthAppend(k, [quote], text);
    LowAppend(k, [quote] + text, [quote]);
    LowAppend(k, [quote], text);
    OneDepth(k, quote);
    OneLow(k, quote);
    LowIsLowest(k, text, |text|);
    assert text[..|text|] == text;
  }

  // ---------- what an expression that begins with a quote can be ----------

  /** Without an operator it is a literal of all that stands between the quotes, or nothing. */
  lemma QuoteLed<V>(js: Js<V>, vals: V, s: string)
    requires s != "" && IsQuote(s[0]) && Trim(s) == s && FirstEquality(s, 0) == None
    ensures Value(js, vals, s) == if Quoted(s) then js.str(s[1..|s| - 1]) else js.undefined
  {
    StartIsNotNumber(s);
    assert Value(js, vals, s) == Evaluate(js, vals, s) == ResolveAtom(js, vals, s);
    assert ResolvePath(js, vals, s) == js.undefined;
  }

  lemma {:induction false} TrimRightIsPrefix(s: string) returns (k: nat)
    ensures k <= |s| && TrimRight(s) == s[..k]
    ensures k > 0 ==> !IsSpace(s[k - 1])
    ensures s != "" && !IsSpace(s[0]) ==> k > 0
    ensures forall i :: k <= i < |s| ==> IsSpace(s[i])
    decreases |s|
  {
    if s != "" && IsSpace(s[|s| - 1]) {
      k := TrimRightIsPrefix(s[..|s| - 1]);
      assert s[..|s| - 1][..k] == s[..k];
    } else {
      k := |s|;
      assert s[..k] == s;
    }
  }

  lemma PrefixEquality(e: string, k: nat, i: nat)
    requires i < k <= |e| && EqualityAt(e[..k], i)
    ensures EqualityAt(e, i)
  {
    assert e[..k][..i] == e[..i];
  }

  lemma TrimTwice(s: string, k: nat)
    requires 0 < k <= |s| && !IsSpace(s[0]) && !IsSpace(s[k - 1])
    ensures Trim(s[..k]) == s[..k]
  {
    TrimAlone(s[..k]);
  }

  /** What the cut at the first operator leaves on its left. */
  lemma LeftOfFirst<V>(js: Js<V>, vals: V, e: string, m: nat) returns (k: nat)
    requires m <= |e| && m > 0 && IsQuote(e[0])
    requires forall i :: 0 <= i < m ==> !EqualityAt(e, i)
    ensures 0 < k <= m && !IsSpace(e[k - 1]) && forall i :: k <= i < m ==> IsSpace(e[i])
    ensures Value(js, vals, e[..m]) == if Quoted(e[..k]) then js.str(e[1..k - 1]) else js.undefined
  {
    var s := e[..m];
    assert TrimLeft(s) == s && !IsSpace(s[0]);
    k := TrimRightIsPrefix(s);
    assert s[..k] == e[..k];
    TrimTwice(e, k);
    forall i | 0 <= i < k ensures !EqualityAt(e[..k], i) {
      if EqualityAt(e[..k], i) {
        PrefixEquality(e, k, i);
      }
    }
    QuoteLed(js, vals, e[..k]);
    if Quoted(e[..k]) {
      assert e[..k][1..k - 1] == e[1..k - 1];
    }
  }

  // ---------- on the left of an equality ----------

  function Equation(lit: string, g1: string, op: Op, g2: string, r: string): string {
    (lit + g1) + (OpText(op) + (g2 + r))
  }

  lemma AtOperator(lit: string, g1: string, op: Op, rest: string)
    requires lit != "" && !IsEqStart(lit[|lit| - 1]) && !IsSpace(lit[0]) && AllSpace(g1) && rest != "" && rest[0] != '='
    ensures var s, n := (lit + g1) + (OpText(op) + rest), |lit + g1|;
            && n + 1 < |s| && OpAt(s, n) == op && IsEqStart(s[n]) && s[n + 1] == '=' && s[..n] == lit + g1
            && !IsEqStart(s[n - 1])
  {
    var p := lit + g1;
    var s, n := p + (OpText(op) + rest), |p|;
    assert s[n] == OpText(op)[0] && s[n + 1] == OpText(op)[1];
    assert s[n + 2] == if OpLen(op) == 3 then OpText(op)[2] else rest[0];
    assert s[n - 1] == p[n - 1];
  }

  /** Where the equalities of the equation are, up to its own operator. */
  lemma EqualitiesSeen(quote: char, text: string, g1: string, op: Op, rest: string, i: nat)
    requires IsQuote(quote) && AllSpace(g1) && rest != "" && rest[0] != '='
    requires i <= |Lit(quote, text) + g1|
    ensures var s, n := (Lit(quote, text) + g1) + (OpText(op) + rest), |Lit(quote, text) + g1|;
            && n < |s|
            && (EqualityAt(s, i) <==> if i == n then Depth(Both, text) == 0 else OperatorIn(text, i - 1))
  {
    var lit := Lit(quote, text);
    var s, n := (lit + g1) + (OpText(op) + rest), |lit + g1|;
    AtOperator(lit, g1, op, rest);
    if i == n {
      SpacesQuiet(g1);
      QuietDepth(Both, g1);
      DepthAppend(Both, lit, g1);
      LitDepth(Both, quote, text);
      TrimLeftTight(lit + g1);
    } else if i < |lit| {
      InLiteral(quote, text, g1 + (OpText(op) + rest), i);
      assert s == lit + (g1 + (OpText(op) + rest));
    } else {
      assert s[i] == g1[i - |lit|];
    }
  }

  /** Inside the literal the scan sees the operators of the text, whatever follows. */
  lemma InLiteral(quote: char, text: string, rest: string, i: nat)
    requires IsQuote(quote) && i < |Lit(quote, text)|
    ensures EqualityAt(Lit(quote, text) + rest, i) <==> OperatorIn(text, i - 1)
  {
    var lit := Lit(quote, text);
    OperatorsSeen(quote, text, i);
    assert (lit + rest)[..i] == lit[..i] && (lit + rest)[i] == lit[i];
    assert i + 1 < |lit| ==> (lit + rest)[i + 1] == lit[i + 1];
    assert i > 0 ==> (lit + rest)[i - 1] == lit[i - 1];
  }

  /** The text lets a scan pass over it at the depth it came with, without meeting an operator. */
  ghost predicate PassedOver(text: string) {
    Depth(Both, text) == 0 && forall i :: !OperatorIn(text, i)
  }

  lemma OwnOperatorFirst(quote: char, text: string, g1: string, op: Op, rest: string)
    requires IsQuote(quote) && AllSpace(g1) && rest != "" && rest[0] != '='
    ensures var s, n := (Lit(quote, text) + g1) + (OpText(op) + rest), |Lit(quote, text) + g1|;
            FirstEquality(s, 0) == Some(n) <==> PassedOver(text)
  {
    var s, n := (Lit(quote, text) + g1) + (OpText(op) + rest), |Lit(quote, text) + g1|;
    forall i: nat | i <= n
      ensures EqualityAt(s, i) <==> if i == n then Depth(Both, text) == 0 else OperatorIn(text, i - 1)
    {
      EqualitiesSeen(quote, text, g1, op, rest, i);
    }
    if PassedOver(text) {
      FirstIs(s, n);
    }
    if FirstEquality(s, 0) == Some(n) {
      forall i ensures !OperatorIn(text, i) {
        assert 0 <= i < |text| ==> !EqualityAt(s, i + 1);
      }
    }
  }

  /** Everything is told apart from the literal's own text. */
  function Telling(text: string, always: bool): Js<string> {
    Js(text + "x", "", b => if b then "1" else "0", _ => "", s => s, (_, _) => "", _ => true, _ => false,
       (a, _) => always || a == text, (a, _) => always || a == text)
  }

  predicate Positive(op: Op) {
    op == StrictEq || op == LooseEq
  }

  /** With two comparisons cut at different places, some host language tells the results apart. */
  lemma ComparisonsDiffer(text: string, op: Op, op': Op, l: string, r: string, r': string)
    requires l != text
    ensures var js := Telling(text, Positive(op) != Positive(op'));
            Compare(js, op, text, r) != Compare(js, op', l, r')
  {
  }

  lemma EquationTrimmed(quote: char, text: string, g1: string, op: Op, g2: string, r: string)
    requires IsQuote(quote) && AllSpace(g1) && AllSpace(g2) && Tight(r)
    ensures var e := Equation(Lit(quote, text), g1, op, g2, r);
            |e| > |Lit(quote, text)| + 2 && e[0] == quote && Trim(e) == e && !Wrapped(e)
  {
    var e := Equation(Lit(quote, text), g1, op, g2, r);
    WrapEnds(quote, text, quote);
    EquationEnds(Lit(quote, text), g1, OpText(op), g2, r);
    TrimAlone(e);
  }

  lemma GapLed(g2: string, r: string)
    requires AllSpace(g2) && Tight(r) && r[0] != '='
    ensures g2 + r != "" && (g2 + r)[0] != '='
  {
    assert g2 != "" ==> IsSpace(g2[0]);
  }

  /** The values of the two sides, with their gaps. */
  lemma SidesValue<V>(js: Js<V>, vals: V, quote: char, text: string, g1: string, g2: string, r: string)
    requires IsQuote(quote) && AllSpace(g1) && AllSpace(g2) && Tight(r) && forall i :: !OperatorIn(text, i)
    ensures Value(js, vals, Lit(quote, text) + g1) == js.str(text)
    ensures Value(js, vals, g2 + r) == Value(js, vals, r)
  {
    var lit := Lit(quote, text);
    WrapEnds(quote, text, quote);
    TrimAfter(lit, g1);
    TrimBefore(g2, r);
    TrimAlone(lit);
    TrimAlone(r);
    QuotedAlone(js, vals, quote, text);
  }

  lemma CutSides(lit: string, g1: string, op: Op, rest: string)
    ensures var e, n := (lit + g1) + (OpText(op) + rest), |lit + g1|;
            n + OpLen(op) <= |e| && e[..n] == lit + g1 && e[n + OpLen(op)..] == rest
  {
  }

  /** Where a passed-over literal's equation is cut. */
  lemma GoodCut(quote: char, text: string, g1: string, op: Op, g2: string, r: string)
    requires IsQuote(quote) && AllSpace(g1) && AllSpace(g2) && Tight(r) && r[0] != '=' && PassedOver(text)
    ensures var lit := Lit(quote, text);
            var e, n := Equation(lit, g1, op, g2, r), |lit + g1|;
            e != "" && Trim(e) == e && !Wrapped(e) && FirstEquality(e, 0) == Some(n) && OpAt(e, n) == op
  {
    GapLed(g2, r);
    EquationTrimmed(quote, text, g1, op, g2, r);
    OwnOperatorFirst(quote, text, g1, op, g2 + r);
    LitEnds(quote, text);
    AtOperator(Lit(quote, text), g1, op, g2 + r);
  }

  lemma LitEnds(quote: char, text: string)
    requires IsQuote(quote)
    ensures var lit := Lit(quote, text); lit != "" && lit[0] == quote && lit[|lit| - 1] == quote && !IsSpace(lit[0])
  {
  }

  /** The good case: the equation compares the literal. */
  lemma LiteralCompared<V>(
    js: Js<V>, vals: V, quote: char, text: string, g1: string, op: Op, g2: string, r: string)
    requires IsQuote(quote) && AllSpace(g1) && AllSpace(g2) && Tight(r) && r[0] != '=' && PassedOver(text)
    ensures Value(js, vals, Equation(Lit(quote, text), g1, op, g2, r))
            == Compare(js, op, js.str(text), Value(js, vals, r))
  {
    var lit := Lit(quote, text);
    GoodCut(quote, text, g1, op, g2, r);
    CutSides(lit, g1, op, g2 + r);
    CutValue(js, vals, Equation(lit, g1, op, g2, r), |lit + g1|, op, lit + g1, g2 + r);
    SidesValue(js, vals, quote, text, g1, g2, r);
  }

  lemma QuotedAlone<V>(js: Js<V>, vals: V, quote: char, text: string)
    requires IsQuote(quote) && forall i :: !OperatorIn(text, i)
    ensures Value(js, vals, Lit(quote, text)) == js.str(text)
  {
    forall i: nat | i < |Lit(quote, text)| ensures !EqualityAt(Lit(quote, text), i) {
      OperatorsSeen(quote, text, i);
    }
    QuotedValue(js, vals, quote, text);
  }

  /** What stands left of another operator is not the literal's text. */
  lemma OtherCut(quote: char, text: string, g1: string, op: Op, rest: string, m: nat, js: Js<string>)
    returns (l: string)
    requires IsQuote(quote) && AllSpace(g1) && rest != "" && rest[0] != '='
    requires js.str == (s => s) && js.undefined == text + "x"
    requires var s, n := (Lit(quote, text) + g1) + (OpText(op) + rest), |Lit(quote, text) + g1|;
             FirstEquality(s, 0) == Some(m) && m != n
    ensures var s := (Lit(quote, text) + g1) + (OpText(op) + rest);
            m < |s| && l == Value(js, "", s[..m]) && l != text
  {
    var lit := Lit(quote, text);
    var s, n := (lit + g1) + (OpText(op) + rest), |lit + g1|;
    AtOperator(lit, g1, op, rest);
    EqualitiesSeen(quote, text, g1, op, rest, 0);
    assert s[0] == quote && m > 0;
    var k := LeftOfFirst(js, "", s, m);
    l := Value(js, "", s[..m]);
    if m < n {
      EqualitiesSeen(quote, text, g1, op, rest, m);
      assert k < |lit|;
    } else {
      assert !IsSpace(s[n]);
      assert k > n;
    }
    assert Quoted(s[..k]) ==> |s[1..k - 1]| == k - 2;
  }

  /** Without any operator the equation is not even a comparison. */
  lemma NoCut(quote: char, text: string, e: string, js: Js<string>)
    requires e != "" && e[0] == quote && IsQuote(quote) && Trim(e) == e && |e| > 4 && FirstEquality(e, 0) == None
    requires js.str == (s => s) && js.undefined == text + "x"
    ensures Value(js, "", e) != "1" && Value(js, "", e) != "0"
  {
    QuoteLed(js, "", e);
    assert Quoted(e) ==> |e[1..|e| - 1]| == |e| - 2;
    assert (text + "x")[|text|] == 'x';
  }

  /** The bad case: some host language gives another value. */
  lemma LiteralMissed(quote: char, text: string, g1: string, op: Op, g2: string, r: string) returns (js: Js<string>)
    requires IsQuote(quote) && AllSpace(g1) && AllSpace(g2) && Tight(r) && r[0] != '=' && !PassedOver(text)
    ensures Value(js, "", Equation(Lit(quote, text), g1, op, g2, r)) != Compare(js, op, js.str(text), Value(js, "", r))
  {
    var e := Equation(Lit(quote, text), g1, op, g2, r);
    GapLed(g2, r);
    EquationTrimmed(quote, text, g1, op, g2, r);
    OwnOperatorFirst(quote, text, g1, op, g2 + r);
    var eq := FirstEquality(e, 0);
    if eq == None {
      js := Telling(text, false);
      NoCut(quote, text, e, js);
    } else {
      var m, op' := eq.value, OpAt(e, eq.value);
      js := Telling(text, Positive(op) != Positive(op'));
      var l := OtherCut(quote, text, g1, op, g2 + r, m, js);
      var rest := e[m + OpLen(op')..];
      CutValue(js, "", e, m, op', e[..m], rest);
      ComparisonsDiffer(text, op, op', l, Value(js, "", r), Value(js, "", rest));
    }
  }

  /**
   * A quoted text on the left of an equality is compared as a literal, in every host
   * language, if and only if the brackets in it leave the depth as it was and no operator
   * stands in it where the depth is zero.
   */
  lemma LiteralOnLeftIff(quote: char, text: string, g1: string, op: Op, g2: string, r: string)
    requires IsQuote(quote) && AllSpace(g1) && AllSpace(g2) && Tight(r) && r[0] != '='
    ensures (forall js: Js<string>, vals: string ::
               Value(js, vals, Equation(Lit(quote, text), g1, op, g2, r))
               == Compare(js, op, js.str(text), Value(js, vals, r)))
            <==> PassedOver(text)
  {
    if PassedOver(text) {
      forall js: Js<string>, vals: string
        ensures Value(js, vals, Equation(Lit(quote, text), g1, op, g2, r))
                == Compare(js, op, js.str(text), Value(js, vals, r))
      {
        LiteralCompared(js, vals, quote, text, g1, op, g2, r);
      }
    } else {
      var js := LiteralMissed(quote, text, g1, op, g2, r);
    }
  }

  // ---------- as a key ----------

  /** An operator that a scan meets in the text at depth `d`, reckoned from its start. */
  ghost predicate OperatorAt(text: string, i: int, d: int) {
    && 0 <= i < |text| - 1
    && (text[i] == '=' || text[i] == '!') && text[i + 1] == '='
    && Depth(Both, text[..i]) == d
    && !(i > 0 && (text[i - 1] == '=' || text[i - 1] == '!'))
  }

  /** The key with its brackets. */
  function Boxed(key: string): string {
    "[" + key + "]"
  }

  function Keyed(head: string, key: string): string {
    head + Boxed(key)
  }

  lemma KeyedParts(head: string, quote: char, text: string)
    ensures var e, n := Keyed(head, Lit(quote, text)), |head|;
            && |e| == n + |text| + 4 && e[n] == '[' && e[n + 1] == quote && e[|e| - 1] == ']'
            && e[n + 1..|e| - 1] == Lit(quote, text) && e[n + |text| + 2] == quote
            && (forall i :: 0 <= i < n ==> e[i] == head[i])
            && (forall i :: 0 <= i < |text| ==> e[n + 2 + i] == text[i])
            && (forall i :: 0 <= i <= |text| ==> e[..n + 2 + i] == head + ("[" + ([quote] + text[..i])))
  {
    var e, n := Keyed(head, Lit(quote, text)), |head|;
    forall i | 0 <= i <= |text| ensures e[..n + 2 + i] == head + ("[" + ([quote] + text[..i])) {
    }
  }

  lemma KeyedDepth(head: string, quote: char, prefix: string)
    requires Quiet(head) && IsQuote(quote)
    ensures Depth(Both, head + ("[" + ([quote] + prefix))) == 1 + Depth(Both, prefix)
  {
    QuietDepth(Both, head);
    OneDepth(Both, '[');
    OneDepth(Both, quote);
    DepthAppend(Both, [quote], prefix);
    DepthAppend(Both, "[", [quote] + prefix);
    DepthAppend(Both, head, "[" + ([quote] + prefix));
  }

  lemma KeyInside(head: string, quote: char, text: string, i: nat)
    requires Quiet(head) && IsQuote(quote) && i < |text|
    ensures var e := Keyed(head, Lit(quote, text));
            |head| + 2 + i < |e| && (EqualityAt(e, |head| + 2 + i) <==> OperatorAt(text, i, -1))
  {
    var e, n := Keyed(head, Lit(quote, text)), |head|;
    KeyedParts(head, quote, text);
    KeyedDepth(head, quote, text[..i]);
    KeyLedBySome(e, n + 1);
    TrimSome(e[..n + 2 + i], n + 1);
    assert i > 0 ==> e[n + 1 + i] == text[i - 1];
    assert i + 1 < |text| ==> e[n + 3 + i] == text[i + 1];
  }

  lemma KeyLedBySome(e: string, i: nat)
    requires i < |e| && IsQuote(e[i])
    ensures !IsSpace(e[i])
  {
  }

  /** A text that is not all white space does not vanish. */
  lemma {:induction false} TrimSome(s: string, i: nat)
    requires i < |s| && !IsSpace(s[i])
    ensures Trim(s) != ""
    decreases |s|
  {
    if IsSpace(s[0]) {
      TrimSome(s[1..], i - 1);
    } else {
      TrimLeftTight(s);
    }
  }

  lemma KeyOutside(head: string, quote: char, text: string, i: nat)
    requires Quiet(head) && IsQuote(quote) && i < |Keyed(head, Lit(quote, text))|
    requires i < |head| + 2 || i >= |head| + 2 + |text|
    ensures !EqualityAt(Keyed(head, Lit(quote, text)), i)
  {
    KeyedParts(head, quote, text);
  }

  /** The scan for operators meets those of the text that stand one level up. */
  lemma KeyEqualities(head: string, quote: char, text: string, i: nat)
    requires IsIdent(head) && IsQuote(quote) && i < |Keyed(head, Lit(quote, text))|
    ensures EqualityAt(Keyed(head, Lit(quote, text)), i) <==> OperatorAt(text, i - |head| - 2, -1)
  {
    IdentQuiet(head);
    if |head| + 2 <= i < |head| + 2 + |text| {
      KeyInside(head, quote, text, i - |head| - 2);
    } else {
      KeyOutside(head, quote, text, i);
    }
  }

  lemma NoKeyEquality(head: string, quote: char, text: string)
    requires IsIdent(head) && IsQuote(quote)
    ensures FirstEquality(Keyed(head, Lit(quote, text)), 0) == None <==> forall i :: !OperatorAt(text, i, -1)
  {
    var e := Keyed(head, Lit(quote, text));
    KeyedParts(head, quote, text);
    forall i: nat | i < |e| ensures EqualityAt(e, i) <==> OperatorAt(text, i - |head| - 2, -1) {
      KeyEqualities(head, quote, text, i);
    }
    if FirstEquality(e, 0) == None {
      forall i ensures !OperatorAt(text, i, -1) {
        assert 0 <= i < |text| ==> !EqualityAt(e, i + |head| + 2);
      }
    }
  }

  /** If the scan for the closing bracket gets to the end of a content, nothing in it closed before. */
  lemma {:induction false} ClosesAtEnd(e: string, from: nat, x: string, t: nat)
    requires t <= |x| && from + |x| < |e| && e[from..from + |x|] == x && e[from + |x|] == ']'
    requires Depth(Square, x[..t]) >= 0
    requires ClosingBracket(e, from + t, 1 + Depth(Square, x[..t])) == Some(from + |x|)
    ensures Depth(Square, x) == 0 && forall i :: t <= i <= |x| ==> Depth(Square, x[..i]) >= 0
    decreases |x| - t
  {
    if t == |x| {
      assert x[..t] == x;
    } else {
      assert x[..t + 1][..t] == x[..t];
      assert e[from + t] == x[t];
      ClosesAtEnd(e, from, x, t + 1);
    }
  }

  lemma {:induction false} LowOfPrefixes(k: Kind, s: string)
    requires forall i :: 0 <= i <= |s| ==> Depth(k, s[..i]) >= 0
    ensures Low(k, s) >= 0
    decreases |s|
  {
    if s != "" {
      var n := |s| - 1;
      forall i | 0 <= i <= n ensures Depth(k, s[..n][..i]) >= 0 {
        assert s[..n][..i] == s[..i];
      }
      LowOfPrefixes(k, s[..n]);
      assert s[..|s|] == s;
    }
  }

  lemma ClosesIffBalanced(e: string, from: nat, x: string)
    requires from + |x| < |e| && e[from..from + |x|] == x && e[from + |x|] == ']'
    ensures ClosingBracket(e, from, 1) == Some(from + |x|) <==> Balanced(Square, x)
  {
    assert x[..0] == "";
    if Balanced(Square, x) {
      BracketCloses(e, from, x, 0);
    }
    if ClosingBracket(e, from, 1) == Some(from + |x|) {
      ClosesAtEnd(e, from, x, 0);
      LowOfPrefixes(Square, x);
    }
  }

  lemma BoxedParts(x: string)
    ensures var s := Boxed(x);
            && |s| == |x| + 2 && s[0] == '[' && s[1 + |x|] == ']'
            && s[1..1 + |x|] == x && s[2 + |x|..] == ""
  {
  }

  /** Where the key ends, seen by the walk. */
  lemma KeyEnds(quote: char, text: string)
    requires IsQuote(quote)
    ensures var s := Boxed(Lit(quote, text)); ClosingBracket(s, 1, 1) == Some(|s| - 1) <==> Balanced(Square, text)
  {
    BoxedParts(Lit(quote, text));
    ClosesIffBalanced(Boxed(Lit(quote, text)), 1, Lit(quote, text));
    LitDepth(Square, quote, text);
  }

  /** Evaluating the path: a walk that starts at its bracket. */
  lemma KeyedWalk<V>(js: Js<V>, vals: V, head: string, quote: char, text: string)
    requires IsIdent(head) && IsQuote(quote) && forall i :: !OperatorAt(text, i, -1)
    ensures var e := Keyed(head, Lit(quote, text));
            Value(js, vals, e) == Walk(js, vals, Boxed(Lit(quote, text)), Member(js, vals, js.str(head)))
  {
    var e := Keyed(head, Lit(quote, text));
    KeyedParts(head, quote, text);
    IdentQuiet(head);
    NoKeyEquality(head, quote, text);
    JoinIsNoKeyword(head, "[" + Lit(quote, text) + "]");
    TrimAlone(e);
    AtomIsPath(js, vals, e);
    PathStarts(js, vals, head, "[" + Lit(quote, text) + "]");
    PathEvaluates(js, vals, e);
  }

  lemma PathEvaluates<V>(js: Js<V>, vals: V, e: string)
    requires e != "" && Trim(e) == e && e[0] != '(' && e[0] != '!' && FirstEquality(e, 0) == None
    ensures Value(js, vals, e) == ResolveAtom(js, vals, e)
  {
  }

  /** The text is a key of its own: its square brackets match, and no operator stands at its level or one up. */
  ghost predicate OwnKey(text: string) {
    Balanced(Square, text) && forall i :: !OperatorAt(text, i, 0) && !OperatorAt(text, i, -1)
  }

  lemma SameOperators(text: string)
    ensures forall i :: OperatorAt(text, i, 0) <==> OperatorIn(text, i)
  {
  }

  /** A walk that takes its key: one bracket, to the end. */
  lemma KeyTaken<V>(js: Js<V>, vals: V, quote: char, text: string, cur: V)
    requires IsQuote(quote) && Balanced(Square, text)
    ensures Walk(js, vals, Boxed(Lit(quote, text)), cur) == Member(js, cur, Value(js, vals, Lit(quote, text)))
  {
    BoxedParts(Lit(quote, text));
    KeyEnds(quote, text);
    WalkKey(js, vals, Boxed(Lit(quote, text)), Lit(quote, text), "", cur);
  }

  /** The good case. */
  lemma KeyFollowed<V>(js: Js<V>, vals: V, head: string, quote: char, text: string)
    requires IsIdent(head) && IsQuote(quote) && OwnKey(text)
    ensures Value(js, vals, Keyed(head, Lit(quote, text))) == Member(js, Member(js, vals, js.str(head)), js.str(text))
  {
    SameOperators(text);
    KeyedWalk(js, vals, head, quote, text);
    KeyTaken(js, vals, quote, text, Member(js, vals, js.str(head)));
    QuotedAlone(js, vals, quote, text);
  }

  /** Truth values are told apart from properties. */
  function Flagging(): Js<nat> {
    Js(0, 0, _ => 0, _ => 0, _ => 0, (_, _) => 1, _ => false, _ => true, (_, _) => true, (_, _) => true)
  }

  /** Every property access is counted. */
  function Counting(): Js<nat> {
    Js(0, 0, _ => 0, _ => 0, _ => 0, (a, _) => a + 1, _ => false, _ => true, (_, _) => true, (_, _) => true)
  }

  /** A property is its key. */
  function Echoing(): Js<nat> {
    Js(0, 0, _ => 0, _ => 0, _ => 1, (_, k) => k, _ => false, _ => true, (_, _) => true, (_, _) => true)
  }

  /** An expression with an operator is a truth value. */
  lemma Compared(js: Js<nat>, e: string)
    requires Trim(e) == e && e != "" && !Wrapped(e) && FirstEquality(e, 0).Some?
    requires js.truth(true) == 0 && js.truth(false) == 0
    ensures Value(js, 0, e) == 0
  {
    var n := FirstEquality(e, 0).value;
    var op := OpAt(e, n);
    CutValue(js, 0, e, n, op, e[..n], e[n + OpLen(op)..]);
    EitherIs(js, op, Value(js, 0, e[..n]), Value(js, 0, e[n + OpLen(op)..]));
  }

  lemma EitherIs(js: Js<nat>, op: Op, l: nat, r: nat)
    requires js.truth(true) == 0 && js.truth(false) == 0
    ensures Compare(js, op, l, r) == 0
  {
    assert js.truth(js.strictEq(l, r)) == if js.strictEq(l, r) then js.truth(true) else js.truth(false);
    assert js.truth(!js.strictEq(l, r)) == if js.strictEq(l, r) then js.truth(false) else js.truth(true);
    assert js.truth(js.looseEq(l, r)) == if js.looseEq(l, r) then js.truth(true) else js.truth(false);
    assert js.truth(!js.looseEq(l, r)) == if js.looseEq(l, r) then js.truth(false) else js.truth(true);
  }

  /** Nothing is null, and every property access makes the value longer. */
  ghost predicate Counts(js: Js<nat>) {
    js.undefined == 0 && forall a: nat, k: nat :: Member(js, a, k) == a + 1
  }

  lemma OneMore(js: Js<nat>, s: string, cur: nat, key: nat)
    requires Counts(js)
    ensures Walk(js, 0, s, Member(js, cur, key)) == Walk(js, 0, s, cur + 1)
  {
    assert Member(js, cur, key) == cur + 1;
  }

  lemma DotCounts(js: Js<nat>, s: string, cur: nat) returns (rest: Option<string>)
    requires Counts(js) && s != "" && s[0] == '.'
    ensures rest.Some? ==> |rest.value| < |s|
    ensures Walk(js, 0, s, cur) == if rest == None then 0 else Walk(js, 0, rest.value, cur + 1)
  {
    var n := NameLen(s[1..]);
    var name, after := s[1..1 + n], s[1 + n..];
    DotUnfolds(js, 0, s, name, after, cur);
    if n == 0 {
      return None;
    }
    OneMore(js, after, cur, js.str(name));
    return Some(after);
  }

  lemma BracketCounts(js: Js<nat>, s: string, cur: nat) returns (rest: Option<string>)
    requires Counts(js) && s != "" && s[0] == '['
    ensures rest.Some? ==> |rest.value| < |s|
    ensures Walk(js, 0, s, cur) == if rest == None then 0 else Walk(js, 0, rest.value, cur + 1)
  {
    var j := ClosingBracket(s, 1, 1);
    if j == None {
      BracketUnfolds(js, 0, s, j, "", "", cur);
      return None;
    }
    var key, after := s[1..j.value], s[j.value + 1..];
    BracketUnfolds(js, 0, s, j, key, after, cur);
    OneMore(js, after, cur, Value(js, 0, key));
    return Some(after);
  }

  lemma ElseBreaksOff(js: Js<nat>, s: string, cur: nat)
    requires Counts(js) && s != "" && s[0] != '.' && s[0] != '['
    ensures Walk(js, 0, s, cur) == 0
  {
  }

  /** One step along a path accesses one property, or nothing comes of the path. */
  lemma StepCounts(js: Js<nat>, s: string, cur: nat) returns (rest: Option<string>)
    requires Counts(js) && s != ""
    ensures rest.Some? ==> |rest.value| < |s|
    ensures Walk(js, 0, s, cur) == if rest == None then 0 else Walk(js, 0, rest.value, cur + 1)
  {
    if s[0] == '.' {
      rest := DotCounts(js, s, cur);
    } else if s[0] == '[' {
      rest := BracketCounts(js, s, cur);
    } else {
      ElseBreaksOff(js, s, cur);
      rest := None;
    }
  }

  /** What is left of a path accesses at least one more property, or nothing comes of it. */
  lemma {:induction false} WalkGrows(js: Js<nat>, s: string, cur: nat)
    requires Counts(js)
    ensures var v := Walk(js, 0, s, cur); v == 0 || v > cur || (s == "" && v == cur)
    decreases |s|
  {
    if s != "" {
      var rest := StepCounts(js, s, cur);
      if rest.Some? {
        WalkGrows(js, rest.value, cur + 1);
      }
    }
  }

  /** A bracket that closes too early, or never: more properties are accessed, or none. */
  lemma BrokenWalk(js: Js<nat>, s: string)
    requires Counts(js) && s != "" && s[0] == '[' && ClosingBracket(s, 1, 1) != Some(|s| - 1)
    ensures Walk(js, 0, s, 1) != 2
  {
    var j := ClosingBracket(s, 1, 1);
    if j == None {
      BracketUnfolds(js, 0, s, j, "", "", 1);
    } else {
      var key, after := s[1..j.value], s[j.value + 1..];
      BracketUnfolds(js, 0, s, j, key, after, 1);
      OneMore(js, after, 1, Value(js, 0, key));
      WalkGrows(js, after, 2);
    }
  }

  lemma CountingCounts()
    ensures Counts(Counting())
  {
  }

  lemma KeyBroken(head: string, quote: char, text: string)
    requires IsIdent(head) && IsQuote(quote) && !Balanced(Square, text) && forall i :: !OperatorAt(text, i, -1)
    ensures var js := Counting();
            Value(js, 0, Keyed(head, Lit(quote, text))) != Member(js, Member(js, 0, js.str(head)), js.str(text))
  {
    CountingCounts();
    KeyedWalk(Counting(), 0, head, quote, text);
    BoxedParts(Lit(quote, text));
    KeyEnds(quote, text);
    BrokenWalk(Counting(), Boxed(Lit(quote, text)));
  }

  lemma KeyCompared(head: string, quote: char, text: string)
    requires IsIdent(head) && IsQuote(quote) && exists i :: OperatorAt(text, i, -1)
    ensures Value(Flagging(), 0, Keyed(head, Lit(quote, text))) == 0
  {
    var e := Keyed(head, Lit(quote, text));
    KeyedParts(head, quote, text);
    IdentQuiet(head);
    TrimAlone(e);
    NoKeyEquality(head, quote, text);
    Compared(Flagging(), e);
  }

  lemma KeySplit(head: string, quote: char, text: string)
    requires IsIdent(head) && IsQuote(quote) && Balanced(Square, text)
    requires (forall i :: !OperatorAt(text, i, -1)) && exists i :: OperatorAt(text, i, 0)
    ensures Value(Echoing(), 0, Keyed(head, Lit(quote, text))) == 0
  {
    var js := Echoing();
    KeyedWalk(js, 0, head, quote, text);
    KeyTaken(js, 0, quote, text, Member(js, 0, js.str(head)));
    QuotedSplit(js, quote, text);
  }

  /** The bad cases: some host language gives another value. */
  lemma KeyMissed(head: string, quote: char, text: string) returns (js: Js<nat>)
    requires IsIdent(head) && IsQuote(quote) && !OwnKey(text)
    ensures Value(js, 0, Keyed(head, Lit(quote, text))) != Member(js, Member(js, 0, js.str(head)), js.str(text))
  {
    if exists i :: OperatorAt(text, i, -1) {
      js := Flagging();
      KeyCompared(head, quote, text);
    } else if !Balanced(Square, text) {
      js := Counting();
      KeyBroken(head, quote, text);
    } else {
      js := Echoing();
      KeySplit(head, quote, text);
    }
  }

  /** Alone, a text with an operator at its level is a comparison. */
  lemma QuotedSplit(js: Js<nat>, quote: char, text: string)
    requires IsQuote(quote) && (exists i :: OperatorAt(text, i, 0)) && js.truth(true) == 0 && js.truth(false) == 0
    ensures Value(js, 0, Lit(quote, text)) == 0
  {
    SameOperators(text);
    var i :| OperatorIn(text, i);
    OperatorsSeen(quote, text, i + 1);
    WrapEnds(quote, text, quote);
    TrimAlone(Lit(quote, text));
    Compared(js, Lit(quote, text));
  }

  /**
   * A quoted text in brackets is followed as a key, in every host language, if and only if
   * its square brackets match and no operator stands in it at its own level or one up.
   */
  lemma LiteralKeyIff(head: string, quote: char, text: string)
    requires IsIdent(head) && IsQuote(quote)
    ensures (forall js: Js<nat>, vals: nat ::
               Value(js, vals, Keyed(head, Lit(quote, text)))
               == Member(js, Member(js, vals, js.str(head)), js.str(text)))
            <==> OwnKey(text)
  {
    if OwnKey(text) {
      forall js: Js<nat>, vals: nat
        ensures Value(js, vals, Keyed(head, Lit(quote, text)))
                == Member(js, Member(js, vals, js.str(head)), js.str(text))
      {
        KeyFollowed(js, vals, head, quote, text);
      }
    } else {
      var js := KeyMissed(head, quote, text);
    }
  }
}

/**
 * Template expressions as they are spelled: operators, words, numbers, white space and
 * identifiers character by character, and what an operator with nothing before it does.
 */
module Spelling {
  import opened Options
  import opened Resolve
  import opened Syntax
  import opened Templates

  // ---------- operators ----------

  /** The operator that is written so. */
  function OpOf(text: string): (op: Op)
    requires text == "===" || text == "!==" || text == "==" || text == "!="
    ensures OpText(op) == text
  {
    if text == "===" then StrictEq else if text == "!==" then StrictNe else if text == "==" then LooseEq else LooseNe
  }

  /** What the operator written so makes of two values. */
  predicate Outcome<V(==)>(js: Js<V>, op: string, l: V, r: V, v: V) {
    && (op == "===" ==> v == js.truth(js.strictEq(l, r)))
    && (op == "!==" ==> v == js.truth(!js.strictEq(l, r)))
    && (op == "==" ==> v == js.truth(js.looseEq(l, r)))
    && (op == "!=" ==> v == js.truth(!js.looseEq(l, r)))
  }

  lemma ComparesSo<V>(js: Js<V>, op: string, l: V, r: V)
    requires op == "===" || op == "!==" || op == "==" || op == "!="
    ensures Outcome(js, op, l, r, Compare(js, OpOf(op), l, r))
  {
  }

  lemma Joined(l: string, op: string, r: string)
    ensures (l + "") + (op + ("" + r)) == l + op + r
  {
  }

  lemma OperatorCompares<V>(js: Js<V>, vals: V, left: Expr, op: Op, right: Expr, text: string)
    requires WellFormed(left) && WellFormed(right) && !left.Equal? && text == Text(left) + OpText(op) + Text(right)
    ensures Value(js, vals, text) == Compare(js, op, Meaning(js, vals, left), Meaning(js, vals, right))
  {
    Joined(Text(left), OpText(op), Text(right));
    TextMeans(js, vals, Equal(left, "", op, "", right));
    EqualCompares(js, vals, left, "", op, "", right);
  }

  /** What the four operators compute, as they are written. */
  lemma OperatorsMean<V>(js: Js<V>, vals: V, left: Expr, op: string, right: Expr)
    requires WellFormed(left) && WellFormed(right) && !left.Equal?
    requires op == "===" || op == "!==" || op == "==" || op == "!="
    ensures Outcome(js, op, Meaning(js, vals, left), Meaning(js, vals, right),
                    Value(js, vals, Text(left) + op + Text(right)))
  {
    OperatorCompares(js, vals, left, OpOf(op), right, Text(left) + op + Text(right));
    ComparesSo(js, op, Meaning(js, vals, left), Meaning(js, vals, right));
  }

  lemma FrontIsNoEquality(front: string, rest: string)
    requires Quiet(rest) && Tight(rest) && front != ""
    requires forall i :: 0 <= i < |front| ==> IsEqStart(front[i])
    ensures FirstEquality(front + rest, 0) == None && Trim(front + rest) == front + rest
  {
    var s := front + rest;
    forall i | 0 <= i < |s| ensures !EqualityAt(s, i) {
      assert i >= |front| ==> s[i] == rest[i - |front|];
      assert 0 < i < |front| ==> s[i - 1] == front[i - 1];
    }
    TrimAlone(s);
  }

  lemma StartsWithEquals<V>(js: Js<V>, vals: V, front: string, rest: string)
    requires Quiet(rest) && Tight(rest) && (front == "=" || front == "==" || front == "===")
    ensures Value(js, vals, front + rest) == js.undefined
  {
    FrontIsNoEquality(front, rest);
    EqualsSignIsNothing(js, vals, front + rest);
  }

  lemma EqualsSignIsNothing<V>(js: Js<V>, vals: V, s: string)
    requires s != "" && s[0] == '=' && Trim(s) == s && FirstEquality(s, 0) == None
    ensures Value(js, vals, s) == js.undefined
  {
    EqualsSignIsNoAtom(js, vals, s);
  }

  lemma EqualsSignIsNoAtom<V>(js: Js<V>, vals: V, s: string)
    requires s != "" && s[0] == '='
    ensures ResolveAtom(js, vals, s) == js.undefined
  {
    StartIsNotNumber(s);
  }

  lemma StartsWithNot<V>(js: Js<V>, vals: V, front: string, rest: string)
    requires Quiet(rest) && Tight(rest) && (front == "=" || front == "==")
    ensures Value(js, vals, ("!" + front) + rest) == js.truth(!js.truthy(js.undefined))
  {
    FrontIsNoEquality("!" + front, rest);
    StartsWithEquals(js, vals, front, rest);
    NegatedValue(js, vals, ("!" + front) + rest);
    assert (("!" + front) + rest)[1..] == front + rest;
  }

  /** An expression that starts with an equality operator is no equation. */
  lemma NothingOnTheLeft<V>(js: Js<V>, vals: V, op: string, rest: string)
    requires Quiet(rest) && Tight(rest)
    requires op == "===" || op == "!==" || op == "==" || op == "!="
    ensures Value(js, vals, op + rest) == if op[0] == '=' then js.undefined else js.truth(!js.truthy(js.undefined))
  {
    if op[0] == '=' {
      StartsWithEquals(js, vals, op, rest);
    } else {
      StartsWithNot(js, vals, op[1..], rest);
      assert "!" + op[1..] == op;
    }
  }

  // ---------- paths ----------

  lemma PathMeans<V>(js: Js<V>, vals: V, head: string, segs: Segs, text: string, cur: V)
    requires WellFormed(Path(head, segs)) && text == head + SegsText(segs)
    requires cur == if js.nullish(vals) then js.undefined else js.get(vals, js.str(head))
    ensures Value(js, vals, text) == Follow(js, vals, segs, cur)
  {
    TextMeans(js, vals, Path(head, segs));
  }

  /**
   * A name is read from what is given, a segment from what the path before it has come to;
   * nothing is read from null.
   */
  lemma PathsMean<V>(js: Js<V>, vals: V, head: string, name: string, key: Expr)
    requires IsIdent(head) && !Keyword(head) && IsIdent(name) && WellFormed(key)
    ensures var top := if js.nullish(vals) then js.undefined else js.get(vals, js.str(head));
            var k := Meaning(js, vals, key);
            && Value(js, vals, head) == top
            && Value(js, vals, head + "." + name)
               == (if js.nullish(top) then js.undefined else js.get(top, js.str(name)))
            && Value(js, vals, head + "[" + Text(key) + "]")
               == if js.nullish(top) then js.undefined else js.get(top, k)
  {
    var top := if js.nullish(vals) then js.undefined else js.get(vals, js.str(head));
    NameMeans(js, vals, head, top);
    DotMeans(js, vals, head, name, top);
    KeyMeans(js, vals, head, key, top);
  }

  lemma NameMeans<V>(js: Js<V>, vals: V, head: string, top: V)
    requires IsIdent(head) && !Keyword(head)
    requires top == if js.nullish(vals) then js.undefined else js.get(vals, js.str(head))
    ensures Value(js, vals, head) == top
  {
    assert head + SegsText(End) == head;
    PathMeans(js, vals, head, End, head, top);
  }

  lemma DotMeans<V>(js: Js<V>, vals: V, head: string, name: string, top: V)
    requires IsIdent(head) && IsIdent(name)
    requires top == if js.nullish(vals) then js.undefined else js.get(vals, js.str(head))
    ensures Value(js, vals, head + "." + name) == if js.nullish(top) then js.undefined else js.get(top, js.str(name))
  {
    var text := head + "." + name;
    assert text == head + SegsText(Dot(name, End));
    PathMeans(js, vals, head, Dot(name, End), text, top);
  }

  lemma KeyMeans<V>(js: Js<V>, vals: V, head: string, key: Expr, top: V)
    requires IsIdent(head) && WellFormed(key)
    requires top == if js.nullish(vals) then js.undefined else js.get(vals, js.str(head))
    ensures Value(js, vals, head + "[" + Text(key) + "]")
            == if js.nullish(top) then js.undefined else js.get(top, Meaning(js, vals, key))
  {
    var segs := At("", key, "", End);
    var text := head + "[" + Text(key) + "]";
    Bracketed(head, Text(key));
    PathMeans(js, vals, head, segs, text, top);
  }

  lemma Bracketed(head: string, key: string)
    ensures head + (("[" + ("" + key + "") + "]") + "") == head + "[" + key + "]"
  {
  }

  // ---------- words and quoted texts ----------

  lemma WordMeans<V>(js: Js<V>, vals: V, w: Word)
    ensures Value(js, vals, WordText(w)) == Meaning(js, vals, Literal(w))
  {
    TextMeans(js, vals, Literal(w));
  }

  lemma WordsMean<V>(js: Js<V>, vals: V, word: string)
    requires word == "true" || word == "false" || word == "null" || word == "undefined"
    ensures Value(js, vals, word)
            == if word == "true" then js.truth(true)
               else if word == "false" then js.truth(false)
               else if word == "null" then js.nil
               else js.undefined
  {
    WordMeans(js, vals, if word == "true" then True else if word == "false" then False
                        else if word == "null" then Null else Undefined);
  }

  /** Either quote encloses a literal. */
  lemma QuotesMean<V>(js: Js<V>, vals: V, text: string)
    requires Quiet(text)
    ensures Value(js, vals, ['"'] + text + ['"']) == js.str(text)
    ensures Value(js, vals, ['\''] + text + ['\'']) == js.str(text)
  {
    QuietIsPlain('"', text);
    QuietIsPlain('\'', text);
    StrValue(js, vals, '"', text);
    StrValue(js, vals, '\'', text);
  }

  // ---------- numbers ----------

  predicate Digits(s: string) {
    s != "" && forall i :: 0 <= i < |s| ==> '0' <= s[i] <= '9'
  }

  lemma {:induction false} LeadingDigits(s: string)
    ensures var n := DigitsLen(s);
            (forall i :: 0 <= i < n ==> '0' <= s[i] <= '9') && (n < |s| ==> !('0' <= s[n] <= '9'))
    decreases |s|
  {
    if s != "" && IsDigit(s[0]) {
      LeadingDigits(s[1..]);
      forall i | 0 <= i < DigitsLen(s) ensures '0' <= s[i] <= '9' {
        assert i > 0 ==> s[i] == s[1..][i - 1];
      }
    }
  }

  predicate Spells(s: string, sign: string, whole: string, dot: string, fraction: string) {
    && s == sign + whole + dot + fraction
    && (sign == "" || sign == "-") && Digits(whole)
    && ((dot == "" && fraction == "") || (dot == "." && Digits(fraction)))
  }

  lemma DigitsEnd(s: string, rest: string)
    requires Digits(s) && (rest == "" || !IsDigit(rest[0]))
    ensures DigitsLen(s + rest) == |s|
  {
    DigitsRun(s, rest);
  }

  /** The part after the sign. */
  lemma UnsignedIsNumber(t: string, whole: string, fraction: string)
    requires Digits(whole) && (t == whole || (Digits(fraction) && t == whole + "." + fraction))
    ensures IsNumber(t) && DigitsLen(t) > 0 && t[0] != '-'
  {
    if t == whole {
      DigitsEnd(whole, "");
      assert whole + "" == whole;
    } else {
      assert t == whole + ("." + fraction);
      DigitsEnd(whole, "." + fraction);
      DigitsEnd(fraction, "");
      assert fraction + "" == fraction && t[|whole| + 1..] == fraction && t[|whole|] == '.';
    }
  }

  lemma SignedIsNumber(t: string)
    requires IsNumber(t) && t[0] != '-'
    ensures IsNumber("-" + t)
  {
    assert ("-" + t)[1..] == t;
  }

  lemma SpelledIsNumber(s: string, sign: string, whole: string, dot: string, fraction: string)
    requires Spells(s, sign, whole, dot, fraction)
    ensures IsNumber(s)
  {
    var t := whole + dot + fraction;
    JoinSpelled(sign, whole, dot, fraction);
    assert t == whole || t == whole + "." + fraction;
    UnsignedIsNumber(t, whole, fraction);
    if sign == "-" { SignedIsNumber(t); } else { assert s == t; }
  }

  lemma JoinSpelled(sign: string, whole: string, dot: string, fraction: string)
    ensures sign + whole + dot + fraction == sign + (whole + dot + fraction)
  {
  }

  lemma SplitAtDot(sign: string, t: string, n: nat)
    requires n < |t| && t[n] == '.'
    ensures sign + t == sign + t[..n] + "." + t[n + 1..]
  {
  }

  lemma PrefixDigits(s: string, n: nat)
    requires n == DigitsLen(s) && n > 0
    ensures Digits(s[..n]) && (n == |s| ==> Digits(s))
  {
    LeadingDigits(s);
  }

  lemma WholeIsSpelled(sign: string, t: string)
    requires (sign == "" || sign == "-") && Digits(t)
    ensures Spells(sign + t, sign, t, "", "")
  {
  }

  lemma FractionIsSpelled(sign: string, t: string, n: nat)
    requires (sign == "" || sign == "-") && n < |t| && t[n] == '.' && Digits(t[..n]) && Digits(t[n + 1..])
    ensures Spells(sign + t, sign, t[..n], ".", t[n + 1..])
  {
    SplitAtDot(sign, t, n);
  }

  lemma UnsignedIsSpelled(sign: string, t: string)
    requires sign == "" || sign == "-"
    requires var n := DigitsLen(t);
             && n > 0
             && (n == |t| || (t[n] == '.' && |t| > n + 1 && DigitsLen(t[n + 1..]) == |t| - n - 1))
    ensures exists whole, dot, fraction :: Spells(sign + t, sign, whole, dot, fraction)
  {
    var n := DigitsLen(t);
    PrefixDigits(t, n);
    if n == |t| {
      WholeIsSpelled(sign, t);
    } else {
      PrefixDigits(t[n + 1..], |t| - n - 1);
      FractionIsSpelled(sign, t, n);
    }
  }

  lemma NumberIsSpelled(s: string)
    requires IsNumber(s)
    ensures exists sign, whole, dot, fraction :: Spells(s, sign, whole, dot, fraction)
  {
    if s[0] == '-' {
      assert s == "-" + s[1..];
      UnsignedIsSpelled("-", s[1..]);
    } else {
      assert s == "" + s;
      UnsignedIsSpelled("", s);
    }
  }

  /** A number is an optional minus, digits, and optionally a point and more digits. */
  lemma NumberIff(s: string)
    ensures IsNumber(s) <==> exists sign, whole, dot, fraction :: Spells(s, sign, whole, dot, fraction)
  {
    if IsNumber(s) {
      NumberIsSpelled(s);
    }
    if sign, whole, dot, fraction :| Spells(s, sign, whole, dot, fraction) {
      SpelledIsNumber(s, sign, whole, dot, fraction);
    }
  }

  // ---------- white space and identifiers ----------

  const SPACES := {9, 10, 11, 12, 13, 32, 0xA0, 0x1680, 0x2000, 0x2001, 0x2002, 0x2003, 0x2004, 0x2005, 0x2006,
                   0x2007, 0x2008, 0x2009, 0x200A, 0x2028, 0x2029, 0x202F, 0x205F, 0x3000, 0xFEFF}

  lemma SpaceIff(c: char)
    ensures IsSpace(c) <==> c as int in SPACES
  {
  }

  /** Letters of ASCII, the dollar sign and the underscore; after the first character digits too. */
  lemma IdentifierIff(c: char)
    ensures var n := c as int;
            && (IsIdentStart(c) <==> 65 <= n <= 90 || 97 <= n <= 122 || n == 36 || n == 95)
            && (IsIdentPart(c) <==> IsIdentStart(c) || 48 <= n <= 57)
  {
  }
}

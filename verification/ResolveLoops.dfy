/**
 * The evaluator as it is written: the two scans and the walk along a path are loops
 * over positions with a counter. Each computes what `Resolve` says.
 */
module ResolveLoops {
  import opened Options
  import opened Resolve

  lemma DepthStep(k: Kind, e: string, i: nat)
    requires i < |e|
    ensures Depth(k, e[..i + 1]) == Depth(k, e[..i]) + Delta(k, e[i])
  {
    assert e[..i + 1][..i] == e[..i];
  }

  method ScanParens(e: string) returns (whole: bool)
    ensures whole == ParensWrapWhole(e)
  {
    var depth := 0;
    var i := 0;
    while i < |e| - 1
      invariant 0 <= i && (|e| > 0 ==> i <= |e| - 1) && (|e| == 0 ==> i == 0)
      invariant depth == Depth(Round, e[..i])
      invariant forall j {:trigger e[j]} :: 0 <= j < i && e[j] == ')' ==> Depth(Round, e[..j + 1]) != 0
    {
      DepthStep(Round, e, i);
      if e[i] == '(' {
        depth := depth + 1;
      } else if e[i] == ')' {
        depth := depth - 1;
        if depth == 0 {
          return false;
        }
      }
      i := i + 1;
    }
    return true;
  }

  /** The position and the operator of the first top-level equality. */
  method ScanEquality(e: string) returns (r: Option<(nat, Op)>)
    ensures r.Some? <==> FirstEquality(e, 0).Some?
    ensures r.Some? ==> r.value.0 == FirstEquality(e, 0).value && r.value.1 == OpAt(e, r.value.0)
  {
    var depth := 0;
    var i := 0;
    while i < |e|
      invariant 0 <= i <= |e|
      invariant depth == Depth(Both, e[..i])
      invariant FirstEquality(e, 0) == FirstEquality(e, i)
    {
      var c := e[i];
      DepthStep(Both, e, i);
      if c == '[' || c == '(' {
        depth := depth + 1;
      } else if c == ']' || c == ')' {
        depth := depth - 1;
      } else if depth == 0 && (c == '=' || c == '!') && i + 1 < |e| && e[i + 1] == '=' {
        var doubled := i > 0 && (e[i - 1] == '=' || e[i - 1] == '!');
        if !doubled && Trim(e[..i]) != "" {
          return Some((i, OpAt(e, i)));
        }
      }
      i := i + 1;
    }
    return None;
  }

  /** The inner loop of the walk: the bracket that closes the one before `from`. */
  method ScanBracket(e: string, from: nat) returns (r: Option<nat>)
    requires from <= |e|
    ensures r == ClosingBracket(e, from, 1)
  {
    var depth := 1;
    var j := from;
    while j < |e| && depth > 0
      invariant from <= j <= |e| && depth >= 1
      invariant ClosingBracket(e, from, 1) == ClosingBracket(e, j, depth)
      decreases |e| - j
    {
      if e[j] == '[' {
        depth := depth + 1;
      } else if e[j] == ']' {
        depth := depth - 1;
        if depth == 0 {
          return Some(j);
        }
      }
      j := j + 1;
    }
    return None;
  }

  method ResolveExpr<V>(js: Js<V>, vals: V, src: string) returns (v: V)
    ensures v == Value(js, vals, src)
    decreases |src|, 2
  {
    var e := Trim(src);
    assert Value(js, vals, src) == Evaluate(js, vals, e);
    if e == "" {
      return js.undefined;
    }
    if |e| >= 2 && e[0] == '(' && e[|e| - 1] == ')' {
      var whole := ScanParens(e);
      if whole {
        v := ResolveExpr(js, vals, e[1..|e| - 1]);
        return;
      }
    }
    var eq := ScanEquality(e);
    if eq.Some? {
      var (i, op) := eq.value;
      var lv := ResolveExpr(js, vals, e[..i]);
      var rv := ResolveExpr(js, vals, e[i + OpLen(op)..]);
      return Compare(js, op, lv, rv);
    }
    if e[0] == '!' {
      v := ResolveExpr(js, vals, e[1..]);
      return js.truth(!js.truthy(v));
    }
    assert Evaluate(js, vals, e) == ResolveAtom(js, vals, e);
    if e == "true" { return js.truth(true); }
    if e == "false" { return js.truth(false); }
    if e == "null" { return js.nil; }
    if e == "undefined" { return js.undefined; }
    if IsNumber(e) { return js.number(e); }
    if |e| >= 2 && (e[0] == '"' || e[0] == '\'') && e[|e| - 1] == e[0] {
      return js.str(e[1..|e| - 1]);
    }
    v := WalkPath(js, vals, e);
  }

  lemma Slices(e: string, i: nat, from: nat, to: nat)
    requires i <= |e| && from <= to <= |e| - i
    ensures e[i..][from..to] == e[i + from..i + to] && e[i..][to..] == e[i + to..]
  {
  }

  lemma {:induction false} ClosingShifts(e: string, i: nat, j: nat, depth: nat)
    requires i + j <= |e| && depth > 0
    ensures var r := ClosingBracket(e[i..], j, depth);
            ClosingBracket(e, i + j, depth) == if r == None then None else Some(i + r.value)
    decreases |e| - j
  {
    var s := e[i..];
    if j < |s| {
      assert s[j] == e[i + j];
      if s[j] == '[' {
        ClosingShifts(e, i, j + 1, depth + 1);
      } else if s[j] != ']' {
        ClosingShifts(e, i, j + 1, depth);
      } else if depth > 1 {
        ClosingShifts(e, i, j + 1, depth - 1);
      }
    }
  }

  lemma DotUnfolds<V>(js: Js<V>, vals: V, s: string, name: string, rest: string, cur: V)
    requires s != "" && s[0] == '.' && |name| == NameLen(s[1..]) && s[1..1 + |name|] == name && s[1 + |name|..] == rest
    ensures Walk(js, vals, s, cur)
            == if name == "" then js.undefined else Walk(js, vals, rest, Member(js, cur, js.str(name)))
  {
  }

  lemma DotAt<V>(js: Js<V>, vals: V, e: string, i: nat, cur: V, n: nat, name: string, rest: string)
    requires i < |e| && e[i] == '.' && n == NameLen(e[i + 1..]) && name == e[i + 1..i + 1 + n] && rest == e[i + 1 + n..]
    ensures Walk(js, vals, e[i..], cur)
            == if n == 0 then js.undefined else Walk(js, vals, rest, Member(js, cur, js.str(name)))
  {
    var s := e[i..];
    assert s != "" && s[0] == '.' && s[1..] == e[i + 1..] && s[1..1 + n] == name && s[1 + n..] == rest by {
      Slices(e, i, 1, 1 + n);
      Slices(e, i, 0, 1);
    }
    DotUnfolds(js, vals, s, name, rest, cur);
  }

  lemma BracketUnfolds<V>(js: Js<V>, vals: V, s: string, j: Option<nat>, x: string, rest: string, cur: V)
    requires s != "" && s[0] == '[' && ClosingBracket(s, 1, 1) == j
    requires j.Some? ==> x == s[1..j.value] && rest == s[j.value + 1..]
    ensures Walk(js, vals, s, cur)
            == if j == None then js.undefined else Walk(js, vals, rest, Member(js, cur, Value(js, vals, x)))
  {
  }

  lemma BracketAt<V>(js: Js<V>, vals: V, e: string, i: nat, j: Option<nat>, x: string, rest: string, cur: V)
    requires i < |e| && e[i] == '[' && ClosingBracket(e, i + 1, 1) == j
    requires j.Some? ==> x == e[i + 1..j.value] && rest == e[j.value + 1..]
    ensures Walk(js, vals, e[i..], cur)
            == if j == None then js.undefined else Walk(js, vals, rest, Member(js, cur, Value(js, vals, x)))
  {
    var s := e[i..];
    var k := if j == None then None else Some(j.value - i);
    assert ClosingBracket(s, 1, 1) == k by {
      ClosingShifts(e, i, 1, 1);
    }
    assert j.Some? ==> x == s[1..k.value] && rest == s[k.value + 1..] by {
      if j.Some? {
        Slices(e, i, 1, k.value);
        Slices(e, i, 1, k.value + 1);
      }
    }
    BracketUnfolds(js, vals, s, k, x, rest, cur);
  }

  lemma OtherBreaksOff<V>(js: Js<V>, vals: V, e: string, i: nat, cur: V)
    requires i < |e| && e[i] != '.' && e[i] != '['
    ensures Walk(js, vals, e[i..], cur) == js.undefined
  {
  }

  /** A dot at `i` and the name after it; `next` is None where the path breaks off. */
  method StepName<V>(js: Js<V>, ghost vals: V, e: string, i: nat, cur: V) returns (next: Option<(nat, V)>)
    requires i < |e| && e[i] == '.'
    ensures next.Some? ==> i < next.value.0 <= |e|
    ensures Walk(js, vals, e[i..], cur)
            == if next == None then js.undefined else Walk(js, vals, e[next.value.0..], next.value.1)
  {
    var n := IdentLen(e[i + 1..]);
    if n == 0 {
      n := DigitsLen(e[i + 1..]);
    }
    if n == 0 {
      DotAt(js, vals, e, i, cur, 0, "", e[i + 1..]);
      return None;
    }
    var k := i + 1 + n;
    DotAt(js, vals, e, i, cur, n, e[i + 1..k], e[k..]);
    return Some((k, Member(js, cur, js.str(e[i + 1..k]))));
  }

  /** A bracket at `i` and the key in it. */
  method StepKey<V>(js: Js<V>, vals: V, e: string, i: nat, cur: V) returns (next: Option<(nat, V)>)
    requires i < |e| && e[i] == '['
    ensures next.Some? ==> i < next.value.0 <= |e|
    ensures Walk(js, vals, e[i..], cur)
            == if next == None then js.undefined else Walk(js, vals, e[next.value.0..], next.value.1)
    decreases |e|, 0
  {
    var j := ScanBracket(e, i + 1);
    if j == None {
      BracketAt(js, vals, e, i, j, "", "", cur);
      return None;
    }
    BracketAt(js, vals, e, i, j, e[i + 1..j.value], e[j.value + 1..], cur);
    var key := ResolveExpr(js, vals, e[i + 1..j.value]);
    return Some((j.value + 1, Member(js, cur, key)));
  }

  method WalkPath<V>(js: Js<V>, vals: V, e: string) returns (v: V)
    ensures v == ResolvePath(js, vals, e)
    decreases |e|, 1
  {
    var head := IdentLen(e);
    if head == 0 {
      return js.undefined;
    }
    var cur := Member(js, vals, js.str(e[..head]));
    var i := head;
    while i < |e|
      invariant head <= i <= |e|
      invariant ResolvePath(js, vals, e) == Walk(js, vals, e[i..], cur)
    {
      var next := None;
      if e[i] == '.' {
        next := StepName(js, vals, e, i, cur);
      } else if e[i] == '[' {
        next := StepKey(js, vals, e, i, cur);
      } else {
        OtherBreaksOff(js, vals, e, i, cur);
      }
      if next == None {
        return js.undefined;
      }
      i, cur := next.value.0, next.value.1;
    }
    return cur;
  }
}

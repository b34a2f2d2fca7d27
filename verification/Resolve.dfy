/**
 * The expression evaluator of the template runtime: a string is trimmed, unwrapped,
 * split at its first top-level equality, negated, or read as a literal or a path.
 * JavaScript's values and their equalities are left uninterpreted.
 */
module Resolve {
  import opened Options

  /** What the evaluator needs of the host language. */
  datatype Js<!V> = Js(
    undefined: V,
    nil: V,                    // null
    truth: bool -> V,          // true and false
    number: string -> V,
    str: string -> V,
    get: (V, V) -> V,          // property access, key given as a value
    nullish: V -> bool,        // v == null
    truthy: V -> bool,
    strictEq: (V, V) -> bool,
    looseEq: (V, V) -> bool
  )

  /** `cur == null ? undefined : cur[key]`. */
  function Member<V>(js: Js<V>, cur: V, key: V): V {
    if js.nullish(cur) then js.undefined else js.get(cur, key)
  }

  // ---------- characters ----------

  predicate IsSpace(c: char) {
    || '\t' <= c <= '\r' || c == ' ' || c == '\U{A0}' || c == '\U{1680}' || '\U{2000}' <= c <= '\U{200A}'
    || c == '\U{2028}' || c == '\U{2029}' || c == '\U{202F}' || c == '\U{205F}' || c == '\U{3000}' || c == '\U{FEFF}'
  }

  predicate IsDigit(c: char) {
    '0' <= c <= '9'
  }

  predicate IsIdentStart(c: char) {
    'A' <= c <= 'Z' || 'a' <= c <= 'z' || c == '_' || c == '$'
  }

  predicate IsIdentPart(c: char) {
    IsIdentStart(c) || IsDigit(c)
  }

  function TrimLeft(s: string): (r: string)
    ensures |r| <= |s|
    ensures r != "" ==> !IsSpace(r[0])
  {
    if s != "" && IsSpace(s[0]) then TrimLeft(s[1..]) else s
  }

  function TrimRight(s: string): (r: string)
    ensures |r| <= |s|
    ensures r != "" ==> r[0] == s[0] && !IsSpace(r[|r| - 1])
  {
    if s != "" && IsSpace(s[|s| - 1]) then TrimRight(s[..|s| - 1]) else s
  }

  function Trim(s: string): (r: string)
    ensures |r| <= |s|
  {
    TrimRight(TrimLeft(s))
  }

  /** Length of the longest run of identifier parts (or digits) at the front. */
  function PartsLen(s: string): (n: nat)
    ensures n <= |s|
  {
    if s != "" && IsIdentPart(s[0]) then 1 + PartsLen(s[1..]) else 0
  }

  function DigitsLen(s: string): (n: nat)
    ensures n <= |s|
  {
    if s != "" && IsDigit(s[0]) then 1 + DigitsLen(s[1..]) else 0
  }

  /** What the identifier pattern matches at the front; 0 if nothing. */
  function IdentLen(s: string): (n: nat)
    ensures n <= |s|
  {
    if s != "" && IsIdentStart(s[0]) then 1 + PartsLen(s[1..]) else 0
  }

  /** What is matched after a dot: an identifier, or else digits. */
  function NameLen(s: string): (n: nat)
    ensures n <= |s|
  {
    if IdentLen(s) > 0 then IdentLen(s) else DigitsLen(s)
  }

  /** The number pattern matches the whole string. */
  predicate IsNumber(s: string) {
    var t := if s != "" && s[0] == '-' then s[1..] else s;
    var n := DigitsLen(t);
    && n > 0
    && (n == |t| || (t[n] == '.' && |t| > n + 1 && DigitsLen(t[n + 1..]) == |t| - n - 1))
  }

  // ---------- nesting ----------

  /** Which brackets a scan counts. */
  datatype Kind = Round | Square | Both

  function Delta(k: Kind, c: char): int {
    if (c == '(' && k != Square) || (c == '[' && k != Round) then 1
    else if (c == ')' && k != Square) || (c == ']' && k != Round) then -1
    else 0
  }

  /** The depth a scan has reached after `s`. */
  function Depth(k: Kind, s: string): int {
    if s == "" then 0 else Depth(k, s[..|s| - 1]) + Delta(k, s[|s| - 1])
  }

  /** The first parenthesis is not closed before the last character. */
  predicate ParensWrapWhole(e: string) {
    forall i {:trigger e[i]} :: 0 <= i < |e| - 1 && e[i] == ')' ==> Depth(Round, e[..i + 1]) != 0
  }

  datatype Op = StrictEq | StrictNe | LooseEq | LooseNe

  function OpLen(op: Op): nat {
    if op.StrictEq? || op.StrictNe? then 3 else 2
  }

  function OpAt(e: string, i: nat): Op
    requires i < |e|
  {
    if i + 2 < |e| && e[i + 2] == '=' then (if e[i] == '=' then StrictEq else StrictNe)
    else if e[i] == '=' then LooseEq else LooseNe
  }

  predicate IsEqStart(c: char) {
    c == '=' || c == '!'
  }

  /** An equality operator starts at `i`, outside all brackets and with an operand before it. */
  predicate EqualityAt(e: string, i: nat)
    requires i < |e|
  {
    && IsEqStart(e[i])
    && i + 1 < |e| && e[i + 1] == '='
    && Depth(Both, e[..i]) == 0
    && !(i > 0 && IsEqStart(e[i - 1]))
    && Trim(e[..i]) != ""
  }

  /** The first place at or after `from` where an equality starts. */
  function FirstEquality(e: string, from: nat): (r: Option<nat>)
    requires from <= |e|
    ensures r.Some? ==> from <= r.value < |e| && EqualityAt(e, r.value)
    ensures forall i :: from <= i < (if r.Some? then r.value else |e|) ==> !EqualityAt(e, i)
    decreases |e| - from
  {
    if from == |e| then None
    else if EqualityAt(e, from) then Some(from)
    else FirstEquality(e, from + 1)
  }

  /** Where the bracket opened before `j` closes, `depth` brackets being open. */
  function ClosingBracket(e: string, j: nat, depth: nat): (r: Option<nat>)
    requires depth > 0
    ensures r.Some? ==> j <= r.value < |e| && e[r.value] == ']'
    decreases |e| - j
  {
    if j >= |e| then None
    else if e[j] == '[' then ClosingBracket(e, j + 1, depth + 1)
    else if e[j] == ']' then if depth == 1 then Some(j) else ClosingBracket(e, j + 1, depth - 1)
    else ClosingBracket(e, j + 1, depth)
  }

  // ---------- evaluation ----------

  function Compare<V>(js: Js<V>, op: Op, l: V, r: V): V {
    match op
    case StrictEq => js.truth(js.strictEq(l, r))
    case StrictNe => js.truth(!js.strictEq(l, r))
    case LooseEq => js.truth(js.looseEq(l, r))
    case LooseNe => js.truth(!js.looseEq(l, r))
  }

  predicate Quoted(e: string) {
    |e| >= 2 && (e[0] == '"' || e[0] == '\'') && e[|e| - 1] == e[0]
  }

  predicate Wrapped(e: string) {
    |e| >= 2 && e[0] == '(' && e[|e| - 1] == ')' && ParensWrapWhole(e)
  }

  /** An expression that is neither wrapped, nor an equality, nor a negation. */
  function ResolveAtom<V>(js: Js<V>, vals: V, e: string): V
    requires e != ""
    decreases |e|, 2, 0
  {
    if e == "true" then js.truth(true)
    else if e == "false" then js.truth(false)
    else if e == "null" then js.nil
    else if e == "undefined" then js.undefined
    else if IsNumber(e) then js.number(e)
    else if Quoted(e) then js.str(e[1..|e| - 1])
    else ResolvePath(js, vals, e)
  }

  function Value<V>(js: Js<V>, vals: V, src: string): V
    decreases |src|, 4, 0
  {
    Evaluate(js, vals, Trim(src))
  }

  /** An expression without white space around it. */
  function Evaluate<V>(js: Js<V>, vals: V, e: string): V
    decreases |e|, 3, 0
  {
    if e == "" then js.undefined
    else if Wrapped(e) then Value(js, vals, e[1..|e| - 1])
    else
      var eq := FirstEquality(e, 0);
      if eq.Some? then
        var i, op := eq.value, OpAt(e, eq.value);
        Compare(js, op, Value(js, vals, e[..i]), Value(js, vals, e[i + OpLen(op)..]))
      else if e[0] == '!' then js.truth(!js.truthy(Value(js, vals, e[1..])))
      else ResolveAtom(js, vals, e)
  }

  function ResolvePath<V>(js: Js<V>, vals: V, e: string): V
    decreases |e|, 1, 0
  {
    var n := IdentLen(e);
    if n == 0 then js.undefined else Walk(js, vals, e[n..], Member(js, vals, js.str(e[..n])))
  }

  /** The rest of a path, `cur` being the value so far. */
  function Walk<V>(js: Js<V>, vals: V, rest: string, cur: V): V
    decreases |rest|, 0, 0
  {
    if rest == "" then cur
    else if rest[0] == '.' then
      var n := NameLen(rest[1..]);
      if n == 0 then js.undefined
      else Walk(js, vals, rest[1 + n..], Member(js, cur, js.str(rest[1..1 + n])))
    else if rest[0] == '[' then
      var j := ClosingBracket(rest, 1, 1);
      if j == None then js.undefined
      else Walk(js, vals, rest[j.value + 1..], Member(js, cur, Value(js, vals, rest[1..j.value])))
    else js.undefined
  }
}

/**
 * The request limiter: one window per organisation, counting the requests of one
 * clock minute, and a cache of each organisation's limit.
 */
module RateLimits {
  import opened Options
  import opened Sequences

  type Org = string

  datatype Window = Window(minute: nat, count: nat)

  datatype Cached = Cached(rpm: int, exp: int)

  /** Requests per minute of a plan; 0 is unlimited. */
  function RpmForPlan(plan: string): nat {
    match plan
    case "free" => 240
    case "pro" => 600
    case "team" => 2000
    case _ => 0
  }

  const CACHE_SEC := 30

  predicate Holds(c: Option<Cached>, now: int) {
    c.Some? && c.value.exp > now
  }

  /** The window after one more request in `minute`: another minute starts it afresh. */
  function Counted(w: Option<Window>, minute: nat): Window {
    if w == None || w.value.minute != minute then Window(minute, 1)
    else w.value.(count := w.value.count + 1)
  }

  function Lookup<K, V>(m: map<K, V>, k: K): Option<V> {
    if k in m then Some(m[k]) else None
  }

  /** A request: its organisation, the second it was counted in and the limit it was held to. */
  datatype Call = Call(org: Org, now: nat, limit: int) {
    function Minute(): nat { now / 60 }
    predicate Limited() { limit > 0 }
  }

  /** The windows after a history of requests. */
  function Windows(h: seq<Call>): map<Org, Window> {
    if h == [] then map[] else Charged(Windows(h[..|h| - 1]), h[|h| - 1])
  }

  function Charged(win: map<Org, Window>, c: Call): map<Org, Window> {
    if c.Limited() then win[c.org := Counted(Lookup(win, c.org), c.Minute())] else win
  }

  predicate Admitted(win: map<Org, Window>, c: Call) {
    c.Limited() ==> Counted(Lookup(win, c.org), c.Minute()).count <= c.limit
  }

  /** The limiter itself, with the history of its requests. */
  class RateLimiter {
    var win: map<Org, Window>
    var plan: map<Org, Cached>
    ghost var calls: seq<Call>

    ghost predicate Valid()
      reads this
    {
      win == Windows(calls)
    }

    constructor ()
      ensures Valid() && calls == [] && plan == map[]
    {
      win, plan, calls := map[], map[], [];
    }

    /** The limit in force: a cached one while it holds, or else what the plan gives now. */
    method Rpm(org: Org, now: int, current: string) returns (r: int)
      modifies this`plan
      ensures org in old(plan) && old(plan)[org].exp > now ==> r == old(plan)[org].rpm && plan == old(plan)
      ensures org !in old(plan) || old(plan)[org].exp <= now ==>
                r == RpmForPlan(current) && plan == old(plan)[org := Cached(r, now + 30)]
    {
      if org in plan && plan[org].exp > now {
        return plan[org].rpm;
      }
      r := RpmForPlan(current);
      plan := plan[org := Cached(r, now + CACHE_SEC)];
    }

    /** `now` is read to find the limit, `later` to find the minute. */
    method Allow(org: Org, now: int, later: nat, current: string) returns (ok: bool)
      requires Valid()
      modifies this
      ensures Valid()
      ensures |calls| == |old(calls)| + 1 && calls[..|old(calls)|] == old(calls)
      ensures var c := calls[|old(calls)|];
              && c.org == org && c.now == later
              && c.limit == (if Holds(Lookup(old(plan), org), now) then old(plan)[org].rpm else RpmForPlan(current))
              && ok == Admitted(old(win), c)
    {
      var limit := Rpm(org, now, current);
      calls := calls + [Call(org, later, limit)];
      if limit <= 0 {
        return true;
      }
      var m := later / 60;
      var w := if org in win && win[org].minute == m then win[org] else Window(m, 0);
      w := w.(count := w.count + 1);
      win := win[org := w];
      return w.count <= limit;
    }
  }

  // ---------- one organisation: the minutes of its requests ----------

  /** The minutes in which an organisation's limited requests were counted, in order. */
  function Minutes(h: seq<Call>, org: Org): seq<nat> {
    if h == [] then []
    else
      var c := h[|h| - 1];
      Minutes(h[..|h| - 1], org) + if c.org == org && c.Limited() then [c.Minute()] else []
  }

  /** How many of the last entries are the same. */
  function Streak(ms: seq<nat>): nat {
    if ms == [] then 0
    else if |ms| > 1 && ms[|ms| - 2] == ms[|ms| - 1] then 1 + Streak(ms[..|ms| - 1])
    else 1
  }

  /** An organisation's window depends on its own requests only, and counts the current streak. */
  lemma {:induction false} WindowIsStreak(h: seq<Call>, org: Org)
    ensures var ms := Minutes(h, org);
            Lookup(Windows(h), org) == if ms == [] then None else Some(Window(ms[|ms| - 1], Streak(ms)))
    decreases |h|
  {
    if h != [] {
      var c := h[|h| - 1];
      var ms := Minutes(h[..|h| - 1], org);
      WindowIsStreak(h[..|h| - 1], org);
      if c.org == org && c.Limited() {
        InitOfSnoc(ms, c.Minute());
      } else {
        AppendEmpty(ms);
      }
    }
  }

  /**
   * A request passes exactly when its organisation is unlimited, or the requests counted
   * in an unbroken streak of its minute, itself included, are within its limit.
   */
  lemma AdmittedIff(h: seq<Call>, c: Call)
    ensures Admitted(Windows(h), c) <==> c.limit <= 0 || Streak(Minutes(h + [c], c.org)) <= c.limit
  {
    InitOfSnoc(h, c);
    WindowIsStreak(h, c.org);
    WindowIsStreak(h + [c], c.org);
  }

  /** Requests of other organisations are as if they had not been made. */
  lemma OrgsDoNotInterfere(h: seq<Call>, org: Org)
    ensures Minutes(h, org) == Minutes(Of(h, org), org)
    ensures Lookup(Windows(h), org) == Lookup(Windows(Of(h, org)), org)
    decreases |h|
  {
    OwnMinutes(h, org);
    WindowIsStreak(h, org);
    WindowIsStreak(Of(h, org), org);
  }

  function Of(h: seq<Call>, org: Org): seq<Call> {
    if h == [] then []
    else Of(h[..|h| - 1], org) + if h[|h| - 1].org == org then [h[|h| - 1]] else []
  }

  lemma {:induction false} OwnMinutes(h: seq<Call>, org: Org)
    ensures Minutes(h, org) == Minutes(Of(h, org), org)
    decreases |h|
  {
    if h != [] {
      var own := Of(h[..|h| - 1], org);
      OwnMinutes(h[..|h| - 1], org);
      InitOfSnoc(own, h[|h| - 1]);
      AppendEmpty(own);
    }
  }

  // ---------- a constant limit ----------

  function Uses(ms: seq<nat>, m: nat): nat {
    if ms == [] then 0 else Uses(ms[..|ms| - 1], m) + if ms[|ms| - 1] == m then 1 else 0
  }

  /** How many of the requests counted in minute `m` pass under the limit `r`. */
  function Passed(ms: seq<nat>, r: nat, m: nat): nat {
    if ms == [] then 0
    else Passed(ms[..|ms| - 1], r, m) + if ms[|ms| - 1] == m && Streak(ms) <= r then 1 else 0
  }

  function Min(a: nat, b: nat): nat {
    if a <= b then a else b
  }

  /** No minute comes back once another one was counted. */
  ghost predicate NoReturn(ms: seq<nat>) {
    forall i, j, k :: 0 <= i < j < k < |ms| && ms[i] == ms[k] ==> ms[j] == ms[i]
  }

  ghost predicate Monotone(ms: seq<nat>) {
    forall i, j :: 0 <= i < j < |ms| ==> ms[i] <= ms[j]
  }

  lemma {:induction false} UsesFound(ms: seq<nat>, m: nat) returns (i: nat)
    requires Uses(ms, m) > 0
    ensures i < |ms| && ms[i] == m
    decreases |ms|
  {
    if ms[|ms| - 1] == m {
      i := |ms| - 1;
    } else {
      i := UsesFound(ms[..|ms| - 1], m);
    }
  }

  /** While no minute comes back, the streak holds all the uses of its minute. */
  lemma {:induction false} StreakIsUses(ms: seq<nat>)
    requires NoReturn(ms) && ms != []
    ensures Streak(ms) == Uses(ms, ms[|ms| - 1])
    decreases |ms|
  {
    var n := |ms| - 1;
    var rest := ms[..n];
    assert forall i :: 0 <= i < n ==> rest[i] == ms[i];
    if n > 0 && ms[n - 1] == ms[n] {
      StreakIsUses(rest);
    } else if Uses(rest, ms[n]) > 0 {
      var i := UsesFound(rest, ms[n]);
      assert false;
    }
  }

  lemma {:induction false} NoReturnPassesTheLimit(ms: seq<nat>, r: nat, m: nat)
    requires NoReturn(ms)
    ensures Passed(ms, r, m) == Min(r, Uses(ms, m))
    decreases |ms|
  {
    if ms != [] {
      var rest := ms[..|ms| - 1];
      assert forall i :: 0 <= i < |rest| ==> rest[i] == ms[i];
      NoReturnPassesTheLimit(rest, r, m);
      StreakIsUses(ms);
    }
  }

  lemma {:induction false} SomePass(ms: seq<nat>, m: nat, i: nat)
    requires i < |ms| && ms[i] == m
    ensures Passed(ms, 1, m) >= 1
    decreases |ms|
  {
    var n := |ms| - 1;
    if i < n {
      SomePass(ms[..n], m, i);
    } else if n > 0 && ms[n - 1] == m {
      SomePass(ms[..n], m, n - 1);
    }
  }

  /** A minute that comes back is granted its limit a second time. */
  lemma {:induction false} ReturnPassesAgain(ms: seq<nat>, i: nat, j: nat, k: nat)
    requires i < j < k < |ms| && ms[i] == ms[k] && ms[j] != ms[i]
    ensures Passed(ms, 1, ms[i]) >= 2
    decreases |ms|
  {
    var n := |ms| - 1;
    if k < n {
      ReturnPassesAgain(ms[..n], i, j, k);
    } else if ms[n - 1] == ms[n] {
      ReturnPassesAgain(ms[..n], i, j, n - 1);
    } else {
      SomePass(ms[..n], ms[i], i);
    }
  }

  /**
   * Whatever the limit, exactly so many requests of each minute pass as it allows,
   * if and only if the minute read before the lock never goes back to an earlier one.
   */
  lemma LimitIsExactIff(ms: seq<nat>)
    ensures (forall r: nat, m: nat :: r > 0 ==> Passed(ms, r, m) == Min(r, Uses(ms, m))) <==> NoReturn(ms)
  {
    if NoReturn(ms) {
      forall r: nat, m: nat | r > 0 ensures Passed(ms, r, m) == Min(r, Uses(ms, m)) {
        NoReturnPassesTheLimit(ms, r, m);
      }
    } else {
      var i, j, k :| 0 <= i < j < k < |ms| && ms[i] == ms[k] && ms[j] != ms[i];
      ReturnPassesAgain(ms, i, j, k);
      assert Passed(ms, 1, ms[i]) != Min(1, Uses(ms, ms[i]));
    }
  }

  // ---------- whole histories under a monotone clock ----------

  ghost predicate ClockIsMonotone(h: seq<Call>) {
    forall i, j :: 0 <= i < j < |h| ==> h[i].now <= h[j].now
  }

  ghost predicate HeldTo(h: seq<Call>, org: Org, r: nat) {
    forall i :: 0 <= i < |h| && h[i].org == org ==> h[i].limit == r
  }

  /** The requests of `org` that pass, of those counted at `from` or later and before `to`. */
  function PassedIn(h: seq<Call>, org: Org, from: int, to: int): nat {
    if h == [] then 0
    else
      var c, before := h[|h| - 1], h[..|h| - 1];
      PassedIn(before, org, from, to)
      + if c.org == org && from <= c.now < to && Admitted(Windows(before), c) then 1 else 0
  }

  function CallsIn(h: seq<Call>, org: Org, from: int, to: int): nat {
    if h == [] then 0
    else
      var c := h[|h| - 1];
      CallsIn(h[..|h| - 1], org, from, to) + if c.org == org && from <= c.now < to then 1 else 0
  }

  lemma {:induction false} MinutesMonotone(h: seq<Call>, org: Org)
    requires ClockIsMonotone(h)
    ensures Monotone(Minutes(h, org))
    ensures h != [] ==> forall i :: 0 <= i < |Minutes(h, org)| ==> Minutes(h, org)[i] <= h[|h| - 1].Minute()
    decreases |h|
  {
    if |h| > 0 {
      var before := h[..|h| - 1];
      MinutesMonotone(before, org);
      assert |before| > 0 ==> before[|before| - 1].now <= h[|h| - 1].now;
    }
  }

  lemma {:induction false} SameMinute(h: seq<Call>, org: Org, r: nat, m: nat)
    requires r > 0 && HeldTo(h, org, r)
    ensures CallsIn(h, org, 60 * m, 60 * m + 60) == Uses(Minutes(h, org), m)
    ensures PassedIn(h, org, 60 * m, 60 * m + 60) == Passed(Minutes(h, org), r, m)
    decreases |h|
  {
    if h != [] {
      var c, before := h[|h| - 1], h[..|h| - 1];
      assert before + [c] == h;
      SameMinute(before, org, r, m);
      AdmittedIff(before, c);
      if c.org == org {
        InitOfSnoc(Minutes(before, org), c.Minute());
      } else {
        AppendEmpty(Minutes(before, org));
      }
    }
  }

  /** In every clock minute, exactly the smaller of the limit and the requests made passes. */
  lemma MinuteIsExact(h: seq<Call>, org: Org, r: nat, m: nat)
    requires ClockIsMonotone(h) && r > 0 && HeldTo(h, org, r)
    ensures PassedIn(h, org, 60 * m, 60 * m + 60) == Min(r, CallsIn(h, org, 60 * m, 60 * m + 60))
  {
    SameMinute(h, org, r, m);
    MinutesMonotone(h, org);
    NoReturnPassesTheLimit(Minutes(h, org), r, m);
  }

  lemma {:induction false} UnlimitedPass(h: seq<Call>, org: Org, from: int, to: int)
    requires HeldTo(h, org, 0)
    ensures PassedIn(h, org, from, to) == CallsIn(h, org, from, to)
    decreases |h|
  {
    if h != [] {
      UnlimitedPass(h[..|h| - 1], org, from, to);
    }
  }

  /** What passes in a clock minute on each plan. */
  lemma MinuteOnPlan(h: seq<Call>, org: Org, plan: string, m: nat)
    requires ClockIsMonotone(h) && HeldTo(h, org, RpmForPlan(plan))
    ensures var passed := PassedIn(h, org, 60 * m, 60 * m + 60);
            var calls := CallsIn(h, org, 60 * m, 60 * m + 60);
            && (plan == "free" ==> passed == Min(240, calls))
            && (plan == "pro" ==> passed == Min(600, calls))
            && (plan == "team" ==> passed == Min(2000, calls))
            && (plan != "free" && plan != "pro" && plan != "team" ==> passed == calls)
  {
    if RpmForPlan(plan) > 0 {
      MinuteIsExact(h, org, RpmForPlan(plan), m);
    } else {
      UnlimitedPass(h, org, 60 * m, 60 * m + 60);
    }
  }

  lemma {:induction false} PassedSplits(h: seq<Call>, org: Org, from: int, mid: int, to: int, first: int, last: int)
    requires first <= from <= mid <= to <= last
    ensures PassedIn(h, org, from, to) <= PassedIn(h, org, first, mid) + PassedIn(h, org, mid, last)
    decreases |h|
  {
    if h != [] {
      PassedSplits(h[..|h| - 1], org, from, mid, to, first, last);
    }
  }

  /** In any sixty seconds, wherever they start, at most twice the limit passes. */
  lemma AnySixtySeconds(h: seq<Call>, org: Org, r: nat, t: nat)
    requires ClockIsMonotone(h) && r > 0 && HeldTo(h, org, r)
    ensures PassedIn(h, org, t, t + 60) <= 2 * r
  {
    var m := t / 60;
    PassedSplits(h, org, t, 60 * m + 60, t + 60, 60 * m, 60 * m + 120);
    MinuteIsExact(h, org, r, m);
    MinuteIsExact(h, org, r, m + 1);
  }

  // ---------- how old a limit can be ----------

  /** A request that found no cached limit: when it looked, and what the plan has given since. */
  datatype Ask = Ask(start: int, got: Option<int>)

  /** A limit that was applied: at `at`, to a request that asked for it at `start`. */
  datatype Use = Use(limit: int, start: int, at: int)

  /** One organisation's cache, the requests between their two locked steps, and the limits applied. */
  datatype Cache = Cache(now: int, entry: Option<Cached>, asks: seq<Ask>, uses: seq<Use>)

  datatype Move =
    | Tick(to: int)
    | Look
    | ReadPlan(k: nat)
    | Store(k: nat)

  /** `plan(t)` is the limit of the organisation's plan at time `t`. */
  function Moved(plan: int -> int, c: Cache, m: Move): Cache {
    match m
    case Tick(to) => if to >= c.now then c.(now := to) else c
    case Look =>
      if Holds(c.entry, c.now) then c.(uses := c.uses + [Use(c.entry.value.rpm, c.now, c.now)])
      else c.(asks := c.asks + [Ask(c.now, None)])
    case ReadPlan(k) =>
      if k < |c.asks| && c.asks[k].got == None then c.(asks := c.asks[k := c.asks[k].(got := Some(plan(c.now)))]) else c
    case Store(k) =>
      if k < |c.asks| && c.asks[k].got.Some? then
        var a := c.asks[k];
        c.(entry := Some(Cached(a.got.value, a.start + CACHE_SEC)),
           asks := c.asks[..k] + c.asks[k + 1..],
           uses := c.uses + [Use(a.got.value, a.start, c.now)])
      else c
  }

  function Ran(plan: int -> int, c: Cache, ms: seq<Move>): Cache {
    if ms == [] then c else Moved(plan, Ran(plan, c, ms[..|ms| - 1]), ms[|ms| - 1])
  }

  ghost predicate GivenWithin(plan: int -> int, limit: int, from: int, to: int) {
    exists s :: from <= s <= to && plan(s) == limit
  }

  /** Everything the cache knows was given by the plan, at a time the entry's expiry still tells. */
  ghost predicate Sourced(plan: int -> int, c: Cache) {
    && (c.entry.Some? ==> GivenWithin(plan, c.entry.value.rpm, c.entry.value.exp - CACHE_SEC, c.now))
    && (forall k :: 0 <= k < |c.asks| ==> AskSourced(plan, c.asks[k], c.now))
    && (forall k :: 0 <= k < |c.uses| ==> UseSourced(plan, c.uses[k]) && c.uses[k].at <= c.now)
  }

  ghost predicate AskSourced(plan: int -> int, a: Ask, now: int) {
    a.start <= now && (a.got.Some? ==> GivenWithin(plan, a.got.value, a.start, now))
  }

  /** The limit was given less than thirty seconds before the request asked for it, or later. */
  ghost predicate UseSourced(plan: int -> int, u: Use) {
    GivenWithin(plan, u.limit, u.start - 29, u.at)
  }

  lemma MoveKeepsSourced(plan: int -> int, c: Cache, m: Move)
    requires Sourced(plan, c)
    ensures Sourced(plan, Moved(plan, c, m))
  {
    var d := Moved(plan, c, m);
    forall k | 0 <= k < |d.asks| ensures AskSourced(plan, d.asks[k], d.now) {
      if m.Store? && d != c {
        assert d.asks[k] == c.asks[if k < m.k then k else k + 1];
      }
    }
    if m.Store? && d != c {
      assert AskSourced(plan, c.asks[m.k], c.now);
    }
  }

  /**
   * However requests interleave between looking at the cache, asking the plan and storing
   * the answer, every limit applied is one the plan gave in the thirty seconds before the
   * request began, or while it was being served.
   */
  lemma {:induction false} LimitsAreFresh(plan: int -> int, t: int, ms: seq<Move>)
    ensures Sourced(plan, Ran(plan, Cache(t, None, [], []), ms))
    decreases |ms|
  {
    if ms != [] {
      LimitsAreFresh(plan, t, ms[..|ms| - 1]);
      MoveKeepsSourced(plan, Ran(plan, Cache(t, None, [], []), ms[..|ms| - 1]), ms[|ms| - 1]);
    }
  }

  /** The moves of one request that nothing interleaves with. */
  function CallMoves(c: Cache): seq<Move> {
    if Holds(c.entry, c.now) then [Look] else [Look, ReadPlan(|c.asks|), Store(|c.asks|)]
  }

  lemma RanOne(plan: int -> int, c: Cache, a: Move)
    ensures Ran(plan, c, [a]) == Moved(plan, c, a)
  {
    assert [a][..0] == [];
  }

  lemma RanThree(plan: int -> int, c: Cache, x: Move, y: Move, z: Move)
    ensures Ran(plan, c, [x, y, z]) == Moved(plan, Moved(plan, Moved(plan, c, x), y), z)
  {
    assert [x, y, z][..2] == [x, y] && [x, y][..1] == [x];
    RanOne(plan, c, x);
    assert Ran(plan, c, [x, y]) == Moved(plan, Moved(plan, c, x), y);
  }

  lemma MissMoves(plan: int -> int, c: Cache)
    requires !Holds(c.entry, c.now)
    ensures var n, r := |c.asks|, plan(c.now);
            Moved(plan, Moved(plan, Moved(plan, c, Look), ReadPlan(n)), Store(n))
            == Cache(c.now, Some(Cached(r, c.now + CACHE_SEC)), c.asks, c.uses + [Use(r, c.now, c.now)])
  {
    var n := |c.asks|;
    var c2 := Moved(plan, Moved(plan, c, Look), ReadPlan(n));
    assert c2.asks == c.asks + [Ask(c.now, Some(plan(c.now)))];
    assert c2.asks[..n] + c2.asks[n + 1..] == c.asks;
  }

  /** One call of `Rpm` does to its organisation's entry, and applies, what these moves do. */
  lemma RpmIsMoves(plan: int -> int, c: Cache, current: string)
    requires plan(c.now) == RpmForPlan(current)
    ensures var d := Ran(plan, c, CallMoves(c));
            var r := if Holds(c.entry, c.now) then c.entry.value.rpm else RpmForPlan(current);
            && d.entry == (if Holds(c.entry, c.now) then c.entry else Some(Cached(r, c.now + CACHE_SEC)))
            && d.uses == c.uses + [Use(r, c.now, c.now)] && d.asks == c.asks && d.now == c.now
  {
    if Holds(c.entry, c.now) {
      RanOne(plan, c, Look);
    } else {
      RanThree(plan, c, Look, ReadPlan(|c.asks|), Store(|c.asks|));
      MissMoves(plan, c);
    }
  }
}

/**
 * The hub of outgoing channels, one per organisation with an open stream. Channels
 * are named by numbers, in the order they are made; closing one twice would panic,
 * so the number of closes is part of a channel.
 */
module Hubs {
  const CAPACITY := 16

  datatype Channel<E> = Channel(buffer: seq<E>, accepted: seq<E>, delivered: seq<E>, closes: nat) {
    predicate Open() {
      closes == 0
    }
  }

  /** `byOrg` names the channel registered for an organisation; `next` is the next name. */
  datatype State<E> = State(byOrg: map<string, nat>, channels: map<nat, Channel<E>>, next: nat)

  function Close<E>(channels: map<nat, Channel<E>>, id: nat): map<nat, Channel<E>>
    requires id in channels
  {
    channels[id := channels[id].(closes := channels[id].closes + 1)]
  }

  function Registered<E>(s: State<E>, org: string): State<E>
    requires org in s.byOrg ==> s.byOrg[org] in s.channels
  {
    var channels := if org in s.byOrg then Close(s.channels, s.byOrg[org]) else s.channels;
    State(s.byOrg[org := s.next], channels[s.next := Channel([], [], [], 0)], s.next + 1)
  }

  function Unregistered<E>(s: State<E>, org: string, out: nat): State<E>
    requires out in s.channels
  {
    if org in s.byOrg && s.byOrg[org] == out
    then s.(byOrg := s.byOrg - {org}, channels := Close(s.channels, out))
    else s
  }

  /** A send is taken if the organisation has a channel with room in it. */
  predicate Takes<E>(s: State<E>, org: string) {
    org in s.byOrg && s.byOrg[org] in s.channels && |s.channels[s.byOrg[org]].buffer| < CAPACITY
  }

  function Sent<E>(s: State<E>, org: string, e: E): State<E> {
    if Takes(s, org) then
      var c := s.channels[s.byOrg[org]];
      s.(channels := s.channels[s.byOrg[org] := c.(buffer := c.buffer + [e], accepted := c.accepted + [e])])
    else s
  }

  /** The stream's writer takes the oldest message, also from a channel already closed. */
  function Taken<E>(s: State<E>, id: nat): State<E> {
    if id in s.channels && s.channels[id].buffer != [] then
      var c := s.channels[id];
      s.(channels := s.channels[id := c.(buffer := c.buffer[1..], delivered := c.delivered + [c.buffer[0]])])
    else s
  }

  ghost predicate Valid<E>(s: State<E>) {
    && (forall org :: org in s.byOrg ==> s.byOrg[org] in s.channels && s.channels[s.byOrg[org]].Open())
    && (forall o1, o2 :: o1 in s.byOrg && o2 in s.byOrg && s.byOrg[o1] == s.byOrg[o2] ==> o1 == o2)
    && (forall id :: id in s.channels ==>
          && id < s.next
          && s.channels[id].closes <= 1
          && (s.channels[id].Open() ==> exists org :: org in s.byOrg && s.byOrg[org] == id)
          && s.channels[id].accepted == s.channels[id].delivered + s.channels[id].buffer)
  }

  datatype Op<E> =
    | OpenStream(org: string)
    | CloseStream(org: string, out: nat) // deferred by a stream, however late
    | Send(org: string, envelope: E)
    | Write(out: nat)

  predicate CanRun<E>(s: State<E>, op: Op<E>) {
    match op
    case OpenStream(org) => org in s.byOrg ==> s.byOrg[org] in s.channels
    case CloseStream(_, out) => out in s.channels
    case _ => true
  }

  function Run<E>(s: State<E>, op: Op<E>): State<E>
    requires CanRun(s, op)
  {
    match op
    case OpenStream(org) => Registered(s, org)
    case CloseStream(org, out) => Unregistered(s, org, out)
    case Send(org, e) => Sent(s, org, e)
    case Write(out) => Taken(s, out)
  }

  predicate CanRunAll<E>(s: State<E>, ops: seq<Op<E>>)
    decreases |ops|
  {
    ops == [] || (CanRun(s, ops[0]) && CanRunAll(Run(s, ops[0]), ops[1..]))
  }

  function RunAll<E>(s: State<E>, ops: seq<Op<E>>): State<E>
    requires CanRunAll(s, ops)
    decreases |ops|
  {
    if ops == [] then s else RunAll(Run(s, ops[0]), ops[1..])
  }

  lemma RunKeepsValid<E>(s: State<E>, op: Op<E>)
    requires Valid(s) && CanRun(s, op)
    ensures Valid(Run(s, op))
  {
    var s' := Run(s, op);
    match op {
      case OpenStream(org) => OpenKeepsValid(s, org);
      case CloseStream(org, out) => CloseKeepsValid(s, org, out);
      case Send(org, e) =>
        forall id | id in s'.channels && s'.channels[id].Open() ensures exists o :: o in s'.byOrg && s'.byOrg[o] == id {
          assert id in s.channels && s.channels[id].Open();
        }
      case Write(_) =>
        forall id | id in s'.channels && s'.channels[id].Open() ensures exists o :: o in s'.byOrg && s'.byOrg[o] == id {
          assert id in s.channels && s.channels[id].Open();
        }
    }
  }

  lemma OpenKeepsValid<E>(s: State<E>, org: string)
    requires Valid(s)
    ensures Valid(Registered(s, org))
  {
    var s' := Registered(s, org);
    forall id | id in s'.channels && s'.channels[id].Open() ensures exists o :: o in s'.byOrg && s'.byOrg[o] == id {
      if id == s.next {
        assert s'.byOrg[org] == id;
      } else {
        var o :| o in s.byOrg && s.byOrg[o] == id;
        assert o != org && s'.byOrg[o] == id;
      }
    }
  }

  lemma CloseKeepsValid<E>(s: State<E>, org: string, out: nat)
    requires Valid(s) && out in s.channels
    ensures Valid(Unregistered(s, org, out))
  {
    var s' := Unregistered(s, org, out);
    forall id | id in s'.channels && s'.channels[id].Open() ensures exists o :: o in s'.byOrg && s'.byOrg[o] == id {
      var o :| o in s.byOrg && s.byOrg[o] == id;
      assert o in s'.byOrg;
    }
  }

  function EmptyHub<E>(): State<E> {
    State(map[], map[], 0)
  }

  lemma {:induction false} RunAllKeepsValid<E>(s: State<E>, ops: seq<Op<E>>)
    requires Valid(s) && CanRunAll(s, ops)
    ensures Valid(RunAll(s, ops))
    decreases |ops|
  {
    if ops != [] {
      RunKeepsValid(s, ops[0]);
      RunAllKeepsValid(Run(s, ops[0]), ops[1..]);
    }
  }

  ghost predicate WithinCapacity<E>(s: State<E>) {
    forall id :: id in s.channels ==> |s.channels[id].buffer| <= CAPACITY
  }

  lemma {:induction false} RunAllKeepsCapacity<E>(s: State<E>, ops: seq<Op<E>>)
    requires WithinCapacity(s) && CanRunAll(s, ops)
    ensures WithinCapacity(RunAll(s, ops))
    decreases |ops|
  {
    if ops != [] {
      RunAllKeepsCapacity(Run(s, ops[0]), ops[1..]);
    }
  }

  /**
   * A send adds its message, once and last, to the channel registered for the organisation
   * and to no other, exactly if fewer than sixteen messages wait there.
   */
  lemma SendIsTakenIff<E>(s: State<E>, org: string, e: E, id: nat)
    requires Valid(s) && id in s.channels
    ensures var s' := Sent(s, org, e);
            var c := s.channels[id];
            && s'.byOrg == s.byOrg && s'.channels.Keys == s.channels.Keys
            && s'.channels[id].delivered == c.delivered && s'.channels[id].closes == c.closes
            && s'.channels[id].accepted
               == c.accepted + if org in s.byOrg && s.byOrg[org] == id && |c.accepted| < |c.delivered| + 16
                               then [e] else []
  {
    assert |s.channels[id].accepted| == |s.channels[id].delivered| + |s.channels[id].buffer|;
  }

  /**
   * Over every interleaving of streams opening, closing, sending and writing, a
   * channel is open exactly when it is the registered one of some organisation, none
   * is closed twice, and what was accepted is what was delivered followed by what
   * waits, in order, sixteen messages at most.
   */
  lemma ChannelsHaveOneOwner<E>(ops: seq<Op<E>>, id: nat)
    requires CanRunAll(EmptyHub(), ops) && id in RunAll(EmptyHub(), ops).channels
    ensures var s := RunAll(EmptyHub(), ops);
            var c := s.channels[id];
            && (c.Open() <==> exists org :: org in s.byOrg && s.byOrg[org] == id)
            && c.closes <= 1
            && c.delivered + c.buffer == c.accepted
            && |c.buffer| <= 16
  {
    RunAllKeepsCapacity(EmptyHub<E>(), ops);
    RunAllKeepsValid(EmptyHub(), ops);
  }

  /** The operation neither opens a stream of `org` nor closes the one that owns `out`. */
  predicate Spares<E>(op: Op<E>, org: string, out: nat) {
    op != OpenStream(org) && op != CloseStream(org, out)
  }

  /**
   * Once registered, a channel stays the registered and open one of its organisation
   * until a newer stream opens or its own stream ends: in particular through the late
   * close of any older stream.
   */
  lemma {:induction false} OnlyItsOwnStreamEndsIt<E>(s: State<E>, ops: seq<Op<E>>, org: string, out: nat)
    requires Valid(s) && CanRunAll(s, ops)
    requires org in s.byOrg && s.byOrg[org] == out
    requires forall op :: op in ops ==> Spares(op, org, out)
    ensures var s' := RunAll(s, ops);
            org in s'.byOrg && s'.byOrg[org] == out && out in s'.channels && s'.channels[out].Open()
    decreases |ops|
  {
    if ops != [] {
      assert ops[0] in ops;
      RunKeepsValid(s, ops[0]);
      OnlyItsOwnStreamEndsIt(Run(s, ops[0]), ops[1..], org, out);
    }
  }

  /** The hub as the server holds it. */
  class Hub<E> {
    var byOrg: map<string, nat>
    var channels: map<nat, Channel<E>>
    var next: nat

    ghost function View(): State<E>
      reads this
    {
      State(byOrg, channels, next)
    }

    constructor ()
      ensures View() == EmptyHub() && Valid(View())
    {
      byOrg := map[];
      channels := map[];
      next := 0;
    }

    /** `close`: panics on a channel already closed. */
    method CloseChannel(id: nat)
      requires id in channels && channels[id].Open()
      modifies this`channels
      ensures channels == Close(old(channels), id)
    {
      channels := channels[id := channels[id].(closes := channels[id].closes + 1)];
    }

    method Register(org: string) returns (out: nat)
      requires Valid(View())
      modifies this
      ensures View() == Registered(old(View()), org) && Valid(View())
      ensures out !in old(channels) && byOrg[org] == out
    {
      ghost var before := View();
      out := next;
      if org in byOrg {
        CloseChannel(byOrg[org]);
      }
      channels := channels[out := Channel([], [], [], 0)];
      byOrg := byOrg[org := out];
      next := next + 1;
      OpenKeepsValid(before, org);
    }

    method Unregister(org: string, out: nat)
      requires Valid(View()) && out in channels
      modifies this
      ensures View() == Unregistered(old(View()), org, out) && Valid(View())
    {
      ghost var before := View();
      if org in byOrg && byOrg[org] == out {
        byOrg := byOrg - {org};
        CloseChannel(out);
      }
      CloseKeepsValid(before, org, out);
    }

    /** False: no stream for the organisation, or no room in its channel. */
    method Push(org: string, envelope: E) returns (ok: bool)
      requires Valid(View())
      modifies this`channels
      ensures ok == Takes(old(View()), org)
      ensures View() == Sent(old(View()), org, envelope) && Valid(View())
    {
      RunKeepsValid(View(), Send(org, envelope));
      if org !in byOrg {
        return false;
      }
      var c := channels[byOrg[org]];
      if |c.buffer| < CAPACITY {
        channels := channels[byOrg[org] := c.(buffer := c.buffer + [envelope], accepted := c.accepted + [envelope])];
        return true;
      }
      return false;
    }
  }
}

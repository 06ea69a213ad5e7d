/**
 * Subscription bookkeeping of the Redis service over FIFO subscriber connections: overlapping
 * `subscribe` and `unsubscribe` calls, lost connections, and the resubscription after each.
 */
module Subscriptions {
  import opened Prelude
  import Backoff

  /** Callbacks are compared only for identity. */
  type Callback = nat

  datatype Command = Sub(channel: string, callback: Callback) | Unsub(channel: string)

  type Bindings = map<string, Callback>

  function Effect(b: Bindings, c: Command): Bindings {
    match c
    case Sub(channel, callback) => b[channel := callback]
    case Unsub(channel) => b - {channel}
  }

  function Replay(b: Bindings, cs: seq<Command>): Bindings {
    if cs == [] then b else Effect(Replay(b, cs[..|cs| - 1]), cs[|cs| - 1])
  }

  lemma {:induction false} ReplayConcat(b: Bindings, x: seq<Command>, y: seq<Command>)
    ensures Replay(b, x + y) == Replay(Replay(b, x), y)
  {
    if y == [] {
      assert x + y == x;
    } else {
      assert (x + y)[..|x + y| - 1] == x + y[..|y| - 1];
      ReplayConcat(b, x, y[..|y| - 1]);
    }
  }

  /** The last command about a channel. */
  function LastFor(cs: seq<Command>, channel: string): Option<Command> {
    if cs == [] then None
    else if cs[|cs| - 1].channel == channel then Some(cs[|cs| - 1])
    else LastFor(cs[..|cs| - 1], channel)
  }

  /** Replaying binds a channel as its last command says, or leaves it as it was without one. */
  lemma {:induction false} ReplayIsLast(b: Bindings, cs: seq<Command>, channel: string)
    ensures match LastFor(cs, channel)
      case None => (channel in Replay(b, cs) <==> channel in b) && (channel in b ==> Replay(b, cs)[channel] == b[channel])
      case Some(Sub(_, callback)) => channel in Replay(b, cs) && Replay(b, cs)[channel] == callback
      case Some(Unsub(_)) => channel !in Replay(b, cs)
  {
    if cs != [] { ReplayIsLast(b, cs[..|cs| - 1], channel); }
  }

  /** What the connection delivers to: the listeners of each channel, in the order they were added. */
  type Listeners = map<string, seq<Callback>>

  /** Subscribing adds a listener to those there are; unsubscribing removes the channel. */
  function Hear(b: Listeners, c: Command): Listeners {
    match c
    case Sub(channel, callback) => b[channel := At(b, channel) + [callback]]
    case Unsub(channel) => b - {channel}
  }

  function Heard(b: Listeners, cs: seq<Command>): Listeners {
    if cs == [] then b else Hear(Heard(b, cs[..|cs| - 1]), cs[|cs| - 1])
  }

  /** What a new connection listens to once the channels in `bound` were subscribed again. */
  function Rebound(callbacks: Bindings, bound: set<string>): Listeners {
    map c | c in callbacks && c in bound :: [callbacks[c]]
  }

  /** The listeners of a channel: those there were and those added, since it was last unsubscribed. */
  function Since(start: seq<Callback>, cs: seq<Command>, channel: string): seq<Callback> {
    if cs == [] then start
    else
      var init, c := cs[..|cs| - 1], cs[|cs| - 1];
      if c.channel != channel then Since(start, init, channel)
      else match c case Sub(_, callback) => Since(start, init, channel) + [callback] case Unsub(_) => []
  }

  function Last(s: seq<Callback>): Option<Callback> {
    if s == [] then None else Some(s[|s| - 1])
  }

  lemma {:induction false} HeardIsSince(b: Listeners, cs: seq<Command>, channel: string)
    ensures At(Heard(b, cs), channel) == Since(At(b, channel), cs, channel)
  {
    if cs != [] { HeardIsSince(b, cs[..|cs| - 1], channel); }
  }

  /**
   * A connection on which only the channels in `bound` were subscribed again, and the service's own
   * bookkeeping, given the same commands: the channels are the same but for those that were not
   * bound and had no command since; the service's callback is the listener added last.
   */
  lemma {:induction false} HeardAgrees(callbacks: Bindings, bound: set<string>, cs: seq<Command>, channel: string)
    ensures channel in Heard(Rebound(callbacks, bound), cs) <==>
            channel in Replay(callbacks, cs) && (channel in bound || LastFor(cs, channel).Some?)
    ensures channel in Heard(Rebound(callbacks, bound), cs) ==>
            Last(Heard(Rebound(callbacks, bound), cs)[channel]) == Some(Replay(callbacks, cs)[channel])
  {
    ReplayIsLast(callbacks, cs, channel);
    if cs != [] { HeardAgrees(callbacks, bound, cs[..|cs| - 1], channel); }
  }

  /**
   * `active` and `callbacks` are the service's own set and map; `broker` the channels of the
   * connection with the listeners of each, while it is `open`; `sent` the commands on their way,
   * `acks` those carried out whose acknowledgements are on their way back. The history is that of
   * the current connection: `base` the callbacks when it was made, `bound` the channels then
   * subscribed again, `issued` and `done` its commands.
   */
  datatype State = State(
    active: set<string>, callbacks: Bindings, broker: Listeners, open: bool,
    sent: seq<Command>, acks: seq<Command>,
    base: Bindings, bound: set<string>, issued: seq<Command>, done: seq<Command>)

  const INITIAL := State({}, map[], map[], false, [], [], map[], {}, [], [])

  datatype Label =
    | Subscribe(channel: string, callback: Callback)
    | Unsubscribe(channel: string)
    | Process
    | Acknowledge
    | Connect(bound: set<string>)
    | Close

  /** A closed connection refuses the command; the call throws. */
  function Send(s: State, c: Command): State {
    if s.open then s.(sent := s.sent + [c], issued := s.issued + [c]) else s
  }

  /** What resuming after an acknowledgement does to the service. */
  function Resume(s: State, c: Command): State {
    match c
    case Sub(channel, callback) =>
      s.(active := s.active + {channel}, callbacks := s.callbacks[channel := callback])
    case Unsub(channel) =>
      s.(active := s.active - {channel}, callbacks := s.callbacks - {channel})
  }

  function Next(s: State, l: Label): State {
    match l
    case Subscribe(channel, callback) => Send(s, Sub(channel, callback))
    case Unsubscribe(channel) => if channel in s.active then Send(s, Unsub(channel)) else s
    case Process =>
      if s.sent == [] then s
      else s.(broker := Hear(s.broker, s.sent[0]), sent := s.sent[1..], acks := s.acks + [s.sent[0]])
    case Acknowledge =>
      if s.acks == [] then s
      else Resume(s, s.acks[0]).(acks := s.acks[1..], done := s.done + [s.acks[0]])
    case Connect(bound) =>
      if s.open then s
      else s.(open := true, broker := Rebound(s.callbacks, bound), base := s.callbacks, bound := bound)
    case Close => s.(open := false, broker := map[], sent := [], acks := [], issued := [], done := [])
  }

  /**
   * The whole effect of a label on one channel: a call issues its command on an open connection, an
   * `unsubscribe` only for an active channel; the connection follows a command when it is carried out,
   * and set and map follow it when it is acknowledged, in the order of issue.
   */
  lemma Effects(s: State, l: Label, channel: string)
    ensures var s' := Next(s, l);
      && (l.Subscribe? && s.open ==>
            s' == s.(sent := s.sent + [Sub(l.channel, l.callback)], issued := s.issued + [Sub(l.channel, l.callback)]))
      && (l.Unsubscribe? && s.open && l.channel in s.active ==>
            s' == s.(sent := s.sent + [Unsub(l.channel)], issued := s.issued + [Unsub(l.channel)]))
      && ((l.Subscribe? || l.Unsubscribe?) && !s.open ==> s' == s)
      && (l.Unsubscribe? && l.channel !in s.active ==> s' == s)
      && (l.Process? && s.sent != [] ==>
            && s' == s.(broker := s'.broker, sent := s.sent[1..], acks := s.acks + [s.sent[0]])
            && (channel != s.sent[0].channel ==> At(s'.broker, channel) == At(s.broker, channel))
            && (channel == s.sent[0].channel ==>
                  At(s'.broker, channel) == if s.sent[0].Sub? then At(s.broker, channel) + [s.sent[0].callback] else []))
      && (l.Acknowledge? && s.acks != [] ==>
            && s' == s.(active := s'.active, callbacks := s'.callbacks, acks := s.acks[1..], done := s.done + [s.acks[0]])
            && (channel != s.acks[0].channel ==> (channel in s'.active <==> channel in s.active))
            && (channel == s.acks[0].channel ==> (channel in s'.active <==> s.acks[0].Sub?))
            && (channel == s.acks[0].channel && s.acks[0].Sub? ==>
                  channel in s'.callbacks && s'.callbacks[channel] == s.acks[0].callback))
      && (l.Connect? && !s.open ==>
            && s'.open && s'.active == s.active && s'.callbacks == s.callbacks
            && (channel in s'.broker <==> channel in s.callbacks && channel in l.bound)
            && (channel in s'.broker ==> s'.broker[channel] == [s.callbacks[channel]]))
      && (l.Close? ==> !s'.open && s'.broker == map[] && s'.sent == s'.acks == [] && s'.callbacks == s.callbacks)
  {
  }

  function Run(s: State, trace: seq<Label>): State {
    if trace == [] then s else Next(Run(s, trace[..|trace| - 1]), trace[|trace| - 1])
  }

  ghost predicate Inv(s: State) {
    && s.active == s.callbacks.Keys
    && s.done + s.acks + s.sent == s.issued
    && if s.open then
         s.callbacks == Replay(s.base, s.done) && s.broker == Heard(Rebound(s.base, s.bound), s.done + s.acks)
       else s.issued == [] && s.broker == map[]
  }

  lemma ReplayLast(b: Bindings, cs: seq<Command>, c: Command)
    ensures Replay(b, cs + [c]) == Effect(Replay(b, cs), c)
  {
    assert (cs + [c])[..|cs|] == cs;
  }

  lemma HeardLast(b: Listeners, cs: seq<Command>, c: Command)
    ensures Heard(b, cs + [c]) == Hear(Heard(b, cs), c)
  {
    assert (cs + [c])[..|cs|] == cs;
  }

  lemma Shift(a: seq<Command>, b: seq<Command>, c: seq<Command>)
    requires c != []
    ensures a + (b + [c[0]]) == (a + b) + [c[0]]
    ensures (a + (b + [c[0]])) + c[1..] == (a + b) + c
    ensures (a + [c[0]]) + c[1..] == a + c
  {
    assert [c[0]] + c[1..] == c;
  }

  lemma SendKeepsInv(s: State, c: Command)
    requires Inv(s)
    ensures Inv(Send(s, c))
  {
    assert s.done + s.acks + (s.sent + [c]) == (s.done + s.acks + s.sent) + [c];
  }

  lemma ProcessKeepsInv(s: State)
    requires Inv(s) && s.sent != []
    ensures Inv(Next(s, Process))
  {
    var s' := Next(s, Process);
    HeardLast(Rebound(s.base, s.bound), s.done + s.acks, s.sent[0]);
    Shift(s.done, s.acks, s.sent);
    hide Replay, Heard, Hear;
  }

  lemma AcknowledgeKeepsInv(s: State)
    requires Inv(s) && s.acks != []
    ensures Inv(Next(s, Acknowledge))
  {
    var s' := Next(s, Acknowledge);
    ReplayLast(s.base, s.done, s.acks[0]);
    Shift(s.done, [], s.acks);
    hide Replay, Heard;
  }

  lemma ConnectionKeepsInv(s: State, l: Label)
    requires Inv(s) && (l.Connect? || l.Close?)
    ensures Inv(Next(s, l))
  {
  }

  lemma NextKeepsInv(s: State, l: Label)
    requires Inv(s)
    ensures Inv(Next(s, l))
  {
    hide Inv, Resume;
    match l
    case Subscribe(channel, callback) => SendKeepsInv(s, Sub(channel, callback));
    case Unsubscribe(channel) => SendKeepsInv(s, Unsub(channel));
    case Process => if s.sent != [] { ProcessKeepsInv(s); }
    case Acknowledge => if s.acks != [] { AcknowledgeKeepsInv(s); }
    case Connect(_) => ConnectionKeepsInv(s, l);
    case Close => ConnectionKeepsInv(s, l);
  }

  lemma {:induction false} RunKeepsInv(s: State, trace: seq<Label>)
    requires Inv(s)
    ensures Inv(Run(s, trace))
  {
    if trace != [] {
      RunKeepsInv(s, trace[..|trace| - 1]);
      NextKeepsInv(Run(s, trace[..|trace| - 1]), trace[|trace| - 1]);
    }
  }

  /** The last reconnect did not subscribe the channel again, and no command carried out since did. */
  predicate Missed(s: State, channel: string) {
    channel !in s.bound && LastFor(s.done + s.acks, channel).None?
  }

  /**
   * After every segment, over any connections, the active set is the key set of the callbacks. While
   * the connection is open, replaying the unacknowledged commands on them gives its channels but
   * for the missed ones, each with the listener added last, and replaying those still on their way
   * gives what the issued commands ask for. A closed connection has no channels.
   */
  lemma UnacknowledgedReplay(trace: seq<Label>, channel: string)
    ensures var s := Run(INITIAL, trace); var expected := Replay(s.callbacks, s.acks);
      && s.active == s.callbacks.Keys
      && (channel in s.broker <==> s.open && channel in expected && !Missed(s, channel))
      && (channel in s.broker ==> Last(s.broker[channel]) == Some(expected[channel]))
      && (s.open ==> Replay(expected, s.sent) == Replay(s.base, s.issued))
  {
    RunKeepsInv(INITIAL, trace);
    var s := Run(INITIAL, trace);
    ReplayConcat(s.base, s.done, s.acks);
    ReplayConcat(s.base, s.done + s.acks, s.sent);
    HeardAgrees(s.base, s.bound, s.done + s.acks, channel);
    hide Run, Replay, Heard, LastFor;
  }

  /**
   * At quiescence service and connection have the same channels but for the missed ones: those whose
   * last command was a subscription, or that were active before and had none. A channel's listeners
   * are the one it was bound with and all callbacks subscribed since, of which the service
   * remembers the last: nothing else is listening iff there was only one.
   */
  lemma QuiescentAgreement(trace: seq<Label>, channel: string)
    requires var s := Run(INITIAL, trace); s.open && s.sent == [] && s.acks == []
    ensures var s := Run(INITIAL, trace); var last := LastFor(s.issued, channel);
      && s.active == s.callbacks.Keys
      && (channel in s.broker <==> channel in s.active && !Missed(s, channel))
      && (channel in s.active <==> if last.None? then channel in s.base else last.value.Sub?)
      && (last.Some? && last.value.Sub? ==> s.callbacks[channel] == last.value.callback)
      && (channel in s.broker ==>
            && s.broker[channel] == Since(At(Rebound(s.base, s.bound), channel), s.issued, channel)
            && Last(s.broker[channel]) == Some(s.callbacks[channel])
            && (s.broker[channel] == [s.callbacks[channel]] <==> |s.broker[channel]| == 1))
  {
    RunKeepsInv(INITIAL, trace);
    var s := Run(INITIAL, trace);
    hide Run, Replay, Heard, Since, LastFor, Rebound;
    Settled(s);
    ReplayIsLast(s.base, s.issued, channel);
    HeardAgrees(s.base, s.bound, s.issued, channel);
    HeardIsSince(Rebound(s.base, s.bound), s.issued, channel);
    hide Inv;
  }

  lemma Settled(s: State)
    requires Inv(s) && s.open && s.sent == [] && s.acks == []
    ensures s.done + s.acks == s.done == s.issued
    ensures s.active == s.callbacks.Keys && s.callbacks == Replay(s.base, s.issued)
    ensures s.broker == Heard(Rebound(s.base, s.bound), s.issued)
  {
    assert s.done + s.acks == s.done && s.done + s.acks + s.sent == s.done;
    hide Replay, Heard, Rebound;
  }

  /** In the middle of resubscribing: what is not left to do is bound to its callback. */
  ghost predicate Partly(bound: Bindings, todo: set<string>, active: set<string>, callbacks: Bindings) {
    && todo <= active && bound.Keys == active - todo && |bound| + |todo| == |active|
    && forall c :: c in bound ==> c in callbacks && bound[c] == callbacks[c]
  }

  lemma BindOne(bound: Bindings, todo: set<string>, active: set<string>, callbacks: Bindings, channel: string)
    requires Partly(bound, todo, active, callbacks) && channel in todo && channel in callbacks
    ensures |bound[channel := callbacks[channel]]| == |bound| + 1 <= |active|
    ensures Partly(bound[channel := callbacks[channel]], todo - {channel}, active, callbacks)
  {
  }

  lemma PartlyEnds(bound: Bindings, todo: set<string>, active: set<string>, callbacks: Bindings)
    requires Partly(bound, todo, active, callbacks) && active == callbacks.Keys
    ensures bound.Keys <= active && todo <= active && |bound| <= |active|
    ensures forall c :: c in bound ==> c in callbacks && bound[c] == callbacks[c]
    ensures todo == {} ==> bound == callbacks && bound.Keys == active && |bound| == |active|
  {
  }

  /** The resubscription loop; an exception ends it, leaving what was bound so far. */
  method Resubscribe(active: set<string>, callbacks: Bindings, fails: Option<nat>) returns (bound: Bindings, ok: bool)
    requires active == callbacks.Keys
    ensures ok <==> fails.None? || fails.value >= |active|
    ensures ok ==> bound == callbacks && bound.Keys == active
    ensures !ok ==> |bound| == fails.value < |active|
    ensures forall c :: c in bound ==> c in callbacks && bound[c] == callbacks[c]
  {
    bound, ok := map[], true;
    var todo := active;
    assert Partly(bound, todo, active, callbacks);
    hide Partly;
    while todo != {}
      invariant ok && Partly(bound, todo, active, callbacks)
      invariant fails.Some? ==> |bound| <= fails.value
      decreases todo
    {
      var channel :| channel in todo;
      PartlyEnds(bound, todo, active, callbacks);
      BindOne(bound, todo, active, callbacks, channel);
      todo := todo - {channel};
      if channel in callbacks {
        if fails.Some? && |bound| == fails.value { return bound, false; }
        bound := bound[channel := callbacks[channel]];
      }
    }
    PartlyEnds(bound, todo, active, callbacks);
  }

  // ----- The service -----

  class RedisService {
    var activeSubscriptions: set<string>
    var subscriptionCallbacks: Bindings
    var connectionAttempts: nat
    var lastReconnectTime: int
    var connectionErrors: nat
    var pubOpen: bool
    var subOpen: bool
    /** What happened so far, and where it led: the subscriber connection and the commands in flight. */
    ghost var events: seq<Label>
    ghost var net: State

    ghost predicate Valid()
      reads this
    {
      && net.active == activeSubscriptions && net.callbacks == subscriptionCallbacks && net.open == subOpen
      && net == Run(INITIAL, events)
    }

    constructor ()
      ensures Valid() && events == [] && !pubOpen && !subOpen
    {
      activeSubscriptions, subscriptionCallbacks := {}, map[];
      connectionAttempts, lastReconnectTime, connectionErrors := 0, 0, 0;
      pubOpen, subOpen := false, false;
      events, net := [], INITIAL;
    }

    /** First segment of `subscribe`: the command is sent, or refused by a closed connection. */
    method Subscribe(channel: string, callback: Callback) returns (sent: bool)
      requires Valid()
      modifies this`net, this`events
      ensures Valid() && events == old(events) + [Label.Subscribe(channel, callback)] && (sent <==> subOpen)
      ensures net.sent == old(net).sent + if sent then [Sub(channel, callback)] else []
    {
      sent := subOpen;
      RunLast(events, Label.Subscribe(channel, callback));
      net, events := Next(net, Label.Subscribe(channel, callback)), events + [Label.Subscribe(channel, callback)];
    }

    /** `subscribe` resumes. */
    method SubscribeAcked(channel: string, callback: Callback)
      requires Valid() && net.acks != [] && net.acks[0] == Sub(channel, callback)
      modifies this`activeSubscriptions, this`subscriptionCallbacks, this`net, this`events
      ensures Valid() && events == old(events) + [Acknowledge]
      ensures activeSubscriptions == old(activeSubscriptions) + {channel}
      ensures subscriptionCallbacks == old(subscriptionCallbacks)[channel := callback]
    {
      activeSubscriptions := activeSubscriptions + {channel};
      subscriptionCallbacks := subscriptionCallbacks[channel := callback];
      RunLast(events, Acknowledge);
      net, events := Next(net, Acknowledge), events + [Acknowledge];
    }

    /** First segment of `unsubscribe`: nothing is sent for a channel that is not active. */
    method Unsubscribe(channel: string) returns (sent: bool)
      requires Valid()
      modifies this`net, this`events
      ensures Valid() && events == old(events) + [Label.Unsubscribe(channel)]
      ensures sent <==> channel in activeSubscriptions && subOpen
      ensures net.sent == old(net).sent + if sent then [Unsub(channel)] else []
    {
      sent := channel in activeSubscriptions && subOpen;
      RunLast(events, Label.Unsubscribe(channel));
      net, events := Next(net, Label.Unsubscribe(channel)), events + [Label.Unsubscribe(channel)];
    }

    /** `unsubscribe` resumes. */
    method UnsubscribeAcked(channel: string)
      requires Valid() && net.acks != [] && net.acks[0] == Unsub(channel)
      modifies this`activeSubscriptions, this`subscriptionCallbacks, this`net, this`events
      ensures Valid() && events == old(events) + [Acknowledge]
      ensures activeSubscriptions == old(activeSubscriptions) - {channel}
      ensures subscriptionCallbacks == old(subscriptionCallbacks) - {channel}
    {
      activeSubscriptions := activeSubscriptions - {channel};
      subscriptionCallbacks := subscriptionCallbacks - {channel};
      RunLast(events, Acknowledge);
      net, events := Next(net, Acknowledge), events + [Acknowledge];
    }

    /** The subscriber connection is lost, with everything on its way. */
    method ConnectionLost()
      requires Valid()
      modifies this`subOpen, this`net, this`events
      ensures Valid() && events == old(events) + [Close] && !subOpen
    {
      subOpen := false;
      RunLast(events, Close);
      net, events := Next(net, Close), events + [Close];
    }

    /** The reconnect strategy of the client. */
    method ReconnectStrategy(retries: nat, now: int) returns (delay: nat)
      modifies this`connectionAttempts, this`lastReconnectTime
      ensures connectionAttempts == old(connectionAttempts) + 1 && lastReconnectTime == now
      ensures delay == Backoff.Delay(retries) && 1000 <= delay <= 30000
    {
      connectionAttempts := connectionAttempts + 1;
      lastReconnectTime := now;
      Backoff.DelayShape(retries, retries);
      delay := if 1000 * Backoff.Pow2(retries) <= 30000 then 1000 * Backoff.Pow2(retries) else 30000;
    }

    /**
     * `checkConnections`, its reconnect and resubscriptions taken together. `pubUp` and `subUp` say
     * whether the connects succeed, `fails` which of the resubscriptions throws, if any.
     */
    method CheckConnections(pubUp: bool, subUp: bool, fails: Option<nat>)
      requires Valid()
      modifies this`pubOpen, this`subOpen, this`connectionErrors, this`net, this`events
      ensures Valid()
      ensures pubOpen <==> old(pubOpen) || pubUp
      ensures subOpen <==> old(subOpen) || (pubOpen && subUp)
      // A subscriber that is still open, or still closed, is left as it was ...
      ensures subOpen == old(subOpen) ==> net == old(net) && events == old(events)
      // ... else every active channel is bound to its last callback, and to nothing else, ...
      ensures !old(subOpen) && subOpen && connectionErrors == old(connectionErrors) ==>
        net.broker == Rebound(subscriptionCallbacks, activeSubscriptions) && net.broker.Keys == activeSubscriptions
      // ... or a resubscription threw, and exactly the ones before it are bound.
      ensures !old(subOpen) && subOpen && connectionErrors > old(connectionErrors) ==>
        && fails.Some? && |net.bound| == fails.value < |activeSubscriptions| && net.bound <= activeSubscriptions
        && net.broker == Rebound(subscriptionCallbacks, net.bound)
      ensures connectionErrors == old(connectionErrors) + 1 <==>
        || !pubOpen || (!old(subOpen) && !subOpen)
        || (!old(subOpen) && fails.Some? && fails.value < |activeSubscriptions|)
      ensures old(connectionErrors) <= connectionErrors <= old(connectionErrors) + 1
    {
      CallbackForEach();
      hide Run, Rebound;
      if !pubOpen {
        if !pubUp { connectionErrors := connectionErrors + 1; return; }
        pubOpen := true;
      }
      if subOpen { return; }
      if !subUp { connectionErrors := connectionErrors + 1; return; }
      subOpen := true;
      var bound, ok := Resubscribe(activeSubscriptions, subscriptionCallbacks, fails);
      if !ok { connectionErrors := connectionErrors + 1; }
      RunLast(events, Connect(bound.Keys));
      ConnectIs(net, bound.Keys);
      ReboundKeys(subscriptionCallbacks, bound.Keys);
      hide Next;
      net, events := Next(net, Connect(bound.Keys)), events + [Connect(bound.Keys)];
    }

    /** The set and the map agree, so every active channel has its callback. */
    lemma CallbackForEach()
      requires Valid()
      ensures activeSubscriptions == subscriptionCallbacks.Keys
    {
      RunKeepsInv(INITIAL, events);
    }
  }

  lemma ConnectIs(s: State, bound: set<string>)
    requires !s.open
    ensures var s' := Next(s, Connect(bound));
      && s'.open && s'.active == s.active && s'.callbacks == s.callbacks
      && s'.broker == Rebound(s.callbacks, bound) && s'.bound == bound
  {
  }

  lemma ReboundKeys(callbacks: Bindings, bound: set<string>)
    requires bound <= callbacks.Keys
    ensures Rebound(callbacks, bound).Keys == bound
  {
  }

  lemma RunLast(trace: seq<Label>, l: Label)
    ensures Run(INITIAL, trace + [l]) == Next(Run(INITIAL, trace), l)
  {
    assert (trace + [l])[..|trace|] == trace;
  }
}

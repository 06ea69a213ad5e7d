/** The WebSocket gateway as the object it is; its methods are the segments of its handlers. */
module WSGateway {
  import opened Prelude
  import opened RateLimiter
  import Backoff
  import SharedLimiter
  import Lifecycle = ConnectionLifecycle
  import Chain = SubscribeChain

  /** An entry of the limiter map, counted up in place. */
  class Limit {
    var count: int
    const resetTime: int

    constructor (count: int, resetTime: int)
      ensures this.count == count && this.resetTime == resetTime
    {
      this.count, this.resetTime := count, resetTime;
    }
  }

  class Gateway {
    var redisSubscribed: bool
    var rateLimiter: map<string, Limit>
    var connectedClients: set<string>
    var authenticatedClients: set<string>
    /** The limiter's entry objects. */
    ghost var entries: set<Limit>
    /** What happened so far: socket events and handler segments, chain steps, events handled. */
    ghost var events: seq<Lifecycle.Label>
    ghost var steps: seq<Chain.Label>
    ghost var served: seq<SharedLimiter.Event>
    /** The sockets, validations and timers around the two sets, and the subscribe chain. */
    ghost var net: Lifecycle.State
    ghost var chain: Chain.State

    /** The two sets and the flag are those of the models. */
    ghost predicate Tied()
      reads this`connectedClients, this`authenticatedClients, this`redisSubscribed, this`net, this`chain, this`steps
    {
      && net.connected == connectedClients && net.authed == authenticatedClients
      && chain == Chain.Run(Chain.INITIAL, steps) && chain.subscribed == redisSubscribed
    }

    /** Every client has a limiter entry of its own. */
    ghost predicate Separate()
      reads this`rateLimiter, this`entries
    {
      && (forall c :: c in rateLimiter ==> rateLimiter[c] in entries)
      && forall c, d :: c in rateLimiter && d in rateLimiter && c != d ==> rateLimiter[c] != rateLimiter[d]
    }

    /** The limiter map is what serving all events so far leaves. */
    ghost predicate Limited()
      reads this`rateLimiter, this`entries, entries, this`served
    {
      Separate() && Windows() == SharedLimiter.Served(served)
    }

    /** The whole history is a run of each model, so what holds of every run holds of this object. */
    ghost predicate Valid()
      reads this, entries
    {
      && Tied() && net == Lifecycle.Run(Lifecycle.INITIAL, events)
      && Limited()
    }

    ghost function Windows(): SharedLimiter.Limits
      requires Separate()
      reads this`rateLimiter, this`entries, entries
    {
      map c | c in rateLimiter :: Window(rateLimiter[c].count, rateLimiter[c].resetTime)
    }

    constructor ()
      ensures Valid() && events == [] && steps == [] && served == [] && entries == {}
    {
      redisSubscribed, rateLimiter, connectedClients, authenticatedClients := false, map[], {}, {};
      events, steps, served, entries := [], [], [], {};
      net, chain := Lifecycle.INITIAL, Chain.INITIAL;
    }

    /** `handleDisconnect`: both sets forget the client; when none is connected the subscription ends. */
    method HandleDisconnect(id: string) returns (unsubscribe: bool)
      requires Tied() && id in net.live
      modifies this`connectedClients, this`authenticatedClients, this`redisSubscribed, this`net, this`chain, this`steps
      ensures Tied() && net == Lifecycle.HandleDisconnect(old(net), id)
      ensures connectedClients == old(connectedClients) - {id}
      ensures authenticatedClients == old(authenticatedClients) - {id}
      ensures redisSubscribed <==> old(redisSubscribed) && connectedClients != {}
      ensures unsubscribe <==> connectedClients == {} && old(redisSubscribed)
      ensures steps == if connectedClients == {} then old(steps) + [Chain.LastClientGone] else old(steps)
    {
      hide Chain.Run;
      Chain.RunLast(Chain.INITIAL, steps, Chain.LastClientGone);
      connectedClients := connectedClients - {id};
      authenticatedClients := authenticatedClients - {id};
      net := Lifecycle.HandleDisconnect(net, id);
      unsubscribe := |connectedClients| == 0 && redisSubscribed;
      if connectedClients == {} {
        steps, chain := steps + [Chain.LastClientGone], Chain.Next(chain, Chain.LastClientGone);
      }
      if unsubscribe { redisSubscribed := false; }
    }

    /** A socket goes away by itself. */
    method SocketClosed(id: string) returns (unsubscribe: bool)
      requires Valid() && id in net.live
      modifies this`connectedClients, this`authenticatedClients, this`redisSubscribed,
               this`net, this`chain, this`steps, this`events
      ensures Valid() && events == old(events) + [Lifecycle.Drop(id)]
      ensures connectedClients == old(connectedClients) - {id}
      ensures authenticatedClients == old(authenticatedClients) - {id}
      ensures redisSubscribed <==> old(redisSubscribed) && connectedClients != {}
      ensures unsubscribe <==> connectedClients == {} && old(redisSubscribed)
    {
      hide Lifecycle.Run, Chain.Run, Limited;
      Lifecycle.RunLast(Lifecycle.INITIAL, events, Lifecycle.Drop(id));
      unsubscribe := HandleDisconnect(id);
      events := events + [Lifecycle.Drop(id)];
    }

    /** First segment of `handleConnection`: without a token the grace timer starts. */
    method HandleConnection(id: string, token: Option<string>) returns (validate: bool)
      requires Valid() && id !in net.used
      modifies this`connectedClients, this`net, this`events
      ensures Valid() && events == old(events) + [Lifecycle.Connect(id, validate)]
      ensures connectedClients == old(connectedClients) + if validate then {} else {id}
      ensures if validate then id in net.validating else id in net.armed
      ensures validate <==> token.Some? && token.value != ""
    {
      hide Lifecycle.Run, Chain.Run, Limited;
      validate := token.Some? && token.value != "";
      Lifecycle.RunLast(Lifecycle.INITIAL, events, Lifecycle.Connect(id, validate));
      net, events := Lifecycle.Next(net, Lifecycle.Connect(id, validate)), events + [Lifecycle.Connect(id, validate)];
      if !validate { connectedClients := connectedClients + {id}; }
    }

    /** `client.disconnect(true)`: a socket still open runs the disconnect handler at once. */
    method DisconnectSocket(id: string, open: bool)
      requires Tied() && (open <==> id in net.live)
      modifies this`connectedClients, this`authenticatedClients, this`redisSubscribed, this`net, this`chain, this`steps
      ensures Tied() && net == Lifecycle.Disconnect(old(net), id)
      ensures connectedClients == old(connectedClients) - if open then {id} else {}
      ensures authenticatedClients == old(authenticatedClients) - if open then {id} else {}
    {
      if open {
        var unsubscribe := HandleDisconnect(id);
      }
    }

    /** `handleConnection` resumes with the outcome of the token validation. */
    method ConnectionValidated(id: string, ok: bool, open: bool)
      requires Valid() && id in net.validating && (open <==> id in net.live)
      modifies this`connectedClients, this`authenticatedClients, this`redisSubscribed,
               this`net, this`chain, this`steps, this`events
      ensures Valid() && events == old(events) + [Lifecycle.Validated(id, ok)]
      ensures ok ==> connectedClients == old(connectedClients) + {id}
      ensures ok ==> authenticatedClients == old(authenticatedClients) + {id}
      ensures !ok ==> connectedClients == old(connectedClients) - if open then {id} else {}
      ensures !ok ==> authenticatedClients == old(authenticatedClients) - if open then {id} else {}
    {
      hide Lifecycle.Run, Chain.Run, Limited;
      Lifecycle.RunLast(Lifecycle.INITIAL, events, Lifecycle.Validated(id, ok));
      if ok {
        authenticatedClients := authenticatedClients + {id};
        connectedClients := connectedClients + {id};
        net := Lifecycle.Next(net, Lifecycle.Validated(id, ok));
      } else {
        net := net.(validating := net.validating - {id});
        DisconnectSocket(id, open);
      }
      events := events + [Lifecycle.Validated(id, ok)];
    }

    /** The grace timer of a tokenless connection fires, and closes a socket not yet authenticated. */
    method GraceOver(id: string, open: bool) returns (closed: bool)
      requires Valid() && id in net.armed && (open <==> id in net.live)
      modifies this`connectedClients, this`authenticatedClients, this`redisSubscribed,
               this`net, this`chain, this`steps, this`events
      ensures Valid() && events == old(events) + [Lifecycle.GraceOver(id)] && id !in net.armed
      ensures closed <==> open && id !in old(authenticatedClients)
      ensures connectedClients == old(connectedClients) - if closed then {id} else {}
      ensures authenticatedClients == old(authenticatedClients)
      ensures net.live == old(net.live) - if closed then {id} else {}
    {
      hide Lifecycle.Run, Chain.Run, Limited;
      Lifecycle.RunLast(Lifecycle.INITIAL, events, Lifecycle.GraceOver(id));
      net := net.(armed := net.armed - {id});
      closed := false;
      if id !in authenticatedClients {
        DisconnectSocket(id, open);
        closed := open;
      }
      events := events + [Lifecycle.GraceOver(id)];
    }

    /** First segment of `handleAuthenticate`: a missing or empty token is refused at once. */
    method HandleAuthenticate(id: string, token: Option<string>) returns (validate: bool)
      requires Valid() && id in net.live
      modifies this`net, this`events
      ensures Valid() && events == old(events) + [Lifecycle.Authenticate(id, validate)]
      ensures net.authenticating[id] == old(net.authenticating)[id] + if validate then 1 else 0
      ensures validate <==> token.Some? && token.value != ""
    {
      hide Lifecycle.Run, Chain.Run, Limited;
      validate := token.Some? && token.value != "";
      Lifecycle.RunLast(Lifecycle.INITIAL, events, Lifecycle.Authenticate(id, validate));
      net := Lifecycle.Next(net, Lifecycle.Authenticate(id, validate));
      events := events + [Lifecycle.Authenticate(id, validate)];
    }

    /** `handleAuthenticate` resumes; a failure only answers the client. */
    method AuthenticateValidated(id: string, ok: bool)
      requires Valid() && id in net.authenticating
      modifies this`authenticatedClients, this`net, this`events
      ensures Valid() && events == old(events) + [Lifecycle.Authenticated(id, ok)]
      ensures authenticatedClients == old(authenticatedClients) + if ok then {id} else {}
    {
      hide Lifecycle.Run, Chain.Run, Limited;
      if ok { authenticatedClients := authenticatedClients + {id}; }
      Lifecycle.RunLast(Lifecycle.INITIAL, events, Lifecycle.Authenticated(id, ok));
      net, events := Lifecycle.Next(net, Lifecycle.Authenticated(id, ok)), events + [Lifecycle.Authenticated(id, ok)];
    }

    /**
     * The authentication gate and the rate limiter: the client's entry is replaced, refuses the
     * event, or is counted up in place.
     */
    method Admission(id: string, now: int) returns (v: Verdict)
      requires Separate()
      modifies this`rateLimiter, this`entries, entries
      ensures Separate() && fresh(entries - old(entries))
      ensures (Windows(), v) ==
              SharedLimiter.Handle(old(Windows()), SharedLimiter.Event(id, now, id in authenticatedClients))
      ensures v.Unauthorized? <==> id !in authenticatedClients
    {
      if id !in authenticatedClients { return Unauthorized; }
      if id !in rateLimiter || now > rateLimiter[id].resetTime {
        var limit := new Limit(1, now + RATE_WINDOW);
        rateLimiter, entries := rateLimiter[id := limit], entries + {limit};
        assert Windows() == old(Windows())[id := Window(1, now + RATE_WINDOW)];
        return Accepted;
      }
      var limit := rateLimiter[id];
      if limit.count >= RATE_LIMIT {
        assert Windows() == old(Windows())[id := old(Windows())[id]];
        return Rejected;
      }
      limit.count := limit.count + 1;
      assert Windows() == old(Windows())[id := Window(limit.count, limit.resetTime)];
      return Accepted;
    }

    /** One more event is served; an authenticated one as by a limiter for this client alone. */
    method Serve(id: string, now: int) returns (v: Verdict)
      requires Limited()
      modifies this`rateLimiter, this`entries, entries, this`served
      ensures Limited() && fresh(entries - old(entries))
      ensures served == old(served) + [SharedLimiter.Event(id, now, !v.Unauthorized?)]
      ensures v.Unauthorized? <==> id !in authenticatedClients
      ensures !v.Unauthorized? ==> var mine := SharedLimiter.Mine(served, id);
        mine == SharedLimiter.Mine(old(served), id) + [now] && v == VerdictOn(mine, |mine| - 1)
    {
      ghost var e := SharedLimiter.Event(id, now, id in authenticatedClients);
      SharedLimiter.HandleLast(served, e);
      hide SharedLimiter.Served, SharedLimiter.Handle, SharedLimiter.Mine, VerdictOn, Windows, Separate;
      v := Admission(id, now);
      served := served + [e];
    }

    /**
     * `handleEvent` up to routing. An event that gets past the gate comes from a client whose
     * validation succeeded and who did not disconnect since.
     */
    method HandleEvent(id: string, now: int) returns (v: Verdict, ghost j: nat)
      requires Valid() && id in net.live
      modifies this`rateLimiter, this`entries, entries, this`served, this`events
      ensures Valid() && fresh(entries - old(entries))
      ensures events == old(events) + [Lifecycle.Message(id)]
      ensures served == old(served) + [SharedLimiter.Event(id, now, !v.Unauthorized?)]
      ensures v.Unauthorized? <==> id !in authenticatedClients
      ensures !v.Unauthorized? ==> Lifecycle.ValidatedAt(old(events), j, id)
      ensures !v.Unauthorized? ==> var mine := SharedLimiter.Mine(served, id);
        mine == SharedLimiter.Mine(old(served), id) + [now] && v == VerdictOn(mine, |mine| - 1)
    {
      j := PastGate(id);
      hide Lifecycle.Run, Lifecycle.ValidatedAt, SharedLimiter.Mine, VerdictOn, Limited, Tied;
      v := Serve(id, now);
      events := events + [Lifecycle.Message(id)];
    }

    /** Where the validation was that a client past the gate owes its place to. */
    lemma PastGate(id: string) returns (j: nat)
      requires Valid()
      ensures Lifecycle.Run(Lifecycle.INITIAL, events + [Lifecycle.Message(id)]) == net
      ensures id in authenticatedClients ==> Lifecycle.ValidatedAt(events, j, id)
    {
      Lifecycle.RunLast(Lifecycle.INITIAL, events, Lifecycle.Message(id));
      j := 0;
      if id in authenticatedClients { j := Lifecycle.GateNeedsValidation(events, id); }
    }

    // ----- Subscribing to worker responses -----

    /** An attempt's `subscribe` is acknowledged. */
    method SubscribeAcked()
      requires Valid() && chain.phase.Attempt?
      modifies this`redisSubscribed, this`chain, this`steps
      ensures Valid() && steps == old(steps) + [Chain.Acked] && redisSubscribed
    {
      hide Chain.Run;
      Chain.RunLast(Chain.INITIAL, steps, Chain.Acked);
      redisSubscribed := true;
      chain, steps := Chain.Next(chain, Chain.Acked), steps + [Chain.Acked];
    }

    /** An attempt's `subscribe` throws: the next one is scheduled, or the chain gives up. */
    method SubscribeRefused(retryCount: nat) returns (delay: Option<nat>)
      requires Valid() && chain.phase == Chain.Attempt(retryCount)
      modifies this`chain, this`steps
      ensures Valid() && steps == old(steps) + [Chain.Refused]
      ensures delay.Some? <==> retryCount < Chain.MAX_RETRIES
      ensures delay.Some? ==> chain.waited == old(chain).waited + delay.value && chain.phase == Chain.Waiting(retryCount + 1)
      ensures chain.waited == 1000 * (Backoff.Pow2(chain.scheduled) - 1) <= 31000
    {
      hide Chain.Run;
      Chain.RunLast(Chain.INITIAL, steps, Chain.Refused);
      delay := if retryCount < Chain.MAX_RETRIES then Some(Backoff.Pow2(retryCount) * 1000) else None;
      chain, steps := Chain.Next(chain, Chain.Refused), steps + [Chain.Refused];
      Chain.ChainIsBounded(steps);
    }

    /** The retry timer fires: another attempt, unless the flag is up; never a seventh. */
    method RetryTimer() returns (attempt: bool)
      requires Valid() && chain.phase.Waiting?
      modifies this`chain, this`steps
      ensures Valid() && steps == old(steps) + [Chain.TimerFired]
      ensures attempt <==> chain.phase.Attempt?
      ensures chain.attempts <= 6
    {
      hide Chain.Run;
      Chain.RunLast(Chain.INITIAL, steps, Chain.TimerFired);
      attempt := !redisSubscribed;
      chain, steps := Chain.Next(chain, Chain.TimerFired), steps + [Chain.TimerFired];
      Chain.ChainIsBounded(steps);
    }

    /**
     * The connection report. The third figure is the sockets waiting unauthenticated in their grace
     * period, less those authenticated early and the stale authentications; without an overlap on
     * record and without a pending validation it is not negative.
     */
    method Connections() returns (total: nat, authenticated: nat, anonymous: int)
      requires Valid()
      ensures total == |net.connected| && authenticated == |net.authed|
      ensures anonymous == |net.connected - net.authed| - |net.authed * net.live * net.validating|
                           - |net.lateAuth - net.lateConnect|
      ensures net.connected - net.authed <= net.live * net.armed
      ensures net.overlapped == {} && net.validating == {} ==> anonymous >= 0
    {
      total, authenticated := |connectedClients|, |authenticatedClients|;
      anonymous := total - authenticated;
      Lifecycle.AnonymousCount(events);
      if net.overlapped == {} && net.validating == {} { Lifecycle.AnonymousNotNegative(events); }
    }

    /** What one client gets through in an interval is bounded, in everything handled so far. */
    lemma WithinCap(c: string, a: int, b: int)
      requires Valid() && a <= b && Sorted(SharedLimiter.Mine(served, c))
      ensures SharedLimiter.PassedOf(served, c, a, b) <= Cap(b - a)
    {
      SharedLimiter.ClientPassesAtMost(served, c, a, b);
    }
  }
}

/** All clients share one map of windows; each is served as if it had a limiter of its own. */
module SharedLimiter {
  import opened Prelude
  import opened RateLimiter

  /** One `incoming_event`: who sent it, when it is handled, whether the sender is authenticated. */
  datatype Event = Event(client: string, now: int, authed: bool)

  type Limits = map<string, Window>

  function Lookup(l: Limits, c: string): Option<Window> {
    if c in l then Some(l[c]) else None
  }

  /** The authentication gate, then the limiter. */
  function Handle(l: Limits, e: Event): (Limits, Verdict) {
    if !e.authed then (l, Unauthorized)
    else
      var (w, v) := Admit(Lookup(l, e.client), e.now);
      (l[e.client := w], v)
  }

  function Served(events: seq<Event>): Limits {
    if events == [] then map[]
    else Handle(Served(events[..|events| - 1]), events[|events| - 1]).0
  }

  /** The verdict on event `n` of the interleaved trace. */
  function SharedVerdict(events: seq<Event>, n: nat): Verdict
    requires n < |events|
  {
    Handle(Served(events[..n]), events[n]).1
  }

  /** The times of one client's authenticated events. */
  function Mine(events: seq<Event>, c: string): seq<int> {
    if events == [] then []
    else
      var e := events[|events| - 1];
      Mine(events[..|events| - 1], c) + if e.authed && e.client == c then [e.now] else []
  }

  lemma {:induction false} StoredIsPrivate(events: seq<Event>, c: string)
    ensures Lookup(Served(events), c) == After(Mine(events, c))
  {
    if events != [] {
      var init, e := events[..|events| - 1], events[|events| - 1];
      StoredIsPrivate(init, c);
      if e.authed && e.client == c {
        assert Mine(events, c)[..|Mine(events, c)| - 1] == Mine(init, c);
      } else {
        assert Mine(events, c) == Mine(init, c);
      }
    }
  }

  lemma {:induction false} MinePrefix(events: seq<Event>, n: nat, c: string)
    requires n <= |events|
    ensures Mine(events[..n], c) <= Mine(events, c)
    decreases |events| - n
  {
    if n == |events| {
      assert events[..n] == events;
    } else {
      MinePrefix(events, n + 1, c);
      assert events[..n + 1][..n] == events[..n];
    }
  }

  /**
   * Every authenticated event gets exactly the verdict a private limiter would give it on that
   * client's authenticated events alone; an unauthenticated event is refused and changes nothing.
   */
  lemma VerdictIsPrivate(events: seq<Event>, n: nat)
    requires n < |events|
    ensures var e := events[n]; var k := |Mine(events[..n], e.client)|;
      if e.authed then
        k < |Mine(events, e.client)| && Mine(events, e.client)[k] == e.now &&
        SharedVerdict(events, n) == VerdictOn(Mine(events, e.client), k)
      else
        SharedVerdict(events, n) == Unauthorized && Served(events[..n + 1]) == Served(events[..n])
  {
    var e := events[n];
    assert events[..n + 1][..n] == events[..n];
    if e.authed {
      StoredIsPrivate(events[..n], e.client);
      MinePrefix(events, n, e.client);
      MinePrefix(events, n + 1, e.client);
      assert Mine(events, e.client)[..|Mine(events[..n], e.client)|] == Mine(events[..n], e.client);
    }
  }

  /** Handling one more event. */
  lemma HandleLast(events: seq<Event>, e: Event)
    ensures Served(events + [e]) == Handle(Served(events), e).0
    ensures !e.authed ==> Served(events + [e]) == Served(events)
    ensures e.authed ==> var mine := Mine(events + [e], e.client);
      mine == Mine(events, e.client) + [e.now] && Handle(Served(events), e).1 == VerdictOn(mine, |mine| - 1)
  {
    var all, n := events + [e], |events|;
    assert all[..n] == events && all[n] == e;
    VerdictIsPrivate(all, n);
  }

  /** The events of one client that pass at times in [a, b], counted on the interleaved trace. */
  function PassedOf(events: seq<Event>, c: string, a: int, b: int): nat {
    if events == [] then 0
    else
      var init, e := events[..|events| - 1], events[|events| - 1];
      PassedOf(init, c, a, b) +
      if e.client == c && a <= e.now <= b && Handle(Served(init), e).1.Accepted? then 1 else 0
  }

  lemma {:induction false} PassedOfIsPrivate(events: seq<Event>, c: string, a: int, b: int)
    ensures PassedOf(events, c, a, b) == Passed(Mine(events, c), a, b)
  {
    if events != [] {
      var init, e := events[..|events| - 1], events[|events| - 1];
      PassedOfIsPrivate(init, c, a, b);
      if e.authed && e.client == c {
        StoredIsPrivate(init, c);
        After1(Mine(init, c), e.now, a, b);
      } else {
        assert Mine(events, c) == Mine(init, c);
      }
    }
  }

  /** In any interleaving, what one client gets through in an interval stays within the bound. */
  lemma ClientPassesAtMost(events: seq<Event>, c: string, a: int, b: int)
    requires a <= b && Sorted(Mine(events, c))
    ensures PassedOf(events, c, a, b) <= Cap(b - a)
  {
    PassedOfIsPrivate(events, c, a, b);
    PassedAtMost(Mine(events, c), a, b);
  }
}

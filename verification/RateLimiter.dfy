/**
 * The gateway's fixed-window rate limiter: what a client's private limiter decides, how many
 * events it can let through in any span of time, and that sharing one map changes nothing.
 */
module RateLimiter {
  import opened Prelude

  const RATE_LIMIT: nat := 50
  const RATE_WINDOW: nat := 60000

  datatype Window = Window(count: int, resetTime: int)
  datatype Verdict = Unauthorized | Rejected | Accepted

  /** One authenticated event of one client at time `now`. */
  function Admit(w: Option<Window>, now: int): (Window, Verdict) {
    if w.None? || now > w.value.resetTime then (Window(1, now + RATE_WINDOW), Accepted)
    else if w.value.count >= RATE_LIMIT then (w.value, Rejected)
    else (w.value.(count := w.value.count + 1), Accepted)
  }

  // ----- One client -----

  /** The client's window after events at the given times. */
  function After(times: seq<int>): Option<Window> {
    if times == [] then None
    else Some(Admit(After(times[..|times| - 1]), times[|times| - 1]).0)
  }

  /** The verdict on event `n`. */
  function VerdictOn(times: seq<int>, n: nat): Verdict
    requires n < |times|
  {
    Admit(After(times[..n]), times[n]).1
  }

  /** How many of the first `n` events from index `from` on were accepted. */
  function AcceptedFrom(times: seq<int>, from: nat, n: nat): nat
    requires from <= n <= |times|
  {
    if n == from then 0
    else AcceptedFrom(times, from, n - 1) + if VerdictOn(times, n - 1).Accepted? then 1 else 0
  }

  /** From the times alone: the event that opened the window in force after the first `n` events. */
  function Opening(times: seq<int>, n: nat): (o: Option<nat>)
    requires n <= |times|
    ensures n == 0 <==> o.None?
    ensures o.Some? ==> o.value < n
  {
    if n == 0 then None
    else
      var o := Opening(times, n - 1);
      if o.None? || times[n - 1] > times[o.value] + 60000 then Some(n - 1) else o
  }

  function Min(a: int, b: int): int {
    if a <= b then a else b
  }

  /** The stored window says when it opened and how many events it accepted since. */
  lemma {:induction false} StoredWindow(times: seq<int>, n: nat)
    requires 0 < n <= |times|
    ensures var o := Opening(times, n).value;
      && After(times[..n]) == Some(Window(Min(n - o, 50), times[o] + 60000))
      && AcceptedFrom(times, o, n) == Min(n - o, 50)
  {
    assert times[..n][..n - 1] == times[..n - 1] && times[..n][n - 1] == times[n - 1];
    if n > 1 { StoredWindow(times, n - 1); }
    var o := Opening(times, n).value;
    if o == n - 1 { assert AcceptedFrom(times, o, n - 1) == 0; }
  }

  /**
   * An event is rejected iff its client's current window has accepted exactly 50 events since it
   * opened and the clock is no later than the opening plus 60000 ms.
   */
  lemma RejectedIff(times: seq<int>, n: nat)
    requires n < |times|
    ensures VerdictOn(times, n).Rejected? <==>
      && Opening(times, n).Some?
      && AcceptedFrom(times, Opening(times, n).value, n) == 50
      && times[n] <= times[Opening(times, n).value] + 60000
    ensures !VerdictOn(times, n).Unauthorized?
  {
    if n > 0 { StoredWindow(times, n); } else { assert times[..0] == []; }
  }

  /** The events accepted in a window are its first 50, in order. */
  lemma FirstFiftyAccepted(times: seq<int>, n: nat)
    requires n < |times|
    ensures VerdictOn(times, n).Accepted? <==> n - Opening(times, n + 1).value < 50
  {
    if n > 0 { StoredWindow(times, n); } else { assert times[..0] == []; }
  }

  /** Windows open at least 60001 ms apart, whatever the clock does. */
  lemma {:induction false} OpeningsApart(times: seq<int>, n: nat, m: nat)
    requires 0 < n <= m <= |times|
    ensures var o, p := Opening(times, n).value, Opening(times, m).value;
      o <= p && (o < p ==> times[p] >= times[o] + 60001)
  {
    if n < m { OpeningsApart(times, n, m - 1); }
  }

  // ----- How much can pass in a span of time -----

  predicate Sorted(times: seq<int>) {
    forall i, j :: 0 <= i <= j < |times| ==> times[i] <= times[j]
  }

  /** The events accepted at times in the closed interval [a, b]. */
  function Passed(times: seq<int>, a: int, b: int): nat {
    if times == [] then 0
    else
      var init, t := times[..|times| - 1], times[|times| - 1];
      Passed(init, a, b) + if a <= t <= b && Admit(After(init), t).1.Accepted? then 1 else 0
  }

  /** What windows opened before, at distance `x` after the start of the interval, can have let through. */
  function Before(x: nat): nat {
    if x % 60001 == 0 then 50 * (x / 60001) else 50 * (x / 60001 + 1) - 1
  }

  /** The most that can pass in a closed interval of length `d`. */
  function Cap(d: nat): nat {
    Before(d) + 50
  }

  lemma BeforeGrows(x: nat, y: nat)
    requires x + 60001 <= y
    ensures Before(y) >= Before(x) + 50
  {
    assert (x + 60001) / 60001 == x / 60001 + 1 && (x + 60001) % 60001 == x % 60001;
    BeforeMonotone(x + 60001, y);
  }

  lemma BeforeMonotone(x: nat, y: nat)
    requires x <= y
    ensures Before(x) <= Before(y)
  {
    if x / 60001 == y / 60001 {
      assert x % 60001 <= y % 60001;
    } else {
      assert x / 60001 + 1 <= y / 60001;
    }
  }

  /** The accepted events so far, by where the current window opened. */
  ghost predicate Bounded(passed: nat, since: int, count: int, a: int, b: int)
    requires a <= b
  {
    if since < a - 60000 then passed == 0
    else if since < a then passed <= count - 1
    else if since <= b then passed <= count + Before(since - a)
    else passed <= Cap(b - a)
  }

  lemma OpenAnother(passed: nat, since: int, count: int, a: int, b: int, t: int)
    requires a <= b && count <= 50 && Bounded(passed, since, count, a, b) && t >= since + 60001
    ensures Bounded(passed + if a <= t <= b then 1 else 0, t, 1, a, b)
  {
    if a <= t {
      if since >= a {
        BeforeGrows(since - a, t - a);
        if since <= b { BeforeMonotone(since - a, b - a); }
      } else if since >= a - 60000 {
        BeforeMonotone(1, t - a);
      }
    }
  }

  lemma {:induction false} PassedBounded(times: seq<int>, a: int, b: int)
    requires a <= b && Sorted(times) && times != []
    ensures Bounded(Passed(times, a, b), After(times).value.resetTime - RATE_WINDOW, After(times).value.count, a, b)
    ensures 1 <= After(times).value.count <= 50
    ensures After(times).value.resetTime - RATE_WINDOW <= times[|times| - 1]
  {
    var init, t := times[..|times| - 1], times[|times| - 1];
    if init == [] {
      assert Passed(init, a, b) == 0;
    } else {
      PassedBounded(init, a, b);
      var w := After(init).value;
      if t > w.resetTime { OpenAnother(Passed(init, a, b), w.resetTime - RATE_WINDOW, w.count, a, b, t); }
    }
  }

  /**
   * With a clock that never goes back, the events of a client that pass the limiter in a closed
   * interval of length d number at most Cap(d): 50 for d = 0, 99 for a minute, 100 for 60001 ms.
   */
  lemma PassedAtMost(times: seq<int>, a: int, b: int)
    requires a <= b && Sorted(times)
    ensures Passed(times, a, b) <= Cap(b - a)
    ensures Passed(times, a, b) <= 50 * ((b - a + 60000) / 60001 + 1)
    ensures b - a <= 60000 ==> Passed(times, a, b) <= 99
  {
    if times != [] {
      PassedBounded(times, a, b);
      var since := After(times).value.resetTime - RATE_WINDOW;
      if a <= since <= b { BeforeMonotone(since - a, b - a); }
    }
    var d := b - a;
    if d % 60001 != 0 { assert (d + 60000) / 60001 == d / 60001 + 1; }
    if d <= 60000 { BeforeMonotone(d, 60000); }
  }

  // ----- The bound is reached -----

  function Burst(t: int, k: nat): seq<int> {
    if k == 0 then [] else Burst(t, k - 1) + [t]
  }

  /** `m` bursts of 50 events, 60001 ms apart. */
  function Waves(t: int, m: nat): seq<int> {
    if m == 0 then [] else Waves(t, m - 1) + Burst(t + 60001 * (m - 1), 50)
  }

  lemma After1(times: seq<int>, t: int, a: int, b: int)
    ensures After(times + [t]) == Some(Admit(After(times), t).0)
    ensures Passed(times + [t], a, b) ==
      Passed(times, a, b) + if a <= t <= b && Admit(After(times), t).1.Accepted? then 1 else 0
  {
    assert (times + [t])[..|times|] == times;
  }

  /** There is room for `k` events at time `t`. */
  predicate Room(w: Option<Window>, t: int, k: nat) {
    k <= 50 && (w.None? || t > w.value.resetTime || w.value.count + k <= 50)
  }

  /** The window after `k` events at time `t`. */
  function Filled(w: Option<Window>, t: int, k: nat): Option<Window> {
    if k == 0 then w
    else if w.None? || t > w.value.resetTime then Some(Window(k, t + RATE_WINDOW))
    else Some(w.value.(count := w.value.count + k))
  }

  lemma FilledStep(w: Option<Window>, t: int, k: nat)
    requires 0 < k && Room(w, t, k)
    ensures Admit(Filled(w, t, k - 1), t) == (Filled(w, t, k).value, Accepted) && Filled(w, t, k).Some?
    ensures Room(w, t, k - 1)
  {
  }

  /** A burst that fits in its window passes as a whole. */
  lemma {:induction false} BurstPasses(times: seq<int>, t: int, k: nat, a: int, b: int)
    requires a <= t <= b && Room(After(times), t, k)
    ensures Passed(times + Burst(t, k), a, b) == Passed(times, a, b) + k
    ensures After(times + Burst(t, k)) == Filled(After(times), t, k)
  {
    hide After, Passed, Admit, Room;
    if k == 0 {
      assert times + Burst(t, 0) == times;
    } else {
      var prev := times + Burst(t, k - 1);
      assert times + Burst(t, k) == prev + [t];
      FilledStep(After(times), t, k);
      BurstPasses(times, t, k - 1, a, b);
      hide Filled, Burst;
      After1(prev, t, a, b);
    }
  }

  lemma {:induction false} WavesPass(times: seq<int>, t: int, m: nat, a: int, b: int)
    requires a <= t && t + 60001 * (m - 1) <= b
    requires var w := After(times); w.None? || t > w.value.resetTime
    ensures Passed(times + Waves(t, m), a, b) == Passed(times, a, b) + 50 * m
    ensures m > 0 ==> After(times + Waves(t, m)) == Some(Window(50, t + 60001 * (m - 1) + RATE_WINDOW))
  {
    hide Burst, After, Passed;
    assert times + Waves(t, 0) == times;
    if m > 0 {
      WavesPass(times, t, m - 1, a, b);
      assert times + Waves(t, m) == (times + Waves(t, m - 1)) + Burst(t + 60001 * (m - 1), 50);
      BurstPasses(times + Waves(t, m - 1), t + 60001 * (m - 1), 50, a, b);
    }
  }

  predicate AllEqual(times: seq<int>, t: int) {
    forall i :: 0 <= i < |times| ==> times[i] == t
  }

  lemma {:induction false} BurstEqual(t: int, k: nat)
    ensures AllEqual(Burst(t, k), t)
  {
    if k > 0 { BurstEqual(t, k - 1); }
  }

  lemma {:induction false} WavesSorted(t: int, m: nat)
    ensures Sorted(Waves(t, m))
    ensures forall i :: 0 <= i < |Waves(t, m)| ==> t <= Waves(t, m)[i] <= t + 60001 * (m - 1)
  {
    if m > 0 {
      WavesSorted(t, m - 1);
      BurstEqual(t + 60001 * (m - 1), 50);
    }
  }

  /** A window opened before the interval that still accepts 49 events at `a` and is over at `t`. */
  lemma PartialWindow(a: int, t: int) returns (head: seq<int>)
    requires a < t <= a + 60000
    ensures Sorted(head) && forall i :: 0 <= i < |head| ==> head[i] <= a
    ensures forall b :: b >= a ==> Passed(head, a, b) == 49
    ensures After(head) == Some(Window(50, t - 1))
  {
    var s := t - 60001;
    head := [s] + Burst(a, 49);
    BurstEqual(a, 49);
    assert [] + [s] == [s];
    forall b | b >= a ensures Passed(head, a, b) == 49 && After(head) == Some(Window(50, t - 1)) {
      After1([], s, a, b);
      BurstPasses([s], a, 49, a, b);
    }
    assert Passed(head, a, a) == 49;
  }

  lemma SortedConcat(x: seq<int>, y: seq<int>, m: int)
    requires Sorted(x) && Sorted(y)
    requires forall i :: 0 <= i < |x| ==> x[i] <= m
    requires forall i :: 0 <= i < |y| ==> m <= y[i]
    ensures Sorted(x + y)
  {
  }

  /** For every interval there is a sorted run of one client that reaches the bound exactly. */
  lemma CapIsReached(a: int, b: int) returns (times: seq<int>)
    requires a <= b
    ensures Sorted(times) && Passed(times, a, b) == Cap(b - a)
  {
    hide After, Passed, Waves, Sorted;
    var q, r := (b - a) / 60001, (b - a) % 60001;
    WavesSorted(a + r, q + 1);
    if r == 0 {
      times := Waves(a, q + 1);
      Nothing(a, b);
      assert [] + times == times;
      WavesPass([], a, q + 1, a, b);
    } else {
      var head := PartialWindow(a, a + r);
      times := head + Waves(a + r, q + 1);
      SortedConcat(head, Waves(a + r, q + 1), a);
      WavesPass(head, a + r, q + 1, a, b);
    }
  }

  lemma Nothing(a: int, b: int)
    ensures After([]) == None && Passed([], a, b) == 0
  {
  }
}

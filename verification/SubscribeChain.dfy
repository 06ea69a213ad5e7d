/** The gateway's chain of attempts to subscribe to worker responses, and its subscribed flag. */
module SubscribeChain {
  import opened Backoff

  const MAX_RETRIES: nat := 5

  /** An attempt is awaiting Redis, a timer is running before the next one, or the chain is over. */
  datatype Phase = Attempt(retry: nat) | Waiting(retry: nat) | Over

  /** The history counts attempts, scheduled retries with their delays, and changes of the flag. */
  datatype State = State(
    subscribed: bool, phase: Phase,
    attempts: nat, scheduled: nat, waited: nat, rises: nat, falls: nat, progress: nat)

  const INITIAL := State(false, Attempt(0), 1, 0, 0, 0, 0, 0)

  datatype Label = Acked | Refused | TimerFired | LastClientGone

  function Next(s: State, l: Label): State {
    match l
    case Acked =>
      if s.phase.Attempt? then s.(subscribed := true, phase := Over, rises := s.rises + 1, progress := s.progress + 1)
      else s
    case Refused =>
      if !s.phase.Attempt? then s
      else if s.phase.retry < MAX_RETRIES then
        s.(phase := Waiting(s.phase.retry + 1), scheduled := s.scheduled + 1,
           waited := s.waited + Pow2(s.phase.retry) * 1000, progress := s.progress + 1)
      else s.(phase := Over, progress := s.progress + 1)
    case TimerFired =>
      if !s.phase.Waiting? then s
      else if s.subscribed then s.(phase := Over, progress := s.progress + 1)
      else s.(phase := Attempt(s.phase.retry), attempts := s.attempts + 1, progress := s.progress + 1)
    case LastClientGone => if s.subscribed then s.(subscribed := false, falls := s.falls + 1) else s
  }

  function Run(s: State, trace: seq<Label>): State {
    if trace == [] then s else Next(Run(s, trace[..|trace| - 1]), trace[|trace| - 1])
  }

  lemma RunLast(s: State, trace: seq<Label>, l: Label)
    ensures Run(s, trace + [l]) == Next(Run(s, trace), l)
  {
    assert (trace + [l])[..|trace|] == trace;
  }

  /** Chain steps still possible. */
  function Remaining(p: Phase): int {
    match p
    case Attempt(r) => 2 * (MAX_RETRIES - r) + 1
    case Waiting(r) => 2 * (MAX_RETRIES - r) + 2
    case Over => 0
  }

  ghost predicate Inv(s: State) {
    && s.scheduled <= MAX_RETRIES
    && (s.phase.Over? || s.phase.retry == s.scheduled)
    && s.attempts == (if s.phase.Waiting? then s.scheduled else s.scheduled + 1)
    && s.waited == 1000 * (Pow2(s.scheduled) - 1)
    && s.rises <= (if s.phase.Over? then 1 else 0)
    && s.rises == s.falls + (if s.subscribed then 1 else 0)
    && s.progress + Remaining(s.phase) <= 11
  }

  lemma NextKeepsInv(s: State, l: Label)
    requires Inv(s)
    ensures Inv(Next(s, l))
  {
    assert Pow2(s.scheduled + 1) == 2 * Pow2(s.scheduled);
  }

  lemma {:induction false} ReachableInv(trace: seq<Label>)
    ensures Inv(Run(INITIAL, trace))
  {
    if trace == [] {
      assert Pow2(0) == 1;
    } else {
      ReachableInv(trace[..|trace| - 1]);
      NextKeepsInv(Run(INITIAL, trace[..|trace| - 1]), trace[|trace| - 1]);
    }
  }

  /**
   * In every run the chain makes at most 11 steps and 6 attempts, one at a time; after n scheduled
   * retries it has waited exactly 1000 * (2^n - 1) ms, at most 31000; the flag rises at most once
   * and falls at most once.
   */
  lemma ChainIsBounded(trace: seq<Label>)
    ensures var s := Run(INITIAL, trace);
      && s.progress <= 11 && s.attempts <= 6 && s.scheduled <= 5
      && s.waited == 1000 * (Pow2(s.scheduled) - 1) && s.waited <= 31000
      && s.falls <= s.rises <= 1 && (s.subscribed <==> s.rises == 1 && s.falls == 0)
      && (!s.phase.Over? ==> s.attempts <= s.scheduled + 1 && s.rises == 0)
  {
    ReachableInv(trace);
    Pow2Grows(Run(INITIAL, trace).scheduled, 5);
    Pow2Small();
  }

  /**
   * The whole effect of a label. A refused attempt is followed by a retry 2^r seconds later, five
   * times; the sixth refusal ends the chain.
   */
  lemma ChainSteps(s: State)
    ensures s.phase.Attempt? ==>
      && Next(s, Acked).phase.Over? && Next(s, Acked).subscribed
      && (s.phase.retry < 5 ==>
            && Next(s, Refused).phase == Waiting(s.phase.retry + 1)
            && Next(s, Refused).waited == s.waited + 1000 * Pow2(s.phase.retry))
      && (s.phase.retry >= 5 ==> Next(s, Refused).phase.Over?)
      && Next(s, Refused).subscribed == s.subscribed
    ensures s.phase.Waiting? && !s.subscribed ==>
      Next(s, TimerFired).phase == Attempt(s.phase.retry) && Next(s, TimerFired).attempts == s.attempts + 1
    ensures !Next(s, LastClientGone).subscribed && Next(s, LastClientGone).phase == s.phase
    ensures !s.phase.Attempt? ==> Next(s, Acked) == s && Next(s, Refused) == s
    ensures !s.phase.Waiting? ==> Next(s, TimerFired) == s
  {
  }

  /** The chain ends only with an acknowledgement, or after six attempts and 31 seconds of waiting. */
  lemma {:induction false} GivesUpAfterSix(trace: seq<Label>)
    ensures var s := Run(INITIAL, trace);
      s.phase.Over? && s.rises == 0 ==> s.attempts == 6 && s.scheduled == 5 && s.waited == 31000
  {
    if trace != [] {
      var init := trace[..|trace| - 1];
      GivesUpAfterSix(init);
      ReachableInv(init);
      Pow2Small();
    }
  }

  /** Once dropped with the last client, the subscription is never made again, whoever connects. */
  lemma {:induction false} NeverResubscribed(trace: seq<Label>, later: seq<Label>)
    requires Run(INITIAL, trace).falls > 0
    ensures !Run(INITIAL, trace + later).subscribed && Run(INITIAL, trace + later).falls == 1
  {
    if later == [] {
      assert trace + later == trace;
      ChainIsBounded(trace);
    } else {
      var init, l := later[..|later| - 1], later[|later| - 1];
      assert (trace + later)[..|trace + later| - 1] == trace + init;
      NeverResubscribed(trace, init);
      ReachableInv(trace + init);
    }
  }

  /** At `trace[j]` a pending attempt was acknowledged. */
  ghost predicate AckedAt(trace: seq<Label>, j: nat) {
    j < |trace| && trace[j] == Acked && Run(INITIAL, trace[..j]).phase.Attempt?
  }

  /** And no disconnect emptied the set of clients since. */
  ghost predicate StandsSince(trace: seq<Label>, j: nat) {
    AckedAt(trace, j) && forall k :: j < k < |trace| ==> trace[k] != LastClientGone
  }

  ghost predicate FellAt(trace: seq<Label>, j: nat, k: nat) {
    AckedAt(trace, j) && j < k < |trace| && trace[k] == LastClientGone
  }

  /**
   * The flag read off the trace: it is up iff a pending attempt was acknowledged and no disconnect
   * emptied the set of clients since, and it has fallen iff one did.
   */
  lemma {:induction false} SubscribedIff(trace: seq<Label>)
    ensures Run(INITIAL, trace).subscribed <==> exists j: nat :: StandsSince(trace, j)
    ensures Run(INITIAL, trace).falls > 0 <==> exists j: nat, k: nat :: FellAt(trace, j, k)
  {
    if trace != [] {
      var n := |trace| - 1;
      SubscribedIff(trace[..n]);
      ReachableInv(trace[..n]);
      StandsLast(trace, n);
      FallsLast(trace, n);
      StandsOrFell(trace[..n]);
      hide AckedAt, StandsSince, FellAt;
    }
  }

  lemma StandsLast(trace: seq<Label>, n: nat)
    requires n == |trace| - 1
    ensures (exists j: nat :: StandsSince(trace, j)) <==>
            || (trace[n] == Acked && Run(INITIAL, trace[..n]).phase.Attempt?)
            || (trace[n] != LastClientGone && exists j: nat :: StandsSince(trace[..n], j))
  {
    hide Run;
    forall j: nat | j < n ensures AckedAt(trace, j) <==> AckedAt(trace[..n], j) { assert trace[..n][..j] == trace[..j]; }
    if trace[n] == Acked && Run(INITIAL, trace[..n]).phase.Attempt? { assert StandsSince(trace, n); }
    if j: nat :| trace[n] != LastClientGone && StandsSince(trace[..n], j) { assert StandsSince(trace, j); }
    if j: nat :| StandsSince(trace, j) { assert j < n ==> StandsSince(trace[..n], j) && trace[n] != LastClientGone; }
  }

  lemma StandsOrFell(trace: seq<Label>)
    ensures (exists j: nat :: AckedAt(trace, j)) <==>
            (exists j: nat :: StandsSince(trace, j)) || (exists j: nat, k: nat :: FellAt(trace, j, k))
  {
    if j: nat :| AckedAt(trace, j) {
      hide AckedAt;
      if k :| j < k < |trace| && trace[k] == LastClientGone {
        assert FellAt(trace, j, k);
      } else {
        assert StandsSince(trace, j);
      }
    }
  }

  lemma FallsLast(trace: seq<Label>, n: nat)
    requires n == |trace| - 1
    ensures (exists j: nat, k: nat :: FellAt(trace, j, k)) <==>
            || (exists j: nat, k: nat :: FellAt(trace[..n], j, k))
            || (trace[n] == LastClientGone && exists j: nat :: AckedAt(trace[..n], j))
  {
    forall j: nat | j < n ensures AckedAt(trace, j) <==> AckedAt(trace[..n], j) { assert trace[..n][..j] == trace[..j]; }
    if j: nat, k: nat :| FellAt(trace[..n], j, k) { assert FellAt(trace, j, k); }
    if j: nat :| trace[n] == LastClientGone && AckedAt(trace[..n], j) { assert FellAt(trace, j, n); }
    if j: nat, k: nat :| FellAt(trace, j, k) { assert k < n ==> FellAt(trace[..n], j, k); }
  }

  /** The subscription is lost in such a run. */
  lemma SubscriptionIsDropped()
    ensures Run(INITIAL, [Acked, LastClientGone]).falls == 1
  {
    assert Run(INITIAL, []) == INITIAL;
    RunLast(INITIAL, [], Acked);
    RunLast(INITIAL, [Acked], LastClientGone);
    assert [] + [Acked] == [Acked] && [Acked] + [LastClientGone] == [Acked, LastClientGone];
  }
}

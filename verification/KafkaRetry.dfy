/** The Kafka consumer's retry counters and dead-letter records. */
module KafkaRetry {
  import opened Prelude
  import Backoff

  const MAX_RETRY_ATTEMPTS: nat := 3

  datatype Message = Message(key: Option<string>, timestamp: string, offset: string)

  /** The key unless it is missing or empty, else timestamp and offset. */
  function MessageId(m: Message): string {
    if m.key.Some? && m.key.value != "" then m.key.value else m.timestamp + "-" + m.offset
  }

  /** What processing a delivery comes to: no value, an exception, or a routed event. */
  datatype Body = NoValue | NotJson | NoEvent | Event(routed: bool)

  predicate Fails(b: Body) {
    b.NotJson? || b.NoEvent? || (b.Event? && !b.routed)
  }

  /** One call of `eachMessage`; `sendOk` says whether a dead-letter send would succeed. */
  datatype Delivery = Delivery(message: Message, body: Body, sendOk: bool)

  type Counters = map<string, nat>

  function Count(c: Counters, id: string): nat {
    if id in c then c[id] else 0
  }

  /** The visible outcome: `cleared` is the counter a success removed. */
  datatype Outcome =
    | Ignored
    | Succeeded(cleared: nat)
    | WillRetry(attempt: nat)
    | DeadLettered(processingAttempts: nat)
    | SendFailed

  function Handle(c: Counters, d: Delivery): (Counters, Outcome) {
    var id := MessageId(d.message);
    if d.body.NoValue? then (c, Ignored)
    else if !Fails(d.body) then (c - {id}, Succeeded(Count(c, id)))
    else if Count(c, id) >= MAX_RETRY_ATTEMPTS then
      if d.sendOk then (c - {id}, DeadLettered(Count(c, id) + 1)) else (c, SendFailed)
    else (c[id := Count(c, id) + 1], WillRetry(Count(c, id) + 1))
  }

  function Run(ds: seq<Delivery>): Counters {
    if ds == [] then map[] else Handle(Run(ds[..|ds| - 1]), ds[|ds| - 1]).0
  }

  function OutcomeOf(ds: seq<Delivery>, n: nat): Outcome
    requires n < |ds|
  {
    Handle(Run(ds[..n]), ds[n]).1
  }

  // ----- What one delivery does -----

  /**
   * The message's id is its key, or its timestamp and offset without one. A delivery without a value
   * changes nothing; one that is routed removes the id's counter; one that cannot be parsed, names no
   * event or is not routed counts up to three, and then is dead-lettered with the fourth attempt,
   * which removes the counter unless the send fails. No other id's counter changes.
   */
  lemma DeliveryIs(ds: seq<Delivery>, d: Delivery, other: string)
    ensures var m, before, after := d.message, Run(ds), Run(ds + [d]);
      var id := if m.key.Some? && m.key.value != "" then m.key.value else m.timestamp + "-" + m.offset;
      var n, o := Count(before, id), OutcomeOf(ds + [d], |ds|);
      && (other != id ==> (other in after <==> other in before) && (other in before ==> after[other] == before[other]))
      && (d.body == NoValue ==> after == before && o == Ignored)
      && (d.body == Event(true) ==> id !in after && o == Succeeded(n))
      && (d.body == NotJson || d.body == NoEvent || d.body == Event(false) ==>
            && n <= 3
            && (n < 3 ==> id in after && after[id] == n + 1 && o == WillRetry(n + 1))
            && (n == 3 && d.sendOk ==> id !in after && o == DeadLettered(4))
            && (n == 3 && !d.sendOk ==> id in after && after[id] == 3 && o == SendFailed))
  {
    hide Run, Handle, OutcomeOf;
    CountersInRange(ds);
    HandleIs(Run(ds), d, other);
    RunOneMore(ds, d);
  }

  lemma RunOneMore(ds: seq<Delivery>, d: Delivery)
    ensures Run(ds + [d]) == Handle(Run(ds), d).0 && OutcomeOf(ds + [d], |ds|) == Handle(Run(ds), d).1
  {
    assert (ds + [d])[..|ds|] == ds;
    hide Handle;
  }

  lemma HandleIs(c: Counters, d: Delivery, other: string)
    requires forall id :: id in c ==> 1 <= c[id] <= 3
    ensures var m, after, o := d.message, Handle(c, d).0, Handle(c, d).1;
      var id := if m.key.Some? && m.key.value != "" then m.key.value else m.timestamp + "-" + m.offset;
      var n := Count(c, id);
      && (other != id ==> (other in after <==> other in c) && (other in c ==> after[other] == c[other]))
      && (d.body == NoValue ==> after == c && o == Ignored)
      && (d.body == Event(true) ==> id !in after && o == Succeeded(n))
      && (d.body == NotJson || d.body == NoEvent || d.body == Event(false) ==>
            && n <= 3
            && (n < 3 ==> id in after && after[id] == n + 1 && o == WillRetry(n + 1))
            && (n == 3 && d.sendOk ==> id !in after && o == DeadLettered(4))
            && (n == 3 && !d.sendOk ==> id in after && after[id] == 3 && o == SendFailed))
  {
  }

  /** The failed deliveries of an id after its last successful one. */
  function SinceSuccess(ds: seq<Delivery>, id: string): seq<Delivery> {
    if ds == [] then []
    else
      var init, d := ds[..|ds| - 1], ds[|ds| - 1];
      if MessageId(d.message) != id || d.body == NoValue then SinceSuccess(init, id)
      else if d.body == Event(true) then []
      else SinceSuccess(init, id) + [d]
  }

  /** Failures counted from zero: every fourth one whose dead-letter send succeeds starts again. */
  function Tally(failed: seq<Delivery>): nat {
    if failed == [] then 0
    else
      var n := Tally(failed[..|failed| - 1]);
      if n < 3 then n + 1 else if failed[|failed| - 1].sendOk then 0 else 3
  }

  /** The counter is read off the failures after the last success, and off nothing else. */
  lemma {:induction false} CounterIs(ds: seq<Delivery>, id: string)
    ensures Count(Run(ds), id) == Tally(SinceSuccess(ds, id))
    ensures id in Run(ds) <==> Tally(SinceSuccess(ds, id)) != 0
  {
    if ds != [] {
      var init, d := ds[..|ds| - 1], ds[|ds| - 1];
      CounterIs(init, id);
      CountersInRange(init);
      CountersInRange(ds);
      if SinceSuccess(ds, id) == SinceSuccess(init, id) + [d] {
        assert SinceSuccess(ds, id)[..|SinceSuccess(ds, id)| - 1] == SinceSuccess(init, id);
      }
    }
  }

  /** When no dead-letter send fails, the counter is the remainder of these failures by four. */
  lemma {:induction false} CounterIsRemainder(ds: seq<Delivery>, id: string)
    requires forall d :: d in SinceSuccess(ds, id) ==> d.sendOk
    ensures Count(Run(ds), id) == |SinceSuccess(ds, id)| % 4
  {
    CounterIs(ds, id);
    TallyIsRemainder(SinceSuccess(ds, id));
  }

  lemma {:induction false} TallyIsRemainder(failed: seq<Delivery>)
    requires forall d :: d in failed ==> d.sendOk
    ensures Tally(failed) == |failed| % 4
  {
    if failed != [] { TallyIsRemainder(failed[..|failed| - 1]); }
  }

  // ----- The books of one message id -----

  /** Totals over the deliveries of one id. */
  datatype Books = Books(failures: nat, deadLettered: nat, sendsFailed: nat, cleared: nat)

  function Entry(b: Books, d: Delivery, o: Outcome): Books {
    Books(b.failures + (if Fails(d.body) then 1 else 0),
          b.deadLettered + (if o.DeadLettered? then 1 else 0),
          b.sendsFailed + (if o.SendFailed? then 1 else 0),
          b.cleared + (if o.Succeeded? then o.cleared else 0))
  }

  function BooksOf(ds: seq<Delivery>, id: string): Books {
    if ds == [] then Books(0, 0, 0, 0)
    else
      var init, d := ds[..|ds| - 1], ds[|ds| - 1];
      if MessageId(d.message) == id then Entry(BooksOf(init, id), d, Handle(Run(init), d).1) else BooksOf(init, id)
  }

  /** Stored counters lie in 1..3. */
  lemma {:induction false} CountersInRange(ds: seq<Delivery>)
    ensures forall id :: id in Run(ds) ==> 1 <= Run(ds)[id] <= MAX_RETRY_ATTEMPTS
  {
    if ds != [] { CountersInRange(ds[..|ds| - 1]); }
  }

  /**
   * For any deliveries and any id: every failure is one of the four behind a dead-letter record,
   * a failed send, still counted, or was cleared by a success.
   */
  lemma {:induction false} FailuresAccounted(ds: seq<Delivery>, id: string)
    ensures var b := BooksOf(ds, id);
      b.failures == 4 * b.deadLettered + b.sendsFailed + Count(Run(ds), id) + b.cleared
  {
    if ds != [] {
      FailuresAccounted(ds[..|ds| - 1], id);
      CountersInRange(ds[..|ds| - 1]);
    }
  }

  /** Every dead-letter record says four attempts. */
  lemma DeadLettersSayFour(ds: seq<Delivery>, n: nat)
    requires n < |ds|
    ensures OutcomeOf(ds, n).DeadLettered? ==> OutcomeOf(ds, n).processingAttempts == 4
  {
    CountersInRange(ds[..n]);
  }

  /**
   * While no delivery of an id succeeds and no send fails, exactly every fourth failure is
   * dead-lettered and the counter is the remainder.
   */
  lemma EveryFourthFailure(ds: seq<Delivery>, id: string)
    requires BooksOf(ds, id).cleared == 0 && BooksOf(ds, id).sendsFailed == 0
    ensures BooksOf(ds, id).deadLettered == BooksOf(ds, id).failures / 4
    ensures Count(Run(ds), id) == BooksOf(ds, id).failures % 4
  {
    FailuresAccounted(ds, id);
    CountersInRange(ds);
  }

  /** The ids delivered so far. */
  function Ids(ds: seq<Delivery>): set<string> {
    set d | d in ds :: MessageId(d.message)
  }

  lemma {:induction false} NoBooksUnlessDelivered(ds: seq<Delivery>, id: string)
    requires id !in Ids(ds)
    ensures BooksOf(ds, id) == Books(0, 0, 0, 0)
  {
    if ds != [] {
      assert ds[|ds| - 1] in ds;
      NoBooksUnlessDelivered(ds[..|ds| - 1], id);
    }
  }

  /**
   * `eachMessage` swallows the exception, so a failed message is not delivered again. When every
   * delivery has an id of its own, every failure is announced as the first of three retries, none
   * of which follows, and nothing is ever dead-lettered.
   */
  lemma DistinctNeverDeadLetters(ds: seq<Delivery>, n: nat)
    requires n < |ds| && MessageId(ds[n].message) !in Ids(ds[..n])
    ensures Fails(ds[n].body) ==> OutcomeOf(ds, n) == WillRetry(1)
    ensures !OutcomeOf(ds, n).DeadLettered? && !OutcomeOf(ds, n).SendFailed?
  {
    NoBooksUnlessDelivered(ds[..n], MessageId(ds[n].message));
    FailuresAccounted(ds[..n], MessageId(ds[n].message));
  }

  // ----- The service -----

  datatype Record = Record(key: Option<string>, processingAttempts: nat)

  /** The counters after a delivery, and what it sends, case by case. */
  lemma HandleCounters(c: Counters, d: Delivery)
    requires forall id :: id in c ==> 1 <= c[id] <= 3
    ensures var m, after, o := d.message, Handle(c, d).0, Handle(c, d).1;
      var id := if m.key.Some? && m.key.value != "" then m.key.value else m.timestamp + "-" + m.offset;
      var n := Count(c, id);
      && id == MessageId(m) && n <= 3 && (id in c <==> n > 0)
      && (d.body == NoValue ==> after == c)
      && (d.body == Event(true) ==> after == c - {id})
      && (Fails(d.body) ==> d.body == NotJson || d.body == NoEvent || d.body == Event(false))
      && (d.body == NotJson || d.body == NoEvent || d.body == Event(false) ==>
            && Fails(d.body) && Handle(c, d.(body := NotJson)) == Handle(c, d)
            && after == (if n < 3 then c[id := n + 1] else if d.sendOk then c - {id} else c))
      && (o.DeadLettered? <==> Fails(d.body) && n == 3 && d.sendOk)
      && (o.DeadLettered? ==> o.processingAttempts == 4)
  {
  }

  class KafkaService {
    var messageRetryCount: Counters
    /** What reached the dead-letter topic. */
    var deadLetters: seq<Record>
    ghost var deliveries: seq<Delivery>

    ghost predicate Valid()
      reads this
    {
      messageRetryCount == Run(deliveries)
    }

    constructor ()
      ensures Valid() && deliveries == [] && deadLetters == []
    {
      messageRetryCount, deadLetters, deliveries := map[], [], [];
    }

    method HandleFailedMessage(m: Message, sendOk: bool)
      modifies this`messageRetryCount, this`deadLetters
      ensures var (c, o) := Handle(old(messageRetryCount), Delivery(m, NotJson, sendOk));
        && messageRetryCount == c
        && deadLetters == old(deadLetters) + if o.DeadLettered? then [Record(m.key, o.processingAttempts)] else []
    {
      var messageId := MessageId(m);
      var retryCount: nat := 0;
      if messageId in messageRetryCount { retryCount := messageRetryCount[messageId]; }
      if retryCount >= MAX_RETRY_ATTEMPTS {
        if sendOk {
          deadLetters := deadLetters + [Record(m.key, retryCount + 1)];
          messageRetryCount := messageRetryCount - {messageId};
        }
      } else {
        messageRetryCount := messageRetryCount[messageId := retryCount + 1];
      }
    }

    /** The `eachMessage` handler; every record it sends says four attempts. */
    method EachMessage(m: Message, body: Body, sendOk: bool)
      requires Valid()
      modifies this
      ensures Valid() && deliveries == old(deliveries) + [Delivery(m, body, sendOk)]
      ensures var id := if m.key.Some? && m.key.value != "" then m.key.value else m.timestamp + "-" + m.offset;
        var n, was := Count(old(messageRetryCount), id), old(messageRetryCount);
        && n <= 3
        && (body == NoValue ==> messageRetryCount == was && deadLetters == old(deadLetters))
        && (body == Event(true) ==> messageRetryCount == was - {id} && deadLetters == old(deadLetters))
        && (body == NotJson || body == NoEvent || body == Event(false) ==>
              && (n < 3 ==> messageRetryCount == was[id := n + 1])
              && (n == 3 ==> messageRetryCount == if sendOk then was - {id} else was)
              && deadLetters == old(deadLetters) + if n == 3 && sendOk then [Record(m.key, 4)] else [])
      ensures var o := OutcomeOf(deliveries, |old(deliveries)|);
        deadLetters == old(deadLetters) + if o.DeadLettered? then [Record(m.key, 4)] else []
    {
      ghost var d := Delivery(m, body, sendOk);
      CountersInRange(deliveries);
      RunOneMore(deliveries, d);
      HandleCounters(messageRetryCount, d);
      hide Run, Handle, OutcomeOf, MessageId, Count;
      deliveries := deliveries + [d];
      if body.NoValue? { return; }
      if Fails(body) {
        HandleFailedMessage(m, sendOk);
      } else {
        var messageId := MessageId(m);
        if messageId in messageRetryCount { messageRetryCount := messageRetryCount - {messageId}; }
      }
    }

    /** A failed connect schedules the next one after the capped backoff. */
    method ConnectFailed(retries: nat) returns (next: nat, delay: nat)
      ensures next == retries + 1
      ensures 1000 <= delay <= 30000 && Backoff.TotalDelay(next) == Backoff.TotalDelay(retries) + delay
    {
      Backoff.DelayShape(retries, retries);
      delay := if 1000 * Backoff.Pow2(retries) <= 30000 then 1000 * Backoff.Pow2(retries) else 30000;
      next := retries + 1;
    }
  }
}

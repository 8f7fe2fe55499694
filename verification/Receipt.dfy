/** The block-bounded wait for a receipt (registry/registry.go:133-174). */
module Receipt {
  import opened Values

  const BLOCK_TIMEOUT := 50
  const STATUS_FAILED := 0

  datatype Receipt = Receipt(status: nat)

  /** What TransactionReceipt answers. */
  datatype Answer = Found(receipt: Receipt) | NotFound | QueryError(e: nat)

  /** A case the select takes: a head, with the answer of the query made at that
      moment; a value from sub.Err(), nil once that channel is closed; or the
      client being closed. */
  datatype Event = Head(answer: Answer) | SubErr(err: Option<nat>) | Closed

  datatype DoError = Submit(e: nat) | TimedOut | TransactionFailed | Query(q: nat) | Subscription(s: nat) | ClientClosed

  /** What `do` returns: a receipt, an error, both nil, or nothing yet because
      the events so far decide nothing. */
  datatype Decision = Got(receipt: Receipt) | Failed(error: DoError) | BothNil | Waiting

  /** An event that ends the wait whenever it is chosen. */
  predicate Decisive(e: Event) {
    e != Head(NotFound)
  }

  /** Event i is the first the wait ends on: all before it are heads without a
      receipt, at most 50 of them, and it is decisive or one head too many. */
  predicate EndsAt(events: seq<Event>, i: nat) {
    && i < |events| && i <= 50
    && (forall j :: 0 <= j < i ==> !Decisive(events[j]))
    && (Decisive(events[i]) || i == 50)
  }

  /** The receipt first shows at head k <= 50, and nothing decisive came before. */
  predicate FirstVisible(events: seq<Event>, k: nat) {
    && 1 <= k <= 50 && k <= |events|
    && events[k - 1].Head? && events[k - 1].answer.Found?
    && forall j :: 0 <= j < k - 1 ==> events[j] == Head(NotFound)
  }

  /** What ending on event i means. */
  function Verdict(e: Event, i: nat): Decision {
    match e
    case Head(answer) =>
      if i == 50 then Failed(TimedOut)
      else if answer.QueryError? then Failed(Query(answer.e))
      else if answer.Found? && answer.receipt.status == 0 then Failed(TransactionFailed)
      else if answer.Found? then Got(answer.receipt)
      else Waiting
    case SubErr(err) => if err.Some? then Failed(Subscription(err.value)) else BothNil
    case Closed => Failed(ClientClosed)
  }

  class Client {
    /** Subscriptions to the block feed. */
    var subscribers: nat

    constructor ()
      ensures subscribers == 0
    {
      subscribers := 0;
    }

    /** Client.do: `submitted` is the error of the call that submits the
        transaction, `events` the events its select then takes. */
    method Do(submitted: Option<nat>, events: seq<Event>) returns (d: Decision, heads: nat, queries: nat)
      modifies this
      ensures heads <= 51 && queries <= 50 && queries <= heads <= queries + 1
      ensures submitted.Some? ==> d == Failed(Submit(submitted.value)) && heads == 0
      ensures submitted.None? ==>
        forall i: nat :: EndsAt(events, i) ==>
          && d == Verdict(events[i], i) && !d.Waiting?
          && heads == (if events[i].Head? then i + 1 else i)
          && queries == (if events[i].Head? && i < 50 then i + 1 else i)
      ensures submitted.None? && (forall i: nat :: !EndsAt(events, i)) ==> d == Waiting && heads == queries == |events|
      ensures submitted.None? ==>
        forall k: nat :: FirstVisible(events, k) ==>
          && heads == queries == k
          && (d == Failed(TransactionFailed) || d == Got(events[k - 1].answer.receipt))
      ensures d.Got? ==> d.receipt.status != 0
      ensures subscribers == old(subscribers) + if d.Waiting? then 1 else 0
    {
      heads, queries := 0, 0;
      subscribers := subscribers + 1;
      if submitted.Some? {
        d := Failed(Submit(submitted.value));
        subscribers := subscribers - 1;
        return;
      }
      d := Waiting;
      var count, next := 0, 0;
      while d.Waiting? && next < |events|
        invariant next <= |events| && subscribers == old(subscribers) + 1
        invariant d.Waiting? ==>
          && count == heads == queries == next <= BLOCK_TIMEOUT
          && forall j :: 0 <= j < next ==> events[j] == Head(NotFound)
        invariant !d.Waiting? ==>
          && 0 < next && EndsAt(events, next - 1) && d == Verdict(events[next - 1], next - 1)
          && heads == (if events[next - 1].Head? then next else next - 1)
          && queries == (if events[next - 1].Head? && next - 1 < BLOCK_TIMEOUT then next else next - 1)
        decreases |events| - next
      {
        var e := events[next];
        next := next + 1;
        match e {
          case Head(answer) =>
            heads := heads + 1;
            count := count + 1;
            if count > BLOCK_TIMEOUT {
              d := Failed(TimedOut);
            } else {
              queries := queries + 1;
              if answer.Found? {
                d := if answer.receipt.status == STATUS_FAILED then Failed(TransactionFailed) else Got(answer.receipt);
              } else if answer != NotFound {
                d := Failed(Query(answer.e));
              }
            }
          case SubErr(err) =>
            d := if err.Some? then Failed(Subscription(err.value)) else BothNil;
          case Closed =>
            d := Failed(ClientClosed);
        }
      }
      if d.Waiting? {
        NeverEnds(events);
      } else {
        OneEnd(events, next - 1);
        assert forall k: nat :: FirstVisible(events, k) ==> EndsAt(events, k - 1);
        subscribers := subscribers - 1;
      }
    }

    /** Client.setGraph keeps only the error of do. */
    method SetGraph(submitted: Option<nat>, events: seq<Event>) returns (returned: bool, err: Option<DoError>)
      modifies this
      ensures returned && err.None? <==> submitted.None? && exists i: nat :: Succeeds(events, i)
      ensures !returned ==> |events| <= 50
    {
      var d, heads, queries := Do(submitted, events);
      SomeEnd(events);
      returned := !d.Waiting?;
      err := if d.Failed? then Some(d.error) else None;
      if submitted.None? {
        forall i: nat | Succeeds(events, i) ensures d.Got? || d.BothNil? {
          assert EndsAt(events, i);
        }
        if i: nat :| EndsAt(events, i) {
          assert d == Verdict(events[i], i);
          assert d.Got? || d.BothNil? ==> Succeeds(events, i);
        }
      }
    }
  }

  /** setGraph returns no error: the wait ends on a receipt that has not failed
      within 50 heads, or on a nil from the subscription. */
  predicate Succeeds(events: seq<Event>, i: nat) {
    && EndsAt(events, i)
    && (events[i] == SubErr(None)
        || (i < 50 && events[i].Head? && events[i].answer.Found? && events[i].answer.receipt.status != 0))
  }

  lemma NeverEnds(events: seq<Event>)
    requires forall j :: 0 <= j < |events| ==> !Decisive(events[j])
    requires |events| <= 50
    ensures forall i: nat :: !EndsAt(events, i)
  {
  }

  lemma OneEnd(events: seq<Event>, k: nat)
    requires EndsAt(events, k)
    ensures forall i: nat :: EndsAt(events, i) <==> i == k
  {
  }

  /** The wait ends on one event at most, and on some event of every trace of
      more than 50. */
  lemma {:induction false} SomeEnd(events: seq<Event>)
    ensures |events| > 50 ==> exists i: nat :: EndsAt(events, i)
    decreases |events|
  {
    if |events| > 50 {
      var i := FirstDecisive(events[..50]);
      assert forall j :: 0 <= j < 50 ==> events[..50][j] == events[j];
      assert EndsAt(events, i);
    }
  }

  /** The position of the first decisive event, or the length without one. */
  function FirstDecisive(events: seq<Event>): (i: nat)
    ensures i <= |events| && (i < |events| ==> Decisive(events[i]))
    ensures forall j :: 0 <= j < i ==> !Decisive(events[j])
  {
    if events == [] || Decisive(events[0]) then 0 else 1 + FirstDecisive(events[1..])
  }
}

/** The outcome of a query. A submitted query waits for an answer; each
    timeout either retransmits or, once all retransmissions have timed out,
    gives up. An answer or the final timeout completes the query and
    invokes its callback; nothing happens to a completed query afterwards.

    The state lives in the record's own answer fields: `ip` is set exactly
    when an answer arrived, and `trynum == ntries + 1` with `ip` unset is
    the "no answer" outcome. The attempt counter starts at 0. */
module QueryLifecycle {
  import opened Wrappers
  import opened ConfirmQuery
  import Packet

  datatype Status = Pending | Answered | Exhausted

  /** The answer fields are one of the three states. */
  predicate Valid(q: Query) {
    && 0 <= q.trynum <= q.ntries + 1
    && (q.ip.Some? <==> q.response.Some?)
    && (q.ip.Some? ==> q.trynum <= q.ntries)
  }

  /** Reads the state off the answer fields: an answer sets `ip`; "no
      answer" leaves `ip` unset with `trynum == ntries + 1`; a valid query
      with neither is still waiting. */
  function StatusOf(q: Query): (st: Status)
    ensures st == Answered ==> q.ip.Some?
    ensures st == Exhausted ==> q.ip.None? && q.trynum == q.ntries + 1
    ensures Valid(q) ==> (st == Pending <==> q.ip.None? && q.trynum <= q.ntries)
  {
    if q.ip.Some? then Answered
    else if q.trynum == q.ntries + 1 then Exhausted
    else Pending
  }

  /** What can happen to a submitted query: its timer fires, or the engine
      routes a matching answer from `from` to it. */
  datatype Event = Timeout | Reply(from: SockAddr, response: Packet.Packet)

  /** What a step does besides updating the query. */
  datatype Action = Ignore | Retransmit | Complete

  datatype Stepped = Stepped(query: Query, action: Action)

  /** One event applied to a query. */
  function Next(q: Query, e: Event): (s: Stepped)
    requires Valid(q)
    ensures Valid(s.query)
    ensures Identity(s.query) == Identity(q) && s.query.ntries == q.ntries
    ensures StatusOf(q) != Pending ==> s == Stepped(q, Ignore)
    ensures s.action == Complete <==> StatusOf(q) == Pending && StatusOf(s.query) != Pending
    ensures s.action == Retransmit ==>
              StatusOf(s.query) == Pending && s.query.trynum == q.trynum + 1
    ensures StatusOf(q) == Pending && StatusOf(s.query) == Exhausted ==>
              e.Timeout? && q.trynum == q.ntries
    ensures StatusOf(q) == Pending && e.Timeout? ==>
              && (q.trynum < q.ntries ==>
                    s.action == Retransmit && s.query == q.(trynum := q.trynum + 1))
              && (q.trynum == q.ntries ==>
                    s.action == Complete && StatusOf(s.query) == Exhausted
                    && s.query == q.(trynum := q.ntries + 1))
    ensures StatusOf(q) == Pending && e.Reply? ==>
              StatusOf(s.query) == Answered
              && s.query == q.(ip := Some(e.from), response := Some(e.response))
  {
    if StatusOf(q) != Pending then Stepped(q, Ignore)
    else match e
      case Timeout =>
        if q.trynum < q.ntries then Stepped(q.(trynum := q.trynum + 1), Retransmit)
        else Stepped(q.(trynum := q.ntries + 1), Complete)
      case Reply(from, response) =>
        Stepped(q.(ip := Some(from), response := Some(response)), Complete)
  }

  /** The state after a sequence of events, and how many retransmissions
      and callback invocations happened on the way. */
  datatype Trace = Trace(query: Query, retransmits: nat, callbacks: nat)

  /** Only the answer fields of `b` differ from `a`: the caller-filled
      fields are fixed once a query is submitted. */
  predicate SameSubmission(a: Query, b: Query) {
    b == a.(trynum := b.trynum, ip := b.ip, response := b.response)
  }

  function Run(q: Query, events: seq<Event>): (t: Trace)
    requires Valid(q)
    ensures Valid(t.query)
    ensures Identity(t.query) == Identity(q)
    ensures SameSubmission(q, t.query)
    ensures t.query.padding == q.padding && t.query.ntries == q.ntries
    decreases |events|
  {
    if events == [] then Trace(q, 0, 0)
    else
      var s := Next(q, events[0]);
      var rest := Run(s.query, events[1..]);
      Trace(rest.query,
            rest.retransmits + (if s.action == Retransmit then 1 else 0),
            rest.callbacks + (if s.action == Complete then 1 else 0))
  }

  /** A completed query is final: later events, duplicate answers included,
      change nothing and invoke nothing. */
  lemma {:induction false} CompletedIsFinal(q: Query, events: seq<Event>)
    requires Valid(q) && StatusOf(q) != Pending
    ensures Run(q, events) == Trace(q, 0, 0)
    decreases |events|
  {
    if events != [] {
      CompletedIsFinal(q, events[1..]);
    }
  }

  /** The callback fires exactly once if the query reaches an outcome and
      never otherwise, whatever the events. */
  lemma {:induction false} CallbackExactlyOnce(q: Query, events: seq<Event>)
    requires Valid(q) && StatusOf(q) == Pending
    ensures var t := Run(q, events);
            && (StatusOf(t.query) != Pending ==> t.callbacks == 1)
            && (StatusOf(t.query) == Pending ==> t.callbacks == 0)
    decreases |events|
  {
    if events != [] {
      var s := Next(q, events[0]);
      if StatusOf(s.query) == Pending {
        CallbackExactlyOnce(s.query, events[1..]);
      } else {
        CompletedIsFinal(s.query, events[1..]);
      }
    }
  }

  /** `n` timer expiries in a row. */
  function Timeouts(n: nat): (es: seq<Event>)
    ensures |es| == n
    ensures forall i :: 0 <= i < n ==> es[i] == Timeout
  {
    seq(n, _ => Timeout)
  }

  /** With no answer, the query gives up after its remaining timeouts:
      one retransmission for each try left, then the "no answer" outcome
      with `ip` unset and `trynum == ntries + 1`, and one callback. */
  lemma {:induction false} SilenceExhausts(q: Query)
    requires Valid(q) && StatusOf(q) == Pending
    ensures var t := Run(q, Timeouts(q.ntries - q.trynum + 1));
            && StatusOf(t.query) == Exhausted
            && t.query.ip.None?
            && t.query.trynum == q.ntries + 1
            && t.retransmits == q.ntries - q.trynum
            && t.callbacks == 1
    decreases q.ntries - q.trynum
  {
    var es := Timeouts(q.ntries - q.trynum + 1);
    var s := Next(q, Timeout);
    assert es[0] == Timeout;
    if q.trynum < q.ntries {
      assert es[1..] == Timeouts(s.query.ntries - s.query.trynum + 1);
      SilenceExhausts(s.query);
    } else {
      assert es[1..] == [];
    }
  }

  /** A fresh query answered by nobody retransmits `ntries` times and ends
      with `trynum == ntries + 1`. */
  lemma FreshQueryExhausts(q: Query)
    requires Valid(q) && Unsent(q)
    ensures var t := Run(q, Timeouts(q.ntries + 1));
            && StatusOf(t.query) == Exhausted && t.query.ip.None?
            && t.query.trynum == q.ntries + 1
            && t.retransmits == q.ntries && t.callbacks == 1
  {
    SilenceExhausts(q);
  }

  /** Whatever the events, a query that ends with no answer got there
      through one retransmission per try it had left, and ends with `ip`
      unset and `trynum == ntries + 1`. */
  lemma {:induction false} NoAnswerAfterAllRetransmissions(q: Query, events: seq<Event>)
    requires Valid(q) && StatusOf(q) == Pending
    requires StatusOf(Run(q, events).query) == Exhausted
    ensures var t := Run(q, events);
            && t.retransmits == q.ntries - q.trynum
            && t.query.ip.None?
            && t.query.trynum == q.ntries + 1
            && t.callbacks == 1
    decreases |events|
  {
    CallbackExactlyOnce(q, events);
    if events != [] {
      var s := Next(q, events[0]);
      if StatusOf(s.query) == Pending {
        NoAnswerAfterAllRetransmissions(s.query, events[1..]);
      } else {
        CompletedIsFinal(s.query, events[1..]);
      }
    }
  }

  /** Whatever the events, a query retransmits at most once per try it has
      left, and every retransmission bumps the attempt counter by one; the
      final timeout bumps it once more without retransmitting. */
  lemma {:induction false} RetransmitsBounded(q: Query, events: seq<Event>)
    requires Valid(q) && StatusOf(q) == Pending
    ensures var t := Run(q, events);
            && t.retransmits <= q.ntries - q.trynum
            && (StatusOf(t.query) != Exhausted ==> t.query.trynum == q.trynum + t.retransmits)
            && (StatusOf(t.query) == Exhausted ==> t.query.trynum == q.trynum + t.retransmits + 1)
    decreases |events|
  {
    if events != [] {
      var s := Next(q, events[0]);
      if StatusOf(s.query) == Pending {
        RetransmitsBounded(s.query, events[1..]);
      } else {
        CompletedIsFinal(s.query, events[1..]);
      }
    }
  }

  /** Any mix of answers and timeouts at least as long as the tries left
      brings a pending query to an outcome. */
  lemma {:induction false} AnyEventsComplete(q: Query, events: seq<Event>)
    requires Valid(q) && StatusOf(q) == Pending
    requires |events| >= q.ntries - q.trynum + 1
    ensures StatusOf(Run(q, events).query) != Pending
    decreases |events|
  {
    var s := Next(q, events[0]);
    if StatusOf(s.query) == Pending {
      AnyEventsComplete(s.query, events[1..]);
    } else {
      CompletedIsFinal(s.query, events[1..]);
    }
  }

  /** Every constructor yields a valid pending query. */
  lemma ConstructedQueriesArePending(q: Query)
    requires Unsent(q)
    ensures Valid(q) && StatusOf(q) == Pending
  {
  }
}

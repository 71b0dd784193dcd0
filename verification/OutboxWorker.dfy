/** The outbox collection and the worker's poll, written as the program runs them, as runs of the claim protocol. */
module OutboxWorker {
  import opened Options
  import opened Outbox

  /** Every step of the run is enabled where it is taken. */
  ghost predicate Legal(s: System, events: seq<Event>) {
    |events| == 0
    || (Legal(s, events[..|events| - 1]) && Enabled(Run(s, events[..|events| - 1]), events[|events| - 1]))
  }

  /** The run takes the one worker of s from s to s'. */
  ghost predicate Leads(s: System, events: seq<Event>, s': System) {
    Legal(s, events) && Run(s, events) == s'
  }

  lemma Extend(s: System, events: seq<Event>, m: System, e: Event)
    requires Leads(s, events, m) && Enabled(m, e)
    ensures Leads(s, events + [e], Step(m, e))
  {
    assert (events + [e])[..|events|] == events;
  }

  function SetOf(ids: seq<nat>): set<nat> {
    set m | m in ids
  }

  // ---- phase 1 ----

  predicate IsPending(messages: seq<Message>, m: nat) {
    m < |messages| && messages[m].status.Pending?
  }

  /** Distinct pending messages, oldest first, and no other pending message is older. */
  ghost predicate OldestFirst(messages: seq<Message>, ids: seq<nat>) {
    && Distinct(ids)
    && (forall j :: 0 <= j < |ids| ==> IsPending(messages, ids[j]))
    && (forall j, k :: 0 <= j < k < |ids| ==> messages[ids[j]].createdAt <= messages[ids[k]].createdAt)
    && (forall m: nat :: IsPending(messages, m) && m !in ids ==>
          forall j :: 0 <= j < |ids| ==> messages[ids[j]].createdAt <= messages[m].createdAt)
  }

  /** The oldest pending messages: as many as `limit` allows, or all of them; limit 0 means no limit. */
  ghost predicate OldestPending(messages: seq<Message>, ids: seq<nat>, limit: nat) {
    && OldestFirst(messages, ids) && (limit > 0 ==> |ids| <= limit)
    && (limit == 0 || |ids| < limit ==> forall m: nat :: IsPending(messages, m) ==> m in ids)
  }

  function Oldest(messages: seq<Message>, chosen: seq<nat>): (best: Option<nat>)
    ensures best.Some? ==> IsPending(messages, best.value) && best.value !in chosen
    ensures best.Some? ==> forall m: nat :: IsPending(messages, m) && m !in chosen ==>
                             messages[best.value].createdAt <= messages[m].createdAt
    ensures best.None? ==> forall m: nat :: IsPending(messages, m) ==> m in chosen
  {
    if |messages| == 0 then None
    else
      var n := |messages| - 1;
      var front := Oldest(messages[..n], chosen);
      assert forall m: nat :: m < n ==> IsPending(messages[..n], m) == IsPending(messages, m);
      if !messages[n].status.Pending? || n in chosen then front
      else if front.None? || messages[n].createdAt < messages[front.value].createdAt then Some(n)
      else front
  }

  lemma OldestExtends(messages: seq<Message>, ids: seq<nat>)
    requires OldestFirst(messages, ids) && Oldest(messages, ids).Some?
    ensures OldestFirst(messages, ids + [Oldest(messages, ids).value])
  {
    var next := Oldest(messages, ids).value;
    assert IsPending(messages, next) && next !in ids;
    assert forall m: nat :: m in ids + [next] <==> m in ids || m == next;
  }

  function PendingSet(messages: seq<Message>): set<nat> {
    set m | 0 <= m < |messages| && IsPending(messages, m)
  }

  lemma ClaimStarts(s: System, ids: seq<nat>)
    requires s.workers == [Idle] && forall j :: 0 <= j < |ids| ==> IsPending(s.messages, ids[j])
    ensures ids == [] ==> Leads(s, [Find(0, SetOf(ids))], s)
    ensures ids != [] ==> Leads(s, [Find(0, SetOf(ids)), StartClaim(0)],
                                s.(workers := [Claiming(s.claims, SetOf(ids), {})], claims := s.claims + 1))
  {
    var find := Find(0, SetOf(ids));
    Extend(s, [], s, find);
    assert [] + [find] == [find];
    if ids == [] {
      assert Step(s, find).workers == [Idle];
    } else {
      assert ids[0] in SetOf(ids);
      Extend(s, [find], Step(s, find), StartClaim(0));
      assert [find] + [StartClaim(0)] == [find, StartClaim(0)];
      assert Step(Step(s, find), StartClaim(0)).workers == [Claiming(s.claims, SetOf(ids), {})];
    }
  }

  /** The steps after the last document was visited. */
  function ClaimEnd(taken: set<nat>): seq<Event> {
    if taken == {} then [EndClaim(0)] else [EndClaim(0), Fetch(0)]
  }

  function FetchedBatch(messages: seq<Message>, claim: nat): Worker {
    if FetchBy(messages, claim) == [] then Idle else Batch(claim, FetchBy(messages, claim), 0, ToPublish)
  }

  /** What is fetched by a fresh claim id is what was claimed under it, each message once. */
  lemma ClaimedExactly(before: seq<Message>, after: seq<Message>, ids: seq<nat>, claim: nat)
    requires forall m :: 0 <= m < |before| && before[m].claim.Some? ==> before[m].claim.value < claim
    requires forall j :: 0 <= j < |ids| ==> IsPending(before, ids[j])
    requires |after| == |before|
    requires forall m: nat :: m < |after| ==> after[m] == if m in ids then ClaimedBy(before[m], claim) else before[m]
    ensures var events := FetchBy(after, claim);
      && Distinct(events) && (forall j :: 0 <= j < |events| ==> events[j] < |after|)
      && (forall m: nat :: m in events <==> m in ids)
      && after == ClaimAll(before, events, claim)
  {
    var events := FetchBy(after, claim);
    assert forall j :: 0 <= j < |events| ==> events[j] in events;
    forall m: nat ensures m in events <==> m in ids {
      if m in ids {
        assert IsPending(before, m);
      }
    }
  }

  lemma ClaimEnds(start: System, trace: seq<Event>, s: System, claim: nat, taken: set<nat>)
    requires s.workers == [Claiming(claim, {}, taken)] && Leads(start, trace, s)
    ensures Leads(start, trace + ClaimEnd(taken),
                  s.(workers := [if taken == {} then Idle else FetchedBatch(s.messages, claim)]))
  {
    Extend(start, trace, s, EndClaim(0));
    var s1 := Step(s, EndClaim(0));
    if taken == {} {
      assert s1.workers == [Idle];
    } else {
      assert s1.workers == [Claimed(claim, taken)];
      Extend(start, trace + [EndClaim(0)], s1, Fetch(0));
      assert trace + [EndClaim(0)] + [Fetch(0)] == trace + ClaimEnd(taken);
      assert Step(s1, Fetch(0)).workers == [FetchedBatch(s.messages, claim)];
    }
  }

  /** The collection after the given documents were claimed. */
  function ClaimAll(messages: seq<Message>, events: seq<nat>, claim: nat): seq<Message> {
    seq(|messages|, m requires 0 <= m < |messages| =>
      if m in events then ClaimedBy(messages[m], claim) else messages[m])
  }

  // ---- the collection ----

  class OutboxDAO {
    var messages: seq<Message>
    var claims: nat

    constructor ()
      ensures messages == [] && claims == 0
    {
      messages, claims := [], 0;
    }

    ghost function View(worker: Worker, queue: seq<nat>): System
      reads this
    {
      System(messages, [worker], claims, queue)
    }

    method Create(payload: nat, createdAt: int)
      modifies this
      ensures messages == old(messages) + [Message(payload, createdAt, Pending, None, 0)] && claims == old(claims)
      ensures forall queue :: View(Idle, queue) == Step(old(View(Idle, queue)), Insert(payload, createdAt))
    {
      messages := messages + [Message(payload, createdAt, Pending, None, 0)];
    }

    /** Claim ids are drawn from a counter: every stored one has been drawn. */
    ghost predicate Valid()
      reads this
    {
      forall m :: 0 <= m < |messages| && messages[m].claim.Some? ==> messages[m].claim.value < claims
    }

    /** The query of phase 1. */
    method FindPending(limit: nat) returns (ids: seq<nat>)
      ensures OldestPending(messages, ids, limit)
    {
      ids := [];
      var next := Oldest(messages, ids);
      while next.Some? && (limit == 0 || |ids| < limit)
        invariant next == Oldest(messages, ids)
        invariant OldestFirst(messages, ids) && (limit > 0 ==> |ids| <= limit)
        decreases PendingSet(messages) - SetOf(ids)
      {
        OldestExtends(messages, ids);
        assert next.value in PendingSet(messages) - SetOf(ids);
        assert SetOf(ids + [next.value]) == SetOf(ids) + {next.value};
        ids := ids + [next.value];
        next := Oldest(messages, ids);
      }
    }

    /** Phase 2, document by document: those still pending are taken. */
    method ClaimMany(ids: seq<nat>, claim: nat, ghost start: System, ghost before: seq<Event>, ghost queue: seq<nat>)
      returns (modified: nat, ghost taken: set<nat>, ghost trace: seq<Event>)
      requires Valid() && claim < claims && Distinct(ids) && forall j :: 0 <= j < |ids| ==> ids[j] < |messages|
      requires Leads(start, before, View(Claiming(claim, SetOf(ids), {}), queue))
      modifies this`messages
      ensures Valid() && |messages| == |old(messages)|
      ensures forall m: nat :: m in taken <==> m in ids && IsPending(old(messages), m)
      ensures forall m: nat :: m < |messages| ==>
                messages[m] == if m in ids then ClaimedBy(old(messages)[m], claim) else old(messages)[m]
      ensures modified > 0 <==> taken != {}
      ensures Leads(start, trace, View(Claiming(claim, {}, taken), queue))
    {
      modified, taken, trace := 0, {}, before;
      assert ids[0..] == ids;
      for j := 0 to |ids|
        invariant |messages| == |old(messages)|
        invariant forall m: nat :: m in taken <==> m in ids[..j] && IsPending(old(messages), m)
        invariant forall m: nat :: m < |messages| ==>
                    messages[m] == if m in ids[..j] then ClaimedBy(old(messages)[m], claim) else old(messages)[m]
        invariant modified > 0 <==> taken != {}
        invariant Leads(start, trace, View(Claiming(claim, SetOf(ids[j..]), taken), queue))
      {
        Extend(start, trace, View(Claiming(claim, SetOf(ids[j..]), taken), queue), ClaimDocument(0, ids[j]));
        trace := trace + [ClaimDocument(0, ids[j])];
        assert SetOf(ids[j..]) - {ids[j]} == SetOf(ids[j + 1..]);
        assert ids[..j + 1] == ids[..j] + [ids[j]];
        if messages[ids[j]].status.Pending? {
          modified, taken := modified + 1, taken + {ids[j]};
        }
        messages := messages[ids[j] := ClaimedBy(messages[ids[j]], claim)];
      }
      assert ids[..|ids|] == ids && SetOf(ids[|ids|..]) == {};
    }

    /** Phases 2 and 3 for the ids that phase 1 found. */
    method ClaimFound(ids: seq<nat>, ghost queue: seq<nat>) returns (events: seq<nat>, ghost trace: seq<Event>)
      requires Valid() && ids != [] && Distinct(ids) && forall j :: 0 <= j < |ids| ==> IsPending(messages, ids[j])
      modifies this
      ensures Valid() && claims == old(claims) + 1
      ensures Distinct(events) && (forall j :: 0 <= j < |events| ==> events[j] < |messages|)
      ensures forall m: nat :: m in events <==> m in ids
      ensures messages == ClaimAll(old(messages), events, old(claims))
      ensures Leads(old(View(Idle, queue)), trace,
                    View(if events == [] then Idle else Batch(old(claims), events, 0, ToPublish), queue))
    {
      ghost var start := View(Idle, queue);
      ClaimStarts(start, ids);
      var claim := claims;
      claims := claims + 1;
      var modified;
      ghost var taken;
      modified, taken, trace := ClaimMany(ids, claim, start, [Find(0, SetOf(ids)), StartClaim(0)], queue);
      ClaimedExactly(start.messages, messages, ids, claim);
      ClaimEnds(start, trace, View(Claiming(claim, {}, taken), queue), claim, taken);
      trace := trace + ClaimEnd(taken);
      events := [];
      if modified > 0 {
        events := FetchBy(messages, claim);
      }
    }

    /** Phases 1 to 3: the oldest pending messages are claimed, and exactly they are fetched. */
    method ClaimAndFetchEvents(limit: nat, ghost queue: seq<nat>) returns (events: seq<nat>, ghost trace: seq<Event>)
      requires Valid()
      modifies this
      ensures Valid() && |messages| == |old(messages)|
      ensures exists ids :: OldestPending(old(messages), ids, limit) && forall m: nat :: m in events <==> m in ids
      ensures Distinct(events) && (forall j :: 0 <= j < |events| ==> events[j] < |messages|)
      ensures messages == ClaimAll(old(messages), events, old(claims))
      ensures Leads(old(View(Idle, queue)), trace,
                    View(if events == [] then Idle else Batch(old(claims), events, 0, ToPublish), queue))
    {
      var ids := FindPending(limit);
      if |ids| == 0 {
        ClaimStarts(View(Idle, queue), ids);
        events, trace := [], [Find(0, SetOf(ids))];
      } else {
        events, trace := ClaimFound(ids, queue);
      }
    }

    /** Marking a message that does not exist changes nothing and is no error. */
    method MarkAsProcessed(id: nat)
      requires Valid()
      modifies this
      ensures Valid() && claims == old(claims)
      ensures messages == if id < |old(messages)| then old(messages)[id := old(messages)[id].(status := Processed)]
                          else old(messages)
    {
      if id < |messages| {
        messages := messages[id := Done(messages[id])];
      }
    }

    /** The message can be claimed again, and counts one more retry. */
    method IncrementRetry(id: nat)
      requires Valid()
      modifies this
      ensures Valid() && claims == old(claims)
      ensures id < |old(messages)| ==>
                messages == old(messages)[id := old(messages)[id].(status := Pending,
                                                                   retries := old(messages)[id].retries + 1)]
      ensures id >= |old(messages)| ==> messages == old(messages)
    {
      if id < |messages| {
        messages := messages[id := Retry(messages[id])];
      }
    }
  }

  // ---- the worker ----

  /** A worker about to publish its j-th event. */
  function At(claim: nat, events: seq<nat>, j: nat): Worker {
    if j < |events| then Batch(claim, events, j, ToPublish) else Idle
  }

  /** What becomes of a claimed message, given whether the broker took it and whether that was written down. */
  function Settled(m: Message, accepted: bool, saved: bool): Message {
    if !saved then m else if accepted then Done(m) else Retry(m)
  }

  function Accepted(events: seq<nat>, broker: nat -> bool): seq<nat> {
    if |events| == 0 then []
    else
      var front, last := Accepted(events[..|events| - 1], broker), events[|events| - 1];
      if broker(last) then front + [last] else front
  }

  /** The collection after a whole batch was handled. */
  function SettleAll(messages: seq<Message>, events: seq<nat>, broker: nat -> bool, saves: nat -> bool): seq<Message> {
    seq(|messages|, m requires 0 <= m < |messages| =>
      if m in events then Settled(messages[m], broker(m), saves(m)) else messages[m])
  }

  /** A claimed event whose update was saved is closed when the broker took it, and can be claimed again otherwise. */
  predicate Polled(before: Message, claim: nat, accepted: bool, saved: bool, after: Message) {
    && before.status.Pending? && after.claim == Some(claim)
    && after.payload == before.payload && after.createdAt == before.createdAt
    && (!saved ==> after.status.Processing? && after.retries == before.retries)
    && (saved && accepted ==> after.status.Processed? && after.retries == before.retries)
    && (saved && !accepted ==> after.status.Pending? && after.retries == before.retries + 1)
  }

  lemma PolledAll(before: seq<Message>, events: seq<nat>, claim: nat, broker: nat -> bool, saves: nat -> bool)
    requires forall m: nat :: m in events ==> IsPending(before, m)
    ensures var after := SettleAll(ClaimAll(before, events, claim), events, broker, saves);
      && |after| == |before|
      && (forall m: nat :: m < |after| && m !in events ==> after[m] == before[m])
      && (forall m: nat :: m in events ==> m < |after| && Polled(before[m], claim, broker(m), saves(m), after[m]))
  {
    var after := SettleAll(ClaimAll(before, events, claim), events, broker, saves);
    forall m: nat | m in events ensures m < |after| && Polled(before[m], claim, broker(m), saves(m), after[m]) {
      assert IsPending(before, m);
    }
  }

  /** Each event that the broker takes is in the queue once more. */
  lemma {:induction false} AcceptedOnce(queue: seq<nat>, events: seq<nat>, broker: nat -> bool)
    requires Distinct(events)
    ensures forall m: nat ::
              multiset(queue + Accepted(events, broker))[m]
              == multiset(queue)[m] + if m in events && broker(m) then 1 else 0
  {
    if |events| != 0 {
      var front, last := events[..|events| - 1], events[|events| - 1];
      AcceptedOnce(queue, front, broker);
      assert last !in front;
      assert forall m: nat :: m in events <==> m in front || m == last;
      if broker(last) {
        assert queue + Accepted(events, broker) == queue + Accepted(front, broker) + [last];
      }
    } else {
      assert queue + Accepted(events, broker) == queue;
    }
  }

  lemma SettleOneMore(messages: seq<Message>, events: seq<nat>, j: nat, broker: nat -> bool, saves: nat -> bool)
    requires j < |events| && events[j] < |messages| && Distinct(events)
    ensures var before, event := SettleAll(messages, events[..j], broker, saves), events[j];
      SettleAll(messages, events[..j + 1], broker, saves)
      == before[event := Settled(before[event], broker(event), saves(event))]
    ensures Accepted(events[..j + 1], broker)
         == Accepted(events[..j], broker) + if broker(events[j]) then [events[j]] else []
  {
    assert events[..j + 1][..j] == events[..j];
    assert forall m: nat :: m in events[..j + 1] <==> m in events[..j] || m == events[j];
    assert events[j] !in events[..j];
  }

  lemma EventHandled(start: System, trace: seq<Event>, s: System, claim: nat, events: seq<nat>, j: nat,
                     ok: bool, saved: bool)
    requires j < |events| && events[j] < |s.messages|
    requires s.workers == [At(claim, events, j)] && Leads(start, trace, s)
    ensures Leads(start, trace + [Publish(0, ok), Settle(0, saved)],
                  s.(workers := [At(claim, events, j + 1)],
                     messages := s.messages[events[j] := Settled(s.messages[events[j]], ok, saved)],
                     queue := if ok then s.queue + [events[j]] else s.queue))
  {
    Extend(start, trace, s, Publish(0, ok));
    var s1 := Step(s, Publish(0, ok));
    Extend(start, trace + [Publish(0, ok)], s1, Settle(0, saved));
    assert trace + [Publish(0, ok)] + [Settle(0, saved)] == trace + [Publish(0, ok), Settle(0, saved)];
    var s2 := Step(s1, Settle(0, saved));
    assert s2.workers == [At(claim, events, j + 1)];
    assert s.messages[events[j] := s.messages[events[j]]] == s.messages;
  }

  class OutboxProcessor {
    const outbox: OutboxDAO
    var queue: seq<nat>

    constructor (outbox: OutboxDAO)
      ensures this.outbox == outbox && queue == []
    {
      this.outbox, queue := outbox, [];
    }

    /** One event of a batch; `saved` says whether the update after publishing succeeds. */
    method HandleEvent(event: nat, ok: bool, saved: bool)
      requires outbox.Valid() && event < |outbox.messages|
      modifies this, outbox
      ensures outbox.Valid() && outbox.claims == old(outbox.claims)
      ensures outbox.messages == old(outbox.messages)[event := Settled(old(outbox.messages)[event], ok, saved)]
      ensures queue == if ok then old(queue) + [event] else old(queue)
    {
      if ok {
        queue := queue + [event];
        if saved {
          outbox.MarkAsProcessed(event);
        }
      } else if saved {
        outbox.IncrementRetry(event);
      }
    }

    /** The loop over a claimed batch. */
    method HandleBatch(batch: seq<nat>, broker: nat -> bool, saves: nat -> bool,
                       ghost claim: nat, ghost start: System, ghost before: seq<Event>)
      returns (ghost trace: seq<Event>)
      requires outbox.Valid() && Distinct(batch) && forall j :: 0 <= j < |batch| ==> batch[j] < |outbox.messages|
      requires Leads(start, before, outbox.View(At(claim, batch, 0), queue))
      modifies this, outbox
      ensures outbox.Valid() && outbox.messages == SettleAll(old(outbox.messages), batch, broker, saves)
      ensures queue == old(queue) + Accepted(batch, broker)
      ensures Leads(start, trace, outbox.View(Idle, queue))
    {
      trace := before;
      ghost var claimed := outbox.messages;
      for j := 0 to |batch|
        invariant outbox.Valid() && outbox.messages == SettleAll(claimed, batch[..j], broker, saves)
        invariant queue == old(queue) + Accepted(batch[..j], broker)
        invariant Leads(start, trace, outbox.View(At(claim, batch, j), queue))
      {
        var event := batch[j];
        EventHandled(start, trace, outbox.View(At(claim, batch, j), queue), claim, batch, j,
                     broker(event), saves(event));
        trace := trace + [Publish(0, broker(event)), Settle(0, saves(event))];
        SettleOneMore(claimed, batch, j, broker, saves);
        HandleEvent(event, broker(event), saves(event));
      }
      assert batch[..|batch|] == batch;
    }

    /**
     * One poll: the oldest pending messages are claimed, offered to the broker one by one, and marked or put back.
     * `broker` says which publications succeed and `saves` which of the following updates do.
     */
    method ProcessEvents(limit: nat, broker: nat -> bool, saves: nat -> bool)
      returns (ghost events: seq<nat>, ghost trace: seq<Event>)
      requires outbox.Valid()
      modifies this, outbox
      ensures outbox.Valid() && |outbox.messages| == |old(outbox.messages)|
      ensures exists ids ::
                OldestPending(old(outbox.messages), ids, limit) && forall m: nat :: m in events <==> m in ids
      ensures forall m: nat :: m < |outbox.messages| && m !in events ==> outbox.messages[m] == old(outbox.messages)[m]
      ensures forall m: nat :: m in events ==>
                m < |outbox.messages|
                && Polled(old(outbox.messages)[m], old(outbox.claims), broker(m), saves(m), outbox.messages[m])
      ensures forall m: nat :: multiset(queue)[m] == multiset(old(queue))[m] + if m in events && broker(m) then 1 else 0
      ensures Leads(old(outbox.View(Idle, queue)), trace, outbox.View(Idle, queue))
    {
      ghost var start, claim := outbox.View(Idle, queue), outbox.claims;
      ghost var found := outbox.messages;
      var batch;
      batch, trace := outbox.ClaimAndFetchEvents(limit, queue);
      events := batch;
      PolledAll(found, batch, claim, broker, saves);
      AcceptedOnce(queue, batch, broker);
      trace := HandleBatch(batch, broker, saves, claim, start, trace);
    }
  }
}

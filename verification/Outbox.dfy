/** The outbox claim protocol, for any number of interleaved workers. */
module Outbox {
  import opened Options

  // Workers claim batches of messages document by document, publish them, and mark them processed or put them back.

  datatype Status = Pending | Processing | Processed

  datatype Message = Message(payload: nat, createdAt: int, status: Status, claim: Option<nat>, retries: nat)

  /** How far the current event of a batch is: not published yet, published, or publishing failed. */
  datatype Phase = ToPublish | Sent | NotSent

  /** Where a worker is in ClaimAndFetchEvents and in the loop over its batch. */
  datatype Worker =
    | Idle
    | Found(ids: set<nat>)
    | Claiming(claim: nat, todo: set<nat>, taken: set<nat>)
    | Claimed(claim: nat, taken: set<nat>)
    | Batch(claim: nat, events: seq<nat>, next: nat, phase: Phase)

  /** `claims` numbers the claim ids drawn so far; `queue` is what the broker has accepted. */
  datatype System = System(messages: seq<Message>, workers: seq<Worker>, claims: nat, queue: seq<nat>)

  datatype Event =
    | Insert(payload: nat, createdAt: int)
    | Find(worker: nat, ids: set<nat>)
    | StartClaim(worker: nat)
    | ClaimDocument(worker: nat, message: nat)
    | EndClaim(worker: nat)
    | Fetch(worker: nat)
    | Publish(worker: nat, ok: bool)
    | Settle(worker: nat, saved: bool)
    | Crash(worker: nat)

  // ---- single documents ----

  /** Phase 2 for one document: the status filter is the lock. */
  function ClaimedBy(m: Message, claim: nat): Message {
    if m.status.Pending? then m.(status := Processing, claim := Some(claim)) else m
  }

  /** MarkAsProcessed */
  function Done(m: Message): Message {
    m.(status := Processed)
  }

  /** IncrementRetry: the claim id stays behind. */
  function Retry(m: Message): Message {
    m.(status := Pending, retries := m.retries + 1)
  }

  /** Phase 3: the documents that carry the claim id. */
  function FetchBy(messages: seq<Message>, claim: nat): (ids: seq<nat>)
    ensures forall m: nat :: m in ids <==> m < |messages| && messages[m].claim == Some(claim)
    ensures forall j, k :: 0 <= j < k < |ids| ==> ids[j] < ids[k]
  {
    if |messages| == 0 then []
    else
      var n := |messages| - 1;
      var front := FetchBy(messages[..n], claim);
      assert forall j :: 0 <= j < |front| ==> front[j] in front;
      if messages[n].claim == Some(claim) then front + [n] else front
  }

  /** Phase 1 finds pending messages; before the claim starts they may be taken by others. */
  predicate PendingIds(messages: seq<Message>, ids: set<nat>) {
    forall m :: m in ids ==> m < |messages| && messages[m].status.Pending?
  }

  // ---- steps ----

  function SetWorker(s: System, w: nat, worker: Worker): System
    requires w < |s.workers|
  {
    s.(workers := s.workers[w := worker])
  }

  predicate Enabled(s: System, e: Event) {
    match e
    case Insert(_, _) => true
    case Find(w, ids) => w < |s.workers| && s.workers[w].Idle? && PendingIds(s.messages, ids)
    case StartClaim(w) => w < |s.workers| && s.workers[w].Found?
    case ClaimDocument(w, m) =>
      w < |s.workers| && s.workers[w].Claiming? && m in s.workers[w].todo && m < |s.messages|
    case EndClaim(w) => w < |s.workers| && s.workers[w].Claiming? && s.workers[w].todo == {}
    case Fetch(w) => w < |s.workers| && s.workers[w].Claimed?
    case Publish(w, _) => w < |s.workers| && Current(s, w) && s.workers[w].phase.ToPublish?
    case Settle(w, _) => w < |s.workers| && Current(s, w) && !s.workers[w].phase.ToPublish?
    case Crash(w) => w < |s.workers|
  }

  /** The worker has an event of its batch in hand. */
  predicate Current(s: System, w: nat)
    requires w < |s.workers|
  {
    s.workers[w].Batch? && s.workers[w].next < |s.workers[w].events|
    && s.workers[w].events[s.workers[w].next] < |s.messages|
  }

  /** After the last event of its batch the worker is idle until its next poll. */
  function NextEvent(worker: Worker): Worker
    requires worker.Batch?
  {
    if worker.next + 1 < |worker.events| then worker.(next := worker.next + 1, phase := ToPublish) else Idle
  }

  function Step(s: System, e: Event): System
    requires Enabled(s, e)
  {
    match e
    case Insert(payload, createdAt) =>
      s.(messages := s.messages + [Message(payload, createdAt, Pending, None, 0)])
    case Find(w, ids) =>
      SetWorker(s, w, if ids == {} then Idle else Found(ids))
    case StartClaim(w) =>
      SetWorker(s, w, Claiming(s.claims, s.workers[w].ids, {})).(claims := s.claims + 1)
    case ClaimDocument(w, m) =>
      var Claiming(claim, todo, taken) := s.workers[w];
      SetWorker(s, w, Claiming(claim, todo - {m}, if s.messages[m].status.Pending? then taken + {m} else taken)).(
      messages := s.messages[m := ClaimedBy(s.messages[m], claim)])
    case EndClaim(w) =>
      SetWorker(s, w, if s.workers[w].taken == {} then Idle else Claimed(s.workers[w].claim, s.workers[w].taken))
    case Fetch(w) =>
      var events := FetchBy(s.messages, s.workers[w].claim);
      SetWorker(s, w, if events == [] then Idle else Batch(s.workers[w].claim, events, 0, ToPublish))
    case Publish(w, ok) =>
      var m := s.workers[w].events[s.workers[w].next];
      SetWorker(s, w, s.workers[w].(phase := if ok then Sent else NotSent)).(
      queue := if ok then s.queue + [m] else s.queue)
    case Settle(w, saved) =>
      var m := s.workers[w].events[s.workers[w].next];
      SetWorker(s, w, NextEvent(s.workers[w])).(
      messages := if !saved then s.messages
                  else s.messages[m := if s.workers[w].phase.Sent? then Done(s.messages[m]) else Retry(s.messages[m])])
    case Crash(w) =>
      SetWorker(s, w, Idle)
  }

  /** The last state of a run; a run stops at a step that is not enabled. */
  function Run(s: System, events: seq<Event>): System {
    if |events| == 0 then s
    else
      var m := Run(s, events[..|events| - 1]);
      if Enabled(m, events[|events| - 1]) then Step(m, events[|events| - 1]) else m
  }

  /** Nothing claimed yet, nobody working, nothing published. */
  predicate Opening(s: System) {
    && (forall m :: 0 <= m < |s.messages| ==> s.messages[m].status.Pending? && s.messages[m].claim.None?)
    && (forall w :: 0 <= w < |s.workers| ==> s.workers[w].Idle?)
    && s.queue == []
  }

  // ---- invariant ----

  /** The message is the worker's to publish and to mark. */
  predicate Holds(worker: Worker, m: nat) {
    match worker
    case Claiming(_, _, taken) => m in taken
    case Claimed(_, taken) => m in taken
    case Batch(_, events, next, _) => next < |events| && m in events[next..]
    case _ => false
  }

  predicate HasClaim(worker: Worker) {
    worker.Claiming? || worker.Claimed? || worker.Batch?
  }

  /** The worker claims documents, or has claimed them and not fetched them yet. */
  predicate Taking(worker: Worker) {
    worker.Claiming? || worker.Claimed?
  }

  predicate IsCurrent(worker: Worker, m: nat) {
    worker.Batch? && worker.next < |worker.events| && worker.events[worker.next] == m
  }

  /** How often the broker has accepted the message. */
  function Times(s: System, m: nat): nat {
    multiset(s.queue)[m]
  }

  predicate Distinct(events: seq<nat>) {
    forall j, k :: 0 <= j < k < |events| ==> events[j] != events[k]
  }

  ghost predicate ClaimsFresh(s: System) {
    && (forall m :: 0 <= m < |s.messages| && s.messages[m].claim.Some? ==> s.messages[m].claim.value < s.claims)
    && (forall w :: 0 <= w < |s.workers| && HasClaim(s.workers[w]) ==> s.workers[w].claim < s.claims)
    && (forall w, v ::
          (0 <= w < |s.workers| && 0 <= v < |s.workers| && w != v && HasClaim(s.workers[w]) && HasClaim(s.workers[v]))
          ==> s.workers[w].claim != s.workers[v].claim)
  }

  /** What a worker holds is being processed under its claim id. */
  ghost predicate HeldIsClaimed(s: System) {
    forall w, m: nat {:trigger Holds(s.workers[w], m)} :: 0 <= w < |s.workers| && Holds(s.workers[w], m) ==>
      m < |s.messages| && s.messages[m].status.Processing? && s.messages[m].claim == Some(s.workers[w].claim)
  }

  /** Until the fetch, the claim id marks exactly what the worker took. */
  ghost predicate ClaimIsTaken(s: System) {
    forall w, m ::
      (0 <= w < |s.workers| && 0 <= m < |s.messages| && Taking(s.workers[w])
       && s.messages[m].claim == Some(s.workers[w].claim))
      ==> m in s.workers[w].taken
  }

  ghost predicate BatchesDistinct(s: System) {
    && (forall w :: 0 <= w < |s.workers| && s.workers[w].Batch? ==> Distinct(s.workers[w].events))
    && (forall w :: 0 <= w < |s.workers| && s.workers[w].Claiming? ==>
          forall m :: m in s.workers[w].todo ==> m < |s.messages|)
    && (forall w :: 0 <= w < |s.workers| && s.workers[w].Found? ==>
          forall m :: m in s.workers[w].ids ==> m < |s.messages|)
  }

  /** What has been published: at most once each, in agreement with status and progress. */
  ghost predicate Published(s: System) {
    && (forall m: nat :: Times(s, m) <= 1)
    && (forall m: nat :: Times(s, m) > 0 ==> m < |s.messages|)
    && (forall m :: 0 <= m < |s.messages| && s.messages[m].status.Pending? ==> Times(s, m) == 0)
    && (forall m :: 0 <= m < |s.messages| && s.messages[m].status.Processed? ==> Times(s, m) == 1)
    && (forall w, m: nat {:trigger Holds(s.workers[w], m)} :: 0 <= w < |s.workers| && Holds(s.workers[w], m) ==>
          Times(s, m) == if IsCurrent(s.workers[w], m) && s.workers[w].phase.Sent? then 1 else 0)
  }

  ghost predicate Claims(s: System) {
    ClaimsFresh(s) && HeldIsClaimed(s) && ClaimIsTaken(s) && BatchesDistinct(s)
  }

  ghost predicate Safe(s: System) {
    Claims(s) && Published(s)
  }

  /** Two workers never hold the same message: they would have to share its claim id. */
  lemma HeldByOne(s: System, w: nat, v: nat, m: nat)
    requires ClaimsFresh(s) && HeldIsClaimed(s)
    requires w < |s.workers| && v < |s.workers| && Holds(s.workers[w], m) && Holds(s.workers[v], m)
    ensures w == v
  {
    assert HasClaim(s.workers[w]) && HasClaim(s.workers[v]);
  }

  // ---- every step keeps it ----

  lemma InsertKeeps(s: System, payload: nat, createdAt: int)
    requires Safe(s)
    ensures Safe(Step(s, Insert(payload, createdAt)))
  {
    var s' := Step(s, Insert(payload, createdAt));
    assert Times(s, |s.messages|) == 0;
    assert forall m: nat :: Times(s', m) == Times(s, m);
  }

  /** A worker that lets go of what it holds, or takes up nothing yet. */
  lemma ReleaseKeeps(s: System, w: nat, worker: Worker)
    requires Safe(s) && w < |s.workers| && !HasClaim(worker)
    requires worker.Found? ==> forall m :: m in worker.ids ==> m < |s.messages|
    ensures Safe(SetWorker(s, w, worker))
  {
    var s' := SetWorker(s, w, worker);
    assert forall v :: 0 <= v < |s.workers| && v != w ==> s'.workers[v] == s.workers[v];
    assert forall m: nat :: Times(s', m) == Times(s, m);
  }

  lemma StartClaimKeeps(s: System, w: nat)
    requires Safe(s) && Enabled(s, StartClaim(w))
    ensures Safe(Step(s, StartClaim(w)))
  {
    var s' := Step(s, StartClaim(w));
    assert forall v :: 0 <= v < |s.workers| && v != w ==> s'.workers[v] == s.workers[v];
    assert forall m: nat :: Times(s', m) == Times(s, m);
  }

  /** Only worker w changed, and it holds no more than before, except perhaps a message that was pending. */
  ghost predicate OnlyWorker(s: System, s': System, w: nat, m: nat) {
    && |s'.workers| == |s.workers| && w < |s.workers| && m < |s.messages|
    && s'.claims == s.claims && |s'.messages| == |s.messages|
    && (forall v :: 0 <= v < |s.workers| && v != w ==> s'.workers[v] == s.workers[v])
    && (forall n :: 0 <= n < |s.messages| && n != m ==> s'.messages[n] == s.messages[n])
    && (forall n: nat :: Holds(s'.workers[w], n) ==>
          Holds(s.workers[w], n) || (n == m && s.messages[m].status.Pending?))
  }

  lemma OthersDoNotHold(s: System, w: nat, m: nat)
    requires Claims(s) && w < |s.workers| && m < |s.messages|
    requires s.messages[m].status.Pending? || Holds(s.workers[w], m)
    ensures forall v :: 0 <= v < |s.workers| && v != w ==> !Holds(s.workers[v], m)
  {
    forall v | 0 <= v < |s.workers| && v != w ensures !Holds(s.workers[v], m) {
      if Holds(s.workers[v], m) && Holds(s.workers[w], m) {
        HeldByOne(s, v, w, m);
      }
    }
  }

  lemma ClaimDocumentFrame(s: System, w: nat, m: nat)
    requires Safe(s) && Enabled(s, ClaimDocument(w, m))
    ensures OnlyWorker(s, Step(s, ClaimDocument(w, m)), w, m)
    ensures s.messages[m].status.Pending? ==> forall v :: 0 <= v < |s.workers| ==> !Holds(s.workers[v], m)
  {
  }

  lemma ClaimDocumentKeeps(s: System, w: nat, m: nat)
    requires Safe(s) && Enabled(s, ClaimDocument(w, m))
    ensures Safe(Step(s, ClaimDocument(w, m)))
  {
    ClaimDocumentFrame(s, w, m);
    ClaimDocumentClaims(s, w, m);
    PublishedKeeps(s, Step(s, ClaimDocument(w, m)), w, m);
  }

  lemma ClaimDocumentClaims(s: System, w: nat, m: nat)
    requires Claims(s) && Enabled(s, ClaimDocument(w, m)) && OnlyWorker(s, Step(s, ClaimDocument(w, m)), w, m)
    requires s.messages[m].status.Pending? ==> forall v :: 0 <= v < |s.workers| ==> !Holds(s.workers[v], m)
    ensures Claims(Step(s, ClaimDocument(w, m)))
  {
  }

  /** Nothing was published and no message became pending or processed. */
  lemma PublishedKeeps(s: System, s': System, w: nat, m: nat)
    requires Safe(s) && OnlyWorker(s, s', w, m) && s'.queue == s.queue
    requires s'.messages[m].status == s.messages[m].status || s'.messages[m].status.Processing?
    requires forall n: nat :: Holds(s'.workers[w], n) ==> !(IsCurrent(s'.workers[w], n) && s'.workers[w].phase.Sent?)
    requires forall n: nat :: Holds(s.workers[w], n) ==> !(IsCurrent(s.workers[w], n) && s.workers[w].phase.Sent?)
    ensures Published(s')
  {
    assert forall n: nat :: Times(s', n) == Times(s, n);
  }

  lemma EndClaimKeeps(s: System, w: nat)
    requires Safe(s) && Enabled(s, EndClaim(w))
    ensures Safe(Step(s, EndClaim(w)))
  {
    var s' := Step(s, EndClaim(w));
    assert forall v :: 0 <= v < |s.workers| && v != w ==> s'.workers[v] == s.workers[v];
    assert forall m: nat :: Holds(s'.workers[w], m) ==> Holds(s.workers[w], m);
    assert forall m: nat :: Times(s', m) == Times(s, m);
  }

  /** Phase 3 fetches exactly what phase 2 claimed, each message once. */
  lemma FetchIsExact(s: System, w: nat)
    requires Safe(s) && w < |s.workers| && s.workers[w].Claimed?
    ensures forall m: nat :: m in FetchBy(s.messages, s.workers[w].claim) <==> m in s.workers[w].taken
    ensures Distinct(FetchBy(s.messages, s.workers[w].claim))
  {
    forall m: nat ensures m in FetchBy(s.messages, s.workers[w].claim) <==> m in s.workers[w].taken {
      if m in s.workers[w].taken {
        assert Holds(s.workers[w], m);
      }
    }
  }

  lemma FetchKeeps(s: System, w: nat)
    requires Safe(s) && Enabled(s, Fetch(w))
    ensures Safe(Step(s, Fetch(w)))
  {
    var s' := Step(s, Fetch(w));
    FetchIsExact(s, w);
    assert forall v :: 0 <= v < |s.workers| && v != w ==> s'.workers[v] == s.workers[v];
    assert forall m: nat :: Times(s', m) == Times(s, m);
    assert forall m: nat :: Holds(s'.workers[w], m) ==> Holds(s.workers[w], m);
  }

  /** The message in hand is the worker's alone. */
  lemma CurrentIsHeld(s: System, w: nat)
    requires Claims(s) && w < |s.workers| && Current(s, w)
    ensures var worker := s.workers[w]; var m := worker.events[worker.next];
      && Holds(worker, m) && !Holds(worker.(next := worker.next + 1), m)
      && (forall n: nat :: Holds(worker, n) <==> n == m || Holds(worker.(next := worker.next + 1), n))
      && (forall v :: 0 <= v < |s.workers| && v != w ==> !Holds(s.workers[v], m))
      && s.messages[m].status.Processing? && s.messages[m].claim == Some(worker.claim)
  {
    var worker := s.workers[w];
    var m := worker.events[worker.next];
    assert worker.events[worker.next..] == [m] + worker.events[worker.next + 1..];
    assert Holds(worker, m);
    OthersDoNotHold(s, w, m);
  }

  lemma PublishPublished(s: System, w: nat, ok: bool)
    requires Safe(s) && Enabled(s, Publish(w, ok))
    ensures Published(Step(s, Publish(w, ok)))
  {
    var s' := Step(s, Publish(w, ok));
    var m := s.workers[w].events[s.workers[w].next];
    CurrentIsHeld(s, w);
    assert forall v :: 0 <= v < |s.workers| && v != w ==> s'.workers[v] == s.workers[v];
    assert forall n: nat :: Holds(s'.workers[w], n) == Holds(s.workers[w], n);
    assert forall n: nat :: Times(s', n) == Times(s, n) + if ok && n == m then 1 else 0;
  }

  lemma PublishKeeps(s: System, w: nat, ok: bool)
    requires Safe(s) && Enabled(s, Publish(w, ok))
    ensures Safe(Step(s, Publish(w, ok)))
  {
    var s' := Step(s, Publish(w, ok));
    PublishPublished(s, w, ok);
    assert forall v :: 0 <= v < |s.workers| && v != w ==> s'.workers[v] == s.workers[v];
    assert forall n: nat :: Holds(s'.workers[w], n) == Holds(s.workers[w], n);
  }

  lemma SettleFrame(s: System, w: nat, saved: bool)
    requires Safe(s) && Enabled(s, Settle(w, saved))
    ensures var s', m := Step(s, Settle(w, saved)), s.workers[w].events[s.workers[w].next];
      && OnlyWorker(s, s', w, m)
      && (forall v :: 0 <= v < |s.workers| ==> !Holds(s'.workers[v], m))
      && s'.messages[m] == s.messages[m].(status := s'.messages[m].status, retries := s'.messages[m].retries)
      && Times(s, m) == (if s.workers[w].phase.Sent? then 1 else 0)
      && (s'.messages[m].status.Pending? ==> s.workers[w].phase.NotSent?)
      && (s'.messages[m].status.Processed? ==> s.workers[w].phase.Sent?)
  {
    CurrentIsHeld(s, w);
  }

  lemma SettlePublished(s: System, w: nat, saved: bool)
    requires Safe(s) && Enabled(s, Settle(w, saved))
    ensures Published(Step(s, Settle(w, saved)))
  {
    var s' := Step(s, Settle(w, saved));
    SettleFrame(s, w, saved);
    assert forall n: nat :: Times(s', n) == Times(s, n);
    assert forall n: nat :: Holds(s.workers[w], n) && IsCurrent(s.workers[w], n) ==>
        n == s.workers[w].events[s.workers[w].next];
  }

  lemma SettleKeeps(s: System, w: nat, saved: bool)
    requires Safe(s) && Enabled(s, Settle(w, saved))
    ensures Safe(Step(s, Settle(w, saved)))
  {
    var s' := Step(s, Settle(w, saved));
    SettleFrame(s, w, saved);
    SettlePublished(s, w, saved);
    assert HasClaim(s'.workers[w]) ==> s'.workers[w].claim == s.workers[w].claim;
  }

  lemma StepKeeps(s: System, e: Event)
    requires Safe(s) && Enabled(s, e)
    ensures Safe(Step(s, e))
  {
    match e {
      case Insert(payload, createdAt) => InsertKeeps(s, payload, createdAt);
      case Find(w, ids) => ReleaseKeeps(s, w, if ids == {} then Idle else Found(ids));
      case StartClaim(w) => StartClaimKeeps(s, w);
      case ClaimDocument(w, m) => ClaimDocumentKeeps(s, w, m);
      case EndClaim(w) => EndClaimKeeps(s, w);
      case Fetch(w) => FetchKeeps(s, w);
      case Publish(w, ok) => PublishKeeps(s, w, ok);
      case Settle(w, saved) => SettleKeeps(s, w, saved);
      case Crash(w) => ReleaseKeeps(s, w, Idle);
    }
  }

  lemma OpeningSafe(s: System)
    requires Opening(s)
    ensures Safe(s)
  {
  }

  lemma {:induction false} RunKeeps(s: System, events: seq<Event>)
    requires Safe(s)
    ensures Safe(Run(s, events))
  {
    if |events| != 0 {
      var m, last := Run(s, events[..|events| - 1]), events[|events| - 1];
      RunKeeps(s, events[..|events| - 1]);
      if Enabled(m, last) {
        StepKeeps(m, last);
      }
    }
  }

  // ---- theorems over all interleavings ----

  /** A message is in at most one worker's hands at a time. */
  lemma MutualExclusion(s0: System, events: seq<Event>, s: System, w: nat, v: nat, m: nat)
    requires Opening(s0) && s == Run(s0, events)
    requires w < |s.workers| && Holds(s.workers[w], m) && v < |s.workers| && Holds(s.workers[v], m)
    ensures w == v
  {
    OpeningSafe(s0);
    RunKeeps(s0, events);
    HeldByOne(s, w, v, m);
  }

  /** Whatever other workers did in between, phase 3 returns what phase 2 took, each message once. */
  lemma BatchIsWhatWasTaken(s0: System, events: seq<Event>, s: System, w: nat)
    requires Opening(s0) && s == Run(s0, events) && w < |s.workers| && s.workers[w].Claimed?
    ensures var batch := FetchBy(s.messages, s.workers[w].claim);
      Distinct(batch) && forall m: nat :: m in batch <==> m in s.workers[w].taken
  {
    OpeningSafe(s0);
    RunKeeps(s0, events);
    FetchIsExact(s, w);
  }

  /** No message is published twice; a Processed one was published, a Pending one was not. */
  lemma PublishedAtMostOnce(s0: System, events: seq<Event>, s: System, m: nat)
    requires Opening(s0) && s == Run(s0, events)
    ensures Times(s, m) <= 1
    ensures m < |s.messages| && s.messages[m].status.Processed? ==> Times(s, m) == 1
    ensures m < |s.messages| && s.messages[m].status.Pending? ==> Times(s, m) == 0
  {
    OpeningSafe(s0);
    RunKeeps(s0, events);
  }

  /** A message changes only by being claimed while it is pending, or in the hands of the worker that holds it. */
  lemma OnlyTheHolderChanges(s: System, e: Event, m: nat)
    requires Safe(s) && Enabled(s, e) && m < |s.messages| && Step(s, e).messages[m] != s.messages[m]
    ensures (e.ClaimDocument? && e.message == m && s.messages[m].status.Pending?)
         || (e.Settle? && e.saved && Holds(s.workers[e.worker], m))
  {
    if e.Settle? {
      CurrentIsHeld(s, e.worker);
    }
  }

  ghost predicate Abandoned(s: System, m: nat) {
    && m < |s.messages| && !s.messages[m].status.Pending?
    && forall w :: 0 <= w < |s.workers| ==> !Holds(s.workers[w], m)
  }

  lemma AbandonedStep(s: System, e: Event, m: nat)
    requires Safe(s) && Abandoned(s, m) && Enabled(s, e)
    ensures Abandoned(Step(s, e), m) && Step(s, e).messages[m] == s.messages[m] && Times(Step(s, e), m) == Times(s, m)
  {
    if Step(s, e).messages[m] != s.messages[m] {
      OnlyTheHolderChanges(s, e, m);
    }
    match e {
      case Insert(_, _) =>
      case Fetch(w) => FetchIsExact(s, w);
      case Publish(w, ok) => CurrentIsHeld(s, w);
      case Settle(w, saved) => SettleFrame(s, w, saved);
      case _ =>
    }
  }

  /**
   * A message that is not pending and that no worker holds stays as it is in every run: a Processed one is never
   * touched again, and one left in Processing by a crashed worker is never recovered.
   */
  lemma {:induction false} AbandonedForGood(s: System, events: seq<Event>, m: nat)
    requires Safe(s) && Abandoned(s, m)
    ensures Abandoned(Run(s, events), m)
    ensures Run(s, events).messages[m] == s.messages[m] && Times(Run(s, events), m) == Times(s, m)
  {
    if |events| != 0 {
      var front, last := events[..|events| - 1], events[|events| - 1];
      AbandonedForGood(s, front, m);
      RunKeeps(s, front);
      if Enabled(Run(s, front), last) {
        AbandonedStep(Run(s, front), last, m);
      }
    }
  }

  /** A Processed message is in nobody's hands, so it is never published again. */
  lemma ProcessedForGood(s: System, events: seq<Event>, m: nat)
    requires Safe(s) && m < |s.messages| && s.messages[m].status.Processed?
    ensures m < |Run(s, events).messages| && Run(s, events).messages[m] == s.messages[m]
    ensures Times(Run(s, events), m) == 1
  {
    AbandonedForGood(s, events, m);
  }

  // ---- what becomes of an event ----

  /** Only this message changed, and of it only the status and the retries. */
  ghost predicate OnlyMessage(s: System, s': System, m: nat) {
    && m < |s.messages| == |s'.messages|
    && (forall n :: 0 <= n < |s.messages| && n != m ==> s'.messages[n] == s.messages[n])
    && s'.messages[m] == s.messages[m].(status := s'.messages[m].status, retries := s'.messages[m].retries)
  }

  /**
   * In every interleaving, when the update after publishing is saved, an event that the broker refused is pending again
   * with one more retry, and one that it took is Processed; both keep the claim id of their worker.
   */
  lemma EventSettled(s0: System, events: seq<Event>, s: System, w: nat)
    requires Opening(s0) && s == Run(s0, events) && Enabled(s, Settle(w, true))
    ensures var s', m := Step(s, Settle(w, true)), s.workers[w].events[s.workers[w].next];
      && OnlyMessage(s, s', m) && s.messages[m].status.Processing?
      && s'.messages[m].claim == Some(s.workers[w].claim)
      && (s.workers[w].phase.NotSent? ==>
            s'.messages[m].status.Pending? && s'.messages[m].retries == s.messages[m].retries + 1)
      && (s.workers[w].phase.Sent? ==>
            s'.messages[m].status.Processed? && s'.messages[m].retries == s.messages[m].retries)
  {
    OpeningSafe(s0);
    RunKeeps(s0, events);
    CurrentIsHeld(s, w);
  }

  /** One worker's way with a single message, up to its publication. */
  function Delivery(w: nat, m: nat): seq<Event> {
    [Find(w, {m}), StartClaim(w), ClaimDocument(w, m), EndClaim(w), Fetch(w), Publish(w, true), Settle(w, true)]
  }

  lemma RunNext(s: System, events: seq<Event>, n: nat)
    requires n < |events|
    ensures var m := Run(s, events[..n]);
      Run(s, events[..n + 1]) == if Enabled(m, events[n]) then Step(m, events[n]) else m
  {
    assert events[..n + 1][..n] == events[..n];
  }

  /** Found, then claimed under a fresh claim id. */
  lemma ClaimsIt(s: System, w: nat, m: nat)
    requires w < |s.workers| && s.workers[w].Idle? && m < |s.messages| && s.messages[m].status.Pending?
    ensures Run(s, Delivery(w, m)[..3])
         == SetWorker(s, w, Claiming(s.claims, {}, {m})).(
            messages := s.messages[m := s.messages[m].(status := Processing, claim := Some(s.claims))],
            claims := s.claims + 1)
  {
    var steps := Delivery(w, m);
    assert steps[..0] == [];
    RunNext(s, steps, 0);
    assert m in {m};
    assert Run(s, steps[..1]) == SetWorker(s, w, Found({m}));
    RunNext(s, steps, 1);
    assert Run(s, steps[..2]) == SetWorker(s, w, Claiming(s.claims, {m}, {})).(claims := s.claims + 1);
    RunNext(s, steps, 2);
    assert {m} - {m} == {} && {} + {m} == {m};
  }

  lemma {:induction false} NoneFetched(messages: seq<Message>, claim: nat)
    requires forall n :: 0 <= n < |messages| ==> messages[n].claim != Some(claim)
    ensures FetchBy(messages, claim) == []
  {
    if |messages| != 0 {
      NoneFetched(messages[..|messages| - 1], claim);
    }
  }

  lemma {:induction false} FetchesOnly(messages: seq<Message>, claim: nat, m: nat)
    requires m < |messages| && messages[m].claim == Some(claim)
    requires forall n :: 0 <= n < |messages| && messages[n].claim == Some(claim) ==> n == m
    ensures FetchBy(messages, claim) == [m]
  {
    var n := |messages| - 1;
    if m < n {
      FetchesOnly(messages[..n], claim, m);
    } else {
      NoneFetched(messages[..n], claim);
    }
  }

  lemma EndsAndFetches(s: System, w: nat, claim: nat, m: nat)
    requires w < |s.workers| && s.workers[w] == Claiming(claim, {}, {m}) && FetchBy(s.messages, claim) == [m]
    ensures Enabled(s, EndClaim(w)) && Enabled(Step(s, EndClaim(w)), Fetch(w))
    ensures Step(Step(s, EndClaim(w)), Fetch(w)) == SetWorker(s, w, Batch(claim, [m], 0, ToPublish))
  {
    assert m in {m};
    assert Step(s, EndClaim(w)) == SetWorker(s, w, Claimed(claim, {m}));
  }

  /** Published and closed. */
  lemma PublishesAndCloses(s: System, w: nat, claim: nat, m: nat)
    requires w < |s.workers| && s.workers[w] == Batch(claim, [m], 0, ToPublish) && m < |s.messages|
    ensures Enabled(s, Publish(w, true)) && Enabled(Step(s, Publish(w, true)), Settle(w, true))
    ensures Step(Step(s, Publish(w, true)), Settle(w, true))
         == SetWorker(s, w, Idle).(
            messages := s.messages[m := s.messages[m].(status := Processed)], queue := s.queue + [m])
  {
    assert Step(s, Publish(w, true)) == SetWorker(s, w, Batch(claim, [m], 0, Sent)).(queue := s.queue + [m]);
  }

  lemma RunTwo(s: System, events: seq<Event>, n: nat)
    requires n + 1 < |events| && Enabled(Run(s, events[..n]), events[n])
    requires Enabled(Step(Run(s, events[..n]), events[n]), events[n + 1])
    ensures Run(s, events[..n + 2]) == Step(Step(Run(s, events[..n]), events[n]), events[n + 1])
  {
    RunNext(s, events, n);
    RunNext(s, events, n + 1);
  }

  /**
   * No pending message is stuck, however often it was claimed and put back: any idle worker can claim it, have it
   * published and close it, and none of this depends on what other workers have claimed.
   */
  lemma PendingCanBeSent(s0: System, events: seq<Event>, s: System, w: nat, m: nat)
    requires Opening(s0) && s == Run(s0, events)
    requires w < |s.workers| && s.workers[w].Idle? && m < |s.messages| && s.messages[m].status.Pending?
    ensures var s' := Run(s, Delivery(w, m));
      && s'.queue == s.queue + [m] && |s'.messages| == |s.messages| && s'.workers == s.workers
      && s'.messages[m].status.Processed? && s'.messages[m].retries == s.messages[m].retries
      && forall n :: 0 <= n < |s.messages| && n != m ==> s'.messages[n] == s.messages[n]
  {
    OpeningSafe(s0);
    RunKeeps(s0, events);
    ClaimsIt(s, w, m);
    DeliveryEnds(s, w, m);
  }

  lemma DeliveryEnds(s: System, w: nat, m: nat)
    requires ClaimsFresh(s) && w < |s.workers| && s.workers[w].Idle? && m < |s.messages|
    requires Run(s, Delivery(w, m)[..3])
          == SetWorker(s, w, Claiming(s.claims, {}, {m})).(
             messages := s.messages[m := s.messages[m].(status := Processing, claim := Some(s.claims))],
             claims := s.claims + 1)
    ensures Run(s, Delivery(w, m))
         == s.(messages := s.messages[m := s.messages[m].(status := Processed, claim := Some(s.claims))],
               claims := s.claims + 1, queue := s.queue + [m])
  {
    var steps, claimed := Delivery(w, m), s.messages[m].(status := Processing, claim := Some(s.claims));
    FetchesOnly(s.messages[m := claimed], s.claims, m);
    DeliveryFetches(s, w, m, Run(s, steps[..3]));
    DeliveryPublishes(s, w, m, Run(s, steps[..5]));
  }

  lemma DeliveryFetches(s: System, w: nat, m: nat, s3: System)
    requires s3 == Run(s, Delivery(w, m)[..3]) && FetchBy(s3.messages, s.claims) == [m]
    requires w < |s3.workers| && s3.workers[w] == Claiming(s.claims, {}, {m})
    ensures Run(s, Delivery(w, m)[..5]) == SetWorker(s3, w, Batch(s.claims, [m], 0, ToPublish))
  {
    EndsAndFetches(s3, w, s.claims, m);
    RunTwo(s, Delivery(w, m), 3);
  }

  lemma DeliveryPublishes(s: System, w: nat, m: nat, s5: System)
    requires s5 == Run(s, Delivery(w, m)[..5]) && m < |s5.messages|
    requires w < |s5.workers| && s5.workers[w] == Batch(s.claims, [m], 0, ToPublish)
    ensures Run(s, Delivery(w, m))
         == SetWorker(s5, w, Idle).(
            messages := s5.messages[m := s5.messages[m].(status := Processed)], queue := s5.queue + [m])
  {
    PublishesAndCloses(s5, w, s.claims, m);
    RunTwo(s, Delivery(w, m), 5);
    assert Delivery(w, m)[..7] == Delivery(w, m);
  }
}

/** Check-in calls, interleaved with each other and with every step of the lifecycle. */
module CheckIn {
  import opened Options
  import opened Entities
  import opened Lifecycle
  import opened Invariants
  import opened ItemSteps
  import opened MessageSteps
  import opened Evolution

  // A call reads its ticket first and writes it conditionally later; expiry and refunds may come in between.

  datatype Answer =
    | TicketNotFound
    | NotValid
    | OutsideWindow
    | CheckedInNow(at: int)
    | Failed

  /** A call that passed its checks at `now` and is about to write, or one that has answered. */
  datatype Call = Waiting(ticket: nat, now: int) | Answered(ticket: nat, answer: Answer)

  datatype World = World(store: State, calls: seq<Call>)

  datatype Event =
    | Begin(ticket: nat, now: int)
    | Finish(call: nat, saved: bool)
    | Elsewhere(step: Step)

  /** CheckInTicket up to its conditional write. */
  function Read(s: State, t: nat, now: int): Call {
    if t >= |s.tickets| then Answered(t, TicketNotFound)
    else if !s.tickets[t].status.Valid? then Answered(t, NotValid)
    else if now < s.tickets[t].validFrom || now > s.tickets[t].validUntil then Answered(t, OutsideWindow)
    else Waiting(t, now)
  }

  /** The conditional write and what follows it; when the audit log cannot be saved the write is rolled back. */
  function Write(w: World, c: nat, saved: bool): World
    requires c < |w.calls| && w.calls[c].Waiting?
  {
    var Waiting(t, now) := w.calls[c];
    match MarkUsed(w.store, t, now)
    case Abort => w.(calls := w.calls[c := Answered(t, NotValid)])
    case Commit(s') =>
      if saved then World(s', w.calls[c := Answered(t, CheckedInNow(now))])
      else w.(calls := w.calls[c := Answered(t, Failed)])
  }

  function Happen(w: World, e: Event): World {
    match e
    case Begin(t, now) => w.(calls := w.calls + [Read(w.store, t, now)])
    case Finish(c, saved) => if c < |w.calls| && w.calls[c].Waiting? then Write(w, c, saved) else w
    case Elsewhere(step) => w.(store := Next(w.store, step))
  }

  function Play(w: World, events: seq<Event>): World {
    if |events| == 0 then w else Happen(Play(w, events[..|events| - 1]), events[|events| - 1])
  }

  /** Tickets are used through check-in calls only. */
  predicate Proper(e: Event) {
    e.Elsewhere? ==> Admissible(e.step) && !e.step.DoMarkUsed?
  }

  ghost predicate AllProper(events: seq<Event>) {
    forall n :: 0 <= n < |events| ==> Proper(events[n])
  }

  // ---- only a check-in uses a ticket ----

  /** Old tickets keep their use, new ones are valid and unused. */
  ghost predicate UseKept(s: State, s': State) {
    && |s.tickets| <= |s'.tickets|
    && (forall t :: 0 <= t < |s.tickets| ==> s'.tickets[t].usedAt == s.tickets[t].usedAt)
    && (forall t :: |s.tickets| <= t < |s'.tickets| ==> s'.tickets[t].usedAt.None?)
  }

  lemma GenerateKeepsUse(s: State, o: nat, lookup: nat -> Lookup)
    requires HandleGenerate(s, o, lookup).Commit?
    ensures UseKept(s, HandleGenerate(s, o, lookup).state)
  {
    if Generate(s, o, lookup).Generated? {
      var s1 := s.(tickets := Generate(s, o, lookup).tickets, items := BulkItems(s.items, o, ItemPaid, Fulfilled));
      RecalculateFrame(s1, o, false);
    }
  }

  lemma PaymentKeepsUse(s: State, b: nat, payment: Option<nat>, ok: bool)
    requires HandlePayment(s, b, payment, ok).Commit?
    ensures UseKept(s, HandlePayment(s, b, payment, ok).state)
  {
    if s.bills[b].status.BillPending? && ok {
      var o, s1 := s.bills[b].order, Settle(s, b, payment, true);
      if s.bills[b].kind.Payment? {
        RecalculateFrame(s1, o, true);
      } else {
        RecalculateFrame(SetItem(s1, s.bills[b].item.value, ItemReturned), o, false);
      }
    }
  }

  lemma ChangeKeepsUse(s: State, i: nat, o: nat, to: ItemStatus)
    requires ChangeItem(s, i, o, to).Commit?
    ensures UseKept(s, ChangeItem(s, i, o, to).state)
  {
    RecalculateFrame(ItemEffect(s, i, o, to), o, false);
  }

  lemma StepKeepsUse(s: State, step: Step)
    requires !step.DoMarkUsed?
    ensures UseKept(s, Next(s, step))
  {
    if Apply(s, step).Commit? {
      match step {
        case DoCancelItem(i, o) => ChangeKeepsUse(s, i, o, ItemCanceled);
        case DoRequestReturn(i, o) => ChangeKeepsUse(s, i, o, ReturnRequested);
        case DoApproveReturn(i, o) => ChangeKeepsUse(s, i, o, ReturnApproved);
        case DoRejectReturn(i, o) => ChangeKeepsUse(s, i, o, Fulfilled);
        case DeliverPayment(b, payment, ok) => PaymentKeepsUse(s, b, payment, ok);
        case DeliverGenerate(o, lookup) => GenerateKeepsUse(s, o, lookup);
        case _ =>
      }
    }
  }

  // ---- invariant ----

  predicate Reports(call: Call, t: nat) {
    call.Answered? && call.ticket == t && call.answer.CheckedInNow?
  }

  predicate CallOk(s: State, call: Call) {
    match call
    case Waiting(t, now) => t < |s.tickets| && s.tickets[t].validFrom <= now <= s.tickets[t].validUntil
    case Answered(t, CheckedInNow(at)) =>
      && t < |s.tickets| && !s.tickets[t].status.Valid? && s.tickets[t].usedAt == Some(at)
      && s.tickets[t].validFrom <= at <= s.tickets[t].validUntil
    case _ => true
  }

  ghost predicate UsesReported(w: World) {
    forall t :: 0 <= t < |w.store.tickets| && w.store.tickets[t].usedAt.Some? ==>
      !w.store.tickets[t].status.Valid? && exists c :: 0 <= c < |w.calls| && Reports(w.calls[c], t)
  }

  ghost predicate ReportedOnce(w: World) {
    forall c, c', t: nat :: 0 <= c < c' < |w.calls| && Reports(w.calls[c], t) ==> !Reports(w.calls[c'], t)
  }

  ghost predicate CallsSafe(w: World) {
    && (forall c :: 0 <= c < |w.calls| ==> CallOk(w.store, w.calls[c]))
    && UsesReported(w) && ReportedOnce(w)
  }

  ghost predicate Safe(w: World) {
    Inv(w.store) && CallsSafe(w)
  }

  lemma BeginKeeps(w: World, t: nat, now: int)
    requires CallsSafe(w)
    ensures CallsSafe(Happen(w, Begin(t, now)))
  {
    var w' := Happen(w, Begin(t, now));
    forall u | 0 <= u < |w.store.tickets| && w.store.tickets[u].usedAt.Some?
      ensures exists c :: 0 <= c < |w'.calls| && Reports(w'.calls[c], u)
    {
      var c :| 0 <= c < |w.calls| && Reports(w.calls[c], u);
      assert Reports(w'.calls[c], u);
    }
  }

  lemma AnswerKeeps(w: World, c: nat, answer: Answer)
    requires CallsSafe(w) && c < |w.calls| && w.calls[c].Waiting? && !answer.CheckedInNow?
    ensures CallsSafe(w.(calls := w.calls[c := Answered(w.calls[c].ticket, answer)]))
  {
    var w' := w.(calls := w.calls[c := Answered(w.calls[c].ticket, answer)]);
    forall u | 0 <= u < |w.store.tickets| && w.store.tickets[u].usedAt.Some?
      ensures exists d :: 0 <= d < |w'.calls| && Reports(w'.calls[d], u)
    {
      var d :| 0 <= d < |w.calls| && Reports(w.calls[d], u);
      assert Reports(w'.calls[d], u);
    }
  }

  lemma UseKeeps(w: World, c: nat)
    requires CallsSafe(w) && c < |w.calls| && w.calls[c].Waiting?
    requires MarkUsed(w.store, w.calls[c].ticket, w.calls[c].now).Commit?
    ensures CallsSafe(Write(w, c, true))
  {
    var Waiting(t, now) := w.calls[c];
    var w' := Write(w, c, true);
    assert Reports(w'.calls[c], t);
    forall u | 0 <= u < |w'.store.tickets| && w'.store.tickets[u].usedAt.Some? && u != t
      ensures exists d :: 0 <= d < |w'.calls| && Reports(w'.calls[d], u)
    {
      var d :| 0 <= d < |w.calls| && Reports(w.calls[d], u);
      assert Reports(w'.calls[d], u);
    }
    forall d | 0 <= d < |w.calls| ensures !Reports(w.calls[d], t) {
      assert CallOk(w.store, w.calls[d]);
    }
  }

  lemma ElsewhereKeeps(w: World, step: Step)
    requires Safe(w) && Admissible(step) && !step.DoMarkUsed?
    ensures Safe(Happen(w, Elsewhere(step)))
  {
    var w' := Happen(w, Elsewhere(step));
    StepKeeps(w.store, step);
    StepKeepsUse(w.store, step);
    forall c | 0 <= c < |w.calls| ensures CallOk(w'.store, w'.calls[c]) {
      assert CallOk(w.store, w.calls[c]);
      if w.calls[c].ticket < |w.store.tickets| {
        assert SameTicket(w.store.tickets[w.calls[c].ticket], w'.store.tickets[w.calls[c].ticket]);
      }
    }
    forall t | 0 <= t < |w'.store.tickets| && w'.store.tickets[t].usedAt.Some?
      ensures !w'.store.tickets[t].status.Valid?
    {
      assert SameTicket(w.store.tickets[t], w'.store.tickets[t]);
    }
  }

  lemma FinishKeeps(w: World, c: nat, saved: bool)
    requires CallsSafe(w) && c < |w.calls| && w.calls[c].Waiting?
    ensures CallsSafe(Write(w, c, saved))
  {
    if MarkUsed(w.store, w.calls[c].ticket, w.calls[c].now).Abort? {
      AnswerKeeps(w, c, NotValid);
    } else if saved {
      UseKeeps(w, c);
    } else {
      AnswerKeeps(w, c, Failed);
    }
  }

  lemma WriteKeepsStore(w: World, c: nat, saved: bool)
    requires Inv(w.store) && c < |w.calls| && w.calls[c].Waiting?
    ensures Inv(Write(w, c, saved).store)
  {
    var step := DoMarkUsed(w.calls[c].ticket, w.calls[c].now);
    StepKeeps(w.store, step);
    assert Write(w, c, saved).store == w.store || Write(w, c, saved).store == Next(w.store, step);
  }

  lemma HappenKeeps(w: World, e: Event)
    requires Safe(w) && Proper(e)
    ensures Safe(Happen(w, e))
  {
    match e {
      case Begin(t, now) => BeginKeeps(w, t, now);
      case Finish(c, saved) =>
        if c < |w.calls| && w.calls[c].Waiting? {
          FinishKeeps(w, c, saved);
          WriteKeepsStore(w, c, saved);
        }
      case Elsewhere(step) => ElsewhereKeeps(w, step);
    }
  }

  lemma {:induction false} PlayKeeps(w: World, events: seq<Event>)
    requires Safe(w) && AllProper(events)
    ensures Safe(Play(w, events))
  {
    if |events| != 0 {
      PlayKeeps(w, events[..|events| - 1]);
      HappenKeeps(Play(w, events[..|events| - 1]), events[|events| - 1]);
    }
  }

  // ---- theorems ----

  predicate Opening(w: World) {
    Initial(w.store) && w.calls == []
  }

  ghost predicate ArisesBy(w: World, w0: World, events: seq<Event>) {
    Opening(w0) && AllProper(events) && w == Play(w0, events)
  }

  /** Some interleaving of calls and steps leads from an opening to the world. */
  ghost predicate Arises(w: World) {
    exists w0, events :: ArisesBy(w, w0, events)
  }

  lemma ArisingIsSafe(w: World)
    requires Arises(w)
    ensures Safe(w)
  {
    var w0, events :| ArisesBy(w, w0, events);
    InitialInv(w0.store);
    PlayKeeps(w0, events);
  }

  /** At most one call per ticket ever reports "checked in now", and one does exactly when the ticket was used. */
  lemma CheckedInAtMostOnce(w: World, t: nat)
    requires Arises(w)
    ensures forall c, c' ::
              0 <= c < |w.calls| && 0 <= c' < |w.calls| && Reports(w.calls[c], t) && Reports(w.calls[c'], t) ==> c == c'
    ensures t < |w.store.tickets| ==>
              (w.store.tickets[t].usedAt.Some? <==> exists c :: 0 <= c < |w.calls| && Reports(w.calls[c], t))
  {
    ArisingIsSafe(w);
    if c :| 0 <= c < |w.calls| && Reports(w.calls[c], t) {
      assert CallOk(w.store, w.calls[c]);
    }
  }

  /** Whatever the interleaving, the time of use lies in the ticket's validity period. */
  lemma UsedWithinWindow(w: World, t: nat)
    requires Arises(w) && t < |w.store.tickets| && w.store.tickets[t].usedAt.Some?
    ensures w.store.tickets[t].validFrom <= w.store.tickets[t].usedAt.value <= w.store.tickets[t].validUntil
  {
    ArisingIsSafe(w);
    var c :| 0 <= c < |w.calls| && Reports(w.calls[c], t);
    assert CallOk(w.store, w.calls[c]);
  }

  /** A ticket that is not Valid cannot be checked in any more: no further call ever reports it. */
  ghost predicate ShutFor(w: World, w': World, t: nat) {
    && t < |w.store.tickets| && t < |w'.store.tickets| && !w'.store.tickets[t].status.Valid?
    && w'.store.tickets[t].usedAt == w.store.tickets[t].usedAt
    && |w.calls| <= |w'.calls|
    && forall c :: 0 <= c < |w'.calls| && Reports(w'.calls[c], t) ==> c < |w.calls| && Reports(w.calls[c], t)
  }

  lemma ShutStep(w: World, m: World, e: Event, t: nat)
    requires t < |w.store.tickets| && Safe(m) && Proper(e) && ShutFor(w, m, t)
    ensures ShutFor(w, Happen(m, e), t)
  {
    if e.Elsewhere? {
      StepKeeps(m.store, e.step);
      assert SameTicket(m.store.tickets[t], Happen(m, e).store.tickets[t]);
    }
  }

  /** A ticket never becomes Valid again, and from then on the set of calls that report it stays as it is. */
  lemma {:induction false} NeverValidAgain(w: World, events: seq<Event>, t: nat)
    requires Safe(w) && AllProper(events) && t < |w.store.tickets| && !w.store.tickets[t].status.Valid?
    ensures ShutFor(w, Play(w, events), t)
  {
    if |events| != 0 {
      var front := events[..|events| - 1];
      NeverValidAgain(w, front, t);
      PlayKeeps(w, front);
      ShutStep(w, Play(w, front), events[|events| - 1], t);
    }
  }

  ghost predicate GoesOn(w: World, after: seq<Event>, w': World) {
    AllProper(after) && w' == Play(w, after)
  }

  /** The world can become w' later. */
  ghost predicate Continues(w: World, w': World) {
    exists after :: GoesOn(w, after, w')
  }

  /** The ticket of a Returned item can no longer be checked in, not even by a call that had already read it. */
  lemma ReturnedCannotCheckIn(w: World, w': World, t: nat)
    requires Arises(w) && Continues(w, w') && t < |w.store.tickets|
    requires w.store.tickets[t].item < |w.store.items| && w.store.items[w.store.tickets[t].item].status.ItemReturned?
    ensures ShutFor(w, w', t)
  {
    var after :| GoesOn(w, after, w');
    ArisingIsSafe(w);
    NeverValidAgain(w, after, t);
  }

  /**
   * A call that has passed its checks reports a check-in exactly when the ticket is still Valid at its write and the
   * audit log can be saved; then the ticket is Used from that time on, and otherwise nothing changes.
   */
  lemma CheckInSucceedsIff(w: World, c: nat, saved: bool)
    requires Arises(w) && c < |w.calls| && w.calls[c].Waiting?
    ensures var Waiting(t, now), w' := w.calls[c], Happen(w, Finish(c, saved));
      && t < |w.store.tickets|
      && (w'.calls[c] == Answered(t, CheckedInNow(now)) <==> saved && w.store.tickets[t].status.Valid?)
      && if saved && w.store.tickets[t].status.Valid? then UsedFrom(w.store, w'.store, t, now)
         else w'.store == w.store
  {
    ArisingIsSafe(w);
    assert CallOk(w.store, w.calls[c]);
  }

  /** The ticket is Used, from that time on, and nothing else changed. */
  ghost predicate UsedFrom(s: State, s': State, t: nat, at: int)
    requires t < |s.tickets|
  {
    && s' == s.(tickets := s'.tickets) && |s'.tickets| == |s.tickets|
    && (forall u :: 0 <= u < |s.tickets| && u != t ==> s'.tickets[u] == s.tickets[u])
    && s'.tickets[t] == s.tickets[t].(status := Used, usedAt := Some(at))
  }
}

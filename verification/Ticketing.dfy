/** Generated tickets can be used when their session takes place, and expiry shuts only the others. */
module Ticketing {
  import opened Options
  import opened Sums
  import opened Entities
  import opened Lifecycle
  import opened Invariants
  import opened MessageSteps
  import opened Runs
  import CheckIn

  /** The event service knows every session of the order. */
  predicate AllFound(items: seq<Item>, o: nat, lookup: nat -> Lookup) {
    forall i :: 0 <= i < |items| && items[i].order == o ==> lookup(items[i].session).Window?
  }

  /** A new, unused ticket for the item's stock and order, valid while the item's session takes place. */
  ghost predicate UsableFor(s: State, s1: State, t: int, i: int, lookup: nat -> Lookup)
    requires 0 <= i < |s.items| && s.items[i].order < |s.orders|
  {
    && |s.tickets| <= t < |s1.tickets|
    && var ticket := s1.tickets[t];
       && ticket.item == i && ticket.stock == s.items[i].stock && ticket.status.Valid? && ticket.usedAt.None?
       && ticket.order == Serial(s.orders[s.items[i].order].serial)
       && lookup(s.items[i].session) == Window(ticket.validFrom, ticket.validUntil)
  }

  lemma {:induction false} NoFailure(list: seq<Item>, lookup: nat -> Lookup)
    requires forall j :: 0 <= j < |list| ==> lookup(list[j].session).Window?
    ensures FirstFailure(list, lookup).None?
  {
    if |list| != 0 {
      NoFailure(list[..|list| - 1], lookup);
    }
  }

  lemma TicketWritten(s: State, o: nat, lookup: nat -> Lookup, i: nat) returns (t: nat)
    requires ItemsOk(s) && o < |s.orders| && i < |s.items| && s.items[i].order == o
    requires lookup(s.items[i].session).Window?
    ensures UsableFor(s, s.(tickets := s.tickets + TicketsFor(ItemsOf(s.items, o), s.orders[o].serial, lookup)),
                      t, i, lookup)
  {
    var list := ItemsOf(s.items, o);
    FilterMembers(s.items, InOrder(o));
    assert s.items[i] in list;
    var j :| 0 <= j < |list| && list[j] == s.items[i];
    t := |s.tickets| + j;
    var tickets := s.tickets + TicketsFor(list, s.orders[o].serial, lookup);
    assert tickets[t] == TicketFor(s.items[i], s.orders[o].serial, lookup);
  }

  lemma NoFailureOfOrder(items: seq<Item>, o: nat, lookup: nat -> Lookup)
    requires AllFound(items, o, lookup)
    ensures FirstFailure(ItemsOf(items, o), lookup).None?
  {
    var list := ItemsOf(items, o);
    FilterMembers(items, InOrder(o));
    forall j | 0 <= j < |list| ensures lookup(list[j].session).Window? {
      assert list[j] in list;
      var i :| 0 <= i < |items| && items[i] == list[j];
    }
    NoFailure(list, lookup);
  }

  lemma TicketsOfOrder(s: State, o: nat, lookup: nat -> Lookup, s1: State)
    requires Refs(s) && o < |s.orders| && AllFound(s.items, o, lookup)
    requires s1.tickets == s.tickets + TicketsFor(ItemsOf(s.items, o), s.orders[o].serial, lookup)
    ensures s.tickets <= s1.tickets
    ensures forall i :: 0 <= i < |s.items| && s.items[i].order == o ==> exists t: int :: UsableFor(s, s1, t, i, lookup)
    ensures forall t :: |s.tickets| <= t < |s1.tickets| ==>
              s1.tickets[t].item < |s.items| && s.items[s1.tickets[t].item].order == o
  {
    TicketsForItems(s, o, lookup, s.orders[o].serial);
    forall i | 0 <= i < |s.items| && s.items[i].order == o ensures exists t: int :: UsableFor(s, s1, t, i, lookup) {
      var t := TicketWritten(s, o, lookup, i);
      assert UsableFor(s, s1, t, i, lookup);
    }
  }

  /**
   * The message of a Paid order whose sessions are all found completes it, gives each of its items a usable ticket and
   * writes no ticket for another order.
   */
  lemma TicketsAreUsable(s: State, o: nat, lookup: nat -> Lookup)
    requires Reachable(s) && o < |s.orders| && s.orders[o].status.OrderPaid? && AllFound(s.items, o, lookup)
    ensures Apply(s, DeliverGenerate(o, lookup)).Commit?
    ensures var s1 := Apply(s, DeliverGenerate(o, lookup)).state;
      && s.tickets <= s1.tickets && |s1.orders| == |s.orders| && s1.orders[o].status.Completed?
      && (forall i :: 0 <= i < |s.items| && s.items[i].order == o ==> exists t: int :: UsableFor(s, s1, t, i, lookup))
      && (forall t :: |s.tickets| <= t < |s1.tickets| ==>
            s1.tickets[t].item < |s.items| && s.items[s1.tickets[t].item].order == o)
  {
    ReachableInv(s);
    NoFailureOfOrder(s.items, o, lookup);
    GenerationSucceeds(s, o, lookup);
    TicketsOfOrder(s, o, lookup, Apply(s, DeliverGenerate(o, lookup)).state);
  }

  lemma OnlyTicketAdmits(s: State, s1: State, t: nat, i: nat, lookup: nat -> Lookup, now: int)
    requires i < |s.items| && s.items[i].order < |s.orders| && OneTicketEach(s1)
    requires t < |s1.tickets| && s1.tickets[t].item == i && exists u: int :: UsableFor(s, s1, u, i, lookup)
    ensures var session := lookup(s.items[i].session);
      session.Window? && (CheckIn.Read(s1, t, now).Waiting? <==> session.from <= now <= session.until)
  {
    var u: int :| UsableFor(s, s1, u, i, lookup);
    assert u == t;
  }

  /** From then on a check-in call with an item's ticket passes its checks exactly while the item's session lasts. */
  lemma NewTicketAdmits(s: State, o: nat, lookup: nat -> Lookup, s1: State, t: nat, now: int)
    requires Reachable(s) && o < |s.orders| && s.orders[o].status.OrderPaid? && AllFound(s.items, o, lookup)
    requires Apply(s, DeliverGenerate(o, lookup)) == Commit(s1)
    requires t < |s1.tickets| && s1.tickets[t].item < |s.items| && s.items[s1.tickets[t].item].order == o
    ensures var session := lookup(s.items[s1.tickets[t].item].session);
      session.Window? && (CheckIn.Read(s1, t, now).Waiting? <==> session.from <= now <= session.until)
  {
    ReachableInv(s);
    TicketsAreUsable(s, o, lookup);
    HandleGenerateKeeps(s, o, lookup);
    OnlyTicketAdmits(s, s1, t, s1.tickets[t].item, lookup, now);
  }

  // ---- failures ----

  lemma {:induction false} FirstFailureOfOrder(items: seq<Item>, o: nat, lookup: nat -> Lookup, i: nat)
    requires i < |items| && items[i].order == o && !lookup(items[i].session).Window?
    requires forall j :: 0 <= j < i && items[j].order == o ==> lookup(items[j].session).Window?
    ensures FirstFailure(ItemsOf(items, o), lookup) == Some(lookup(items[i].session))
  {
    var n := |items| - 1;
    var front := ItemsOf(items[..n], o);
    if i < n {
      FirstFailureOfOrder(items[..n], o, lookup, i);
    } else {
      assert AllFound(items[..n], o, lookup);
      NoFailureOfOrder(items[..n], o, lookup);
    }
    if items[n].order == o {
      assert ItemsOf(items, o)[..|front|] == front;
    }
  }

  /**
   * The first item whose session is not found decides for the whole order: when the event service does not know the
   * session the message is acknowledged without effect, when it cannot be reached the message is tried again.
   */
  lemma FirstFailureDecides(s: State, o: nat, lookup: nat -> Lookup, i: nat)
    requires Reachable(s) && o < |s.orders| && s.orders[o].status.OrderPaid?
    requires i < |s.items| && s.items[i].order == o && !lookup(s.items[i].session).Window?
    requires forall j :: 0 <= j < i && s.items[j].order == o ==> lookup(s.items[j].session).Window?
    ensures Apply(s, DeliverGenerate(o, lookup)) == if lookup(s.items[i].session).NotFound? then Commit(s) else Abort
  {
    PaidAwaitsTickets(s, o);
    FirstFailureOfOrder(s.items, o, lookup, i);
  }

  lemma PaidAwaitsTickets(s: State, o: nat)
    requires Reachable(s) && o < |s.orders| && s.orders[o].status.OrderPaid?
    ensures GenerateTickets(o) in s.outbox && Sum(s.tickets, KeyIs(ObjectId(o))) == 0
  {
    ReachableInv(s);
    CountFindsNothing(s, o);
  }

  // ---- expiry ----

  /** Expiry changes no ticket but to Expired, and nothing else. */
  ghost predicate OnlyExpires(s: State, s1: State) {
    && s1 == s.(tickets := s1.tickets) && |s1.tickets| == |s.tickets|
    && forall t :: 0 <= t < |s.tickets| ==>
         s1.tickets[t] == s.tickets[t] || s1.tickets[t] == s.tickets[t].(status := Expired)
  }

  /** No check-in with the ticket that begins from now on could pass its checks. */
  ghost predicate PastUse(s: State, t: nat, now: int) {
    forall later {:trigger CheckIn.Read(s, t, later)} :: later >= now ==> !CheckIn.Read(s, t, later).Waiting?
  }

  /** It shuts no ticket that could still be used, and every Valid one that had its time and is past use. */
  lemma ExpiryIsExact(s: State, now: int, t: nat)
    requires t < |s.tickets|
    ensures OnlyExpires(s, Next(s, DoExpire(now)))
    ensures Next(s, DoExpire(now)).tickets[t] != s.tickets[t] ==> s.tickets[t].status.Valid? && PastUse(s, t, now)
    ensures s.tickets[t].status.Valid? && PastUse(s, t, now) && s.tickets[t].validFrom <= s.tickets[t].validUntil ==>
              Next(s, DoExpire(now)).tickets[t].status.Expired?
  {
    var ticket := s.tickets[t];
    var latest := if now <= ticket.validFrom then ticket.validFrom else now;
    assert ticket.status.Valid? && latest <= ticket.validUntil ==> CheckIn.Read(s, t, latest).Waiting?;
  }
}

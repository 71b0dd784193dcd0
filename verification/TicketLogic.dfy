/** The ticket operations over the database. */
module TicketLogic {
  import opened Options
  import opened Entities
  import opened Lifecycle
  import opened Repository
  import CheckIn

  class TicketLogic {
    const db: Database

    constructor (db: Database)
      ensures this.db == db
    {
      this.db := db;
    }

    method VoidTicketByOrderItem(i: nat)
      modifies db
      ensures db.View() == VoidTicket(old(db.View()), i)
    {
      var found := db.GetTicketByOrderItemID(i);
      if found.None? {
        return;
      }
      var ticket := db.tickets[found.value];
      db.ReleaseTickets([SeatOf(ticket)]);
      var ok := db.UpdateTicketStatus(found.value, Invalidated);
    }

    /**
     * One check-in call that nothing interrupts: its read and its conditional write are the two steps of the
     * interleaved protocol.  `saved` says whether the audit log can be written; otherwise the write is rolled back.
     */
    method CheckInTicket(t: nat, now: int, saved: bool) returns (answer: CheckIn.Answer)
      modifies db
      ensures var w := CheckIn.Happen(CheckIn.Happen(CheckIn.World(old(db.View()), []), CheckIn.Begin(t, now)),
                                      CheckIn.Finish(0, saved));
        w == CheckIn.World(db.View(), [CheckIn.Answered(t, answer)])
      ensures answer == CheckIn.CheckedInNow(now)
         <==> t < |old(db.tickets)| && old(db.tickets)[t].status.Valid?
              && old(db.tickets)[t].validFrom <= now <= old(db.tickets)[t].validUntil && saved
      ensures answer.TicketNotFound? <==> t >= |old(db.tickets)|
      ensures answer.NotValid? <==> t < |old(db.tickets)| && !old(db.tickets)[t].status.Valid?
      ensures answer.Failed? ==> !saved
      ensures answer.CheckedInNow? ==>
                db.tickets == old(db.tickets)[t := old(db.tickets)[t].(status := Used, usedAt := Some(now))]
      ensures !answer.CheckedInNow? ==> db.View() == old(db.View())
    {
      if t >= |db.tickets| {
        return CheckIn.TicketNotFound;
      }
      var ticket := db.tickets[t];
      if !ticket.status.Valid? {
        return CheckIn.NotValid;
      }
      if now < ticket.validFrom || now > ticket.validUntil {
        return CheckIn.OutsideWindow;
      }
      var snapshot := db.View();
      var ok := db.MarkTicketAsUsed(t, now);
      if !ok {
        return CheckIn.NotValid;
      }
      if !saved {
        db.Restore(snapshot);
        return CheckIn.Failed;
      }
      return CheckIn.CheckedInNow(now);
    }

    /** One ticket per item of a Paid order, unless a session cannot be looked up. */
    method GenerateTicketsForOrder(o: nat, lookup: nat -> Lookup) returns (failure: Option<Lookup>)
      modifies db
      ensures var g := Generate(old(db.View()), o, lookup);
        match failure {
          case None => g.Generated? && db.View() == old(db.View()).(tickets := g.tickets)
          case Some(f) => db.View() == old(db.View()) && g == if f.NotFound? then PermanentFailure else TransientFailure
        }
    {
      if o >= |db.orders| || !db.orders[o].status.OrderPaid? {
        return None;
      }
      var count := db.CountTicketsByOrder(ObjectId(o));
      if count > 0 {
        return None;
      }
      var list := db.GetOrderItemsByOrderID(o);
      var tickets := [];
      for n := 0 to |list|
        invariant FirstFailure(list[..n], lookup).None?
        invariant tickets == TicketsFor(list[..n], db.orders[o].serial, lookup)
      {
        assert list[..n + 1][..n] == list[..n];
        var session := lookup(list[n].session);
        if !session.Window? {
          FailureStands(list, n, lookup);
          return Some(session);
        }
        tickets := tickets + [Ticket(list[n].id, Serial(db.orders[o].serial), list[n].stock, Valid,
                                     session.from, session.until, None)];
      }
      assert list[..|list|] == list;
      if |tickets| == 0 {
        assert db.tickets + tickets == db.tickets;
        return None;
      }
      db.CreateManyTickets(tickets);
      return None;
    }
  }

  /** The first lookup that fails decides, whatever comes after it. */
  lemma {:induction false} FailureStands(list: seq<Item>, n: nat, lookup: nat -> Lookup)
    requires n < |list| && FirstFailure(list[..n], lookup).None? && !lookup(list[n].session).Window?
    ensures FirstFailure(list, lookup) == Some(lookup(list[n].session))
  {
    var m := |list| - 1;
    if n < m {
      assert list[..m][..n] == list[..n];
      FailureStands(list[..m], n, lookup);
    }
  }
}

/** Which actions add rows: orders and attendees come from reservations alone, and tickets from
    issuing alone. */
module Additions {
  import opened Schema
  import opened Request
  import opened Transactions
  import opened System
  import opened History

  /** No new order, and no new attendee. */
  ghost predicate NoOrders(a: Db, b: Db) {
    |b.orders| == |a.orders| && b.attendees == a.attendees
  }

  /** Nor any ticket. */
  ghost predicate NothingAdded(a: Db, b: Db) {
    NoOrders(a, b) && b.tickets == a.tickets
  }

  lemma StartsAddNothing(s: Sys, a: Action)
    requires IsStart(a)
    ensures NothingAdded(s.facts.db, Next(s, a).facts.db)
  {
    hide Accepts;
  }

  lemma StampAddsNothing(s: Sys, p: Pid, fate: Fate)
    ensures NothingAdded(s.facts.db, DoStamp(s, p, fate).facts.db)
  { }

  lemma RecordAddsNothing(s: Sys, p: Pid, fate: Fate)
    ensures NothingAdded(s.facts.db, DoRecord(s, p, fate).facts.db)
  { }

  lemma MarkAddsNothing(s: Sys, p: Pid, fate: Fate)
    ensures NothingAdded(s.facts.db, DoMarkSent(s, p, fate).facts.db)
  { }

  lemma OrderRowsAddNothing(s: Sys, a: Action)
    requires a.Stamp? || a.Record? || a.MarkSent?
    ensures NothingAdded(s.facts.db, Next(s, a).facts.db)
  {
    StampAddsNothing(s, a.p, a.fate);
    RecordAddsNothing(s, a.p, a.fate);
    MarkAddsNothing(s, a.p, a.fate);
    hide NothingAdded, DoStamp, DoRecord, DoMarkSent;
  }

  lemma TicketRowsAddNothing(s: Sys, a: Action)
    requires a.Issue? || a.AdmitTicket?
    ensures NoOrders(s.facts.db, Next(s, a).facts.db)
  {
    hide Admissible, InsertTickets, Admit;
  }

  lemma SendAddsNothing(s: Sys, a: Action)
    requires a.Send?
    ensures NothingAdded(s.facts.db, Next(s, a).facts.db)
  { }

  lemma EditsAddNothing(s: Sys, a: Action)
    requires EditsCatalog(a)
    ensures NothingAdded(s.facts.db, Next(s, a).facts.db)
  {
    hide Referenced, TypesOfEvent, Reallocated, PriceFits;
  }

  lemma SettlingAddsNothing(db: Db, o: OrderId, status: Status, restore: bool, lines: seq<Line>)
    ensures var r := SettleTx(db, o, status, restore, lines); r.Applied? ==> NothingAdded(db, r.db)
  {
    hide RestoreLines;
  }

  lemma SettleAddsNothing(s: Sys, a: Action)
    requires a.Settle?
    ensures NothingAdded(s.facts.db, Next(s, a).facts.db)
  {
    hide SettleTx, Resume;
    if a.p in s.procs && (s.procs[a.p].Settling? || s.procs[a.p].Committing?) && s.procs[a.p].outcome.status.Some? {
      var r := s.procs[a.p];
      SettlingAddsNothing(s.facts.db, r.ord.id, r.outcome.status.value, r.outcome.restore, if r.Committing? then r.lines else []);
    }
  }

  lemma CompensateAddsNothing(s: Sys, a: Action)
    requires a.Compensate?
    ensures NothingAdded(s.facts.db, Next(s, a).facts.db)
  {
    hide SettleTx;
    if a.p in s.procs && s.procs[a.p].Compensating? {
      SettlingAddsNothing(s.facts.db, s.procs[a.p].id, Cancelled, true, s.procs[a.p].lines);
    }
  }

  lemma ReserveAddsNoTicket(s: Sys, a: Action)
    requires a.Reserve?
    ensures Next(s, a).facts.db.tickets == s.facts.db.tickets
  {
    hide ReserveLines, Amount, Types, ItemRows, AttendeeRows, NumberTaken;
  }

  /** Only reserving, issuing and admitting add an order, an attendee or a ticket, or change a ticket. */
  lemma OthersAddNothing(s: Sys, a: Action)
    requires !a.Reserve? && !a.Issue? && !a.AdmitTicket?
    ensures NothingAdded(s.facts.db, Next(s, a).facts.db)
  {
    if IsStart(a) {
      StartsAddNothing(s, a);
    } else if IsAnswerMove(a) {
      AnswerMovesAreQuiet(s, a);
    } else if IsOtherMove(a) {
      OtherMovesAreQuiet(s, a);
    } else if a.Settle? {
      SettleAddsNothing(s, a);
    } else if a.Compensate? {
      CompensateAddsNothing(s, a);
    } else if a.Stamp? || a.Record? || a.MarkSent? {
      OrderRowsAddNothing(s, a);
    } else if a.Send? {
      SendAddsNothing(s, a);
    } else {
      EditsAddNothing(s, a);
    }
    hide Next;
  }

  /** Nothing but a reservation adds an order, or an attendee. */
  lemma OnlyReservingAdds(s: Sys, a: Action)
    requires !a.Reserve?
    ensures NoOrders(s.facts.db, Next(s, a).facts.db)
  {
    if a.Issue? || a.AdmitTicket? {
      TicketRowsAddNothing(s, a);
    } else {
      OthersAddNothing(s, a);
    }
    hide Next, NoOrders;
  }

  /** Nothing but issuing and admitting touches the tickets. */
  lemma TicketsUntouched(s: Sys, a: Action)
    requires !a.Issue? && !a.AdmitTicket?
    ensures Next(s, a).facts.db.tickets == s.facts.db.tickets
  {
    if a.Reserve? {
      ReserveAddsNoTicket(s, a);
    } else {
      OthersAddNothing(s, a);
    }
    hide Next;
  }
}

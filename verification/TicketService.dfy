/** Fulfilment of a paid order: one ticket per attendee in one transaction, then one email with
    all of them. Each method takes its process's actions of the interleaved system. */
module TicketService {
  import opened Wrappers
  import opened Schema
  import opened Transactions
  import opened System
  import opened Invariant
  import opened Storage

  // --- Issuance ---------------------------------------------------------------------------------

  /** createOneTicket, with the code it draws. Its loop of attempts never comes to a second one: a
      taken code has already aborted the transaction, so it is an error like any other. */
  method CreateOneTicket(store: Store, o: OrderId, attendee: AttendeeId, code: string) returns (err: bool)
    modifies store`work
    ensures err ==> store.work == old(store.work)
    ensures err && store.reliable ==>
              || CodeTaken(old(store.work).tickets, code)
              || o >= |old(store.work).orders| || attendee >= |old(store.work).attendees|
    ensures !err ==> !CodeTaken(old(store.work).tickets, code) && o < |old(store.work).orders| && attendee < |old(store.work).attendees|
    ensures !err ==> store.work == old(store.work).(tickets := old(store.work).tickets + [TicketRow(code, o, attendee, Active)])
  {
    err := store.Fails();
    if !err {
      err := store.InsertTicket(code, o, attendee);
    }
  }

  /** The first n codes that are drawn. */
  function Drawn(draw: nat -> string, n: nat): (codes: seq<string>)
    ensures |codes| == n && forall i :: 0 <= i < n ==> codes[i] == draw(i)
  {
    seq(n, i requires 0 <= i < n => draw(i))
  }

  /** A code that is taken when its turn comes fails the whole loop. */
  lemma OneCollides(tickets: seq<TicketRow>, o: OrderId, ids: seq<AttendeeId>, codes: seq<string>, k: nat)
    requires |ids| == |codes| && k < |ids|
    requires InsertTickets(tickets, o, ids[..k], codes[..k]).Some?
    requires CodeTaken(InsertTickets(tickets, o, ids[..k], codes[..k]).value, codes[k])
    ensures Collide(tickets, codes)
  {
    InsertedCodes(tickets, o, ids[..k], codes[..k], codes[k]);
    hide InsertTickets, CodeTaken;
    if codes[k] in codes[..k] {
      var i :| 0 <= i < k && codes[..k][i] == codes[k];
      assert codes[i] == codes[k];
    }
  }

  /** The body of the issuing transaction, with the codes it draws. Without faults it computes the
      transaction. */
  method IssueBody(store: Store, o: OrderId, ids: seq<AttendeeId>, draw: nat -> string) returns (err: bool)
    requires ids != []
    modifies store`work
    ensures !err ==> IssueTx(old(store.work), o, ids, Drawn(draw, |ids|)) == Applied(store.work)
    ensures err && store.reliable ==> IssueTx(old(store.work), o, ids, Drawn(draw, |ids|)) == Failed
  {
    ghost var before, codes := store.work, Drawn(draw, |ids|);
    err := false;
    for i := 0 to |ids|
      invariant !err && (i > 0 ==> o < |before.orders|)
      invariant InsertTickets(before.tickets, o, ids[..i], codes[..i]) == Some(store.work.tickets)
      invariant store.work == before.(tickets := store.work.tickets)
      invariant forall k :: 0 <= k < i ==> ids[k] < |before.attendees|
    {
      hide Collide, CodeTaken;
      ghost var tickets := store.work.tickets;
      err := CreateOneTicket(store, o, ids[i], draw(i));
      if err {
        IssueTxIff(before, o, ids, codes);
        if CodeTaken(tickets, codes[i]) {
          OneCollides(before.tickets, o, ids, codes, i);
        }
        assert ids[i] in ids;
        return;
      }
      assert ids[..i + 1][..i] == ids[..i] && codes[..i + 1][..i] == codes[..i];
    }
    assert ids[..|ids|] == ids && codes[..|ids|] == codes;
  }

  ghost method ListAttendeesMove(store: Store, p: Pid, o: OrderId)
    requires store.Valid() && store.At(p, FulfilCalled(o))
    modifies store`trace, store`sys, store`own
    ensures store.Valid() && old(store.trace) <= store.trace
    ensures store.own == old(store.own) + [ListAttendees(p)]
    ensures store.At(p, FulfilListed(o, AttendeesOf(store.rows.attendees, o)))
  {
    hide Store.Running, AttendeesOf;
    store.Move(ListAttendees(p), p, FulfilListed(o, AttendeesOf(store.rows.attendees, o)));
  }

  ghost method CheckIssuedMove(store: Store, p: Pid, o: OrderId, ids: seq<AttendeeId>)
    requires store.Valid() && store.At(p, FulfilListed(o, ids))
    modifies store`trace, store`sys, store`own
    ensures store.Valid() && old(store.trace) <= store.trace
    ensures store.own == old(store.own) + [CheckIssued(p)]
    ensures store.At(p, if TicketsOf(store.rows.tickets, o) != [] || ids == [] then DeliveryCalled(o) else FulfilIssuing(o, ids))
  {
    hide Store.Running, TicketsOf;
    store.Move(CheckIssued(p), p,
               if TicketsOf(store.rows.tickets, o) != [] || ids == [] then DeliveryCalled(o) else FulfilIssuing(o, ids));
  }

  ghost method RelistMove(store: Store, p: Pid, o: OrderId)
    requires store.Valid() && store.At(p, FulfilRelisting(o))
    modifies store`trace, store`sys, store`own
    ensures store.Valid() && old(store.trace) <= store.trace
    ensures store.own == old(store.own) + [Relist(p)]
    ensures store.At(p, if TicketsOf(store.rows.tickets, o) != [] then DeliveryCalled(o) else Finished(Failure))
  {
    hide Store.Running, TicketsOf;
    store.Move(Relist(p), p, if TicketsOf(store.rows.tickets, o) != [] then DeliveryCalled(o) else Finished(Failure));
  }

  lemma IssueMove(s: Sys, p: Pid, o: OrderId, ids: seq<AttendeeId>, codes: seq<string>, work: Db, bodyErr: bool, fate: Fate)
    requires p in s.procs && s.procs[p] == FulfilIssuing(o, ids) && |codes| == |ids|
    requires if bodyErr then fate == RollsBack else IssueTx(s.facts.db, o, ids, codes) == Applied(work)
    ensures var t := Next(s, Issue(p, codes, fate));
            && t.clock == s.clock && t.facts.db == (if fate == RollsBack then s.facts.db else work)
            && p in t.procs && t.procs[p] == if fate == Commits then DeliveryCalled(o) else FulfilRelisting(o)
  {
    hide IssueTx;
  }

  /** What an uncontended issuance makes of the rows, and when it fails. */
  ghost predicate IssuesAs(db: Db, o: OrderId, ids: seq<AttendeeId>, draw: nat -> string, after: Db, err: bool) {
    && (err <==> Collide(db.tickets, Drawn(draw, |ids|)))
    && (if err then after == db else IssueTx(db, o, ids, Drawn(draw, |ids|)) == Applied(after))
  }

  /** GenerateForOrder. The check for existing tickets is outside the transaction; after a
      failure, tickets that exist all the same are accepted. */
  method GenerateForOrder(store: Store, ghost p: Pid, o: OrderId, ids: seq<AttendeeId>, draw: nat -> string)
    returns (err: bool, ghost acts: seq<Action>)
    requires store.Valid() && store.At(p, FulfilListed(o, ids))
    modifies store
    ensures store.Valid() && old(store.trace) <= store.trace
    ensures store.At(p, if err then Finished(Failure) else DeliveryCalled(o))
    ensures store.own == old(store.own) + acts && OwnMoves(p, acts)
    ensures forall a <- acts :: a.Issue? ==> a.codes == Drawn(draw, |ids|)
    ensures store.alone && store.rows != old(store.rows) ==>
              && TicketsOf(old(store.rows).tickets, o) == []
              && IssueTx(old(store.rows), o, ids, Drawn(draw, |ids|)) == Applied(store.rows)
    ensures store.alone && store.reliable ==>
              if TicketsOf(old(store.rows).tickets, o) != [] || ids == [] then !err && store.rows == old(store.rows)
              else IssuesAs(old(store.rows), o, ids, draw, store.rows, err)
  {
    hide Next, Collide, Drawn, IssueTx, TicketsOf, Store.Owing, Store.At;
    store.Yield(p, FulfilListed(o, ids));
    acts := [Abort(p)];
    ghost var before := store.rows;
    var existing;
    existing, err := store.TicketsByOrder(o);
    if err {
      store.Quit(p, FulfilListed(o, ids));
      return;
    }
    CheckIssuedMove(store, p, o, ids);
    acts := [CheckIssued(p)];
    if existing != [] || ids == [] {
      return false, acts;
    }
    var committed;
    ghost var issue;
    committed, issue := InsertAll(store, p, o, ids, draw);
    ghost var more;
    err, more := ListIssued(store, p, o, committed);
    acts := acts + [issue] + more;
  }

  /** The tickets after the transaction; if it failed, tickets that exist all the same are taken. */
  method ListIssued(store: Store, ghost p: Pid, o: OrderId, committed: bool) returns (err: bool, ghost acts: seq<Action>)
    requires store.Valid() && store.At(p, if committed then DeliveryCalled(o) else FulfilRelisting(o))
    modifies store
    ensures store.Valid() && old(store.trace) <= store.trace
    ensures store.At(p, if err then Finished(Failure) else DeliveryCalled(o))
    ensures store.own == old(store.own) + acts && OwnMoves(p, acts) && forall a <- acts :: !a.Issue?
    ensures store.alone ==> store.rows == old(store.rows)
    ensures store.alone && store.reliable ==> (err <==> !committed && TicketsOf(store.rows.tickets, o) == [])
  {
    hide Next, TicketsOf, Store.Owing, Store.At;
    ghost var place := if committed then DeliveryCalled(o) else FulfilRelisting(o);
    store.Yield(p, place);
    acts := [];
    var issued;
    issued, err := store.TicketsByOrder(o);
    if err {
      store.Quit(p, place);
      acts := [Abort(p)];
      return;
    }
    if !committed {
      RelistMove(store, p, o);
      acts := [Relist(p)];
      err := issued == [];
    }
  }

  /** The order and the attendees of an issuing process exist. */
  lemma IssuingExist(store: Store, p: Pid, o: OrderId, ids: seq<AttendeeId>)
    requires store.Valid() && store.At(p, FulfilIssuing(o, ids))
    ensures o < |store.rows.orders| && forall id <- ids :: id < |store.rows.attendees|
  {
    store.Sound();
    hide Run, Spawns;
    assert ProcOk(store.sys.facts, p, store.sys.procs[p]);
    AttendeesOfAreRows(store.rows.attendees, o);
  }

  lemma IssuesUnless(db: Db, o: OrderId, ids: seq<AttendeeId>, draw: nat -> string)
    requires o < |db.orders| && forall id <- ids :: id < |db.attendees|
    ensures var r := IssueTx(db, o, ids, Drawn(draw, |ids|));
            (r == Failed <==> Collide(db.tickets, Drawn(draw, |ids|))) && (r != Failed ==> r.Applied?)
  {
    IssueTxIff(db, o, ids, Drawn(draw, |ids|));
    hide InsertTickets, Collide, Drawn;
  }

  /** The transaction of GenerateForOrder. */
  method InsertAll(store: Store, ghost p: Pid, o: OrderId, ids: seq<AttendeeId>, draw: nat -> string)
    returns (committed: bool, ghost issue: Action)
    requires store.Valid() && store.At(p, FulfilIssuing(o, ids)) && ids != []
    modifies store
    ensures store.Valid() && old(store.trace) <= store.trace
    ensures store.At(p, if committed then DeliveryCalled(o) else FulfilRelisting(o))
    ensures store.own == old(store.own) + [issue]
    ensures issue.Issue? && issue.p == p && issue.codes == Drawn(draw, |ids|)
    ensures store.alone ==> store.rows == old(store.rows)
                            || IssueTx(old(store.rows), o, ids, Drawn(draw, |ids|)) == Applied(store.rows)
    ensures store.alone && store.reliable ==> IssuesAs(old(store.rows), o, ids, draw, store.rows, !committed)
  {
    hide Store.Running, Store.At, Next, IssueTx, Collide;
    store.Yield(p, FulfilIssuing(o, ids));
    IssuingExist(store, p, o, ids);
    IssuesUnless(store.rows, o, ids, draw);
    ghost var before := store.rows;
    var err := store.Begin();
    if !err {
      err := IssueBody(store, o, ids, draw);
    }
    var fate := store.Finish(err);
    issue := IssueTaken(store, p, o, ids, before, draw, err, fate);
    committed := fate == Commits;
  }

  /** The end of the issuing transaction is the run's next action. */
  ghost method IssueTaken(store: Store, p: Pid, o: OrderId, ids: seq<AttendeeId>, before: Db, draw: nat -> string,
                          bodyErr: bool, fate: Fate)
    returns (issue: Action)
    requires store.Running(None) && store.sys.facts.db == before && store.sys.clock == store.now
    requires store.At(p, FulfilIssuing(o, ids))
    requires if bodyErr then fate == RollsBack else IssueTx(before, o, ids, Drawn(draw, |ids|)) == Applied(store.work)
    requires store.rows == if fate == RollsBack then before else store.work
    modifies store`trace, store`sys, store`own
    ensures store.Valid() && old(store.trace) <= store.trace
    ensures store.At(p, if fate == Commits then DeliveryCalled(o) else FulfilRelisting(o))
    ensures store.own == old(store.own) + [issue]
    ensures issue.Issue? && issue.p == p && issue.codes == Drawn(draw, |ids|)
  {
    hide Store.Running, Store.Owing, Next, IssueTx;
    IssueMove(store.sys, p, o, ids, Drawn(draw, |ids|), store.work, bodyErr, fate);
    issue := Issue(p, Drawn(draw, |ids|), fate);
    store.TakeQuietly(issue);
  }

  method IssueTicketsForOrder(store: Store, ghost p: Pid, o: OrderId, draw: nat -> string)
    returns (err: bool, ghost acts: seq<Action>)
    requires store.Valid() && store.At(p, FulfilCalled(o))
    modifies store
    ensures store.Valid() && old(store.trace) <= store.trace
    ensures store.At(p, if err then Finished(Failure) else DeliveryCalled(o))
    ensures store.own == old(store.own) + acts && OwnMoves(p, acts)
    ensures store.alone && store.rows != old(store.rows) ==>
              var ids := AttendeesOf(old(store.rows).attendees, o);
              && TicketsOf(old(store.rows).tickets, o) == []
              && IssueTx(old(store.rows), o, ids, Drawn(draw, |ids|)) == Applied(store.rows)
    ensures store.alone && store.reliable ==>
              var ids := AttendeesOf(old(store.rows).attendees, o);
              if TicketsOf(old(store.rows).tickets, o) != [] || ids == [] then !err && store.rows == old(store.rows)
              else IssuesAs(old(store.rows), o, ids, draw, store.rows, err)
  {
    hide Next, Store.Owing, Store.At, IssuesAs, IssueTx, TicketsOf, AttendeesOf;
    store.Yield(p, FulfilCalled(o));
    acts := [Abort(p)];
    var ids;
    ids, err := store.AttendeeIds(o);
    if err {
      store.Quit(p, FulfilCalled(o));
      return;
    }
    ListAttendeesMove(store, p, o);
    ghost var more;
    err, more := GenerateForOrder(store, p, o, ids, draw);
    acts := [ListAttendees(p)] + more;
  }
}

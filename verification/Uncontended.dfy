/** Provider answers with nobody else at work and no faults, as functions on the rows: repeated
    notifications are absorbed. */
module Uncontended {
  import opened Wrappers
  import opened Schema
  import opened ProviderStatus
  import opened Transactions
  import opened System
  import opened Invariant

  /** The release of an order's own seats fits every quota column. */
  ghost predicate Fits(db: Db, o: OrderId) {
    RestoreLines(db.types, LinesOf(db.items, o)).Some?
  }

  // --- One answer -------------------------------------------------------------------------

  datatype Notified = Notified(db: Db, changed: bool, fulfils: bool)

  function Recorded(db: Db, o: OrderId, answer: Answer): Db {
    db.(payments := db.payments + [PaymentRow(o, answer)])
  }

  /** What an answer about an order decides, once it is recorded. */
  function Decided(db: Db, ord: OrderRef, answer: Answer): (r: Notified) {
    var outcome := OutcomeOf(answer);
    if !GoesOn(ord, outcome) then Notified(db, false, false)
    else
      match SettleTx(db, ord.id, outcome.status.value, outcome.restore, LinesOf(db.items, ord.id))
      case Applied(after) => Notified(after, true, outcome.status == Some(Paid))
      case _ => Notified(db, false, false)
  }

  /** HandleNotification on an authenticated answer. */
  function Notify(db: Db, answer: Answer): (r: Notified) {
    match FindByNumber(db.orders, answer.number)
    case None => Notified(db, false, false)
    case Some(o) => Decided(Recorded(db, o, answer), RefTo(db.orders, o), answer)
  }

  datatype Absorbed = Absorbed(db: Db, fulfilments: nat)

  /** A finite sequence of answers, one after the other. */
  function NotifyAll(db: Db, answers: seq<Answer>): (r: Absorbed) {
    if answers == [] then Absorbed(db, 0)
    else
      var before := NotifyAll(db, answers[..|answers| - 1]);
      var last := Notify(before.db, answers[|answers| - 1]);
      Absorbed(last.db, before.fulfilments + if last.fulfils then 1 else 0)
  }

  /** An answer that moves the order: its outcome is a status, and a release fits. */
  ghost predicate Effective(db: Db, o: OrderId, answer: Answer) {
    Moves(answer) && (OutcomeOf(answer).restore ==> Fits(db, o))
  }

  /** All answers are about order o, found by its number. */
  ghost predicate About(db: Db, o: OrderId, answers: seq<Answer>) {
    && o < |db.orders| && NumbersUnique(db.orders)
    && forall a <- answers :: a.number == db.orders[o].number
  }

  function Rows(o: OrderId, answers: seq<Answer>): (rows: seq<PaymentRow>)
    ensures |rows| == |answers|
  {
    seq(|answers|, i requires 0 <= i < |answers| => PaymentRow(o, answers[i]))
  }

  /** The rows with an audit row for each answer, and nothing else. */
  function Noted(db: Db, o: OrderId, answers: seq<Answer>): Db {
    db.(payments := db.payments + Rows(o, answers))
  }

  lemma NotedAppend(db: Db, o: OrderId, a: seq<Answer>, b: seq<Answer>)
    ensures Noted(Noted(db, o, a), o, b) == Noted(db, o, a + b)
  {
    assert Rows(o, a + b) == Rows(o, a) + Rows(o, b);
    assert db.payments + Rows(o, a + b) == db.payments + Rows(o, a) + Rows(o, b);
  }

  lemma NotedOne(db: Db, o: OrderId, a: Answer)
    ensures Recorded(db, o, a) == Noted(db, o, [a])
  {
    assert Rows(o, [a]) == [PaymentRow(o, a)];
  }

  lemma NotedNone(db: Db, o: OrderId)
    ensures Noted(db, o, []) == db
  {
    assert db.payments + Rows(o, []) == db.payments;
  }

  lemma NotifyFinds(db: Db, o: OrderId, answer: Answer)
    requires o < |db.orders| && NumbersUnique(db.orders) && answer.number == db.orders[o].number
    ensures Notify(db, answer) == Decided(Recorded(db, o, answer), RefTo(db.orders, o), answer)
  { }

  /** On a settled order every answer only leaves its audit row. */
  lemma NotifySettled(db: Db, o: OrderId, answer: Answer)
    requires o < |db.orders| && NumbersUnique(db.orders) && answer.number == db.orders[o].number
    requires IsSettled(db, o)
    ensures Notify(db, answer) == Notified(Recorded(db, o, answer), false, false)
  {
    NotifyFinds(db, o, answer);
  }

  /** On a PENDING order an answer settles it exactly when it is effective. */
  lemma NotifyPending(db: Db, o: OrderId, answer: Answer)
    requires o < |db.orders| && NumbersUnique(db.orders) && answer.number == db.orders[o].number
    requires IsPending(db, o)
    ensures var r := Notify(db, answer);
            if Effective(db, o, answer) then
              && r.changed
              && Applied(r.db) == SettleTx(Recorded(db, o, answer), o, OutcomeOf(answer).status.value,
                                           OutcomeOf(answer).restore, LinesOf(db.items, o))
              && r.db.payments == db.payments + [PaymentRow(o, answer)]
              && (r.fulfils <==> OutcomeOf(answer).status == Some(Paid))
            else r == Notified(Recorded(db, o, answer), false, false)
  {
    NotifyFinds(db, o, answer);
  }

  /** The first k answers are all ineffective. */
  ghost predicate Quiet(db: Db, o: OrderId, answers: seq<Answer>, k: nat)
    requires k <= |answers|
  {
    forall i :: 0 <= i < k ==> !Effective(db, o, answers[i])
  }

  lemma AboutFront(db: Db, o: OrderId, answers: seq<Answer>)
    requires About(db, o, answers) && answers != []
    ensures About(db, o, answers[..|answers| - 1]) && answers[|answers| - 1].number == db.orders[o].number
    ensures answers == answers[..|answers| - 1] + [answers[|answers| - 1]]
  {
    assert answers[|answers| - 1] in answers;
  }

  /** Ineffective answers only add audit rows. */
  lemma {:induction false} QuietAnswers(db: Db, o: OrderId, answers: seq<Answer>)
    requires About(db, o, answers) && IsPending(db, o) && Quiet(db, o, answers, |answers|)
    ensures NotifyAll(db, answers) == Absorbed(Noted(db, o, answers), 0)
  {
    hide Effective, Notify, Recorded, Fits;
    if answers != [] {
      AboutFront(db, o, answers);
      var front, last := answers[..|answers| - 1], answers[|answers| - 1];
      assert !Effective(db, o, last);
      QuietAnswers(db, o, front);
      var mid := Noted(db, o, front);
      EffectiveSame(db, o, front, last);
      NotifyPending(mid, o, last);
      NotedOne(mid, o, last);
      NotedAppend(db, o, front, [last]);
    } else {
      NotedNone(db, o);
    }
  }

  lemma EffectiveSame(db: Db, o: OrderId, noted: seq<Answer>, a: Answer)
    ensures Effective(Noted(db, o, noted), o, a) == Effective(db, o, a)
  { }

  /** After the order is settled, every further answer only adds its audit row. */
  lemma {:induction false} SettledAnswers(db: Db, o: OrderId, answers: seq<Answer>)
    requires About(db, o, answers) && IsSettled(db, o)
    ensures NotifyAll(db, answers) == Absorbed(Noted(db, o, answers), 0)
  {
    hide Notify, Recorded;
    if answers != [] {
      AboutFront(db, o, answers);
      var front, last := answers[..|answers| - 1], answers[|answers| - 1];
      SettledAnswers(db, o, front);
      var mid := Noted(db, o, front);
      NotifySettled(mid, o, last);
      NotedOne(mid, o, last);
      NotedAppend(db, o, front, [last]);
    } else {
      NotedNone(db, o);
    }
  }

  lemma {:induction false} NotifyAllAppend(db: Db, a: seq<Answer>, b: seq<Answer>)
    ensures var x := NotifyAll(db, a);
            var y := NotifyAll(x.db, b);
            NotifyAll(db, a + b) == Absorbed(y.db, x.fulfilments + y.fulfilments)
  {
    if b == [] {
      assert a + b == a;
    } else {
      assert (a + b)[..|a + b| - 1] == a + b[..|b| - 1];
      NotifyAllAppend(db, a, b[..|b| - 1]);
    }
  }

  lemma NotifyOne(db: Db, a: Answer)
    ensures NotifyAll(db, [a]) == Absorbed(Notify(db, a).db, if Notify(db, a).fulfils then 1 else 0)
  {
    assert [a][..0] == [];
  }

  /** Settling does not look at the audit trail. */
  lemma SettleNoted(db: Db, o: OrderId, noted: seq<Answer>, status: Status, restore: bool, lines: seq<Line>)
    ensures var r := SettleTx(db, o, status, restore, lines);
            SettleTx(Noted(db, o, noted), o, status, restore, lines)
            == if r.Applied? then Applied(Noted(r.db, o, noted)) else r
  { }

  /** What the effective answer x does to an order that noted some ineffective ones before. */
  lemma EffectiveAnswer(db: Db, o: OrderId, noted: seq<Answer>, x: Answer)
    requires About(db, o, [x]) && IsPending(db, o) && Effective(db, o, x)
    ensures var outcome := OutcomeOf(x);
            var settled := SettleTx(db, o, outcome.status.value, outcome.restore, LinesOf(db.items, o));
            && settled.Applied?
            && Notify(Noted(db, o, noted), x).db == Noted(settled.db, o, noted + [x])
            && Notify(Noted(db, o, noted), x).fulfils == (outcome.status == Some(Paid))
  {
    assert x in [x];
    EffectiveSame(db, o, noted, x);
    var outcome, mid := OutcomeOf(x), Noted(db, o, noted);
    hide Effective, Notify;
    NotifyPending(mid, o, x);
    NotedOne(mid, o, x);
    NotedAppend(db, o, noted, [x]);
    SettleNoted(db, o, noted + [x], outcome.status.value, outcome.restore, LinesOf(db.items, o));
  }

  lemma AboutParts(db: Db, o: OrderId, a: seq<Answer>, x: Answer, b: seq<Answer>)
    requires About(db, o, a + [x] + b)
    ensures About(db, o, a) && About(db, o, [x]) && About(db, o, b)
  {
    assert forall y :: y in a || y in [x] || y in b ==> y in a + [x] + b;
  }

  lemma SettledAbout(db: Db, o: OrderId, x: Answer, noted: seq<Answer>, b: seq<Answer>)
    requires About(db, o, b) && IsPending(db, o) && OutcomeOf(x).status.Some?
    ensures var outcome := OutcomeOf(x);
            var settled := SettleTx(db, o, outcome.status.value, outcome.restore, LinesOf(db.items, o));
            settled.Applied? ==> IsSettled(Noted(settled.db, o, noted), o) && About(Noted(settled.db, o, noted), o, b)
  { }

  /** Absorption: the first effective answer k alone decides status, quotas and fulfilment; all
      the others leave nothing but their audit rows. */
  lemma AnswersAbsorbed(db: Db, o: OrderId, answers: seq<Answer>, k: nat)
    requires About(db, o, answers) && IsPending(db, o)
    requires k < |answers| && Quiet(db, o, answers, k) && Effective(db, o, answers[k])
    ensures var outcome := OutcomeOf(answers[k]);
            var settled := SettleTx(db, o, outcome.status.value, outcome.restore, LinesOf(db.items, o));
            && settled.Applied?
            && NotifyAll(db, answers).db == settled.db.(payments := settled.db.payments + Rows(o, answers))
            && NotifyAll(db, answers).fulfilments == if outcome.status == Some(Paid) then 1 else 0
  {
    var a, x, b := answers[..k], answers[k], answers[k + 1..];
    assert answers == (a + [x]) + b;
    AboutParts(db, o, a, x, b);
    hide Effective, Notify, About, Recorded, SettleTx, IsSettled;
    QuietAnswers(db, o, a);
    EffectiveAnswer(db, o, a, x);
    NotifyAllAppend(db, a, [x]);
    NotifyOne(Noted(db, o, a), x);
    var outcome := OutcomeOf(x);
    var settled := SettleTx(db, o, outcome.status.value, outcome.restore, LinesOf(db.items, o));
    SettledAbout(db, o, x, a + [x], b);
    SettledAnswers(Noted(settled.db, o, a + [x]), o, b);
    NotifyAllAppend(db, a + [x], b);
    NotedAppend(settled.db, o, a + [x], b);
  }

  // --- An answer that is refused ------------------------------------------------------------

  /** The answer about this snapshot goes on to a release that does not fit. */
  ghost predicate ReleaseRefused(db: Db, ord: OrderRef, answer: Answer) {
    && GoesOn(ord, OutcomeOf(answer)) && OutcomeOf(answer).restore
    && IsPending(db, ord.id) && !Fits(db, ord.id)
  }

  /** The answer is about a PENDING order, would give up its seats, and these do not fit. */
  ghost predicate Unsettleable(db: Db, answer: Answer) {
    match FindByNumber(db.orders, answer.number)
    case None => false
    case Some(o) => IsPending(db, o) && Moves(answer) && OutcomeOf(answer).restore && !Fits(db, o)
  }

  /** However often such an answer is sent again, it is refused again: all that comes of it is one
      more audit row each time. */
  lemma {:induction false} RetriesAreRefused(db: Db, answer: Answer, answers: seq<Answer>)
    requires Unsettleable(db, answer) && forall a <- answers :: a == answer
    ensures Unsettleable(NotifyAll(db, answers).db, answer)
    ensures NotifyAll(db, answers) == Absorbed(Noted(db, FindByNumber(db.orders, answer.number).value, answers), 0)
  {
    var o := FindByNumber(db.orders, answer.number).value;
    if answers == [] {
      NotedNone(db, o);
    } else {
      var front, last := answers[..|answers| - 1], answers[|answers| - 1];
      assert last in answers && forall a <- front :: a in answers;
      assert answers == front + [last];
      RetriesAreRefused(db, answer, front);
      var mid := Noted(db, o, front);
      RetryIsRefused(mid, answer);
      NotedOne(mid, o, last);
      NotedAppend(db, o, front, [last]);
    }
    hide Notify, Recorded;
  }

  lemma RetryIsRefused(db: Db, answer: Answer)
    requires Unsettleable(db, answer)
    ensures var o := FindByNumber(db.orders, answer.number).value;
            Notify(db, answer) == Notified(Recorded(db, o, answer), false, false) && Unsettleable(Recorded(db, o, answer), answer)
  {
    hide MapProviderStatus, RestoreLines, LinesOf;
  }

  /** What the texts of an answer decide about a PENDING order that it is given with, whatever
      number it carries. */
  lemma DecidedMeans(db: Db, o: OrderId, answer: Answer)
    requires o < |db.orders| && IsPending(db, o)
    ensures var r := Decided(Recorded(db, o, answer), RefTo(db.orders, o), answer);
            && o < |r.db.orders| && r.db.payments == db.payments + [PaymentRow(o, answer)]
            && (r.db.orders[o].status == Paid <==> Receives(answer.txStatus, answer.fraud))
            && (r.db.orders[o].status == Cancelled <==> GivesUp(answer.txStatus) && Fits(db, o))
            && (r.db.orders[o].status == Expired <==> PassesDeadline(answer.txStatus) && Fits(db, o))
            && (r.fulfils <==> Receives(answer.txStatus, answer.fraud))
            && (r.changed <==> r.db.orders[o].status != Pending)
  {
    Meanings(answer.txStatus, answer.fraud);
    hide MapProviderStatus, Receives, GivesUp, PassesDeadline, LinesOf, RestoreLines;
  }

  /** What an answer's texts do to a PENDING order: it becomes PAID exactly if they say that money
      was received, CANCELLED or EXPIRED exactly if they say so and its seats fit, and otherwise
      it stays PENDING; only the first starts its fulfilment. */
  lemma AnswerMeans(db: Db, o: OrderId, answer: Answer)
    requires o < |db.orders| && NumbersUnique(db.orders) && answer.number == db.orders[o].number && IsPending(db, o)
    ensures var r := Notify(db, answer);
            && o < |r.db.orders|
            && (r.db.orders[o].status == Paid <==> Receives(answer.txStatus, answer.fraud))
            && (r.db.orders[o].status == Cancelled <==> GivesUp(answer.txStatus) && Fits(db, o))
            && (r.db.orders[o].status == Expired <==> PassesDeadline(answer.txStatus) && Fits(db, o))
            && (r.fulfils <==> Receives(answer.txStatus, answer.fraud))
  {
    NotifyPending(db, o, answer);
    Meanings(answer.txStatus, answer.fraud);
    hide Notify, MapProviderStatus, Receives, GivesUp, PassesDeadline, LinesOf, RestoreLines;
  }
}

/** What one provider status means for an order. */
module ProviderStatus {
  import opened Wrappers
  import opened Schema
  import Text

  /** `status` is None when the order keeps the status it has. */
  datatype Outcome = Outcome(status: Option<Status>, restore: bool, handled: bool)

  const UNCHANGED: Outcome := Outcome(None, false, true)
  const UNRECOGNIZED: Outcome := Outcome(None, false, false)
  const PAYS: Outcome := Outcome(Some(Paid), false, true)
  const CANCELS: Outcome := Outcome(Some(Cancelled), true, true)
  const EXPIRES: Outcome := Outcome(Some(Expired), true, true)

  function Normalize(s: string): string {
    Text.ToLower(Text.TrimSpace(s))
  }

  function MapProviderStatus(txStatus: string, fraud: string): (o: Outcome)
    ensures o.restore <==> o.status == Some(Cancelled) || o.status == Some(Expired)
    ensures o.status != Some(Pending) && (o.status.Some? ==> o.handled)
  {
    var tx := Normalize(txStatus);
    if tx == "settlement" then PAYS
    else if tx == "capture" then
      var f := Normalize(fraud);
      if f == "accept" then PAYS
      else if f == "challenge" then UNCHANGED
      else UNRECOGNIZED
    else if tx == "pending" then UNCHANGED
    else if tx == "deny" || tx == "cancel" || tx == "failure" then CANCELS
    else if tx == "expire" then EXPIRES
    else UNRECOGNIZED
  }

  function OutcomeOf(answer: Answer): (o: Outcome)
    ensures o.restore <==> o.status == Some(Cancelled) || o.status == Some(Expired)
    ensures o.status != Some(Pending)
  {
    MapProviderStatus(answer.txStatus, answer.fraud)
  }

  /** The answer is one that moves a PENDING order. */
  predicate Moves(answer: Answer) {
    OutcomeOf(answer).status.Some?
  }

  // --- What the mapping means --------------------------------------------------------------

  lemma NormalizeAgain(s: string)
    ensures Normalize(Normalize(s)) == Normalize(s)
  {
    var core := Text.TrimSpace(s);
    var pre, post := Text.TrimSplits(s);
    var low := Text.ToLower(core);
    assert forall c :: !Text.IsSpace(c) ==> !Text.IsSpace(Text.LowerChar(c));
    if low != "" {
      Text.TrimOf("", low, "");
      assert "" + low + "" == low;
    }
    assert Text.ToLower(low) == low;
  }

  /** Case and surrounding white space never decide what an answer means. */
  lemma SpellingIsIrrelevant(tx: string, fraud: string)
    ensures MapProviderStatus(Normalize(tx), Normalize(fraud)) == MapProviderStatus(tx, fraud)
  {
    NormalizeAgain(tx);
    NormalizeAgain(fraud);
  }

  // What the provider calls money received, an order given up, and a deadline passed.
  predicate Receives(tx: string, fraud: string) {
    Normalize(tx) == "settlement" || (Normalize(tx) == "capture" && Normalize(fraud) == "accept")
  }

  predicate GivesUp(tx: string) {
    Normalize(tx) in {"deny", "cancel", "failure"}
  }

  predicate PassesDeadline(tx: string) {
    Normalize(tx) == "expire"
  }

  /** The three exclude one another and decide the status; money received is the only of them that
      keeps the seats, and without any of them the order is left alone. */
  lemma Meanings(tx: string, fraud: string)
    ensures !(Receives(tx, fraud) && GivesUp(tx)) && !(Receives(tx, fraud) && PassesDeadline(tx))
    ensures !(GivesUp(tx) && PassesDeadline(tx))
    ensures var o := MapProviderStatus(tx, fraud);
            && (o.status == Some(Paid) <==> Receives(tx, fraud))
            && (o.status == Some(Cancelled) <==> GivesUp(tx))
            && (o.status == Some(Expired) <==> PassesDeadline(tx))
            && (o.status.None? <==> !Receives(tx, fraud) && !GivesUp(tx) && !PassesDeadline(tx))
            && (o.restore <==> GivesUp(tx) || PassesDeadline(tx))
  { }
}

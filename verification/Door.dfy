/** The door: codes are normalized, looked up without effect, and admitted once. */
module Door {
  import opened Wrappers
  import opened Schema
  import opened Transactions
  import opened System
  import opened Invariant
  import opened Storage
  import opened Text

  function NormalizeCode(input: string): string {
    ToUpper(TrimSpace(input))
  }

  // --- Spellings --------------------------------------------------------------------------------

  // What codes are drawn from: no 0, 1, I or O.
  const ALPHABET: string := "23456789ABCDEFGHJKLMNPQRSTUVWXYZ"

  predicate Canonical(code: string) {
    code != "" && forall c <- code :: c in ALPHABET
  }

  /** The characters that are read as c: itself, its lower case, and for S also the long s. */
  predicate Spells(x: char, c: char) {
    x == c || ('A' <= c <= 'Z' && x == c - 'A' + 'a') || (c == 'S' && x == '\U{017F}')
  }

  /** The input is the code, in any case, within any white space. */
  ghost predicate Spelling(input: string, code: string) {
    exists pre, core, post ::
      && input == pre + core + post && Blank(pre) && Blank(post)
      && |core| == |code| && forall i :: 0 <= i < |code| ==> Spells(core[i], code[i])
  }

  lemma InAlphabet(c: char)
    requires c in ALPHABET
    ensures '2' <= c <= '9' || ('A' <= c <= 'Z' && c != 'I')
  { }

  lemma SpelledChar(x: char, c: char)
    requires '2' <= c <= '9' || ('A' <= c <= 'Z' && c != 'I')
    ensures UpperChar(x) == c <==> Spells(x, c)
    ensures Spells(x, c) ==> !IsSpace(x)
  { }

  /** Normalizing yields a code exactly from its spellings: interior characters are never
      repaired into somebody else's code. */
  lemma NormalizesIff(input: string, code: string)
    requires Canonical(code)
    ensures NormalizeCode(input) == code <==> Spelling(input, code)
  {
    if NormalizeCode(input) == code {
      var pre, post := TrimSplits(input);
      var core := TrimSpace(input);
      forall i | 0 <= i < |code| ensures Spells(core[i], code[i]) {
        assert ToUpper(core)[i] == code[i] && code[i] in code;
        InAlphabet(code[i]);
        SpelledChar(core[i], code[i]);
      }
    }
    if Spelling(input, code) {
      var pre, core, post :| && input == pre + core + post && Blank(pre) && Blank(post)
        && |core| == |code| && forall i :: 0 <= i < |code| ==> Spells(core[i], code[i]);
      forall i | 0 <= i < |code| ensures UpperChar(core[i]) == code[i] && !IsSpace(core[i]) {
        assert code[i] in code;
        InAlphabet(code[i]);
        SpelledChar(core[i], code[i]);
      }
      TrimOf(pre, core, post);
      assert ToUpper(core) == code;
    }
  }

  // --- Validate and MarkUsed ----------------------------------------------------------------------

  datatype Verdict = Valid | AlreadyUsed | Invalid

  /** With unique codes, the row found is the only one with its code. */
  lemma FoundIsOnly(tickets: seq<TicketRow>, code: string)
    requires CodesUnique(tickets)
    ensures Admissible(tickets, code) <==> StatusOf(tickets, code) == Some(Active)
    ensures IsUsed(tickets, code) <==> StatusOf(tickets, code) == Some(Used)
  {
    var found := FindTicket(tickets, code);
    forall i | 0 <= i < |tickets| && tickets[i].code == code ensures i == found.value { }
  }

  /** Every ticket joins: its attendee, that attendee's type and that type's event exist. */
  lemma TicketsJoin(db: Db, code: string)
    requires RefsOk(db)
    ensures JoinedStatus(db, code) == StatusOf(db.tickets, code)
  {
    var found := FindTicket(db.tickets, code);
    if found.Some? {
      var row := db.tickets[found.value];
      assert row in db.tickets && db.attendees[row.attendee] in db.attendees;
    }
  }

  lemma ValidDoor(store: Store)
    requires store.Valid()
    ensures RefsOk(store.rows) && CodesUnique(store.rows.tickets) && DoorOk(store.rows.tickets, store.sys.facts.log)
  {
    hide Run, Spawns;
    store.Sound();
  }

  /** Validate changes nothing, and says Valid exactly when MarkUsed would admit, although one
      joins four tables and the other looks at one. */
  method Validate(store: Store, rawCode: string) returns (v: Verdict, err: bool)
    requires store.Valid()
    ensures store.reliable ==> !err
    ensures !err ==> (v == Valid <==> Admissible(store.rows.tickets, NormalizeCode(rawCode)))
    ensures !err ==> (v == AlreadyUsed <==> IsUsed(store.rows.tickets, NormalizeCode(rawCode)))
  {
    hide Store.Running, NormalizeCode, RefsOk, CodesUnique, DoorOk;
    var code := NormalizeCode(rawCode);
    ValidDoor(store);
    TicketsJoin(store.rows, code);
    FoundIsOnly(store.rows.tickets, code);
    var detail;
    detail, err := store.TicketDetail(code);
    if err || detail.None? {
      return Invalid, err;
    }
    match detail.value
    case Active => v := Valid;
    case Used => v := AlreadyUsed;
    case Revoked => v := Invalid;
  }

  datatype Marked = Entered | NotFound | Conflict(status: TicketStatus) | Unavailable

  /** The guarded update is the run's admission of the code; without a matching row it is nothing. */
  lemma AdmitMove(s: Sys, code: string)
    ensures var t := Next(s, AdmitTicket(code));
            && t.clock == s.clock && t.facts.db == s.facts.db.(tickets := Admit(s.facts.db.tickets, code))
            && (Admissible(s.facts.db.tickets, code) ==> IsUsed(t.facts.db.tickets, code))
  {
    var tickets := s.facts.db.tickets;
    if Admissible(tickets, code) {
      var i :| 0 <= i < |tickets| && tickets[i].code == code && tickets[i].status == Active;
      assert Admit(tickets, code)[i].status == Used;
    } else {
      assert Admit(tickets, code) == tickets;
    }
  }

  /** A refused admission leaves the status it is explained by. */
  lemma StatusAfter(tickets: seq<TicketRow>, code: string)
    ensures StatusOf(tickets, code) != Some(Active) && !Admissible(tickets, code) ==>
              Admit(tickets, code) == tickets
  { }

  /** MarkUsed: one guarded update, and a status read only to explain a refusal. */
  method MarkUsed(store: Store, rawCode: string) returns (r: Marked, ghost acts: seq<Action>)
    requires store.Valid()
    modifies store
    ensures store.Valid() && old(store.trace) <= store.trace
    ensures store.own == old(store.own) + acts
    ensures acts == [AdmitTicket(NormalizeCode(rawCode))] || (r == Unavailable && acts == [])
    ensures r.Entered? ==>
              && IsUsed(store.rows.tickets, NormalizeCode(rawCode))
              && AdmittedCount(store.sys.facts.log, NormalizeCode(rawCode)) == 1
    ensures store.alone && store.reliable ==>
              && store.rows == old(store.rows).(tickets := Admit(old(store.rows).tickets, NormalizeCode(rawCode)))
              && r == match StatusOf(old(store.rows).tickets, NormalizeCode(rawCode))
                      case None => NotFound
                      case Some(Active) => Entered
                      case Some(status) => Conflict(status)
  {
    hide Store.Running, NormalizeCode, Next, Admissible, StatusOf, CodesUnique, RefsOk;
    acts := [];
    var code := NormalizeCode(rawCode);
    store.Pause();
    ghost var before := store.rows.tickets;
    ValidDoor(store);
    AdmitEffect(before, code);
    StatusAfter(before, code);
    var applied := false;
    var err := store.Begin();
    if !err {
      applied, err := store.UpdateTicketUsed(code);
    }
    var fate := store.Finish(err);
    if fate != RollsBack {
      AdmitMove(store.sys, code);
      store.TakeQuietly(AdmitTicket(code));
      acts := [AdmitTicket(code)];
    }
    if fate != Commits {
      return Unavailable, acts;
    }
    if applied {
      ValidDoor(store);
      return Entered, acts;
    }
    store.Pause();
    var status;
    status, err := store.TicketStatusOf(code);
    if err {
      return Unavailable, acts;
    }
    if status.None? {
      return NotFound, acts;
    }
    r := Conflict(status.value);
  }
}

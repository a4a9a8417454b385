/**
 The record of sessions kept for one address (rust/protocol/src/state/session.rs:645-774) and decryption over
 it (rust/protocol/src/session_cipher.rs:424-582).
 */
module SessionRecords {
  import opened Prelude
  import opened Symbolic
  import opened Messages
  import opened SessionStates
  import opened SessionCipher

  datatype Record = Record(current: Option<SessionStructure>, previous: seq<SessionStructure>)

  const FRESH_RECORD := Record(None, [])

  datatype MessageKind = WhisperKind | PreKeyKind

  /** Every session of the record, the current one first. */
  function Sessions(r: Record): seq<SessionStructure> {
    (if r.current.Some? then [r.current.value] else []) + r.previous
  }

  // ---------------------------------------------------------------------------------------------
  // Outcome functions

  /** The archive with one more session in front; a full archive gives up its oldest session. */
  function ArchiveInto(previous: seq<SessionStructure>, s: SessionStructure): seq<SessionStructure> {
    [ClearPending(s)] + (if |previous| >= ARCHIVED_STATES_MAX_LENGTH then previous[..|previous| - 1] else previous)
  }

  function ArchiveCurrent(r: Record): Record {
    if r.current.Some? then Record(None, ArchiveInto(r.previous, r.current.value)) else r
  }

  function PromoteState(r: Record, s: SessionStructure): Record {
    ArchiveCurrent(r).(current := Some(s))
  }

  function PromoteOld(r: Record, i: nat, s: SessionStructure): Record
    requires i < |r.previous|
  {
    PromoteState(r.(previous := Without(r.previous, i)), s)
  }

  predicate Matches(s: SessionStructure, version: nat, base: Name) {
    SessionVersion(s) == version && s.aliceBaseKey == base
  }

  function FindMatch(ss: seq<SessionStructure>, version: nat, base: Name): (r: Option<nat>)
    ensures r.Some? ==> r.value < |ss| && Matches(ss[r.value], version, base)
    ensures r.Some? ==> forall j :: 0 <= j < r.value ==> !Matches(ss[j], version, base)
    ensures r.None? ==> forall j :: 0 <= j < |ss| ==> !Matches(ss[j], version, base)
  {
    if ss == [] then None
    else if Matches(ss[0], version, base) then Some(0)
    else
      var rest := FindMatch(ss[1..], version, base);
      if rest.Some? then Some(rest.value + 1) else None
  }

  /** The record with a matching session made current, if there is one. */
  function PromoteMatching(r: Record, version: nat, base: Name): Option<Record> {
    if r.current.Some? && Matches(r.current.value, version, base) then Some(r)
    else match FindMatch(r.previous, version, base)
         case None => None
         case Some(i) => Some(PromoteOld(r, i, r.previous[i]))
  }

  datatype Attempt =
    | NoneAccepted
    | StoppedAt(error: Error)
    | AcceptedBy(index: nat, session: SessionStructure, plaintext: Plaintext)

  /** Trying archived sessions in order, from position `i`: the first success or duplicate ends the search. */
  function TryFrom(ss: seq<SessionStructure>, i: nat, m: SignalMessage, eph: Name, o: Oracles): Attempt
    requires i <= |ss|
    decreases |ss| - i
  {
    if i == |ss| then NoneAccepted
    else match DecryptWithState(ss[i], m, eph, o)
         case Ok((s, plaintext)) => AcceptedBy(i, s, plaintext)
         case Err(DuplicatedMessage(a, b)) => StoppedAt(DuplicatedMessage(a, b))
         case Err(CounterOverflow) => StoppedAt(CounterOverflow)
         case Err(_) => TryFrom(ss, i + 1, m, eph, o)
  }

  function TryPrevious(r: Record, m: SignalMessage, eph: Name, o: Oracles): (res: Result<(Record, Plaintext), Error>)
    ensures res.Ok? ==> res.value.0.current.Some?
  {
    AcceptedInRange(r.previous, 0, m, eph, o);
    match TryFrom(r.previous, 0, m, eph, o)
    case NoneAccepted => Err(InvalidMessage)
    case StoppedAt(e) => Err(e)
    case AcceptedBy(i, s, plaintext) => Ok((PromoteOld(r, i, s), plaintext))
  }

  function DecryptWithRecord(r: Record, m: SignalMessage, kind: MessageKind, eph: Name, o: Oracles)
    : (res: Result<(Record, Plaintext), Error>)
    ensures res.Ok? ==> res.value.0.current.Some?
  {
    if r.current.Some? then
      match DecryptWithState(r.current.value, m, eph, o)
      case Ok((s, plaintext)) => Ok((r.(current := Some(s)), plaintext))
      case Err(DuplicatedMessage(a, b)) => Err(DuplicatedMessage(a, b))
      case Err(CounterOverflow) => Err(CounterOverflow)
      case Err(_) => if kind.PreKeyKind? then Err(InvalidMessage) else TryPrevious(r, m, eph, o)
    else TryPrevious(r, m, eph, o)
  }

  lemma {:induction false} AcceptedInRange(ss: seq<SessionStructure>, i: nat, m: SignalMessage, eph: Name, o: Oracles)
    requires i <= |ss|
    ensures var a := TryFrom(ss, i, m, eph, o);
            a.AcceptedBy? ==>
              i <= a.index < |ss| && DecryptWithState(ss[a.index], m, eph, o) == Ok((a.session, a.plaintext))
    decreases |ss| - i
  {
    if i < |ss| && DecryptWithState(ss[i], m, eph, o).Err? {
      AcceptedInRange(ss, i + 1, m, eph, o);
    }
  }

  lemma {:induction false} RejectedBefore(ss: seq<SessionStructure>, i: nat, m: SignalMessage, eph: Name, o: Oracles,
                                          j: nat)
    requires i <= j < |ss| && TryFrom(ss, i, m, eph, o).AcceptedBy? && j < TryFrom(ss, i, m, eph, o).index
    ensures DecryptWithState(ss[j], m, eph, o).Err?
    decreases |ss| - i
  {
    if i < j {
      RejectedBefore(ss, i + 1, m, eph, o, j);
    }
  }

  // ---------------------------------------------------------------------------------------------
  // Conservation

  /** The sessions that were not the one at position `k`, in their old order, the former current one archived. */
  function Others(r: Record, k: nat): seq<SessionStructure>
    requires k < |Sessions(r)|
  {
    if r.current.None? then Without(r.previous, k)
    else if k == 0 then r.previous
    else [ClearPending(r.current.value)] + Without(r.previous, k - 1)
  }

  /** Position in `Sessions` of the archived session at position `i`. */
  function ArchivedAt(r: Record, i: nat): nat {
    i + if r.current.Some? then 1 else 0
  }

  lemma PromoteOldConserves(r: Record, i: nat, s: SessionStructure)
    requires |r.previous| <= ARCHIVED_STATES_MAX_LENGTH && i < |r.previous|
    ensures ArchivedAt(r, i) < |Sessions(r)| && Sessions(r)[ArchivedAt(r, i)] == r.previous[i]
    ensures PromoteOld(r, i, s) == Record(Some(s), Others(r, ArchivedAt(r, i)))
    ensures |Others(r, ArchivedAt(r, i))| == |Sessions(r)| - 1 <= ARCHIVED_STATES_MAX_LENGTH
  {
  }

  /**
   A successful decryption updates exactly one session of the record and makes it current; the first session
   that accepts the message is the one. No session is lost, the others keep their order, and the only other
   change is that the session displaced from the current position loses its pending fields.
   */
  lemma DecryptConserves(r: Record, m: SignalMessage, kind: MessageKind, eph: Name, o: Oracles) returns (k: nat)
    requires |r.previous| <= ARCHIVED_STATES_MAX_LENGTH
    requires DecryptWithRecord(r, m, kind, eph, o).Ok?
    ensures k < |Sessions(r)| && DecryptWithState(Sessions(r)[k], m, eph, o).Ok?
    ensures forall j :: 0 <= j < k ==> DecryptWithState(Sessions(r)[j], m, eph, o).Err?
    ensures var (r', plaintext) := DecryptWithRecord(r, m, kind, eph, o).value;
            && DecryptWithState(Sessions(r)[k], m, eph, o) == Ok((Sessions(r')[0], plaintext))
            && r'.current == Some(Sessions(r')[0]) && r'.previous == Others(r, k)
            && |Sessions(r')| == |Sessions(r)|
            && |r'.previous| <= ARCHIVED_STATES_MAX_LENGTH
  {
    if r.current.Some? && DecryptWithState(r.current.value, m, eph, o).Ok? {
      k := 0;
    } else {
      var i, s := PreviousAccepts(r, m, eph, o);
      PromoteOldConserves(r, i, s);
      k := ArchivedAt(r, i);
      FailedBefore(r, i, m, eph, o);
    }
  }

  /** The archived session that accepts a message, and what it becomes. */
  lemma PreviousAccepts(r: Record, m: SignalMessage, eph: Name, o: Oracles) returns (i: nat, s: SessionStructure)
    requires TryPrevious(r, m, eph, o).Ok?
    ensures i < |r.previous| && TryPrevious(r, m, eph, o).value.0 == PromoteOld(r, i, s)
    ensures DecryptWithState(r.previous[i], m, eph, o) == Ok((s, TryPrevious(r, m, eph, o).value.1))
    ensures forall j :: 0 <= j < i ==> DecryptWithState(r.previous[j], m, eph, o).Err?
  {
    AcceptedInRange(r.previous, 0, m, eph, o);
    var a := TryFrom(r.previous, 0, m, eph, o);
    i, s := a.index, a.session;
    forall j | 0 <= j < i ensures DecryptWithState(r.previous[j], m, eph, o).Err? {
      RejectedBefore(r.previous, 0, m, eph, o, j);
    }
  }

  lemma FailedBefore(r: Record, i: nat, m: SignalMessage, eph: Name, o: Oracles)
    requires i < |r.previous|
    requires r.current.Some? ==> DecryptWithState(r.current.value, m, eph, o).Err?
    requires forall j :: 0 <= j < i ==> DecryptWithState(r.previous[j], m, eph, o).Err?
    ensures forall j :: 0 <= j < ArchivedAt(r, i) ==> DecryptWithState(Sessions(r)[j], m, eph, o).Err?
  {
    forall j | 0 <= j < ArchivedAt(r, i) ensures DecryptWithState(Sessions(r)[j], m, eph, o).Err? {
      if j >= ArchivedAt(r, 0) {
        assert Sessions(r)[j] == r.previous[j - ArchivedAt(r, 0)];
      }
    }
  }

  /** Promotion of a matching session never evicts, moves nothing else, and leaves the promoted session as it was. */
  lemma PromoteMatchingConserves(r: Record, version: nat, base: Name) returns (k: nat)
    requires |r.previous| <= ARCHIVED_STATES_MAX_LENGTH && PromoteMatching(r, version, base).Some?
    ensures var r' := PromoteMatching(r, version, base).value;
            && k < |Sessions(r)| && Matches(Sessions(r)[k], version, base)
            && r'.current == Some(Sessions(r)[k]) && r'.previous == Others(r, k)
            && |Sessions(r')| == |Sessions(r)|
  {
    if r.current.Some? && Matches(r.current.value, version, base) {
      k := 0;
    } else {
      var i := FindMatch(r.previous, version, base).value;
      PromoteOldConserves(r, i, r.previous[i]);
      k := ArchivedAt(r, i);
    }
  }

  /** A new session displaces at most one session, and that is the oldest of a full archive. */
  lemma PromoteStateConserves(r: Record, s: SessionStructure)
    requires |r.previous| <= ARCHIVED_STATES_MAX_LENGTH
    ensures var r' := PromoteState(r, s);
            var kept := (if r.current.Some? then [ClearPending(r.current.value)] else []) + r.previous;
            && r'.current == Some(s) && |r'.previous| <= ARCHIVED_STATES_MAX_LENGTH
            && r'.previous == if r.current.Some? && |r.previous| == ARCHIVED_STATES_MAX_LENGTH
                              then kept[..|kept| - 1] else kept
  {
  }

  // ---------------------------------------------------------------------------------------------
  // In-place form

  class SessionRecord {
    var current: Option<SessionStructure>
    var previous: seq<SessionStructure>

    ghost function Value(): Record
      reads this
    {
      Record(current, previous)
    }

    constructor (r: Record)
      ensures Value() == r
    {
      current, previous := r.current, r.previous;
    }

    method ArchiveCurrentState()
      modifies this
      ensures Value() == ArchiveCurrent(old(Value()))
    {
      if current.Some? {
        var state := new SessionState(current.value);
        current := None;
        if |previous| >= ARCHIVED_STATES_MAX_LENGTH {
          previous := previous[..|previous| - 1];
        }
        state.ClearUnacknowledgedPreKeyMessage();
        previous := [state.session] + previous;
      }
    }

    method PromoteNew(s: SessionStructure)
      modifies this
      ensures Value() == PromoteState(old(Value()), s)
    {
      ArchiveCurrentState();
      current := Some(s);
    }

    method PromoteOldSession(i: nat, s: SessionStructure)
      requires i < |previous|
      modifies this
      ensures Value() == PromoteOld(old(Value()), i, s)
    {
      previous := Without(previous, i);
      PromoteNew(s);
    }

    method PromoteMatchingSession(version: nat, base: Name) returns (found: bool)
      modifies this
      ensures found == PromoteMatching(old(Value()), version, base).Some?
      ensures Value() == if found then PromoteMatching(old(Value()), version, base).value else old(Value())
    {
      if current.Some? && Matches(current.value, version, base) {
        return true;
      }
      var i := 0;
      while i < |previous|
        invariant i <= |previous|
        invariant forall j :: 0 <= j < i ==> !Matches(previous[j], version, base)
      {
        if Matches(previous[i], version, base) {
          PromoteOldSession(i, previous[i]);
          return true;
        }
        i := i + 1;
      }
      return false;
    }

    /** Works on clones throughout, so a failure leaves the record as it was. */
    method DecryptMessage(m: SignalMessage, kind: MessageKind, eph: Name, o: Oracles)
      returns (r: Result<Plaintext, Error>)
      modifies this
      ensures match DecryptWithRecord(old(Value()), m, kind, eph, o)
              case Err(e) => r == Err(e) && Value() == old(Value())
              case Ok((rec, plaintext)) => r == Ok(plaintext) && Value() == rec
    {
      if current.Some? {
        var state := new SessionState(current.value);
        r := DecryptMessageWithState(state, m, eph, o);
        match r {
          case Ok(_) =>
            current := Some(state.session);
            return;
          case Err(DuplicatedMessage(_, _)) =>
            return;
          case Err(CounterOverflow) =>
            return;
          case Err(_) =>
            if kind.PreKeyKind? {
              return Err(InvalidMessage);
            }
        }
      }
      r := DecryptWithPrevious(m, eph, o);
    }

    /** Tries the archived sessions in order; the one that accepts becomes current. */
    method DecryptWithPrevious(m: SignalMessage, eph: Name, o: Oracles) returns (r: Result<Plaintext, Error>)
      modifies this
      ensures match TryPrevious(old(Value()), m, eph, o)
              case Err(e) => r == Err(e) && Value() == old(Value())
              case Ok((rec, plaintext)) => r == Ok(plaintext) && Value() == rec
    {
      var i := 0;
      while i < |previous|
        invariant i <= |previous|
        invariant Value() == old(Value())
        invariant TryFrom(previous, 0, m, eph, o) == TryFrom(previous, i, m, eph, o)
      {
        var state := new SessionState(previous[i]);
        r := DecryptMessageWithState(state, m, eph, o);
        match r {
          case Ok(_) =>
            PromoteOldSession(i, state.session);
            return;
          case Err(DuplicatedMessage(_, _)) =>
            return;
          case Err(CounterOverflow) =>
            return;
          case Err(_) =>
        }
        i := i + 1;
      }
      r := Err(InvalidMessage);
    }
  }
}

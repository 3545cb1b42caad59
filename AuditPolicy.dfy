/** The audit-stamping policy applied to tracked entities just before a save,
    stated on values. Interceptor.dfy runs the same policy in place on objects
    and is proved against the functions here. */
module AuditPolicy {

  datatype Option<+T> = None | Some(value: T)

  /** A user id (a 128-bit GUID). */
  newtype Guid = x: int | 0 <= x < 0x1_0000_0000_0000_0000_0000_0000_0000_0000

  /** A point in time as returned by the clock service, in ticks. */
  type Timestamp = int

  /** The change-tracker state of an entry at save time. */
  datatype EntityState = Detached | Unchanged | Deleted | Modified | Added

  /** The audit fields of an auditable entity. The `...By` fields are nullable
      user ids; the two optional dates are null until first stamped. */
  datatype AuditFields = AuditFields(
    createdBy: Option<Guid>,
    creationDate: Timestamp,
    lastModifiedBy: Option<Guid>,
    lastModificationDate: Option<Timestamp>,
    isDeleted: bool,
    deletedBy: Option<Guid>,
    deletionDate: Option<Timestamp>)

  /** A snapshot of one change-tracker entry: its state, whether its entity
      implements the auditable capability, and the entity's audit fields. */
  datatype Tracked = Tracked(state: EntityState, auditable: bool, fields: AuditFields)

  /** The creation stamp: who created the entity, and when. */
  function StampCreation(f: AuditFields, user: Option<Guid>, now: Timestamp): (r: AuditFields)
    ensures r.createdBy == user && r.creationDate == now
    ensures r.(createdBy := f.createdBy, creationDate := f.creationDate) == f
  {
    f.(createdBy := user, creationDate := now)
  }

  /** The last-modification stamp. */
  function StampModification(f: AuditFields, user: Option<Guid>, now: Timestamp): (r: AuditFields)
    ensures r.lastModifiedBy == user && r.lastModificationDate == Some(now)
    ensures r.(lastModifiedBy := f.lastModifiedBy, lastModificationDate := f.lastModificationDate) == f
  {
    f.(lastModifiedBy := user, lastModificationDate := Some(now))
  }

  /** The soft-delete stamp: the flag, who deleted the entity, and when. */
  function StampDeletion(f: AuditFields, user: Option<Guid>, now: Timestamp): (r: AuditFields)
    ensures r.isDeleted && r.deletedBy == user && r.deletionDate == Some(now)
    ensures r.(isDeleted := f.isDeleted, deletedBy := f.deletedBy, deletionDate := f.deletionDate) == f
  {
    f.(isDeleted := true, deletedBy := user, deletionDate := Some(now))
  }

  /** How many times the policy reads the clock for one entry: twice for an
      Added entry (creation, then modification), once for Modified and
      Deleted, never otherwise and never for a non-auditable entity. */
  function ClockReads(t: Tracked): (n: nat) {
    if !t.auditable then 0
    else match t.state
      case Added => 2
      case Modified => 1
      case Deleted => 1
      case _ => 0
  }

  /** The policy for one entry. The clock is an oracle: its i-th reading is
      `time(i)`, and `k` is the number of readings taken before this entry.
      The state is inspected once, so exactly one branch applies. */
  function AuditEntry(t: Tracked, user: Option<Guid>, time: nat -> Timestamp, k: nat): (r: Tracked)
    ensures r.auditable == t.auditable
    ensures !t.auditable || t.state == Unchanged || t.state == Detached ==> r == t
    ensures t.auditable && t.state == Added ==>
      && r.state == Added
      && r.fields.createdBy == user && r.fields.creationDate == time(k)
      && r.fields.lastModifiedBy == user && r.fields.lastModificationDate == Some(time(k + 1))
      && r.fields.isDeleted == t.fields.isDeleted
      && r.fields.deletedBy == t.fields.deletedBy
      && r.fields.deletionDate == t.fields.deletionDate
    ensures t.auditable && t.state == Modified ==>
      && r.state == Modified
      && r.fields.lastModifiedBy == user && r.fields.lastModificationDate == Some(time(k))
      && r.fields.createdBy == t.fields.createdBy
      && r.fields.creationDate == t.fields.creationDate
      && r.fields.isDeleted == t.fields.isDeleted
      && r.fields.deletedBy == t.fields.deletedBy
      && r.fields.deletionDate == t.fields.deletionDate
    ensures t.auditable && t.state == Deleted ==>
      && r.state == Modified
      && r.fields.isDeleted && r.fields.deletedBy == user && r.fields.deletionDate == Some(time(k))
      && r.fields.createdBy == t.fields.createdBy
      && r.fields.creationDate == t.fields.creationDate
      && r.fields.lastModifiedBy == t.fields.lastModifiedBy
      && r.fields.lastModificationDate == t.fields.lastModificationDate
  {
    if !t.auditable then t
    else match t.state
      case Added =>
        t.(fields := StampModification(StampCreation(t.fields, user, time(k)), user, time(k + 1)))
      case Modified =>
        t.(fields := StampModification(t.fields, user, time(k)))
      case Deleted =>
        t.(state := Modified, fields := StampDeletion(t.fields, user, time(k)))
      case _ => t
  }

  /** The number of clock readings the first n entries of a pass take. */
  function ReadsBefore(ts: seq<Tracked>, n: nat): (r: nat)
    requires n <= |ts|
  {
    if n == 0 then 0 else ReadsBefore(ts, n - 1) + ClockReads(ts[n - 1])
  }

  /** The number of clock readings a whole pass takes. */
  function TotalReads(ts: seq<Tracked>): (r: nat) {
    ReadsBefore(ts, |ts|)
  }

  /** One pass of the policy over the tracked entries, in enumeration order:
      the first entry takes the clock's readings from the k-th on, and the
      rest of the pass continues with the readings after those. */
  function AuditAll(ts: seq<Tracked>, user: Option<Guid>, time: nat -> Timestamp, k: nat): (r: seq<Tracked>)
    ensures |r| == |ts|
  {
    if ts == [] then []
    else [AuditEntry(ts[0], user, time, k)] + AuditAll(ts[1..], user, time, k + ClockReads(ts[0]))
  }

  /** Counting the readings before entry j from the second entry on. */
  lemma {:induction false} ReadsBeforeShift(ts: seq<Tracked>, j: nat)
    requires 1 <= j <= |ts|
    ensures ReadsBefore(ts, j) == ClockReads(ts[0]) + ReadsBefore(ts[1..], j - 1)
  {
    if j > 1 {
      ReadsBeforeShift(ts, j - 1);
    }
  }

  /** Entry j of a pass is the one-entry policy applied to entry j, with the
      clock readings the entries before it took already consumed. */
  lemma {:induction false} AuditAllAt(ts: seq<Tracked>, user: Option<Guid>, time: nat -> Timestamp, k: nat, j: nat)
    requires j < |ts|
    ensures AuditAll(ts, user, time, k)[j] == AuditEntry(ts[j], user, time, k + ReadsBefore(ts, j))
  {
    if j > 0 {
      AuditAllAt(ts[1..], user, time, k + ClockReads(ts[0]), j - 1);
      ReadsBeforeShift(ts, j);
    }
  }

  /** A sequence that agrees entry by entry with the one-entry policy, each
      entry taking the clock readings after those of the entries before it,
      is the result of the pass. */
  lemma PassDeterminedPointwise(ts: seq<Tracked>, rs: seq<Tracked>, user: Option<Guid>, time: nat -> Timestamp, k: nat)
    requires |rs| == |ts|
    requires forall j {:trigger rs[j]} :: 0 <= j < |ts| ==> rs[j] == AuditEntry(ts[j], user, time, k + ReadsBefore(ts, j))
    ensures rs == AuditAll(ts, user, time, k)
  {
    forall j | 0 <= j < |ts|
      ensures rs[j] == AuditAll(ts, user, time, k)[j]
    {
      AuditAllAt(ts, user, time, k, j);
    }
  }

  /** After a pass, no auditable entry is left in state Deleted: every
      physical delete has become an update, and the entity is soft-deleted. */
  lemma {:induction false} NoDeletedAfterPass(ts: seq<Tracked>, user: Option<Guid>, time: nat -> Timestamp, k: nat)
    ensures forall j :: 0 <= j < |ts| && ts[j].auditable ==>
      AuditAll(ts, user, time, k)[j].state != Deleted
    ensures forall j :: 0 <= j < |ts| && ts[j].auditable && ts[j].state == Deleted ==>
      AuditAll(ts, user, time, k)[j].state == Modified && AuditAll(ts, user, time, k)[j].fields.isDeleted
  {
    forall j | 0 <= j < |ts| {
      AuditAllAt(ts, user, time, k, j);
    }
  }

  /** Entries whose entity is not auditable, and auditable entries that are
      Unchanged or Detached, come out of a pass exactly as they went in. */
  lemma {:induction false} UntouchedEntries(ts: seq<Tracked>, user: Option<Guid>, time: nat -> Timestamp, k: nat)
    ensures forall j :: 0 <= j < |ts| && !ts[j].auditable ==> AuditAll(ts, user, time, k)[j] == ts[j]
    ensures forall j :: 0 <= j < |ts| && (ts[j].state == Unchanged || ts[j].state == Detached) ==>
      AuditAll(ts, user, time, k)[j] == ts[j]
  {
    forall j | 0 <= j < |ts| {
      AuditAllAt(ts, user, time, k, j);
    }
  }

  /** A pass never changes which entries are auditable, and moves a state
      only from Deleted to Modified. */
  lemma {:induction false} StatesAfterPass(ts: seq<Tracked>, user: Option<Guid>, time: nat -> Timestamp, k: nat)
    ensures forall j :: 0 <= j < |ts| ==>
      AuditAll(ts, user, time, k)[j].auditable == ts[j].auditable
    ensures forall j :: 0 <= j < |ts| ==>
      var s := AuditAll(ts, user, time, k)[j].state;
      s == ts[j].state || (ts[j].auditable && ts[j].state == Deleted && s == Modified)
  {
    forall j | 0 <= j < |ts| {
      AuditAllAt(ts, user, time, k, j);
    }
  }

  /** Every `...By` field a pass changes receives the one user id of the pass;
      with no resolved identity (`user == None`) every written `...By` is
      null. */
  lemma {:induction false} ByFieldsAreCurrentUser(ts: seq<Tracked>, user: Option<Guid>, time: nat -> Timestamp, k: nat)
    ensures forall j :: 0 <= j < |ts| ==>
      var f := AuditAll(ts, user, time, k)[j].fields;
      && (f.createdBy == ts[j].fields.createdBy || f.createdBy == user)
      && (f.lastModifiedBy == ts[j].fields.lastModifiedBy || f.lastModifiedBy == user)
      && (f.deletedBy == ts[j].fields.deletedBy || f.deletedBy == user)
  {
    forall j | 0 <= j < |ts| {
      AuditAllAt(ts, user, time, k, j);
    }
  }

  /** With no resolved identity a pass still stamps every date it would
      stamp for a known user, and every `...By` field it writes is null. */
  lemma {:induction false} AnonymousPassStampsDates(ts: seq<Tracked>, time: nat -> Timestamp, k: nat)
    ensures forall j :: 0 <= j < |ts| && ts[j].auditable && ts[j].state == Added ==>
      var f := AuditAll(ts, None, time, k)[j].fields;
      f.createdBy == None && f.lastModifiedBy == None && f.lastModificationDate.Some?
    ensures forall j :: 0 <= j < |ts| && ts[j].auditable && ts[j].state == Modified ==>
      var f := AuditAll(ts, None, time, k)[j].fields;
      f.lastModifiedBy == None && f.lastModificationDate.Some?
    ensures forall j :: 0 <= j < |ts| && ts[j].auditable && ts[j].state == Deleted ==>
      var f := AuditAll(ts, None, time, k)[j].fields;
      f.isDeleted && f.deletedBy == None && f.deletionDate.Some?
  {
    forall j | 0 <= j < |ts| {
      AuditAllAt(ts, None, time, k, j);
    }
  }

  /** Each entry's stamps use clock readings of its own: the readings an entry
      takes are those numbered from the count taken by the entries before it. */
  lemma StampsUseOwnReadings(ts: seq<Tracked>, user: Option<Guid>, time: nat -> Timestamp, k: nat, j: nat)
    requires j < |ts| && ts[j].auditable
    ensures ts[j].state == Added ==>
      && AuditAll(ts, user, time, k)[j].fields.creationDate == time(k + ReadsBefore(ts, j))
      && AuditAll(ts, user, time, k)[j].fields.lastModificationDate == Some(time(k + ReadsBefore(ts, j) + 1))
    ensures ts[j].state == Modified ==>
      AuditAll(ts, user, time, k)[j].fields.lastModificationDate == Some(time(k + ReadsBefore(ts, j)))
    ensures ts[j].state == Deleted ==>
      AuditAll(ts, user, time, k)[j].fields.deletionDate == Some(time(k + ReadsBefore(ts, j)))
  {
    AuditAllAt(ts, user, time, k, j);
  }

  /** With a clock that reads `now` throughout the pass, an Added entry's
      creation and last-modification dates are both `now`, and every other
      stamp is `now` as well. With a clock that advances between readings the
      two dates of an Added entry come from two different readings. */
  lemma {:induction false} FixedClockStamps(ts: seq<Tracked>, user: Option<Guid>, time: nat -> Timestamp, k: nat, now: Timestamp)
    requires forall i :: time(i) == now
    ensures forall j :: 0 <= j < |ts| && ts[j].auditable && ts[j].state == Added ==>
      && AuditAll(ts, user, time, k)[j].fields.creationDate == now
      && AuditAll(ts, user, time, k)[j].fields.lastModificationDate == Some(now)
    ensures forall j :: 0 <= j < |ts| && ts[j].auditable && ts[j].state == Modified ==>
      AuditAll(ts, user, time, k)[j].fields.lastModificationDate == Some(now)
    ensures forall j :: 0 <= j < |ts| && ts[j].auditable && ts[j].state == Deleted ==>
      AuditAll(ts, user, time, k)[j].fields.deletionDate == Some(now)
  {
    forall j | 0 <= j < |ts| {
      AuditAllAt(ts, user, time, k, j);
    }
  }

  /** The policy is not idempotent, by design: saving a second time re-stamps
      the last-modification fields of every entry the first pass left Modified,
      including the entries the first pass soft-deleted, with the second pass's
      clock readings. */
  lemma SecondPassRestamps(ts: seq<Tracked>, user: Option<Guid>, time: nat -> Timestamp, k: nat, k2: nat, j: nat)
    requires j < |ts| && ts[j].auditable && (ts[j].state == Modified || ts[j].state == Deleted)
    ensures
      var once := AuditAll(ts, user, time, k);
      var twice := AuditAll(once, user, time, k2);
      && twice[j].state == Modified
      && twice[j].fields.lastModifiedBy == user
      && twice[j].fields.lastModificationDate == Some(time(k2 + ReadsBefore(once, j)))
  {
    var once := AuditAll(ts, user, time, k);
    AuditAllAt(ts, user, time, k, j);
    assert once[j].auditable && once[j].state == Modified;
    AuditAllAt(once, user, time, k2, j);
  }
}

/** The save-changes interceptor: the tracked entities and their change-tracker
    entries as mutable objects, and the interceptor that stamps them in place
    just before a save. Each method is proved against the value-level policy
    of AuditPolicy. */
module Interceptors {
  import opened AuditPolicy

  /** A tracked entity. `isAuditable` says whether its type implements the
      auditable capability; the other fields are its audit fields. */
  class Entity {
    const isAuditable: bool
    var createdBy: Option<Guid>
    var creationDate: Timestamp
    var lastModifiedBy: Option<Guid>
    var lastModificationDate: Option<Timestamp>
    var isDeleted: bool
    var deletedBy: Option<Guid>
    var deletionDate: Option<Timestamp>

    /** The current values of the audit fields. */
    function Fields(): (f: AuditFields)
      reads this
    {
      AuditFields(createdBy, creationDate, lastModifiedBy, lastModificationDate,
                  isDeleted, deletedBy, deletionDate)
    }

    constructor (auditable: bool, fields: AuditFields)
      ensures isAuditable == auditable && Fields() == fields
    {
      isAuditable := auditable;
      createdBy, creationDate := fields.createdBy, fields.creationDate;
      lastModifiedBy, lastModificationDate := fields.lastModifiedBy, fields.lastModificationDate;
      isDeleted, deletedBy, deletionDate := fields.isDeleted, fields.deletedBy, fields.deletionDate;
    }
  }

  /** A change-tracker entry: the entity it tracks and its mutable state. */
  class Entry {
    const entity: Entity
    var state: EntityState

    constructor (entity: Entity, state: EntityState)
      ensures this.entity == entity && this.state == state
    {
      this.entity := entity;
      this.state := state;
    }
  }

  /** The database context as far as the interceptor sees it: the entries of
      its change tracker, in enumeration order. */
  class DbContext {
    const entries: seq<Entry>

    constructor (entries: seq<Entry>)
      ensures this.entries == entries
    {
      this.entries := entries;
    }
  }

  /** The injected clock service as an oracle: its i-th reading is `time(i)`
      and `readings` counts the readings taken so far. */
  class ClockService {
    const time: nat -> Timestamp
    var readings: nat

    constructor (time: nat -> Timestamp)
      ensures this.time == time && readings == 0
    {
      this.time := time;
      readings := 0;
    }

    /** One reading of `Now`. */
    method Now() returns (now: Timestamp)
      modifies this
      ensures now == time(old(readings)) && readings == old(readings) + 1
    {
      now := time(readings);
      readings := readings + 1;
    }
  }

  /** A value snapshot of an entry and its entity. */
  function Snap(e: Entry): (t: Tracked)
    reads e, e.entity
  {
    Tracked(e.state, e.entity.isAuditable, e.entity.Fields())
  }

  /** Value snapshots of a sequence of entries, in order. */
  function Snapshots(es: seq<Entry>): (ts: seq<Tracked>)
    reads set e | e in es, set e | e in es :: e.entity
    ensures |ts| == |es|
  {
    if es == [] then [] else Snapshots(es[..|es| - 1]) + [Snap(es[|es| - 1])]
  }

  /** The snapshots are those of the entries, position by position. */
  lemma {:induction false} SnapshotsAll(es: seq<Entry>)
    ensures forall j {:trigger Snap(es[j])} :: 0 <= j < |es| ==> Snapshots(es)[j] == Snap(es[j])
  {
    forall j | 0 <= j < |es|
      ensures Snapshots(es)[j] == Snap(es[j])
    {
      SnapshotsAt(es, j);
    }
  }

  /** Snapshot j is the snapshot of entry j. */
  lemma {:induction false} SnapshotsAt(es: seq<Entry>, j: nat)
    requires j < |es|
    ensures Snapshots(es)[j] == Snap(es[j])
  {
    if j < |es| - 1 {
      SnapshotsAt(es[..|es| - 1], j);
    }
  }

  /** The change tracker keeps one entry per entity instance: no entry and no
      entity appears twice. */
  ghost predicate TrackedOnce(es: seq<Entry>) {
    forall a, b :: 0 <= a < b < |es| ==> es[a] != es[b] && es[a].entity != es[b].entity
  }

  /** The objects a pass over the context may change. */
  ghost function Footprint(context: DbContext?): set<object> {
    if context == null then {}
    else (set e | e in context.entries :: e as object) + (set e | e in context.entries :: e.entity as object)
  }

  /** The user id of an identity, or null when there is none. */
  function UserIdOf(identity: Option<UserIdentity>): (id: Option<Guid>)
    ensures id.None? <==> identity.None?
    ensures identity.Some? ==> id == Some(identity.value.id)
  {
    match identity
    case None => None
    case Some(u) => Some(u.id)
  }

  /** What the identity service reports about the current user. */
  datatype UserIdentity = UserIdentity(id: Guid)

  class AuditableEntitySaveChangesInterceptor {
    const clockService: ClockService
    /** The current user's id, resolved once when the interceptor is built. */
    const currentUserId: Option<Guid>

    /** `identity` is what the identity service reports at construction. */
    constructor (identity: Option<UserIdentity>, clockService: ClockService)
      ensures this.clockService == clockService
      ensures currentUserId == UserIdOf(identity)
    {
      this.clockService := clockService;
      currentUserId := UserIdOf(identity);
    }

    /** The synchronous hook: stamps the context's entries before the save. */
    method SavingChanges(context: DbContext?)
      requires context != null ==> TrackedOnce(context.entries)
      modifies clockService, Footprint(context)
      ensures context == null ==> unchanged(clockService)
      ensures context != null ==>
        && Snapshots(context.entries)
           == AuditAll(old(Snapshots(context.entries)), currentUserId, clockService.time, old(clockService.readings))
        && clockService.readings == old(clockService.readings) + TotalReads(old(Snapshots(context.entries)))
    {
      UpdateAuditableData(context);
    }

    /** The asynchronous hook: the same update as the synchronous one. */
    method SavingChangesAsync(context: DbContext?)
      requires context != null ==> TrackedOnce(context.entries)
      modifies clockService, Footprint(context)
      ensures context == null ==> unchanged(clockService)
      ensures context != null ==>
        && Snapshots(context.entries)
           == AuditAll(old(Snapshots(context.entries)), currentUserId, clockService.time, old(clockService.readings))
        && clockService.readings == old(clockService.readings) + TotalReads(old(Snapshots(context.entries)))
    {
      UpdateAuditableData(context);
    }

    /** One pass over the tracked auditable entries. A null context changes
        nothing; otherwise every entry ends as the policy prescribes, and the
        entries take their clock readings one after the other, in order. */
    method UpdateAuditableData(context: DbContext?)
      requires context != null ==> TrackedOnce(context.entries)
      modifies clockService, Footprint(context)
      ensures context == null ==> unchanged(clockService)
      ensures context != null ==>
        && Snapshots(context.entries)
           == AuditAll(old(Snapshots(context.entries)), currentUserId, clockService.time, old(clockService.readings))
        && clockService.readings == old(clockService.readings) + TotalReads(old(Snapshots(context.entries)))
    {
      if context == null {
        return;
      }
      var entries := context.entries;
      ghost var before := Snapshots(entries);
      ghost var k := clockService.readings;
      ghost var expected := AuditAll(before, currentUserId, clockService.time, k);
      SnapshotsAll(entries);
      var i := 0;
      while i < |entries|
        invariant 0 <= i <= |entries|
        invariant clockService.readings == k + ReadsBefore(before, i)
        invariant forall j {:trigger Snap(entries[j])} :: 0 <= j < i ==> Snap(entries[j]) == expected[j]
        invariant forall j {:trigger Snap(entries[j])} :: i <= j < |entries| ==> Snap(entries[j]) == before[j]
      {
        var entry := entries[i];
        assert entry in entries;
        assert entry as object in Footprint(context) && entry.entity as object in Footprint(context);
        assert Snap(entry) == before[i];
        AuditAllAt(before, currentUserId, clockService.time, k, i);
        label Visit:
        // Entries<IAuditableEntity>() enumerates only the auditable entities.
        if entry.entity.isAuditable {
          UpdateEntityByState(entry);
        }
        assert Snap(entry) == expected[i];
        forall j | 0 <= j < |entries| && j != i
          ensures Snap(entries[j]) == old@Visit(Snap(entries[j]))
        {
          assert entries[j] != entry && entries[j].entity != entry.entity;
        }
        i := i + 1;
      }
      ghost var after := Snapshots(entries);
      assert forall j {:trigger after[j]} :: 0 <= j < |entries| ==> after[j] == Snap(entries[j]) by {
        SnapshotsAll(entries);
      }
      assert after == expected;
    }

    /** Reads the entry's state once and applies the one matching branch. */
    method UpdateEntityByState(entry: Entry)
      requires entry.entity.isAuditable
      modifies entry, entry.entity, clockService
      ensures Snap(entry) == AuditEntry(old(Snap(entry)), currentUserId, clockService.time, old(clockService.readings))
      ensures clockService.readings == old(clockService.readings) + ClockReads(old(Snap(entry)))
    {
      var state := entry.state;

      if state == Added {
        UpdateAddedData(entry);
        UpdateModifiedData(entry);
      }

      if state == Modified {
        UpdateModifiedData(entry);
      }

      if state == Deleted {
        UpdateDeletedData(entry);
      }
    }

    method UpdateAddedData(entry: Entry)
      modifies entry.entity, clockService
      ensures entry.entity.Fields()
              == StampCreation(old(entry.entity.Fields()), currentUserId, clockService.time(old(clockService.readings)))
      ensures clockService.readings == old(clockService.readings) + 1
    {
      var entity := entry.entity;
      entity.createdBy := currentUserId;
      entity.creationDate := clockService.Now();
    }

    method UpdateModifiedData(entry: Entry)
      modifies entry.entity, clockService
      ensures entry.entity.Fields()
              == StampModification(old(entry.entity.Fields()), currentUserId, clockService.time(old(clockService.readings)))
      ensures clockService.readings == old(clockService.readings) + 1
    {
      var entity := entry.entity;
      entity.lastModifiedBy := currentUserId;
      var now := clockService.Now();
      entity.lastModificationDate := Some(now);
    }

    /** Soft-deletes the entity and turns the pending delete into an update. */
    method UpdateDeletedData(entry: Entry)
      modifies entry, entry.entity, clockService
      ensures entry.entity.Fields()
              == StampDeletion(old(entry.entity.Fields()), currentUserId, clockService.time(old(clockService.readings)))
      ensures entry.state == Modified
      ensures clockService.readings == old(clockService.readings) + 1
    {
      var entity := entry.entity;
      entity.isDeleted := true;
      entity.deletedBy := currentUserId;
      var now := clockService.Now();
      entity.deletionDate := Some(now);

      entry.state := Modified;
    }
  }
}

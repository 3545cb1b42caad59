# Audit stamping of tracked entities before a save

This project models `AuditableEntitySaveChangesInterceptor`, the save-changes
interceptor of the credit-card management demo. Just before the database
context saves, the interceptor walks every change-tracker entry whose entity
implements `IAuditableEntity` and rewrites that entity's audit fields in place,
according to the entry's state:

- **Added**: the creation fields are stamped, then the last-modified fields.
- **Modified**: the last-modified fields are stamped.
- **Deleted**: the entity is soft-deleted (`IsDeleted`, `DeletedBy`,
  `DeletionDate`) and the entry's state is rewritten to Modified, so the
  physical delete becomes an update.
- **Unchanged or Detached**: the entity is left alone.

The `...By` fields receive the current user's id. The identity service
resolves it once, when the interceptor is built, and it may be null. The
dates come from the injected clock service.

The project has two files:

- `AuditPolicy.dfy` (module `AuditPolicy`) states the policy on values.
  - `AuditEntry` handles one entry.
  - `AuditAll` handles one pass over a sequence of entries.
  - The lemmas state what a pass guarantees.
- `Interceptor.dfy` (module `Interceptors`) is the interceptor itself.
  - Entities, change-tracker entries and the clock are mutable objects. The
    context holds a fixed sequence of entries.
  - `UpdateAuditableData` is a loop over the entries that assigns fields in
    place, as the source does.
  - Each method is proved against the value-level policy. The value snapshot
    of the entries after the call equals `AuditAll` applied to their snapshot
    before the call.

The clock is modelled as an oracle. The clock service holds a fixed function
`time` and counts its readings: the i-th call of `Now` returns `time(i)`. The
source reads the clock once per stamp: at line 70 (creation), line 77
(modification) and line 85 (deletion). So an Added entry takes two readings,
and its creation date and last-modification date are the first and second of
them. The contracts say exactly which reading each date receives
(`StampsUseOwnReadings`). When the clock returns the same instant throughout a
pass, all the dates of that pass are that instant (`FixedClockStamps`). An
Added entity's two dates are equal only when the two clock readings are
(`FixedClockStamps`).

## Model

| member | source | states |
|---|---|---|
| AuditPolicy.StampCreation | CreditCardManagementDemoSolution/Infrastructure/_Common/Persistence/Databases/Interceptors/AuditableEntitySaveChangesInterceptor.cs:65-71 | `CreatedBy` becomes the user and `CreationDate` becomes the given instant; every other audit field is unchanged |
| AuditPolicy.StampModification | CreditCardManagementDemoSolution/Infrastructure/_Common/Persistence/Databases/Interceptors/AuditableEntitySaveChangesInterceptor.cs:72-78 | `LastModifiedBy` becomes the user and `LastModificationDate` becomes the given instant; every other audit field is unchanged |
| AuditPolicy.StampDeletion | CreditCardManagementDemoSolution/Infrastructure/_Common/Persistence/Databases/Interceptors/AuditableEntitySaveChangesInterceptor.cs:79-86 | `IsDeleted` becomes true, `DeletedBy` becomes the user and `DeletionDate` becomes the given instant; every other audit field is unchanged |
| AuditPolicy.AuditEntry | CreditCardManagementDemoSolution/Infrastructure/_Common/Persistence/Databases/Interceptors/AuditableEntitySaveChangesInterceptor.cs:49-88 | For one entry, the auditable flag is kept. A non-auditable, Unchanged or Detached entry comes back identical. An Added entry stays Added, gets the creation stamp from reading k and the last-modified stamp from reading k+1, and keeps its deletion fields. A Modified entry gets only the last-modified stamp. A Deleted entry becomes Modified and soft-deleted, and keeps its creation and last-modified fields |
| AuditPolicy.AuditAll | CreditCardManagementDemoSolution/Infrastructure/_Common/Persistence/Databases/Interceptors/AuditableEntitySaveChangesInterceptor.cs:46-47 | A pass yields exactly one result per tracked entry |
| AuditPolicy.ReadsBeforeShift | CreditCardManagementDemoSolution/Infrastructure/_Common/Persistence/Databases/Interceptors/AuditableEntitySaveChangesInterceptor.cs:46-47 | The readings taken before entry j are those of the first entry plus those taken by the rest before entry j-1 |
| AuditPolicy.AuditAllAt | CreditCardManagementDemoSolution/Infrastructure/_Common/Persistence/Databases/Interceptors/AuditableEntitySaveChangesInterceptor.cs:46-47 | Entry j of a pass is that entry audited on its own, starting at the reading that follows all readings taken for the entries before it |
| AuditPolicy.PassDeterminedPointwise | CreditCardManagementDemoSolution/Infrastructure/_Common/Persistence/Databases/Interceptors/AuditableEntitySaveChangesInterceptor.cs:46-47 | Conversely, any sequence that agrees with that entry-by-entry description is the pass |
| AuditPolicy.NoDeletedAfterPass | CreditCardManagementDemoSolution/Infrastructure/_Common/Persistence/Databases/Interceptors/AuditableEntitySaveChangesInterceptor.cs:79-88 | After a pass no auditable entry is in state Deleted; every entry that was Deleted is Modified and soft-deleted |
| AuditPolicy.UntouchedEntries | CreditCardManagementDemoSolution/Infrastructure/_Common/Persistence/Databases/Interceptors/AuditableEntitySaveChangesInterceptor.cs:42-64 | A non-auditable entry, and an entry in Unchanged or Detached, keeps its state and all its fields |
| AuditPolicy.StatesAfterPass | CreditCardManagementDemoSolution/Infrastructure/_Common/Persistence/Databases/Interceptors/AuditableEntitySaveChangesInterceptor.cs:49-88 | The state is read once and one branch runs: the only state change of a pass is an auditable Deleted entry becoming Modified, and the auditable flag never changes |
| AuditPolicy.ByFieldsAreCurrentUser | CreditCardManagementDemoSolution/Infrastructure/_Common/Persistence/Databases/Interceptors/AuditableEntitySaveChangesInterceptor.cs:65-88 | Every `...By` field after a pass is either what it was or the captured user id |
| AuditPolicy.AnonymousPassStampsDates | CreditCardManagementDemoSolution/Infrastructure/_Common/Persistence/Databases/Interceptors/AuditableEntitySaveChangesInterceptor.cs:65-88 | With no resolved identity, the `...By` fields written are null while the dates are still stamped |
| AuditPolicy.StampsUseOwnReadings | CreditCardManagementDemoSolution/Infrastructure/_Common/Persistence/Databases/Interceptors/AuditableEntitySaveChangesInterceptor.cs:65-88 | Each date of entry j is the clock reading taken at its own point of the pass; an Added entry's modification date is the reading right after its creation date |
| AuditPolicy.FixedClockStamps | CreditCardManagementDemoSolution/Infrastructure/_Common/Persistence/Databases/Interceptors/AuditableEntitySaveChangesInterceptor.cs:53-78 | Under a clock that returns one instant, an Added entry's creation and modification dates are both that instant, as are the Modified and Deleted dates |
| AuditPolicy.SecondPassRestamps | CreditCardManagementDemoSolution/Infrastructure/_Common/Persistence/Databases/Interceptors/AuditableEntitySaveChangesInterceptor.cs:59-88 | A second save of a Modified or soft-deleted entry re-stamps its last-modified fields, because the deletion left it Modified |
| Interceptors.UserIdOf | CreditCardManagementDemoSolution/Infrastructure/_Common/Persistence/Databases/Interceptors/AuditableEntitySaveChangesInterceptor.cs:16-18 | The user id is null exactly when no identity is resolved, and otherwise is that identity's id |
| Interceptors.Snapshots | CreditCardManagementDemoSolution/Infrastructure/_Common/Persistence/Databases/Interceptors/AuditableEntitySaveChangesInterceptor.cs:37-48 | The abstraction function from the tracked entries to values: one snapshot per entry, in enumeration order |
| Interceptors.SnapshotsAll | CreditCardManagementDemoSolution/Infrastructure/_Common/Persistence/Databases/Interceptors/AuditableEntitySaveChangesInterceptor.cs:37-48 | For every position j of the abstraction, snapshot j is the state, auditable flag and audit fields of entry j |
| Interceptors.SnapshotsAt | CreditCardManagementDemoSolution/Infrastructure/_Common/Persistence/Databases/Interceptors/AuditableEntitySaveChangesInterceptor.cs:37-48 | For one position j of the abstraction, snapshot j is the snapshot of entry j |
| Interceptors.ClockService.Now | CreditCardManagementDemoSolution/Infrastructure/_Common/Persistence/Databases/Interceptors/AuditableEntitySaveChangesInterceptor.cs:70 | Returns the next reading of the clock and counts it |
| Interceptors.AuditableEntitySaveChangesInterceptor.constructor | CreditCardManagementDemoSolution/Infrastructure/_Common/Persistence/Databases/Interceptors/AuditableEntitySaveChangesInterceptor.cs:10-18 | The user id is resolved once, at construction, from the identity service's answer |
| Interceptors.AuditableEntitySaveChangesInterceptor.SavingChanges | CreditCardManagementDemoSolution/Infrastructure/_Common/Persistence/Databases/Interceptors/AuditableEntitySaveChangesInterceptor.cs:20-26 | The synchronous hook performs the full update of `UpdateAuditableData` |
| Interceptors.AuditableEntitySaveChangesInterceptor.SavingChangesAsync | CreditCardManagementDemoSolution/Infrastructure/_Common/Persistence/Databases/Interceptors/AuditableEntitySaveChangesInterceptor.cs:28-35 | The asynchronous hook performs the identical update |
| Interceptors.AuditableEntitySaveChangesInterceptor.UpdateAuditableData | CreditCardManagementDemoSolution/Infrastructure/_Common/Persistence/Databases/Interceptors/AuditableEntitySaveChangesInterceptor.cs:37-48 | A null context changes nothing: neither the clock nor any entry or entity. Otherwise the entries' snapshots afterwards are the pass `AuditAll` over their snapshots before, with the current user and the clock's readings taken in enumeration order; the clock advances by exactly the readings the pass takes; nothing outside the entries, their entities and the clock changes |
| Interceptors.AuditableEntitySaveChangesInterceptor.UpdateEntityByState | CreditCardManagementDemoSolution/Infrastructure/_Common/Persistence/Databases/Interceptors/AuditableEntitySaveChangesInterceptor.cs:49-64 | One auditable entry ends as `AuditEntry` prescribes, and the clock advances by that entry's readings |
| Interceptors.AuditableEntitySaveChangesInterceptor.UpdateAddedData | CreditCardManagementDemoSolution/Infrastructure/_Common/Persistence/Databases/Interceptors/AuditableEntitySaveChangesInterceptor.cs:65-71 | The entity's fields become `StampCreation` of the old fields with the next clock reading; one reading is taken |
| Interceptors.AuditableEntitySaveChangesInterceptor.UpdateModifiedData | CreditCardManagementDemoSolution/Infrastructure/_Common/Persistence/Databases/Interceptors/AuditableEntitySaveChangesInterceptor.cs:72-78 | The entity's fields become `StampModification` of the old fields with the next clock reading; one reading is taken |
| Interceptors.AuditableEntitySaveChangesInterceptor.UpdateDeletedData | CreditCardManagementDemoSolution/Infrastructure/_Common/Persistence/Databases/Interceptors/AuditableEntitySaveChangesInterceptor.cs:79-88 | The entity's fields become `StampDeletion` of the old fields with the next clock reading, and the entry's state becomes Modified |

## Left out

- Entity Framework Core's own types (`DbContext`, `ChangeTracker`,
  `EntityEntry`, `InterceptionResult`) are foreign library code. The context
  is reduced to its sequence of tracked entries, and an entry to its entity
  and a mutable state.
- The hooks hand the interception result on to `base.SavingChanges` and
  `base.SavingChangesAsync` (lines 25 and 34). That library behaviour is not
  modelled, and the hooks return nothing.
- `ValueTask` and `CancellationToken` in the asynchronous hook are not
  modelled. They are async plumbing with no logic of their own.
- The identity service and the clock service are external. The identity is a
  constructor parameter. The clock is an oracle function with a reading
  counter.
- `Entries<IAuditableEntity>()` filters entries by the entity's type. The
  model instead gives each entity an `isAuditable` flag, and the loop skips
  entries whose flag is false.
- Interceptors.AuditableEntitySaveChangesInterceptor.UpdateAuditableData,
  Interceptors.AuditableEntitySaveChangesInterceptor.SavingChanges and
  Interceptors.AuditableEntitySaveChangesInterceptor.SavingChangesAsync:
  each requires that no entry and no entity occurs twice among the
  tracked entries. This reflects the change tracker's one-entry-per-entity
  rule, which the model does not otherwise capture.
- `DateTime` is modelled as an integer tick count, and the concrete entity
  classes are modelled by their audit fields alone.
- `IApplicationDbContext.cs` is an interface of `DbSet` accessors with no
  logic of its own, and it is not part of this model.

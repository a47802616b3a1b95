# TableFlow: the live name migration and the stores it runs over

TableFlow is a restaurant booking API.  While it runs, the reservations table is
migrated from one column, `guest_name`, to two, `first_name` and `last_name`.  This
project models that migration with everything it has to coexist with, and proves what
its documentation and tests promise: names survive, no statement names a column that is
not there, nobody is double booked, no edit and no order is lost.

Concurrent parts are step systems: a state, a datatype of steps, `Enabled`, `Apply`, and
runs as sequences of steps, so that a theorem about `After(s, steps)` is about every
interleaving.  Parts that work by updating in place are classes and loops, proved against
functions on values.

| file | what it models |
|---|---|
| `Names.dfy`, `NameLaws.dfy` | splitting, showing and rebuilding a name, with the three notions of whitespace of Python, the SQL pattern and `btrim` |
| `Store.dfy`, `Migration.dfy`, `Alembic.dfy` | the table, the four phases with their guard, the revisions 0002 to 0004 in both directions |
| `Protocol.dfy` | the migration as a concurrent protocol: requests split where they await the database, the backfill with its row locks, any number of phase changes at once, each with its two looks and its switch, restarts, every schema step in both directions |
| `Phases.dfy`, `Fidelity.dfy`, `Guard.dfy`, `Careful.dfy`, `Forward.dfy`, `Straddling.dfy`, `Matched.dfy` | what every run keeps, what the guard finds in it, what a restart does, when a response lacks a column, and that edits follow their If-Match |
| `Races.dfy` | runs that break one hypothesis and end with a client served wrongly |
| `Rollback.dfy`, `Runbook.dfy` | the protocol's schema steps and batches are those of the revisions and the script; going back; the runbook from 0001 to 0004 and back again |
| `Backfill.dfy` | the script's passes over a table that other transactions lock and write |
| `Etag.dfy`, `Booking.dfy`, `Waiting.dfy`, `Editing.dfy`, `Service.dfy` | `If-Match`, booking under the table lock and the exclusion constraint, bookings and re-activations that wait for each other, editing by compare-and-set, and the same operations for one request at a time |
| `Orders.dfy`, `Checkout.dfy`, `Receipts.dfy` | the order status under a row lock; creating an order across two databases, and what its answers mean |
| `Ledger.dfy`, `Steady.dfy` | the traffic generator that watches the migration, composed with the protocol |

## What holds only under a condition

Where the code does not do what is promised of it on every input, the code is modelled as
it is and the exact condition is proved.

- A freshly split row counts as mismatched, and so blocks `read_new`, exactly when a part
  was cut at 60 characters or the name's spaces are not ones the SQL pattern knows, whatever
  the database's locale adds to its six (`MismatchLaw`).  The whole
  runbook goes through exactly when no name is of that kind (`RunbookGoesThrough`).
- `docs/DESIGN.md` line 252 calls the downgrade of 0004 lossless for names normalised to
  single spaces.  It is lossless exactly when, besides, no part is longer than its column
  (`RebuiltExactly`).
- The guard looks first and switches later, and two PUTs can overlap.  What it saw stays
  true until `new_only` is entered; after that a phase that reads the new columns is refused
  exactly when a booking kept a `guest_name` that is not its last name, and one that reads
  `guest_name` exactly when a booking has none (`GuardStaysTrue`).  The first is what a
  rename in `new_only` leaves behind before 0004, and nothing else does: in every run without
  one the guard accepts the phase the service is in (`SomePhaseIsAccepted`).  After one,
  `read_new` is refused, although `docs/MIGRATION.md` line 83 gives it as the way back;
  `dual_write`, which is let in, shows the old name (`RenameIsLost`), and no phase at all may
  be left (`NoPhaseFits`).  Undoing 0004 repairs it (`RollbackHeals`); undoing 0003 does not,
  and `UnrelaxHeals` says which names are then current.
- A restart goes to the configured phase, by default `legacy`, whenever the guard accepts
  that; it ends in the phase it interrupts only if that one is configured, or if the
  configured one is refused and no more advanced one accepted (`RestartKeepsPhase`).  Clients
  go on seeing the last names exactly when it ends in a phase that reads the new columns, or
  every `guest_name` is the last name (`RestartKeepsAnswers`).  In `new_only` before 0004,
  after one rename, every restart shows the old name, whatever is configured
  (`RestartShowsOldName`).  After 0004 every restart ends in `new_only`
  (`RestartAfterContract`).
- The guard does not look at `first_name` and `last_name` being mandatory: what it accepts
  fits the schema unless it is `legacy` at that moment (`AcceptedFits`).  With 0004 half done
  it lets `legacy` in, by a PUT or by a restart, and bookings fail (`HalfwayToLegacy`).
- The guard does not see writes prepared in `legacy`, queries under way when the read columns
  change, nor another PUT that has been allowed; the revisions do not look at the phase or at
  requests on their way.  These are the hypotheses of the fidelity theorem, spelled out in
  `Phases.Ordered` and `Fidelity.Disciplined`, and `Races.dfy` shows what happens without
  them.  A query under way fails exactly when the columns that are read have changed between
  it and its response (`NotLoadedExactly`).
- Columns that agree with a `guest_name` by the guard's comparison are its split, unless
  their `last_name` ends in the blank it was cut behind (`AgreementMeansSplit`,
  `GuardMeansSplit`).  A rename in `legacy` over such a row can go unseen by the guard
  (`UnsettledRenameMissed`); runs without one need nothing of their names.
- The way back from 0004 to 0001 restores the table exactly when every name is tidy and fits
  (`ThereAndBack`).
- 0004 stopped half-way by a missing `last_name` cannot simply be run again
  (`HaltedStaysHalted`).
- `run_backfill` started at a checkpoint beyond which nothing awaits fills nothing and
  stops, whatever is left below (`Job.RunBackfill`, the equivalence for a quiet table).
- A PATCH that re-activates a cancelled booking in a slot taken since is refused by the
  constraint, which the service does not catch there: a 500, and only then
  (`RefusedExactly`).
- A PATCH with nothing to write is not checked against the version: it gets a 200 although
  another change has been committed (`NoChangeIsNotChecked`).  For a name that is the case in
  `legacy` when it is the text stored, in `new_only` when it has the same split, so also when
  it differs in spacing or beyond the cut, and never in between, where columns are written
  that were not loaded (`NameIsWritten`).
- The lock on the table's row rules out deadlocks of bookings alone.  A PATCH that
  re-activates a booking does not take it, and can deadlock with another one or with a POST
  for the same slot, one of which then gets a 500 (`DeadlockExactly`).
- A product id in upper-case hexadecimal passes validation and is answered with 404
  (`PassesExactly`).
- A full order of 50 lines of 50 fits its column up to 39,999.99 a unit and not at
  40,000.00 (`OrderFits`, `OneCentMore`).

## Model

| member | source | states |
|---|---|---|
| Names.CleanedIsTidy | app/services/reservations.py:56 | stripping, splitting and joining a name is trimming and collapsing its Python whitespace; the result has single blanks between words, none at the ends, and is never longer |
| Names.SpacesExactly | app/services/reservations.py:56 | which characters are spaces to Python, to the SQL pattern and to `btrim` |
| Names.SplitIsShaped | app/services/reservations.py:56-60 | what every split looks like: no whitespace in the first part, none but blanks in the last and none at its start, both within 60 characters, no last part without a first; a settled name's last part is tidy |
| NameLaws.SplitKeepsSixty | app/services/reservations.py:60 | the first word and all that follows it are stored whole up to 60 characters, and of more than that exactly the first 60 |
| NameLaws.ShortNamesAreKept | app/services/reservations.py:49-60 | a name of up to 60 characters is shown as it is, spacing aside |
| NameLaws.LongWordsAreCut | app/services/reservations.py:60 | every word of 61 to 120 characters, which guest_name has room for, is cut to 60 |
| NameLaws.MismatchLaw | app/migration.py:84-92 | the guard's comparison finds a freshly split row in order if and only if no part was cut and the name's spaces are plain |
| NameLaws.AgreementMeansSplit | app/migration.py:84-92 | if two columns of the shape a split has agree with a guest_name by the guard's comparison, they are the split of that very name if and only if the last one does not end in a blank |
| NameLaws.SplitShownLaw | app/services/reservations.py:126-129 | splitting what the API shows of a split gives the same two columns back, if and only if the cut left no blank at the end |
| NameLaws.ShownAgreesWithRebuild | app/services/reservations.py:126-129 | the Python join and the SQL rebuild of a split are the same text under exactly that condition |
| NameLaws.ShownExactly | app/services/reservations.py:49-60 | the two columns show a name unchanged if and only if it is tidy and fits |
| NameLaws.RebuiltRoundTrip | alembic/versions/0004_drop_guest_name.py:84-90 | a rebuilt name agrees with its columns, needs no more room than the name it came from, and splits into the same columns when settled |
| Migration.SomePhaseFits | app/migration.py:124-151 | some phase is accepted if and only if every row has its guest_name, or every row has its new columns and none contradicts a guest_name |
| Migration.RefusalSays | app/migration.py:124-151 | for every schema and table, which phase is refused for which reason, and with which number of rows |
| Migration.NoPhaseFits | app/migration.py:161-179 | one row renamed and one created in new_only before 0004 leave no phase for a restart |
| Migration.Control.PutMigration | app/routers/admin.py:74-80 | the phase changes to the target exactly when the state that was read accepts it |
| Migration.Control.ReconcileWithSchema | app/migration.py:161-179 | the loop over the candidates ends in the phase `Reconciled` |
| Migration.ReconciledIsBest | app/migration.py:161-179 | an accepted configured phase is kept; otherwise the most advanced accepted one is taken, and an accepted one whenever there is one |
| Alembic.NotNullSteps | alembic/versions/0004_drop_guest_name.py:48-59 | the eight statements, each committed alone, leave both columns NOT NULL and no constraint behind, or stop half-way if a last_name is missing |
| Alembic.ExpandRoundTrip | alembic/versions/0002_expand_guest_name.py:31-54 | 0002 and back is the identity |
| Alembic.ContractIsAtomic | alembic/versions/0004_drop_guest_name.py:62-79 | 0004 goes through or changes nothing, unless a row has a first_name and no last_name; it stops half-way exactly then |
| Alembic.HaltedStaysHalted | alembic/versions/0004_drop_guest_name.py:74-76 | after stopping half-way it stops again, whatever has been filled in since |
| Alembic.RebuiltExactly | docs/DESIGN.md:252 | the rebuilt name is the original one if and only if that was tidy and fitted |
| Alembic.ContractRoundTrip | alembic/versions/0004_drop_guest_name.py:62-98 | 0004 and back on a table of splits: both succeed, new columns are kept, guest_name agrees with them in every row, all four phases are accepted |
| Alembic.UnrelaxRepairs | alembic/versions/0003_relax_guest_name.py:47-59 | 0003 undone: rows written in new_only get a guest_name that agrees, no other row changes, the counts of the others stay |
| Alembic.Database.Upgrade0002 | alembic/versions/0002_expand_guest_name.py:31-47 | ends at revision 2 with the table untouched |
| Alembic.Database.Downgrade0002 | alembic/versions/0002_expand_guest_name.py:50-54 | ends at revision 1, the new columns forgotten |
| Alembic.Database.Upgrade0003 | alembic/versions/0003_relax_guest_name.py:43-44 | ends at revision 3 with the table untouched |
| Alembic.Database.Downgrade0003 | alembic/versions/0003_relax_guest_name.py:47-59 | ends at revision 2 with no guest_name missing, or changes nothing because a rebuilt name is too long |
| Alembic.Database.ExecuteSteps | alembic/versions/0004_drop_guest_name.py:74-76 | the loop runs the statements up to the first that is refused |
| Alembic.Database.Upgrade0004 | alembic/versions/0004_drop_guest_name.py:62-79 | the count, the loop and the two drops together are the contract step |
| Alembic.Database.Downgrade0004 | alembic/versions/0004_drop_guest_name.py:82-98 | ends at revision 3 with every guest_name rebuilt, or changes nothing because one is too long |
| Etag.TagMatchesItsVersion | app/services/reservations.py:154-175 | an ETag handed out, strong or weak, passes If-Match exactly for the version it was handed out for |
| Etag.DigitsAreDecimal | app/services/reservations.py:154-155 | the tag holds the decimal digits of the version |
| Etag.ListMatchesEither | app/services/reservations.py:170-171 | a comma-separated list passes exactly when one of its two halves does |
| Etag.HeaderPassesExactly | app/services/reservations.py:163-175 | a header of any number of tags, strong, weak, without quotes or the star, with any spaces around them, passes exactly when the current version or the star is among them |
| Etag.WildcardAndNone | app/services/reservations.py:163-171 | `*` always passes; no header passes exactly when it is not required |
| Fidelity.AnswersAreFaithful | app/services/reservations.py:119-143 | in every disciplined run, forwards, back and through restarts, with any names and any number of phase changes at once, no statement names an absent column or leaves a mandatory one out, and an answer whose query and response read the same columns shows the name committed last when it was read |
| Fidelity.RowsAreFaithful | app/services/reservations.py:102-107 | in every state of such a run the columns that are read hold the last committed name, and until new_only so does guest_name |
| Phases.AcceptedFits | app/migration.py:124-151 | a phase the guard accepts fits the schema if and only if it is not legacy while a new column is mandatory |
| Phases.RestartFitsExactly | app/migration.py:161-179 | a restart ends in a phase that fits if and only if, where some phase is accepted, the one picked is not legacy while a new column is mandatory, and otherwise the configured one fits |
| Phases.PhaseAlwaysFits | app/migration.py:45-57 | whatever the names and the requests on their way, the current phase, and each one a PUT has been allowed, use only columns that exist and write every mandatory one, in every run that keeps the order of phases and revisions |
| Fidelity.GuardMeansSplit | app/migration.py:137-148 | a row in order by the guard's comparison, from whichever name its columns were split, has the split of its current name if and only if its last_name does not end in the blank it was cut behind |
| Guard.GuardStaysTrue | app/routers/admin.py:74-79 | whatever runs between the guard's look and its switch, other PUTs among it, the guard would still say yes exactly when no booking kept an old guest_name (for a phase that reads the new columns) or every booking has one (for the others); always so before new_only |
| Guard.RestartKeepsPhase | app/migration.py:161-179 | in which phase a restart ends: the interrupted one if and only if it is configured, or the configured one is refused and no more advanced one accepted, and it is still good; configured for legacy before new_only, it ends in legacy |
| Guard.RestartAfterContract | docs/DESIGN.md:190 | once guest_name is gone every restart ends in new_only, whatever is configured |
| Guard.RestartKeepsNames | app/config.py:45-48 | a restart keeps the whole invariant of the fidelity theorem if and only if it ends in a phase that fits and does not read a guest_name left behind |
| Guard.RestartKeepsAnswers | app/config.py:45-48 | after a restart into a phase that fits, every GET shows the last name if and only if that phase reads the new columns or every guest_name is the last name |
| Careful.SomePhaseIsAccepted | app/migration.py:124-151 | in every disciplined run, back and through restarts, in which no row that still has a guest_name is renamed in new_only: unless a name is cut or has spaces the database does not know, no guest_name is behind, and the guard accepts the current phase and each allowed one that reads the new columns |
| Straddling.NotLoadedExactly | app/services/reservations.py:119-143 | whatever happens between a query and its response, short of a restart, the response lacks a column if and only if one of the two phases reads guest_name and the other the new columns |
| Matched.EditsAreMatched | app/services/reservations.py:154-175 | whatever runs beside a PATCH, short of a restart: when it changes its row, the row has a version its If-Match allows, and the name written is the one sent; a row that arrives in another version gives 412 or 428 and no change |
| Forward.ColumnsAlwaysAgree | scripts/backfill_names.py:49-88 | in every forward run up to read_new, whatever the names and the timing, each row's new columns are both NULL or the split of its guest_name |
| Forward.LegacyRenameIsStale | app/models/reservation.py:104-123 | a rename prepared in legacy cannot commit over a row filled since: it gets the version conflict |
| Races.LegacyBookingLosesName | app/routers/admin.py:74-79 | a booking prepared in legacy and committed in read_new is shown without a name |
| Races.StraddlingReadFails | app/services/reservations.py:126-129 | a query built before the switch of the read columns and shown after it ends in a 500 |
| Races.RenameIsLost | app/migration.py:132-136 | a rename in new_only is undone for the client once dual_write is back, which the guard allows |
| Races.RestartShowsOldName | app/migration.py:161-179 | the same after a mere restart, whatever phase is configured |
| Races.UnsettledRenameMissed | app/migration.py:84-92 | for every name cut behind a blank there is a rename in legacy that the guard does not see and read_new does not show |
| Races.OverlappingPuts | app/routers/admin.py:74-79 | a PUT allowed before another one entered new_only brings dual_write back over a booking that has no guest_name: a 500 |
| Races.LegacyWhileAllowed | app/routers/admin.py:74-79 | a PUT allowed read_new before another one went back to legacy shows a name from before a rename |
| Races.MandatoryTooEarly | alembic/versions/0004_drop_guest_name.py:48-59 | SET NOT NULL in legacy, or with a legacy booking on its way, breaks a booking |
| Races.HalfwayToLegacy | app/migration.py:124-151 | with 0004 half done in dual_write, a PUT is let into legacy and a restart stays there, and bookings fail after either |
| Races.ContractTooEarly | alembic/versions/0004_drop_guest_name.py:62-79 | 0004 goes through in read_new, and in new_only with an older booking on its way, and the booking names the dropped column |
| Races.UnrelaxTooEarly | alembic/versions/0003_relax_guest_name.py:47-59 | 0003 undone in new_only, or with a booking from there on its way, breaks the booking |
| Races.UnexpandTooEarly | alembic/versions/0002_expand_guest_name.py:50-54 | 0002 undone in dual_write, or with a booking from there on its way, breaks the booking |
| Rollback.UpgradesAreTheRevisions | alembic/versions/0003_relax_guest_name.py:43-44 | the protocol's upgrade steps do to the table what the revisions do |
| Rollback.DowngradesAreTheRevisions | alembic/versions/0004_drop_guest_name.py:82-98 | and so do its downgrade steps |
| Rollback.ContractIsThreeSteps | alembic/versions/0004_drop_guest_name.py:62-79 | 0004 is three protocol steps, which are possible exactly when the revision succeeds and have its effect |
| Rollback.RollbackHeals | docs/MIGRATION.md:84 | undoing 0004 in any state of a disciplined run leaves every guest_name rebuilt, and all four phases accepted |
| Rollback.UnrelaxHeals | docs/MIGRATION.md:83 | undoing 0003 in any state of a disciplined run succeeds for names that fit guest_name and opens legacy and dual_write, read_new as before; a guest_name is then the last name if and only if it was, or was missing and the name is tidy and fits |
| Rollback.CarefulWayBack | docs/MIGRATION.md:83 | after a careful run with tidy names that fit, undoing 0003 in read_new leaves every guest_name current and the three phases of 0002 accepted |
| Rollback.BatchIsLockAndFill | scripts/backfill_names.py:63-79 | the protocol's locking and filling of any eligible rows is one batch of the script |
| Runbook.RunbookGoesThrough | docs/MIGRATION.md:37-48 | the runbook succeeds from any table if and only if every name is clean; it is then a disciplined run and ends at 0004 in new_only with each row holding the split of its name |
| Runbook.ThereAndBack | docs/MIGRATION.md:73-84 | after the runbook, the way back to 0001 succeeds for names that fit guest_name; it restores the table if and only if every name is tidy and fits, and is then a disciplined run |
| Backfill.ResumeEqualsOnePass | scripts/backfill_names.py:59-85 | a pass killed at a checkpoint and resumed there does what one pass does |
| Backfill.FillTwice | scripts/backfill_names.py:49-54 | passes can be repeated and can overlap: a filled row is not written again |
| Backfill.SmallestIds | scripts/backfill_names.py:63-69 | the batch is the smallest ids of the candidates, in order, up to the limit, and all of them when it is not full |
| Backfill.Job.ExecuteFill | scripts/backfill_names.py:78 | the batch's UPDATEs fill exactly its rows, and the row count is their number |
| Backfill.Job.Batch | scripts/backfill_names.py:63-79 | one batch takes the first eligible rows that are not locked and fills them, nothing else |
| Backfill.Job.RunPass | scripts/backfill_names.py:59-88 | with nobody else at work a finished pass is one bulk update after its start and a killed one a bulk update up to its checkpoint, for any batch size; it always ends; it counts what it fills; it never makes a row disagree, whatever the traffic |
| Backfill.Job.RunBackfill | scripts/backfill_names.py:95-107 | rows awaiting at the start = filled by the job + filled by traffic + still awaiting; it ends with none left, a pass that filled nothing, or after five passes; what is left behind its last pass's start has been locked during that pass; on a quiet table none are left exactly when none awaited or some row awaited beyond the start |
| Backfill.VerdictIsTheGuards | scripts/backfill_names.py:110-136 | --verify says complete exactly when the guard would let read_new in, or new_only once guest_name is gone |
| Booking.OverlapMeansInstant | alembic/versions/0001_initial_schema.py:178-179 | half-open windows overlap exactly when they share an instant |
| Booking.HolderNeverWaits | app/services/reservations.py:202-210 | a booking that holds its table's lock never waits |
| Booking.NoDeadlock | app/services/reservations.py:202-210 | while a booking is unanswered, some transaction can go on |
| Booking.DeadlockWithoutLock | docs/DESIGN.md:134 | without the lock two overlapping bookings reach a state in which nobody can go on |
| Booking.WaitsExactly | docs/DESIGN.md:134 | an insert waits for another transaction's uncommitted booking of the same table exactly when their windows share an instant |
| Booking.EveryRunEnds | app/services/reservations.py:202-246 | no schedule takes more than three turns a booking, at most one transaction a table is between lock and commit, and a schedule that cannot go on has answered everybody |
| Booking.AnswersAreJustified | app/services/reservations.py:202-246 | whatever the schedule: live rows never overlap, a 201 is there and was not before, a 409 has an old or newly accepted live row in its way, 400 and 404 depend on the request alone; so the accepted bookings are maximal without overlaps |
| Booking.ExactlyOne | app/services/reservations.py:235-243 | of bookings that all overlap on one free table exactly one gets 201, the others 409 |
| Booking.AvailabilityAgrees | app/routers/restaurants.py:123-155 | a table is listed as free exactly when a booking made in that state is accepted; listed and not free means 409, not listed 400, not there 404 |
| Waiting.DeadlockExactly | docs/DESIGN.md:134 | a set of bookings and re-activations can deadlock if and only if two of them want one slot and lock different rows; a schedule that cannot go on has answered everybody or is such a deadlock |
| Waiting.EveryRunEnds | app/services/reservations.py:202-246 | no schedule of bookings and re-activations takes more than three turns a request |
| Waiting.AnswersAreJustified | app/services/reservations.py:178-191 | whatever their schedule: live rows never overlap and stay as they are, and every 201, 200, 400, 404, both 409s and the 500 mean what they say, against the rows and the other answers |
| Editing.NeverDoubleBooked | alembic/versions/0001_initial_schema.py:173-183 | no run of bookings, edits, re-activations and cancellations reaches two overlapping live bookings of one table |
| Editing.AnsweredExactly | app/services/reservations.py:154-175 | which request is turned away with 422, 404, 428 or 412 before anything is compared, and what is loaded otherwise |
| Editing.OnlyPatchNeedsHeader | app/services/reservations.py:158-169 | a PATCH without If-Match is turned away, a DELETE is not |
| Editing.RefusedExactly | app/services/reservations.py:178-191 | an edit ends in a 500 if and only if it brings an unchanged cancelled booking back to a slot taken since |
| Editing.EditsAreLinear | app/models/reservation.py:104-123 | in any phases, beside a backfill and revisions that write the same rows, the writes of a booking form one chain of versions from its first state to its current one, at most one from each version; each of a call puts what was sent into the row it loaded and its If-Match allowed, column by column, and leaves the rest; each other one changes name columns alone; every 200 that had something to write is in it, and every other one had loaded what it asked for |
| Editing.CancelFrees | app/services/reservations.py:268-278 | a DELETE ends in 200 or a version conflict; a 200 frees the slot, except that for a booking cancelled already when loaded nothing is written or checked |
| Editing.IncrementAddsOne | app/routers/reservations.py:115-119 | an increment sets the party it has read plus one, and nothing else |
| Editing.IncrementsAddUp | app/routers/reservations.py:115-119 | clients that read, add one and retry end at the start plus the number of 200s; each retry has lost to a write committed after its read |
| Editing.NoChangeIsNotChecked | app/services/reservations.py:257-264 | of two PATCHes on one version the later one gets the version conflict if and only if it has something to write, else an unchecked 200 |
| Service.Row.WriteName | app/services/reservations.py:102-107 | the loop over the phase's columns sets exactly those, to the name and its split |
| Service.WrittenIsShown | app/services/reservations.py:102-129 | in every phase, what write_name has set is what the phase's read shows, whatever the row held before |
| Service.Desk.Create | app/services/reservations.py:202-246 | one booking at a time: 201 exactly for a bookable and free table; the new row has the table, window and party asked for and shows the name; nothing changes otherwise, the constraint is kept |
| Service.Desk.Change | app/services/reservations.py:249-278 | one edit at a time: 200 exactly when valid, found, matched and not refused, each other answer for its reason, never a version conflict; after a 200 with a name the phase shows that name, columns it does not write stay, party and status are those sent or else those there; a new version exactly when party or status changed or the name makes an UPDATE |
| Service.NameIsWritten | app/services/reservations.py:102-107 | a name makes an UPDATE exactly when it is another text in legacy, always in dual_write and read_new, and exactly when it has another split in new_only |
| Orders.Linearizes | app/services/orders.py:159-178 | whoever races or dies, each order's status, its history and every answer are those of serving the answered calls one after another in lock order |
| Orders.HistoryIsLegal | app/services/orders.py:43-49 | an order is preparing only after placed, ready only after preparing, completed only after ready, cancelled only from placed or preparing; each 200 is one change, at most three of them, and completion from placed takes exactly three |
| Orders.AnswersFollowTheWay | app/services/orders.py:159-178 | one after another under the lock, every answered call finds what the one before has left, and gets a 200 exactly when its target follows that status on the way: a cancellation from placed or preparing, every other change from its one predecessor, none from completed or cancelled; else a 409 |
| Orders.OneWins | app/services/orders.py:159-178 | of calls racing for one allowed change the first to get the lock has it and all others get 409 |
| Orders.WithoutLockBothPass | docs/DESIGN.md:155 | without the lock an order goes from preparing to ready to cancelled, both calls answered 200 |
| Orders.Table.AdvanceStatus | app/services/orders.py:159-178 | alone, it answers and changes what serving one call does: 404 for an order that is not there, 200 and the new status exactly when that follows the current one, else 409 |
| Checkout.CentsIsNearest | app/services/orders.py:119 | quantizing gives the nearest cent, the even one of two, and is the only such number |
| Checkout.CentsOfCents | app/services/orders.py:119 | a price kept with two decimals is taken over unchanged |
| Checkout.TotalOfPermutation | app/services/orders.py:114-120 | the order of the items does not matter for the total |
| Checkout.ValidExactly | app/schemas/order.py:19-28 | one to 50 items of one to 50 each |
| Checkout.SavesExactly | app/models/order.py:61 | an order is stored exactly when total and unit prices are not negative and have at most eight digits before the point |
| Checkout.PassesExactly | app/services/orders.py:52-103 | a request passes the checks if and only if restaurant, reservation and products are as required and every product id is in lower case |
| Checkout.Build | app/services/orders.py:114-132 | the loop builds the receipt: one line an item in their order, with its product, quantity, name and the nearest cent of its own price, and the sum of the lines |
| Checkout.OrderFits | app/schemas/order.py:19-28 | with at most 50 lines of at most 50 and unit prices of at most 39,999.99 an order fits NUMERIC(10,2) |
| Checkout.OneCentMore | app/models/order.py:61 | 50 lines of 50 at 40,000.00 do not |
| Checkout.AllOrNothing | app/services/orders.py:105-156 | requests that fail or die at any step leave their whole order, priced from one reading of the menu, or nothing; 201 exactly when it is there; each event is the only one about an order that is there and says its line count and total |
| Receipts.RowsRefuseExactly | app/services/orders.py:52-67 | 404 and 403 of the first check, each exactly for its reason |
| Receipts.ProductsRefuseExactly | app/services/orders.py:69-103 | 404, 400 and 409 of the second check, in this order, each exactly for its reason |
| Receipts.OrdersAreReceipts | app/services/orders.py:52-132 | in every run, every order left is the receipt of its request, item by item, at the prices of a menu there has been, for a restaurant and a reservation of the user's there have been; every refusal has its reason in some rows or some menu |
| Receipts.LoneOrderIsTaken | app/services/orders.py:52-156 | alone, a request in order at unit prices of at most 39,999.99 gets a 201, its receipt and its event |
| Ledger.NothingToWrite | app/services/reservations.py:257-264 | a rename that issues no UPDATE asks for the name the booking already has |
| Ledger.ThreeAttempts | scripts/traffic.py:188-201 | a rename that loses reads and tries again, and gives up after the third time |
| Ledger.ResponseIsFine | scripts/traffic.py:162-201 | every response the generator gets shows the right name, or is a refused booking or a version conflict |
| Ledger.LedgerStaysTrue | scripts/traffic.py:128-216 | composed with the whole protocol, other people's bookings and renames included: no response ever shows a name other than the ledger's, and a booking with no request in flight has exactly that name in the columns that are read |
| Ledger.BookingIsEntered | scripts/traffic.py:168-180 | undisturbed, a booking of the generator's ends in the ledger with its name and version, and nothing counts as bad |
| Steady.SlotTimes | scripts/traffic.py:169-171 | ten slots a day, two hours apart, of an hour and a half each |
| Steady.SlotsAreDisjoint | scripts/traffic.py:169-171 | the windows of any two slots are disjoint |
| Steady.NextSlotIsFree | scripts/traffic.py:169-171 | the next slot is always free on a table where only the generator books |
| Steady.Generator.Create | scripts/traffic.py:168-180 | asks for a new slot, enters exactly a 201, counts exactly a wrong name |
| Steady.Generator.Read | scripts/traffic.py:182-186 | takes over the version of a 200 and counts exactly a wrong name |
| Steady.Generator.Rename | scripts/traffic.py:188-201 | at most three attempts, each with the version read last; the ledger changes exactly when the loop ends with a 200, whose version is kept; every wrong name among the responses is counted, and nothing else |

## Left out

- Fidelity.AnswersAreFaithful: its runs are those of `Fidelity.Disciplined`, whose conditions `Races.dfy` motivates.  A restart loses the requests under way; it reads the schema and decides in one step.
- Guard.GuardStaysTrue: for the phases that read the new columns, about names that fit and have spaces the database knows; `MismatchLaw` says what the count is for the others.  The inspection of the schema is one turn with the first count, so that a revision between the two is not seen, and the other two counts are one later turn: no target looks at both of them.
- Guard.RestartKeepsPhase: in those phases, about such names too.
- Forward.ColumnsAlwaysAgree: going back to an earlier phase is not a forward run; after it first and last may be older than guest_name, which is what the mismatch count is for.
- Booking.EveryRunEnds: about POST alone; `Waiting.dfy` has POST and re-activating PATCH together.
- Waiting.DeadlockExactly: a PATCH starts with the cancelled row loaded; that PostgreSQL ends a deadlock after a second, and how, is not modelled.
- Editing.EditsAreLinear: revisions that add or drop a column, which give no row a new version, are not steps of it; and the UPDATE and the COMMIT of an edit are one step, so the wait of a second UPDATE for the first one's row lock is not seen; its outcome, the version conflict, is.
- Backfill.Job.RunPass: what other transactions do is seen between batches; inside a batch its rows are locked.  The sleep and the printed lines are not modelled.
- Ledger.LedgerStaysTrue: no response is lost, so a restart meets no request of the generator's; nobody else renames its bookings, and none of its requests meets a change of the read columns.
- Checkout.CentsIsNearest: prices are exact numbers; the 28 digits of the decimal context and the float of the event's total are not modelled.
- Checkout.AllOrNothing: the currency, taken from the first item, and the copied attributes are left out; a malformed id cannot pass validation, so its 400 is not a branch.
- Which spaces the SQL pattern knows beside the six ASCII ones depends on the database's locale; `Names.LOCALE` stands for any set of further ones that Python knows too.
- Row locks, SKIP LOCKED, the exclusion check, compare-and-set and transactional DDL are taken as the database documents them; lock timeouts and wrap-around of xmin are left out: a version is never used twice.
- Deferred columns beyond the name, the list endpoint's join, pagination, authentication, roles and ownership checks on reservations, settings and health checks.
- The table's capacity in `Editing.dfy`: a PATCH does not check it again, so a party may outgrow its table.
- A reservation is never deleted; users, restaurants and tables do not change while bookings are made.
- MongoDB beyond reading products and writing one event; the frontend, the seed data, the load test and its charts.
- More than one worker: the phase is in one process.

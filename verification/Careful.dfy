/** Runs in which nobody renames a booking in new_only while it still has a guest_name: the
    guard never finds a row that contradicts itself, and goes on accepting the phase it is in. */
module Careful {
  import opened Names
  import opened NameLaws
  import opened Store
  import opened Migration
  import opened Protocol
  import opened Phases
  import opened Fidelity
  import opened Guard

  /** A rename that goes through and leaves the row's guest_name as it was. */
  predicate LeavesBehind(s: Sys, step: Step) {
    step.Commit? && step.r in s.reqs && s.reqs[step.r].Updating? &&
    var q := s.reqs[step.r];
    && q.name.Some? && GuestName !in q.cols
    && q.id in s.rows && s.rows[q.id].version == q.version && s.rows[q.id].names.guest.Some?
  }

  predicate CarefulRun(s: Sys, steps: seq<Step>)
    decreases |steps|
  {
    steps == [] || (
      && Enabled(s, steps[0]) && Disciplined(s, steps[0]) && !LeavesBehind(s, steps[0])
      && CarefulRun(Apply(s, steps[0]), steps[1..]))
  }

  /** A guest_name is the last name, or what the database rebuilds from its parts. */
  predicate Near(n: NameCols, name: string) {
    n.guest.Some? ==> n.guest.value == name || n.guest.value == Rebuilt(SplitGuestName(name))
  }

  predicate AllNear(s: Sys) {
    forall id :: id in s.rows && id in s.last ==> Near(s.rows[id].names, s.last[id])
  }

  // ---- Every step ----

  lemma CommitKeeps(s: Sys, r: nat, newId: int)
    requires AllNear(s) && Enabled(s, Commit(r, newId)) && !LeavesBehind(s, Commit(r, newId))
    ensures AllNear(DoCommit(s, r, newId))
  {
    hide SplitGuestName, Rebuilt, AllPresent, CoversMandatory;
  }

  /** A row whose guest_name is missing has the split of its last name, and so has every row
      once guest_name is gone. */
  lemma MissingIsFilled(s: Sys, id: int)
    requires Kept(s) && id in s.rows && (s.rows[id].names.guest.None? || !s.schema.guestPresent)
    ensures id in s.last && Filled(s.rows[id].names, SplitGuestName(s.last[id]))
  {
    hide SplitGuestName, SplitOrShaped, RequestsOk, BatchOk, Complete;
    assert RowOk(s.rows[id], s.last[id], Of(s));
    assert s.retired && ReadsNew(s.phase) && May(s, s.phase);
  }

  lemma RebuiltIsNear(n: NameCols, name: string)
    requires Filled(n, SplitGuestName(name))
    ensures RebuiltName(n) == Rebuilt(SplitGuestName(name))
  {
    hide SplitGuestName, Rebuilt, RebuiltName;
    RebuiltParts(n, SplitGuestName(name));
  }

  lemma Downgrade0004Keeps(s: Sys)
    requires Kept(s) && !s.schema.guestPresent
    ensures AllNear(DoDowngrade0004(s))
  {
    hide SplitGuestName, Rebuilt, RebuiltName, Kept;
    forall id | id in s.rows ensures id in s.last && Near(WithRebuilt(s.rows[id], s.clock).names, s.last[id]) {
      MissingIsFilled(s, id);
      RebuiltIsNear(s.rows[id].names, s.last[id]);
    }
  }

  lemma Downgrade0003Keeps(s: Sys)
    requires Kept(s) && AllNear(s)
    ensures AllNear(DoDowngrade0003(s))
  {
    hide SplitGuestName, Rebuilt, RebuiltName, Kept;
    forall id | id in s.rows && s.rows[id].names.guest.None?
      ensures id in s.last && Near(WithRebuilt(s.rows[id], s.clock).names, s.last[id])
    {
      MissingIsFilled(s, id);
      RebuiltIsNear(s.rows[id].names, s.last[id]);
    }
  }

  /** The other steps write no guest_name. */
  lemma OthersKeep(s: Sys, step: Step)
    requires AllNear(s) && Enabled(s, step) && !step.Commit? && !step.Downgrade0004? && !step.Downgrade0003?
    ensures AllNear(Apply(s, step))
  {
    hide SplitGuestName, Rebuilt, StateOf, Accepts, Reconciled, GuestIsCurrent, Lockable, NoRowLacks, Unlocked, SeenBy,
      Altered, Found, Resumed, Queried;
  }

  lemma StepKeeps(s: Sys, step: Step)
    requires Inv(s) && AllNear(s) && Enabled(s, step) && Disciplined(s, step) && !LeavesBehind(s, step)
    ensures Inv(Apply(s, step)) && AllNear(Apply(s, step))
  {
    hide Kept, PhasesFit, AllNear, Disciplined, LeavesBehind, DoCommit, DoDowngrade0004, DoDowngrade0003;
    Fidelity.StepKeeps(s, step);
    if step.Commit? { CommitKeeps(s, step.r, step.newId); }
    else if step.Downgrade0004? { Downgrade0004Keeps(s); }
    else if step.Downgrade0003? { Downgrade0003Keeps(s); }
    else { OthersKeep(s, step); }
  }

  lemma {:induction false} RunKeeps(s: Sys, steps: seq<Step>)
    requires Inv(s) && AllNear(s) && CarefulRun(s, steps)
    ensures Run(s, steps) && DisciplinedRun(s, steps) && Inv(After(s, steps)) && AllNear(After(s, steps))
    decreases |steps|
  {
    hide Inv, AllNear, Enabled, Disciplined, LeavesBehind, Apply;
    if steps != [] {
      StepKeeps(s, steps[0]);
      RunKeeps(Apply(s, steps[0]), steps[1..]);
    }
  }

  // ---- What the guard finds ----

  lemma NearIsNotBehind(n: NameCols, name: string)
    requires Near(n, name) && Clean(name) && n.guest.Some?
    ensures Legacy(n.guest.value) == Legacy(name)
  {
    hide SplitGuestName, Rebuilt, Legacy, Fits, PlainSpaces;
    MismatchLaw(name);
    RebuiltRoundTrip(name);
  }

  /** The phase reads guest_name only while every booking has one. */
  lemma OldPhaseIsGood(s: Sys)
    requires Kept(s) && !ReadsNew(s.phase)
    ensures AllHaveGuest(s)
  {
    hide PhaseOk, RowsOk, RequestsOk, BatchOk;
    CountsOf(s);
    assert !s.retired by { NotRetired(s); }
  }

  lemma NotRetired(s: Sys)
    requires PhaseOk(s) && !ReadsNew(s.phase)
    ensures !s.retired
  {
    hide Complete;
  }

  /** Forwards, back and through restarts: as long as no row that still has a guest_name is
      renamed in new_only, and no name is cut or has spaces the database does not know, no
      guest_name is ever behind, and the guard accepts the phase the service is in, and every
      phase reading the new columns that a PUT under way has been allowed. */
  lemma SomePhaseIsAccepted(s: Sys, steps: seq<Step>)
    requires Init(s) && CarefulRun(s, steps)
    ensures Run(s, steps) && DisciplinedRun(s, steps)
    ensures var t := After(s, steps);
      CleanNames(t) ==>
        && NoneBehind(t) && Accepts(t.phase, StateOf(t.schema, t.rows))
        && forall k :: k in t.puts && t.puts[k].Allowed? && ReadsNew(t.puts[k].target) ==>
             Accepts(t.puts[k].target, StateOf(t.schema, t.rows))
  {
    assert AllNear(s) by { StartsNear(s); }
    InitIsOk(s);
    hide Init, Kept, PhasesFit, AllNear, Run, After, CarefulRun, DisciplinedRun, StateOf, Accepts;
    RunKeeps(s, steps);
    if CleanNames(After(s, steps)) { NearIsAccepted(After(s, steps)); }
  }

  lemma NearIsAccepted(t: Sys)
    requires Inv(t) && AllNear(t) && CleanNames(t)
    ensures NoneBehind(t) && Accepts(t.phase, StateOf(t.schema, t.rows))
    ensures forall k :: k in t.puts && t.puts[k].Allowed? && ReadsNew(t.puts[k].target) ==>
      Accepts(t.puts[k].target, StateOf(t.schema, t.rows))
  {
    hide Kept, PhasesFit, StateOf, Accepts, Legacy, Near, Clean, AllHaveGuest;
    forall id | id in t.rows && id in t.last && t.rows[id].names.guest.Some?
      ensures Legacy(t.rows[id].names.guest.value) == Legacy(t.last[id])
    {
      NearIsNotBehind(t.rows[id].names, t.last[id]);
    }
    assert NoneBehind(t);
    hide NoneBehind;
    if !ReadsNew(t.phase) { OldPhaseIsGood(t); }
    PossiblePhase(t, t.phase);
    forall k | k in t.puts && t.puts[k].Allowed? && ReadsNew(t.puts[k].target)
      ensures Accepts(t.puts[k].target, StateOf(t.schema, t.rows))
    {
      assert t.puts[k] == Allowed(t.puts[k].target);
      PossiblePhase(t, t.puts[k].target);
    }
  }

  lemma StartsNear(s: Sys)
    requires Init(s)
    ensures AllNear(s)
  {
    hide SplitGuestName, Rebuilt;
  }
}

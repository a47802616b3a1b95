/** Which schema the phases need, along every run: nothing here depends on names or on
    the requests on their way. */
module Phases {
  import opened Store
  import opened Migration
  import opened Protocol

  predicate ReadsNew(p: Phase) {
    p == ReadNew || p == NewOnly
  }

  predicate WritesNew(p: Phase) {
    p != LegacyPhase
  }

  /** The phase names only columns that exist and writes every mandatory one. */
  predicate PhaseFits(p: Phase, schema: Schema) {
    AllPresent(schema, WriteColumns(p) + ReadColumns(p)) && CoversMandatory(schema, WriteColumns(p))
  }

  predicate Allows(s: Sys, p: Phase) {
    exists k :: k in s.puts && s.puts[k] == Allowed(p)
  }

  /** The current phase, or one that a PUT under way may still switch to. */
  predicate May(s: Sys, p: Phase) {
    p == s.phase || Allows(s, p)
  }

  /** What the guard overlooks: legacy cannot book while a new column is mandatory. */
  predicate Overlooked(p: Phase, schema: Schema) {
    p == LegacyPhase && schema.newPresent && (schema.firstNotNull || schema.lastNotNull)
  }

  /** A restart does no harm: where the guard lets some phase in, the one it picks is not
      overlooked; where it lets none in, the configured one fits. */
  predicate RestartFits(s: Sys, configured: Phase) {
    var st := StateOf(s.schema, s.rows);
    var p := Reconciled(configured, st);
    if Accepts(p, st) then !Overlooked(p, s.schema) else PhaseFits(configured, s.schema)
  }

  /** The order the runbook asks for, where nothing enforces it: the columns become mandatory
      while legacy is not possible, guest_name goes when only new_only is, 0003 is undone when
      new_only is not possible, 0002 when only legacy is, and neither a PUT nor a restart goes
      to legacy while a new column is mandatory. */
  predicate Ordered(s: Sys, step: Step) {
    match step
    case Check(k) => k in s.puts ==> !Overlooked(s.puts[k].target, s.schema)
    case Restart(configured) => RestartFits(s, configured)
    case FirstNotNull => !May(s, LegacyPhase)
    case LastNotNull => !May(s, LegacyPhase)
    case DropGuestName => !May(s, LegacyPhase) && !May(s, DualWrite) && !May(s, ReadNew)
    case Downgrade0003 => !May(s, NewOnly)
    case Downgrade0002 => !May(s, DualWrite) && !May(s, ReadNew) && !May(s, NewOnly)
    case _ => true
  }

  predicate OrderedRun(s: Sys, steps: seq<Step>)
    decreases |steps|
  {
    steps == [] || (Enabled(s, steps[0]) && Ordered(s, steps[0]) && OrderedRun(Apply(s, steps[0]), steps[1..]))
  }

  ghost predicate PhasesFit(s: Sys) {
    forall p :: May(s, p) ==> PhaseFits(p, s.schema)
  }

  /** What the guard agrees to fits, except that it does not look at first_name and last_name
      being mandatory. */
  lemma AcceptedFits(p: Phase, schema: Schema, rows: Table, awaiting: Option<nat>)
    requires Accepts(p, StateOf(schema, rows).(awaiting := awaiting))
    ensures PhaseFits(p, schema) <==> !Overlooked(p, schema)
  {
  }

  /** A restart ends in a phase that fits if and only if it does no harm in that sense. */
  lemma RestartFitsExactly(s: Sys, configured: Phase)
    ensures PhaseFits(Reconciled(configured, StateOf(s.schema, s.rows)), s.schema) <==> RestartFits(s, configured)
  {
    var st := StateOf(s.schema, s.rows);
    ReconciledIsBest(configured, st);
    var p := Reconciled(configured, st);
    if Accepts(p, st) {
      assert st.(awaiting := st.awaiting) == st;
      AcceptedFits(p, s.schema, s.rows, st.awaiting);
    }
    hide StateOf, Accepts, Reconciled, PhaseFits;
  }

  lemma PutMoves(s: Sys, step: Step, p: Phase)
    requires Enabled(s, step) && OnPuts(step)
    requires May(Apply(s, step), p) && !May(s, p)
    ensures step.Check? || step.Restart?
    ensures step.Check? ==> p == s.puts[step.k].target && Accepts(p, SeenBy(s, s.puts[step.k]))
    ensures step.Restart? ==> p == Reconciled(step.configured, StateOf(s.schema, s.rows))
  {
    hide StateOf, Accepts, Reconciled;
    if p != Apply(s, step).phase {
      var k :| k in Apply(s, step).puts && Apply(s, step).puts[k] == Allowed(p);
      assert k in s.puts ==> s.puts[k] != Allowed(p);
    }
  }

  lemma StepKeeps(s: Sys, step: Step)
    requires PhasesFit(s) && Enabled(s, step) && Ordered(s, step)
    ensures PhasesFit(Apply(s, step))
  {
    hide StateOf, PhaseFits, Reconciled, Accepts, Lockable, NoRowLacks, TooLong, Missing, FillRow, RebuiltName, May;
    var t := Apply(s, step);
    if OnPuts(step) {
      forall p | May(t, p) ensures PhaseFits(p, t.schema) {
        if !May(s, p) {
          PutMoves(s, step, p);
          if step.Restart? { RestartFitsExactly(s, step.configured); }
          if step.Check? { AcceptedFits(p, s.schema, s.rows, s.puts[step.k].awaiting); }
        }
      }
    } else {
      forall p | May(t, p) ensures PhaseFits(p, t.schema) {
        SameMay(s, t, p);
        if OnSchema(step) { StillFits(s, step, p); }
      }
    }
  }

  lemma SameMay(s: Sys, t: Sys, p: Phase)
    requires t.phase == s.phase && t.puts == s.puts
    ensures May(t, p) == May(s, p)
  {
  }

  predicate OnSchema(step: Step) {
    || step.Upgrade0002? || step.Upgrade0003? || step.FirstNotNull? || step.LastNotNull? || step.DropGuestName?
    || step.Downgrade0004? || step.Downgrade0003? || step.Downgrade0002?
  }

  predicate OnPuts(step: Step) {
    step.Count? || step.Check? || step.Enter? || step.Restart?
  }

  /** Steps that no request takes part in. */
  predicate Aloof(step: Step) {
    step.Count? || step.Check? || step.Enter? || step.Lock? || step.Fill? || step.Abandon? || OnSchema(step)
  }

  lemma SameRequests(s: Sys, step: Step)
    requires Enabled(s, step) && Aloof(step)
    ensures Apply(s, step).reqs == s.reqs && Apply(s, step).last == s.last
  {
    hide OnSchema;
    if OnSchema(step) { OnlyTable(s, step); }
    hide Enabled, Apply;
  }

  lemma OnlyTable(s: Sys, step: Step)
    requires Enabled(s, step) && OnSchema(step)
    ensures Apply(s, step).reqs == s.reqs && Apply(s, step).last == s.last
  {
    hide TooLong, Missing, NoRowLacks, RebuildAll, FillMissing, Unlocked, Altered;
  }

  lemma StillFits(s: Sys, step: Step, p: Phase)
    requires Enabled(s, step) && Ordered(s, step) && May(s, p) && PhaseFits(p, s.schema) && OnSchema(step)
    ensures PhaseFits(p, Apply(s, step).schema)
  {
    hide PhaseFits, May, Lockable, NoRowLacks, TooLong, Missing, RebuiltName, Unlocked;
    NextFits(s.schema, step, p);
  }

  lemma NextFits(schema: Schema, step: Step, p: Phase)
    requires PhaseFits(p, schema) && (step.Downgrade0004? ==> !schema.guestPresent)
    requires step.FirstNotNull? || step.LastNotNull? ==> p != LegacyPhase
    requires step.DropGuestName? ==> p == NewOnly
    requires step.Downgrade0003? ==> p != NewOnly
    requires step.Downgrade0002? ==> p == LegacyPhase
    ensures PhaseFits(p, Altered(schema, step))
  {
  }

  lemma {:induction false} RunKeeps(s: Sys, steps: seq<Step>)
    requires PhasesFit(s) && OrderedRun(s, steps)
    ensures Run(s, steps) && PhasesFit(After(s, steps))
    decreases |steps|
  {
    hide PhasesFit, Enabled, Ordered, Apply;
    if steps != [] {
      StepKeeps(s, steps[0]);
      RunKeeps(Apply(s, steps[0]), steps[1..]);
    }
  }

  /** Whatever the names and whatever is on its way: the current phase, and every phase that a
      PUT under way was allowed, use only columns the schema has and write every column it
      insists on. */
  lemma PhaseAlwaysFits(s: Sys, steps: seq<Step>)
    requires Init(s) && OrderedRun(s, steps)
    ensures Run(s, steps)
    ensures var t := After(s, steps);
      PhaseFits(t.phase, t.schema) && forall k :: k in t.puts && t.puts[k].Allowed? ==>
        PhaseFits(t.puts[k].target, t.schema)
  {
    hide Run, After, OrderedRun, PhaseFits;
    assert PhasesFit(s) by { StartFits(s); }
    RunKeeps(s, steps);
    var t := After(s, steps);
    assert May(t, t.phase);
    forall k | k in t.puts && t.puts[k].Allowed? ensures PhaseFits(t.puts[k].target, t.schema) {
      assert t.puts[k] == Allowed(t.puts[k].target);
      assert Allows(t, t.puts[k].target);
    }
  }

  lemma StartFits(s: Sys)
    requires Init(s)
    ensures PhasesFit(s)
  {
  }
}

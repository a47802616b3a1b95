/** The guard looks first and switches later, and a restart looks again.  When what
    the guard saw still holds, where a restart ends, and when names survive it. */
module Guard {
  import opened Names
  import opened NameLaws
  import opened Store
  import opened Migration
  import opened Protocol
  import opened Phases
  import opened Fidelity

  /** A name that no step of the migration alters or complains about. */
  predicate Clean(g: string) {
    Fits(g) && PlainSpaces(g)
  }

  predicate CleanNames(s: Sys) {
    forall id :: id in s.last ==> Clean(s.last[id])
  }

  /** No guest_name is another name than the booking's last one, spacing aside. */
  predicate NoneBehind(s: Sys) {
    forall id :: id in s.rows && id in s.last && s.rows[id].names.guest.Some? ==>
      Legacy(s.rows[id].names.guest.value) == Legacy(s.last[id])
  }

  /** Every booking has a guest_name. */
  predicate AllHaveGuest(s: Sys) {
    forall id :: id in s.rows ==> s.rows[id].names.guest.Some?
  }

  lemma CleanRowAgrees(n: NameCols, name: string)
    requires Filled(n, SplitGuestName(name)) && Clean(name)
    ensures NameMismatch(n) <==> n.guest.Some? && Legacy(n.guest.value) != Legacy(name)
  {
    MismatchLaw(name);
    hide SplitGuestName, Fits, PlainSpaces, Rebuilt, Legacy, RebuiltName;
    RebuiltParts(n, SplitGuestName(name));
  }

  /** The guard's counts in a state of a disciplined run, in terms of names. */
  lemma CountsOf(s: Sys)
    requires Kept(s)
    ensures Missing(s.rows) == {} <==> AllHaveGuest(s)
    ensures !s.retired ==> AllHaveGuest(s) && NoneBehind(s)
    ensures Trusted(s) ==> Awaiting(s.rows) == {}
    ensures Trusted(s) && CleanNames(s) ==> (Mismatched(s.rows) == {} <==> NoneBehind(s))
  {
    hide SplitGuestName, SplitOrShaped, Clean, NameMismatch, Legacy, RequestsOk, BatchOk, Complete, Trusted, Settles;
    forall id | id in s.rows
      ensures id in s.last && (!s.retired ==> s.rows[id].names.guest == Some(s.last[id]))
      ensures Trusted(s) ==> Filled(s.rows[id].names, SplitGuestName(s.last[id]))
    {
      assert RowOk(s.rows[id], s.last[id], Of(s));
    }
    hide RowsOk, Of;
    NobodyMissing(s);
    if Trusted(s) {
      forall id ensures id !in Awaiting(s.rows) {}
    }
    if Trusted(s) && CleanNames(s) {
      forall id | id in s.rows
        ensures NameMismatch(s.rows[id].names) <==>
          s.rows[id].names.guest.Some? && Legacy(s.rows[id].names.guest.value) != Legacy(s.last[id])
      {
        CleanRowAgrees(s.rows[id].names, s.last[id]);
      }
      NobodyMismatched(s);
    }
  }

  lemma NobodyMissing(s: Sys)
    ensures Missing(s.rows) == {} <==> AllHaveGuest(s)
  {
    if AllHaveGuest(s) { forall id ensures id !in Missing(s.rows) {} }
    if Missing(s.rows) == {} {
      forall id | id in s.rows ensures s.rows[id].names.guest.Some? { assert id !in Missing(s.rows); }
    }
  }

  lemma NobodyMismatched(s: Sys)
    requires s.rows.Keys == s.last.Keys
    requires forall id :: id in s.rows ==> (NameMismatch(s.rows[id].names) <==>
      (s.rows[id].names.guest.Some? && Legacy(s.rows[id].names.guest.value) != Legacy(s.last[id])))
    ensures Mismatched(s.rows) == {} <==> NoneBehind(s)
  {
    hide NameMismatch, Legacy;
    if NoneBehind(s) { forall id ensures id !in Mismatched(s.rows) {} }
    if Mismatched(s.rows) == {} {
      forall id | id in s.rows ensures !NameMismatch(s.rows[id].names) { assert id !in Mismatched(s.rows); }
    }
  }

  /** Whether the guard would let in a phase that may be current. */
  predicate StillGood(s: Sys, p: Phase) {
    if ReadsNew(p) then s.schema.guestPresent ==> NoneBehind(s) else AllHaveGuest(s)
  }

  lemma FittingIsAccepted(p: Phase, schema: Schema, rows: Table)
    requires PhaseFits(p, schema) && (ReadsNew(p) ==> Awaiting(rows) == {})
    ensures Accepts(p, StateOf(schema, rows)) <==>
      if ReadsNew(p) then schema.guestPresent ==> Mismatched(rows) == {} else Missing(rows) == {}
  {
  }

  lemma PossiblePhase(s: Sys, p: Phase)
    requires Inv(s) && May(s, p) && (ReadsNew(p) ==> CleanNames(s))
    ensures Accepts(p, StateOf(s.schema, s.rows)) <==> StillGood(s, p)
    ensures !s.retired ==> StillGood(s, p)
  {
    hide StateOf, Accepts, PhaseFits, Missing, Awaiting, Mismatched, NoneBehind, AllHaveGuest, CleanNames, RowsOk,
      RequestsOk, BatchOk, Settles;
    CountsOf(s);
    assert ReadsNew(p) ==> Trusted(s);
    hide May, Trusted;
    FittingIsAccepted(p, s.schema, s.rows);
  }

  lemma Reached(s: Sys, steps: seq<Step>) returns (t: Sys)
    requires Init(s) && DisciplinedRun(s, steps)
    ensures Run(s, steps) && t == After(s, steps) && Inv(t)
  {
    InitIsOk(s);
    Fidelity.RunKeeps(s, steps);
    t := After(s, steps);
  }

  /** Whatever runs between the guard's counts and its switch, other PUTs among it, the guard
      would say the same again if it looked now, except in two cases: a phase that reads the new
      columns is refused if some booking kept a guest_name that is not its last name, a phase
      that reads guest_name if some booking has none; neither before new_only is entered, nor
      once guest_name is current again. */
  lemma GuardStaysTrue(s: Sys, steps: seq<Step>, k: nat)
    requires Init(s) && DisciplinedRun(s, steps)
    ensures Run(s, steps)
    ensures var t := After(s, steps);
      k in t.puts && t.puts[k].Allowed? && (ReadsNew(t.puts[k].target) ==> CleanNames(t)) ==>
        && (Accepts(t.puts[k].target, StateOf(t.schema, t.rows)) <==> StillGood(t, t.puts[k].target))
        && (!t.retired ==> StillGood(t, t.puts[k].target))
  {
    var t := Reached(s, steps);
    hide Run, After, DisciplinedRun, CleanNames, Inv, StillGood;
    if k in t.puts && t.puts[k].Allowed? && (ReadsNew(t.puts[k].target) ==> CleanNames(t)) {
      assert May(t, t.puts[k].target) by { assert t.puts[k] == Allowed(t.puts[k].target); }
      PossiblePhase(t, t.puts[k].target);
    }
  }

  // ---- Restarts ----

  /** A restart ends in the phase it interrupts if and only if the process is configured for
      that phase, or for one that is refused while no accepted one is more advanced; and the
      phase must still be good, or none accepted at all.  Before new_only is entered, being
      configured for it is enough, and a process configured for legacy goes back to legacy. */
  lemma RestartKeepsPhase(s: Sys, steps: seq<Step>, configured: Phase)
    requires Init(s) && DisciplinedRun(s, steps)
    ensures Run(s, steps)
    ensures var t := After(s, steps);
      var st := StateOf(t.schema, t.rows);
      (ReadsNew(t.phase) ==> CleanNames(t)) ==>
        && (DoRestart(t, configured).phase == t.phase <==>
              if StillGood(t, t.phase)
              then configured == t.phase
                || (!Accepts(configured, st) && forall q :: Accepts(q, st) ==> Rank(q) <= Rank(t.phase))
              else configured == t.phase && forall q :: !Accepts(q, st))
        && (!t.retired ==> StillGood(t, t.phase) && DoRestart(t, LegacyPhase).phase == LegacyPhase)
  {
    var t := Reached(s, steps);
    hide Run, After, DisciplinedRun, CleanNames, StillGood;
    if ReadsNew(t.phase) ==> CleanNames(t) {
      assert May(t, t.phase);
      PossiblePhase(t, t.phase);
      if !t.retired { LegacyIsAccepted(t); }
      hide Inv, May, StateOf, Accepts, Reconciled;
      EndsIn(configured, t.phase, StateOf(t.schema, t.rows));
      assert Accepts(LegacyPhase, StateOf(t.schema, t.rows)) ==>
        Reconciled(LegacyPhase, StateOf(t.schema, t.rows)) == LegacyPhase
        by { ReconciledIsBest(LegacyPhase, StateOf(t.schema, t.rows)); }
    }
  }

  lemma EndsIn(configured: Phase, p: Phase, st: SchemaState)
    ensures Reconciled(configured, st) == p <==>
      if Accepts(p, st)
      then configured == p || (!Accepts(configured, st) && forall q :: Accepts(q, st) ==> Rank(q) <= Rank(p))
      else configured == p && forall q :: !Accepts(q, st)
  {
  }

  lemma LegacyIsAccepted(s: Sys)
    requires Inv(s) && !s.retired
    ensures Accepts(LegacyPhase, StateOf(s.schema, s.rows))
  {
    hide RequestsOk, BatchOk, PhasesFit, Settles, SplitGuestName, SplitOrShaped, Awaiting, Mismatched, Complete,
      Trusted;
    forall id ensures id !in Missing(s.rows) {
      if id in s.rows { assert RowOk(s.rows[id], s.last[id], Of(s)); }
    }
    assert Missing(s.rows) == {};
    hide Missing;
  }

  /** Once guest_name is gone every restart ends in new_only, whatever it is configured for. */
  lemma RestartAfterContract(s: Sys, steps: seq<Step>, configured: Phase)
    requires Init(s) && DisciplinedRun(s, steps)
    ensures Run(s, steps)
    ensures var t := After(s, steps);
      !t.schema.guestPresent ==> t.phase == NewOnly && DoRestart(t, configured).phase == NewOnly
  {
    var t := Reached(s, steps);
    hide Run, After, DisciplinedRun, Init;
    if !t.schema.guestPresent {
      assert May(t, t.phase) && PhaseFits(t.phase, t.schema);
      assert t.phase == NewOnly;
      assert Trusted(t);
      CountsOf(t);
      FittingIsAccepted(NewOnly, t.schema, t.rows);
      hide Inv, May, Awaiting, Mismatched, Missing;
      ReconciledIsBest(configured, StateOf(t.schema, t.rows));
    }
  }

  /** Names survive a restart, in the sense of everything the fidelity theorem needs, if and
      only if it ends in a phase that fits and that does not read a guest_name which has not
      been current since new_only. */
  lemma RestartKeepsNames(s: Sys, configured: Phase)
    requires Inv(s)
    ensures Inv(DoRestart(s, configured)) <==>
      var p := Reconciled(configured, StateOf(s.schema, s.rows));
      PhaseFits(p, s.schema) && (ReadsNew(p) || !s.retired || GuestIsCurrent(s.(reqs := map[])))
  {
    hide Kept, PhasesFit, StateOf, Accepts, Reconciled, PhaseFits;
    var t, p := DoRestart(s, configured), Reconciled(configured, StateOf(s.schema, s.rows));
    assert t.puts == map[] && forall q :: !Allows(t, q);
    assert GuestIsCurrent(s.(puts := map[], reqs := map[])) == GuestIsCurrent(s.(reqs := map[]));
    hide GuestIsCurrent;
    assert Settles(t) <==> ReadsNew(p) || !s.retired || GuestIsCurrent(s.(reqs := map[]));
    assert forall q :: May(t, q) <==> q == p;
    hide May, Settles, DoRestart, Allows;
    RestartIff(s, t, p, configured);
  }

  lemma RestartIff(s: Sys, t: Sys, p: Phase, configured: Phase)
    requires Inv(s) && t == DoRestart(s, configured) && p == Reconciled(configured, StateOf(s.schema, s.rows))
    requires t.schema == s.schema && forall q :: May(t, q) <==> q == p
    ensures Inv(t) <==> PhaseFits(p, s.schema) && Settles(t)
  {
    hide DoRestart, StateOf, Reconciled, RowsOk, RequestsOk, BatchOk, May, PhaseFits, Settles;
    if PhaseFits(p, s.schema) && Settles(t) {
      RestartFitsExactly(s, configured);
      assert Disciplined(s, Restart(configured));
      RestartKeeps(s, configured);
    }
  }

  /** What a client is answered when nothing comes in between. */
  function Answer(s: Sys, id: int): Reply
    requires id in s.rows && id in s.last
  {
    Render(s.phase, id, ReadColumns(s.phase), s.rows[id].names, s.rows[id].version, s.last[id], true)
  }

  predicate AnswersFaithfully(s: Sys) {
    forall id :: id in s.rows && id in s.last ==> FaithfulReply(Answer(s, id))
  }

  lemma AnswerShows(s: Sys, id: int)
    requires id in s.rows && id in s.last
    ensures Content(ReadColumns(s.phase), s.rows[id].names, s.last[id]) ==> FaithfulReply(Answer(s, id))
    ensures FaithfulReply(Answer(s, id)) && !ReadsNew(s.phase) ==> s.rows[id].names.guest == Some(s.last[id])
  {
    hide SplitGuestName;
  }

  /** What clients see of a restart, if the phase it ends in fits the schema: every booking is
      shown with its last name if and only if that phase reads the new columns, or every
      guest_name is the last name. */
  lemma RestartKeepsAnswers(s: Sys, configured: Phase)
    requires Inv(s) && PhaseFits(DoRestart(s, configured).phase, s.schema)
    ensures AnswersFaithfully(DoRestart(s, configured)) <==>
      || ReadsNew(DoRestart(s, configured).phase)
      || forall id :: id in s.rows ==> id in s.last && s.rows[id].names.guest == Some(s.last[id])
  {
    var t := DoRestart(s, configured);
    assert t.rows == s.rows && t.last == s.last && s.rows.Keys == s.last.Keys;
    RestartKeepsNames(s, configured);
    hide DoRestart, Kept, PhasesFit, FaithfulReply, Answer, Content, PhaseFits, GuestIsCurrent;
    forall id | id in s.rows
      ensures ReadsNew(t.phase) ==> FaithfulReply(Answer(t, id))
      ensures !ReadsNew(t.phase) ==> (FaithfulReply(Answer(t, id)) <==> s.rows[id].names.guest == Some(s.last[id]))
    {
      AnswerShows(t, id);
      if ReadsNew(t.phase) { FetchedContent(t, id); }
    }
  }

}

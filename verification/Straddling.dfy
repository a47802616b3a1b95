/** When a response needs a column that its query has not loaded. */
module Straddling {
  import opened Store
  import opened Migration
  import opened Protocol
  import opened Phases

  /** Queried with these columns and not yet answered, or answered by the query alone. */
  predicate Underway(q: Request, cols: seq<Column>) {
    || ((q.Querying? || q.Fetched?) && q.goal == Show && q.cols == cols)
    || q == Answered(Broken) || q == Answered(NotFound)
  }

  /** The step neither answers this request nor ends the process. */
  predicate Elsewhere(step: Step, r: nat) {
    !step.Restart? && (step.Resume? ==> step.r != r)
  }

  predicate AllElsewhere(steps: seq<Step>, r: nat) {
    forall k :: 0 <= k < |steps| ==> Elsewhere(steps[k], r)
  }

  lemma StepKeeps(s: Sys, step: Step, r: nat, cols: seq<Column>)
    requires r in s.reqs && Underway(s.reqs[r], cols) && Enabled(s, step) && Elsewhere(step, r)
    ensures r in Apply(s, step).reqs && Underway(Apply(s, step).reqs[r], cols)
  {
    if Aloof(step) {
      SameRequests(s, step);
    } else if step.r != r {
      OthersStay(s, step, r);
    } else {
    }
    hide Enabled, Apply, Underway;
  }

  lemma OthersStay(s: Sys, step: Step, r: nat)
    requires Enabled(s, step) && !Aloof(step) && !step.Restart? && step.r != r && r in s.reqs
    ensures r in Apply(s, step).reqs && Apply(s, step).reqs[r] == s.reqs[r]
  {
    hide CommitUpdate, CommitInsert, Resumed, Found, Queried, WriteColumns;
    if step.Commit? { CommitElsewhere(s, step.r, step.newId, r); }
  }

  lemma CommitElsewhere(s: Sys, i: nat, newId: int, r: nat)
    requires i in s.reqs && (s.reqs[i].Updating? || s.reqs[i].Inserting?) && i != r && r in s.reqs
    ensures r in DoCommit(s, i, newId).reqs && DoCommit(s, i, newId).reqs[r] == s.reqs[r]
  {
    hide AllPresent, WriteName, CoversMandatory;
  }

  lemma {:induction false} RunKeeps(s: Sys, steps: seq<Step>, r: nat, cols: seq<Column>)
    requires r in s.reqs && Underway(s.reqs[r], cols) && Run(s, steps) && AllElsewhere(steps, r)
    ensures r in After(s, steps).reqs && Underway(After(s, steps).reqs[r], cols)
    decreases |steps|
  {
    hide Underway, Enabled, Apply, Elsewhere;
    if steps != [] {
      StepKeeps(s, steps[0], r, cols);
      RunKeeps(Apply(s, steps[0]), steps[1..], r, cols);
    }
  }

  /** A GET, and the reading back after a POST or a PATCH, from its query to its response,
      with anything but a restart in between: it fails for a column that was not loaded if
      and only if one of the two phases reads guest_name and the other the new columns. */
  lemma NotLoadedExactly(s: Sys, steps: seq<Step>, r: nat)
    requires Enabled(s, Query(r)) && (s.reqs[r].Accepted? ==> s.reqs[r].goal == Show)
    requires Run(DoQuery(s, r), steps) && AllElsewhere(steps, r)
    ensures var t := After(DoQuery(s, r), steps);
      && r in t.reqs && t.reqs[r] != Answered(NotLoaded)
      && (Enabled(t, Resume(r)) ==>
            (DoResume(t, r).reqs[r] == Answered(NotLoaded) <==> ReadsNew(s.phase) != ReadsNew(t.phase)))
  {
    hide Run, After;
    RunKeeps(DoQuery(s, r), steps, r, ReadColumns(s.phase));
    hide ReadColumns, ReadsNew;
  }

}

/** A PATCH along a run of the migration: what it changes, it changes in the version that its
    If-Match named. */
module Matched {
  import opened Store
  import opened Migration
  import opened Protocol
  import opened Phases
  import opened Straddling
  import Etag

  /** If-Match names this version, or the star, or there is none and none is required. */
  predicate Allowed(goal: Goal, version: nat)
    requires goal.Edit?
  {
    Etag.CheckIfMatch(goal.ifMatch, version, goal.required) == Etag.Pass
  }

  /** Where the PATCH can be: on its way to its row, with a row or an UPDATE of a version its
      If-Match allows, refused by it, or behind its own change and reading the row back. */
  predicate OnTheWay(q: Request, goal: Goal, id: int)
    requires goal.Edit?
  {
    match q
    case Accepted(g, i) => (g == goal || g == Show) && i == id
    case Querying(g, i, _) => (g == goal || g == Show) && i == id
    case Fetched(g, i, _, _, _, _, _) => (g == goal || g == Show) && i == id
    case Updating(i, name, _, version) => i == id && Allowed(goal, version) && (name == goal.name || name.None?)
    case Inserting(_, _) => false
    case Committed(i) => i == id
    case Answered(reply) => true
  }

  /** No restart ends the process. */
  predicate Unbroken(steps: seq<Step>) {
    forall k :: 0 <= k < |steps| ==> !steps[k].Restart?
  }

  lemma ResumedOnTheWay(q: Request, phase: Phase, goal: Goal, id: int)
    requires goal.Edit? && q.Fetched? && OnTheWay(q, goal, id)
    ensures OnTheWay(Resumed(q, phase), goal, id)
  {
    hide NetChange, Etag.CheckIfMatch, ReadColumns, WriteColumns;
  }

  lemma StepKeeps(s: Sys, step: Step, r: nat, goal: Goal, id: int)
    requires goal.Edit? && r in s.reqs && OnTheWay(s.reqs[r], goal, id) && Enabled(s, step) && !step.Restart?
    ensures r in Apply(s, step).reqs && OnTheWay(Apply(s, step).reqs[r], goal, id)
  {
    hide OnTheWay;
    if Aloof(step) {
      SameRequests(s, step);
    } else if step.r != r {
      OthersStay(s, step, r);
    } else {
      OwnStep(s, step, goal, id);
    }
    hide Enabled, Apply;
  }

  lemma OwnStep(s: Sys, step: Step, goal: Goal, id: int)
    requires goal.Edit? && Enabled(s, step) && !Aloof(step) && !step.Restart?
    requires step.r in s.reqs && OnTheWay(s.reqs[step.r], goal, id)
    ensures step.r in Apply(s, step).reqs && OnTheWay(Apply(s, step).reqs[step.r], goal, id)
  {
    hide NetChange, Etag.CheckIfMatch, ReadColumns, AllPresent, CoversMandatory, WriteName, Resumed;
    if step.Resume? { ResumedOnTheWay(s.reqs[step.r], s.phase, goal, id); }
  }

  lemma {:induction false} RunKeeps(s: Sys, steps: seq<Step>, r: nat, goal: Goal, id: int)
    requires goal.Edit? && r in s.reqs && OnTheWay(s.reqs[r], goal, id) && Run(s, steps) && Unbroken(steps)
    ensures r in After(s, steps).reqs && OnTheWay(After(s, steps).reqs[r], goal, id)
    decreases |steps|
  {
    hide OnTheWay, Enabled, Apply;
    if steps != [] {
      StepKeeps(s, steps[0], r, goal, id);
      RunKeeps(Apply(s, steps[0]), steps[1..], r, goal, id);
    }
  }

  /** From its arrival on, whatever runs beside it: when a PATCH commits, the row still has the
      version it had loaded, its If-Match allows that version, and the name written is the one
      sent; and when its row has arrived in a version that If-Match does not allow, it ends in
      412 or 428 and nothing has changed. */
  lemma EditsAreMatched(s: Sys, steps: seq<Step>, r: nat, goal: Goal, id: int, newId: int)
    requires goal.Edit? && r !in s.reqs && Run(Set(s, r, Accepted(goal, id)), steps) && Unbroken(steps)
    ensures var t := After(Set(s, r, Accepted(goal, id)), steps);
      && r in t.reqs
      && (t.reqs[r].Updating? && Enabled(t, Commit(r, newId)) && DoCommit(t, r, newId).rows != t.rows ==>
            && id in t.rows && Allowed(goal, t.rows[id].version) && t.reqs[r].id == id
            && (t.reqs[r].name.Some? ==>
                  goal.name == t.reqs[r].name && DoCommit(t, r, newId).last == t.last[id := goal.name.value]))
      && (t.reqs[r].Fetched? && t.reqs[r].goal == goal && !Allowed(goal, t.reqs[r].version) ==>
            DoResume(t, r) == Set(t, r, Answered(Precondition)))
  {
    var u := Set(s, r, Accepted(goal, id));
    hide Run, After, Etag.CheckIfMatch, AllPresent, WriteName, NetChange;
    RunKeeps(u, steps, r, goal, id);
  }
}

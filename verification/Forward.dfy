/** The forward part of the migration, up to read_new, without any hypothesis on
    names or on requests caught in a phase change: no committed row ever has new
    columns that differ from the split of its guest_name. */
module Forward {
  import opened Names
  import opened Store
  import opened Migration
  import opened Protocol

  /** Phases only move forward, by PUT or by restart, no further than read_new, and the
      backfill starts after dual_write; the guard's own counts come on top. */
  predicate ForwardStep(s: Sys, step: Step) {
    match step
    case Count(k, target) => target != NewOnly
    case Enter(k) => k in s.puts && s.puts[k].Allowed? ==> Rank(s.phase) <= Rank(s.puts[k].target)
    case Restart(configured) =>
      var p := Reconciled(configured, StateOf(s.schema, s.rows)); p != NewOnly && Rank(s.phase) <= Rank(p)
    case Lock(ids) => s.phase != LegacyPhase
    case FirstNotNull => false
    case Downgrade0004 => false
    case Downgrade0003 => false
    case Downgrade0002 => false
    case _ => true
  }

  predicate ForwardRun(s: Sys, steps: seq<Step>)
    decreases |steps|
  {
    steps == [] ||
    (Enabled(s, steps[0]) && ForwardStep(s, steps[0]) && ForwardRun(Apply(s, steps[0]), steps[1..]))
  }

  predicate InStep(n: NameCols) {
    n.guest.Some? && Agrees(n)
  }

  predicate OldOrDual(cols: seq<Column>) {
    cols == [GuestName] || cols == [GuestName, FirstName, LastName]
  }

  /** A rename prepared in legacy carries the version of an unfilled row: whoever
      fills the row moves the version on. */
  predicate OnItsWay(q: Request, rows: Table, clock: nat) {
    match q
    case Fetched(goal, id, cols, n, version, seen, aligned) => version < clock
    case Updating(id, name, cols, version) =>
      && version < clock
      && (name.Some? ==> OldOrDual(cols))
      && (name.Some? && cols == [GuestName] && id in rows && rows[id].version == version
          ==> rows[id].names.first.None?)
    case Inserting(name, cols) => OldOrDual(cols)
    case _ => true
  }

  predicate WritesOld(q: Request) {
    (q.Updating? && q.name.Some?) || q.Inserting? ==> q.cols == [GuestName]
  }

  predicate Inv(s: Sys) {
    && (forall id :: id in s.rows ==> InStep(s.rows[id].names) && s.rows[id].version < s.clock)
    && (forall r :: r in s.reqs ==> OnItsWay(s.reqs[r], s.rows, s.clock))
    && s.phase != NewOnly && (forall k :: k in s.puts ==> s.puts[k].target != NewOnly)
    && (s.phase == LegacyPhase ==> s.batch == map[] && forall id :: id in s.rows ==> s.rows[id].names.first.None?)
    && (s.phase == LegacyPhase ==> forall r :: r in s.reqs ==> WritesOld(s.reqs[r]))
    && Lockable(s, s.batch.Keys)
    && (forall id :: id in s.batch ==> s.batch[id] == SplitGuestName(OrEmpty(s.rows[id].names.guest)))
    && !s.schema.firstNotNull
  }

  lemma SetKeeps(s: Sys, r: nat, q: Request)
    requires Inv(s) && OnItsWay(q, s.rows, s.clock) && (s.phase == LegacyPhase ==> WritesOld(q))
    ensures Inv(Set(s, r, q))
  {
  }

  lemma ResumedOnItsWay(s: Sys, q: Request)
    requires Inv(s) && q.Fetched? && OnItsWay(q, s.rows, s.clock)
    ensures OnItsWay(Resumed(q, s.phase), s.rows, s.clock)
    ensures s.phase == LegacyPhase ==> WritesOld(Resumed(q, s.phase))
  {
  }

  lemma WriteRowKeeps(s: Sys, id: int, n: NameCols, last: map<int, string>)
    requires Inv(s) && id !in s.batch && InStep(n)
    requires s.phase == LegacyPhase ==> n.first.None?
    ensures Inv(s.(rows := s.rows[id := Row(n, s.clock)], clock := s.clock + 1, last := last))
  {
  }

  lemma WrittenAgrees(n: NameCols, cols: seq<Column>, name: string)
    requires OldOrDual(cols) && n.first.None? && n.last.None?
    ensures InStep(WriteName(n, cols, name))
    ensures cols == [GuestName] ==> WriteName(n, cols, name).first.None?
  {
  }

  lemma RewrittenAgrees(n: NameCols, name: string)
    ensures InStep(WriteName(n, [GuestName, FirstName, LastName], name))
  {
  }

  function Rewritten(n: NameCols, q: Request): NameCols
    requires q.Updating?
  {
    if q.name.Some? then WriteName(n, q.cols, q.name.value) else n
  }

  lemma UpdateAgrees(s: Sys, r: nat)
    requires Inv(s) && r in s.reqs && s.reqs[r].Updating?
    requires var q := s.reqs[r]; q.id in s.rows && s.rows[q.id].version == q.version
    ensures var n := Rewritten(s.rows[s.reqs[r].id].names, s.reqs[r]);
      InStep(n) && (s.phase == LegacyPhase ==> n.first.None?)
  {
    hide SplitGuestName, WriteName, InStep;
    var q := s.reqs[r];
    assert OnItsWay(q, s.rows, s.clock) && (s.phase == LegacyPhase ==> WritesOld(q));
    var n := s.rows[q.id].names;
    if q.name.Some? {
      if q.cols == [GuestName] {
        OldIsEmpty(n);
        WrittenAgrees(n, q.cols, q.name.value);
      } else {
        RewrittenAgrees(n, q.name.value);
      }
    }
  }

  lemma OldIsEmpty(n: NameCols)
    requires InStep(n) && n.first.None?
    ensures n.last.None?
  {
  }

  lemma UpdateKeeps(s: Sys, r: nat)
    requires Inv(s) && r in s.reqs && s.reqs[r].Updating? && s.reqs[r].id !in s.batch
    ensures var q := s.reqs[r]; Inv(CommitUpdate(s, r, q.id, q.name, q.cols, q.version))
  {
    hide SplitGuestName, AllPresent, WriteName, InStep, Inv, OnItsWay, WritesOld;
    var q := s.reqs[r];
    if !AllPresent(s.schema, q.cols) {
      ReplyKeeps(s, r, Broken);
    } else if q.id !in s.rows || s.rows[q.id].version != q.version {
      ReplyKeeps(s, r, Stale);
    } else {
      var n := Rewritten(s.rows[q.id].names, q);
      UpdateAgrees(s, r);
      var last := if q.name.Some? then s.last[q.id := q.name.value] else s.last;
      WriteRowKeeps(s, q.id, n, last);
      DoneKeeps(s.(rows := s.rows[q.id := Row(n, s.clock)], clock := s.clock + 1, last := last), r, q.id);
    }
  }

  lemma ReplyKeeps(s: Sys, r: nat, reply: Reply)
    requires Inv(s)
    ensures Inv(Set(s, r, Answered(reply)))
  {
    SetKeeps(s, r, Answered(reply));
  }

  lemma DoneKeeps(s: Sys, r: nat, id: int)
    requires Inv(s)
    ensures Inv(Set(s, r, Committed(id)))
  {
    SetKeeps(s, r, Committed(id));
  }

  lemma InsertKeeps(s: Sys, r: nat, newId: int)
    requires Inv(s) && r in s.reqs && s.reqs[r].Inserting? && newId !in s.rows
    ensures var q := s.reqs[r]; Inv(CommitInsert(s, r, q.guest, q.cols, newId))
  {
    hide Inv, SplitGuestName, AllPresent, CoversMandatory, WriteName, InStep, OnItsWay, OldOrDual, WritesOld;
    InsertFacts(s, r, newId);
    var q := s.reqs[r];
    if !AllPresent(s.schema, q.cols) || !CoversMandatory(s.schema, q.cols) {
      SetKeeps(s, r, Answered(Broken));
    } else {
      var n, last := WriteName(NoNames, q.cols, q.guest), s.last[newId := q.guest];
      InsertedInStep(s, q);
      WriteRowKeeps(s, newId, n, last);
      var t := s.(rows := s.rows[newId := Row(n, s.clock)], clock := s.clock + 1, last := last);
      SetKeeps(t, r, Committed(newId));
    }
  }

  lemma InsertFacts(s: Sys, r: nat, newId: int)
    requires Inv(s) && r in s.reqs && s.reqs[r].Inserting? && newId !in s.rows
    ensures newId !in s.batch && OldOrDual(s.reqs[r].cols) && (s.phase == LegacyPhase ==> WritesOld(s.reqs[r]))
  {
  }

  lemma InsertedInStep(s: Sys, q: Request)
    requires q.Inserting? && OldOrDual(q.cols) && (s.phase == LegacyPhase ==> WritesOld(q))
    ensures var n := WriteName(NoNames, q.cols, q.guest); InStep(n) && (s.phase == LegacyPhase ==> n.first.None?)
  {
  }

  lemma OneOnItsWay(s: Sys, r: nat)
    requires Inv(s) && r in s.reqs
    ensures OnItsWay(s.reqs[r], s.rows, s.clock) && (s.phase == LegacyPhase ==> WritesOld(s.reqs[r]))
  {
  }

  lemma FillKeeps(s: Sys)
    requires Inv(s)
    ensures Inv(DoFill(s))
  {
  }

  lemma FetchKeeps(s: Sys, r: nat)
    requires Inv(s) && Enabled(s, Fetch(r))
    ensures Inv(DoFetch(s, r))
  {
    hide Found;
    FoundIsFine(s, s.reqs[r]);
    hide Inv, OnItsWay, WritesOld;
    SetKeeps(s, r, Found(s, s.reqs[r]));
  }

  lemma FoundIsFine(s: Sys, q: Request)
    requires q.Querying? && forall id :: id in s.rows ==> s.rows[id].version < s.clock
    ensures OnItsWay(Found(s, q), s.rows, s.clock) && WritesOld(Found(s, q))
  {
  }

  lemma RequestStepKeeps(s: Sys, step: Step)
    requires Inv(s) && Enabled(s, step)
    requires step.Arrive? || step.Book? || step.Query? || step.Refuse?
    ensures Inv(Apply(s, step))
  {
    hide Inv, DoQuery, OnItsWay, WritesOld, ReadColumns, WriteColumns;
    match step {
      case Arrive(r, goal, id) => SetKeeps(s, r, Accepted(goal, id));
      case Book(r, name) => SetKeeps(s, r, Inserting(name, WriteColumns(s.phase))) by { BookedIsFine(s, name); }
      case Query(r) => QueryKeeps(s, r);
      case Refuse(r) => SetKeeps(s, r, Answered(Refused));
    }
  }

  lemma BookedIsFine(s: Sys, name: string)
    requires Inv(s)
    ensures var q := Inserting(name, WriteColumns(s.phase));
      OnItsWay(q, s.rows, s.clock) && (s.phase == LegacyPhase ==> WritesOld(q))
  {
  }

  lemma QueryKeeps(s: Sys, r: nat)
    requires Inv(s) && Enabled(s, Query(r))
    ensures Inv(DoQuery(s, r))
  {
  }

  lemma StepKeeps(s: Sys, step: Step)
    requires Inv(s) && Enabled(s, step) && ForwardStep(s, step)
    ensures Inv(Apply(s, step))
  {
    hide Inv, OnItsWay, WritesOld, CommitUpdate, CommitInsert, DoFetch, DoQuery, DoFill, Resumed;
    if step.Arrive? || step.Book? || step.Query? || step.Refuse? {
      RequestStepKeeps(s, step);
    } else if step.Fetch? {
      FetchKeeps(s, step.r);
    } else if step.Resume? {
      ResumedOnItsWay(s, s.reqs[step.r]) by { OneOnItsWay(s, step.r); }
      SetKeeps(s, step.r, Resumed(s.reqs[step.r], s.phase));
    } else if step.Commit? {
      if s.reqs[step.r].Updating? { UpdateKeeps(s, step.r); } else { InsertKeeps(s, step.r, step.newId); }
    } else if step.Fill? {
      FillKeeps(s);
    } else if step.Count? || step.Check? || step.Enter? || step.Restart? {
      PhaseStepKeeps(s, step);
    } else {
      OtherStepKeeps(s, step);
    }
  }

  lemma PhaseStepKeeps(s: Sys, step: Step)
    requires Inv(s) && Enabled(s, step) && ForwardStep(s, step)
    requires step.Count? || step.Check? || step.Enter? || step.Restart?
    ensures Inv(Apply(s, step))
  {
    hide Inv, StateOf, Accepts, Reconciled, GuestIsCurrent;
    var t := Apply(s, step);
    assert Rank(s.phase) <= Rank(t.phase) && t.phase != NewOnly by { PutTargets(s, step); }
    assert forall k :: k in t.puts ==> t.puts[k].target != NewOnly by { PutTargets(s, step); }
    MovesOn(s, t);
  }

  lemma PutTargets(s: Sys, step: Step)
    requires Inv(s) && Enabled(s, step) && ForwardStep(s, step)
    requires step.Count? || step.Check? || step.Enter? || step.Restart?
    ensures var t := Apply(s, step);
      && Rank(s.phase) <= Rank(t.phase) && t.phase != NewOnly
      && forall k :: k in t.puts ==> t.puts[k].target != NewOnly
  {
    hide SplitGuestName, InStep, OnItsWay, WritesOld, StateOf, Accepts, Reconciled, GuestIsCurrent;
  }

  lemma MovesOn(s: Sys, t: Sys)
    requires Inv(s) && t == s.(phase := t.phase, puts := t.puts, retired := t.retired, reqs := t.reqs)
    requires t.reqs == s.reqs || t.reqs == map[]
    requires Rank(s.phase) <= Rank(t.phase) && t.phase != NewOnly
    requires forall k :: k in t.puts ==> t.puts[k].target != NewOnly
    ensures Inv(t)
  {
  }

  lemma OtherStepKeeps(s: Sys, step: Step)
    requires Inv(s) && Enabled(s, step) && ForwardStep(s, step)
    requires step.Lock? || step.Abandon? || step.Upgrade0002? || step.Upgrade0003? || step.LastNotNull?
      || step.DropGuestName? || step.FirstNotNull? || step.Downgrade0002? || step.Downgrade0003? || step.Downgrade0004?
    ensures Inv(Apply(s, step))
  {
    assert !s.schema.firstNotNull by { NotYetMandatory(s); }
    hide Inv, DoLock, NoRowLacks, Unlocked, TooLong, Missing;
    match step {
      case Lock(ids) => LockKeeps(s, ids);
      case Abandon => AbandonKeeps(s);
      case Upgrade0002 => SchemaKeeps(s, Altered(s.schema, step));
      case Upgrade0003 => SchemaKeeps(s, Altered(s.schema, step));
    }
  }

  lemma NotYetMandatory(s: Sys)
    requires Inv(s)
    ensures !s.schema.firstNotNull
  {
  }

  lemma SchemaKeeps(s: Sys, next: Schema)
    requires Inv(s) && !next.firstNotNull
    ensures Inv(s.(schema := next))
  {
  }

  lemma LockKeeps(s: Sys, ids: set<int>)
    requires Inv(s) && Lockable(s, ids) && s.phase != LegacyPhase
    ensures Inv(DoLock(s, ids))
  {
  }

  lemma AbandonKeeps(s: Sys)
    requires Inv(s)
    ensures Inv(s.(batch := map[]))
  {
  }

  lemma {:induction false} RunKeeps(s: Sys, steps: seq<Step>)
    requires Inv(s) && ForwardRun(s, steps)
    ensures Run(s, steps) && Inv(After(s, steps))
    decreases |steps|
  {
    hide Inv, Enabled, ForwardStep, Apply;
    if steps != [] {
      assert Inv(Apply(s, steps[0])) by { StepKeeps(s, steps[0]); }
      RunKeeps(Apply(s, steps[0]), steps[1..]);
    }
  }

  /** Every committed row of every forward run. */
  lemma ColumnsAlwaysAgree(s: Sys, steps: seq<Step>, id: int)
    requires Init(s) && ForwardRun(s, steps)
    ensures Run(s, steps)
    ensures var t := After(s, steps);
      id in t.rows ==>
        var n := t.rows[id].names;
        n.guest.Some? &&
        ((n.first.None? && n.last.None?) || Filled(n, SplitGuestName(n.guest.value)))
  {
    RunKeeps(s, steps);
    hide Run, After, ForwardRun, SplitGuestName, Init;
  }

  /** A rename prepared in legacy never commits over a row that has been filled:
      its version check fails, and the client is told to read again. */
  lemma LegacyRenameIsStale(s: Sys, steps: seq<Step>, r: nat)
    requires Init(s) && ForwardRun(s, steps)
    ensures Run(s, steps)
    ensures var t := After(s, steps);
      r in t.reqs && t.reqs[r].Updating? && t.reqs[r].name.Some? && t.reqs[r].cols == [GuestName] ==>
        var q := t.reqs[r];
        q.id in t.rows && t.rows[q.id].names.first.Some? && t.schema.guestPresent ==>
          CommitUpdate(t, r, q.id, q.name, q.cols, q.version) == Set(t, r, Answered(Stale))
  {
    RunKeeps(s, steps);
    hide Run, After, ForwardRun, SplitGuestName, Init;
    var t := After(s, steps);
    if r in t.reqs { assert OnItsWay(t.reqs[r], t.rows, t.clock); }
  }
}

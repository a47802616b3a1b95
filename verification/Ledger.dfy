/** The traffic generator that watches the migration: it keeps a ledger of the name
    every booking of its own must have and compares every response with it. */
module Ledger {
  import opened Names
  import opened NameLaws
  import opened Store
  import opened Migration
  import opened Protocol
  import opened Phases
  import opened Fidelity
  import Etag

  /** One of the generator's names: single blanks, and short enough in both parts. */
  predicate Plain(name: string) {
    Tidy(name) && Fits(name)
  }

  lemma PlainIsKept(name: string, cols: seq<Column>)
    requires Plain(name)
    ensures View(cols, name) == name
  {
    hide SplitGuestName, Tidy, Fits;
    ShownExactly(name);
  }

  lemma PlainSplits(a: string, b: string)
    requires Plain(a) && Plain(b) && SplitGuestName(a) == SplitGuestName(b)
    ensures a == b
  {
    hide SplitGuestName, Tidy, Fits;
    ShownExactly(a);
    ShownExactly(b);
  }

  /** What a request of the generator is for; `left` counts the attempts after this one. */
  datatype Task =
    | Creating(name: string)
    | Reading(rid: int)
    | Renaming(rid: int, name: string, left: nat)
    | Rereading(rid: int, name: string, left: nat)

  /** `expected`, `version`, the requests in flight, and `bad_fields`. */
  datatype Client = Client(expected: map<int, string>, version: map<int, nat>, tasks: map<nat, Task>, bad: nat)

  datatype World = World(sys: Sys, client: Client)

  datatype Move =
    | Server(step: Step)
    | Create(r: nat, name: string)
    | Read(r: nat, rid: int)
    | Rename(r: nat, rid: int, name: string)
    | Receive(r: nat, next: nat)

  predicate Busy(c: Client, rid: int) {
    exists r :: r in c.tasks && !c.tasks[r].Creating? && c.tasks[r].rid == rid
  }

  predicate Renames(q: Request) {
    match q
    case Accepted(goal, _) => goal.Edit? && goal.name.Some?
    case Querying(goal, _, _) => goal.Edit? && goal.name.Some?
    case Fetched(goal, _, _, _, _, _, _) => goal.Edit? && goal.name.Some?
    case Updating(_, name, _, _) => name.Some?
    case _ => false
  }

  function RenameGoal(name: string, version: nat): Goal {
    Edit(Some(name), false, Some(Etag.Tag(version)), true)
  }

  /** The request that a task sends. */
  function Send(c: Client, r: nat, task: Task): Step {
    match task
    case Creating(name) => Book(r, name)
    case Reading(rid) => Arrive(r, Show, rid)
    case Rereading(rid, _, _) => Arrive(r, Show, rid)
    case Renaming(rid, name, _) => Arrive(r, RenameGoal(name, if rid in c.version then c.version[rid] else 0), rid)
  }

  /** What to do once a task has its response: nothing, or another request. */
  function Next(task: Task, reply: Reply): Option<Task> {
    match task
    case Creating(_) => None
    case Reading(_) => None
    case Renaming(rid, name, left) =>
      if reply.Stale? || reply.Precondition? then Some(Rereading(rid, name, left)) else None
    case Rereading(rid, name, left) => if left > 0 then Some(Renaming(rid, name, left - 1)) else None
  }

  predicate Loses(reply: Reply) {
    reply.Stale? || reply.Precondition?
  }

  /** A rename that loses reads the booking and tries again; the third time it reads it and
      gives up, and so it does after any other answer. */
  lemma ThreeAttempts(rid: int, name: string, a: Reply, b: Reply)
    requires Loses(a) && !Loses(b)
    ensures Next(Renaming(rid, name, 2), a) == Some(Rereading(rid, name, 2))
    ensures Next(Rereading(rid, name, 2), b) == Some(Renaming(rid, name, 1))
    ensures Next(Renaming(rid, name, 1), a) == Some(Rereading(rid, name, 1))
    ensures Next(Rereading(rid, name, 1), b) == Some(Renaming(rid, name, 0))
    ensures Next(Renaming(rid, name, 0), a) == Some(Rereading(rid, name, 0)) && Next(Rereading(rid, name, 0), b) == None
    ensures forall left: nat :: Next(Renaming(rid, name, left), b) == None
  {
  }

  /** Comparing the response with the ledger and entering it there. */
  function Entered(c: Client, task: Task, reply: Reply): Client {
    if !reply.Shown? then c
    else
      match task
      case Creating(name) =>
        c.(bad := c.bad + (if reply.text != name then 1 else 0),
           expected := c.expected[reply.id := name], version := c.version[reply.id := reply.version])
      case Renaming(rid, name, _) =>
        c.(bad := c.bad + (if reply.text != name then 1 else 0),
           expected := c.expected[rid := name], version := c.version[rid := reply.version])
      case Reading(rid) =>
        c.(bad := c.bad + (if rid !in c.expected || reply.text != c.expected[rid] then 1 else 0),
           version := c.version[rid := reply.version])
      case Rereading(rid, _, _) =>
        c.(bad := c.bad + (if rid !in c.expected || reply.text != c.expected[rid] then 1 else 0),
           version := c.version[rid := reply.version])
  }

  /** The booking that a request is about, once it is there. */
  function Subject(q: Request): Option<int> {
    match q
    case Accepted(_, id) => Some(id)
    case Querying(_, id, _) => Some(id)
    case Fetched(_, id, _, _, _, _, _) => Some(id)
    case Updating(id, _, _, _) => Some(id)
    case Inserting(_, _) => None
    case Committed(id) => Some(id)
    case Answered(reply) => if reply.Shown? then Some(reply.id) else None
  }

  function Owner(task: Task, q: Request): Option<int> {
    if task.Creating? then Subject(q) else Some(task.rid)
  }

  predicate Mine(w: World, r: nat) {
    r in w.client.tasks && r in w.sys.reqs
  }

  function OwnerOf(w: World, r: nat): Option<int>
    requires Mine(w, r)
  {
    Owner(w.client.tasks[r], w.sys.reqs[r])
  }

  /** Somebody else's booking, which other people may rename. */
  predicate NotOurs(w: World, id: int) {
    && id in w.sys.last && id !in w.client.expected
    && forall k :: k in w.client.tasks && Mine(w, k) ==> OwnerOf(w, k) != Some(id)
  }

  predicate Enabled(w: World, move: Move) {
    match move
    case Server(step) =>
      Protocol.Enabled(w.sys, step) && (step.Arrive? && Renames(Accepted(step.goal, step.id)) ==> NotOurs(w, step.id))
    case Create(r, name) => r !in w.sys.reqs && r !in w.client.tasks && Plain(name)
    case Read(r, rid) => r !in w.sys.reqs && r !in w.client.tasks && rid in w.client.expected && !Busy(w.client, rid)
    case Rename(r, rid, name) =>
      r !in w.sys.reqs && r !in w.client.tasks && rid in w.client.expected && !Busy(w.client, rid) && Plain(name)
    case Receive(r, next) =>
      && r in w.client.tasks && r in w.sys.reqs && w.sys.reqs[r].Answered?
      && next !in w.sys.reqs && next !in w.client.tasks
  }

  function Start(w: World, r: nat, task: Task): World
    requires r !in w.sys.reqs
  {
    World(Protocol.Apply(w.sys, Send(w.client, r, task)), w.client.(tasks := w.client.tasks[r := task]))
  }

  function DoReceive(w: World, r: nat, next: nat): World
    requires Enabled(w, Receive(r, next))
  {
    var task, reply := w.client.tasks[r], w.sys.reqs[r].reply;
    var c := Entered(w.client, task, reply);
    var t := World(w.sys, c.(tasks := c.tasks - {r}));
    match Next(task, reply)
    case None => t
    case Some(task') => Start(t, next, task')
  }

  function Apply(w: World, move: Move): World
    requires Enabled(w, move)
  {
    match move
    case Server(step) => w.(sys := Protocol.Apply(w.sys, step))
    case Create(r, name) => Start(w, r, Creating(name))
    case Read(r, rid) => Start(w, r, Reading(rid))
    case Rename(r, rid, name) => Start(w, r, Renaming(rid, name, 2))
    case Receive(r, next) => DoReceive(w, r, next)
  }

  /** The migration is driven as it has to be, no request of the generator's is lost in a
      restart, and none meets a change of the columns that are read. */
  predicate Calm(w: World, move: Move) {
    move.Server? ==>
      && Disciplined(w.sys, move.step)
      && (move.step.Restart? ==> w.client.tasks == map[])
      && (move.step.Resume? && Mine(w, move.step.r) && w.sys.reqs[move.step.r].Fetched? ==>
            w.sys.reqs[move.step.r].aligned && w.sys.reqs[move.step.r].cols == ReadColumns(w.sys.phase))
  }

  predicate Run(w: World, moves: seq<Move>)
    decreases |moves|
  {
    moves == [] || (Enabled(w, moves[0]) && Calm(w, moves[0]) && Run(Apply(w, moves[0]), moves[1..]))
  }

  function After(w: World, moves: seq<Move>): World
    requires Run(w, moves)
    decreases |moves|
  {
    if moves == [] then w else After(Apply(w, moves[0]), moves[1..])
  }

  predicate Init(w: World) {
    Protocol.Init(w.sys) && w.client == Client(map[], map[], map[], 0)
  }

  // ---- The invariant ----

  /** On its way to showing the booking `rid`, whose name is `name`. */
  predicate Showing(q: Request, rid: int, name: string) {
    match q
    case Committed(id) => id == rid
    case Querying(goal, id, _) => goal == Show && id == rid
    case Fetched(goal, id, _, _, _, seen, _) => goal == Show && id == rid && seen == name
    case Answered(reply) => reply.Shown? && reply.id == rid && reply.seen == name && reply.aligned
    case _ => false
  }

  predicate Asks(goal: Goal, name: string) {
    goal.Edit? && goal.name == Some(name) && !goal.other
  }

  /** On its way to renaming the booking `rid` from `was` to `name`. */
  predicate Changing(q: Request, rid: int, was: string, name: string) {
    match q
    case Accepted(goal, id) => Asks(goal, name) && id == rid
    case Querying(goal, id, _) => Asks(goal, name) && id == rid
    case Fetched(goal, id, _, _, _, seen, _) => Asks(goal, name) && id == rid && seen == was
    case Updating(id, new_, _, _) => new_ == Some(name) && id == rid
    case Answered(reply) => reply.Stale? || reply.Precondition?
    case _ => false
  }

  predicate TaskOk(task: Task, q: Request, last: map<int, string>, expected: map<int, string>) {
    match task
    case Creating(name) =>
      Plain(name) && (
      || (q.Inserting? && q.guest == name)
      || q == Answered(Refused)
      || (Subject(q).Some? && var id := Subject(q).value;
          id !in expected && id in last && last[id] == name && Showing(q, id, name)))
    case Renaming(rid, name, _) =>
      && Plain(name) && rid in expected && rid in last
      && ((Changing(q, rid, expected[rid], name) && last[rid] == expected[rid])
          || (Showing(q, rid, name) && last[rid] == name))
    case Reading(rid) => ReadOk(rid, q, last, expected)
    case Rereading(rid, name, _) => Plain(name) && ReadOk(rid, q, last, expected)
  }

  predicate ReadOk(rid: int, q: Request, last: map<int, string>, expected: map<int, string>) {
    && rid in expected && rid in last && last[rid] == expected[rid]
    && (q == Accepted(Show, rid) || Showing(q, rid, expected[rid]))
  }

  /** Each request in flight is where its task can be, and no two are about one booking. */
  ghost predicate TasksOk(w: World) {
    && (forall r :: r in w.client.tasks ==>
          r in w.sys.reqs && TaskOk(w.client.tasks[r], w.sys.reqs[r], w.sys.last, w.client.expected))
    && (forall r, r' :: Mine(w, r) && Mine(w, r') && r != r' && OwnerOf(w, r).Some? ==> OwnerOf(w, r) != OwnerOf(w, r'))
  }

  predicate Renamed(c: Client, rid: int) {
    exists r :: r in c.tasks && c.tasks[r].Renaming? && c.tasks[r].rid == rid
  }

  /** A booking nobody is renaming has the name the ledger says. */
  predicate LedgerOk(w: World) {
    forall rid :: rid in w.client.expected ==>
      && rid in w.sys.last && Plain(w.client.expected[rid])
      && (!Renamed(w.client, rid) ==> w.sys.last[rid] == w.client.expected[rid])
  }

  predicate MayRename(w: World, r: nat, q: Request) {
    Renames(q) ==>
      if r in w.client.tasks then w.client.tasks[r].Renaming? else Subject(q).Some? && NotOurs(w, Subject(q).value)
  }

  /** A rename under way is the generator's, or is of a booking that is not. */
  predicate OnlyOurs(w: World) {
    forall r :: r in w.sys.reqs ==> MayRename(w, r, w.sys.reqs[r])
  }

  ghost predicate Inv(w: World) {
    Fidelity.Inv(w.sys) && TasksOk(w) && LedgerOk(w) && OnlyOurs(w) && w.client.bad == 0
  }

  // ---- One request moves on ----

  lemma OnlyRenamingRenames(task: Task, q: Request, last: map<int, string>, expected: map<int, string>)
    requires TaskOk(task, q, last, expected) && Renames(q)
    ensures task.Renaming?
  {
  }

  /** The request moves on and its task with it; nothing else changes. */
  lemma MoveOn(w: World, t: World, r: nat)
    requires TasksOk(w) && LedgerOk(w) && OnlyOurs(w) && t.client == w.client && t.sys.last == w.sys.last
    requires r in t.sys.reqs && t.sys.reqs == w.sys.reqs[r := t.sys.reqs[r]]
    requires r in w.client.tasks ==>
      && TaskOk(w.client.tasks[r], t.sys.reqs[r], t.sys.last, t.client.expected)
      && Owner(w.client.tasks[r], t.sys.reqs[r]) == Owner(w.client.tasks[r], w.sys.reqs[r])
    requires r !in w.client.tasks ==> MayRename(w, r, t.sys.reqs[r])
    ensures TasksOk(t) && LedgerOk(t) && OnlyOurs(t)
  {
    hide TaskOk, Plain, Renames, Owner, Subject;
    if r in w.client.tasks && Renames(t.sys.reqs[r]) {
      OnlyRenamingRenames(w.client.tasks[r], t.sys.reqs[r], t.sys.last, t.client.expected);
    }
    forall k | Mine(t, k) ensures Mine(w, k) && OwnerOf(w, k) == OwnerOf(t, k) {}
    forall k, k' | Mine(t, k) && Mine(t, k') && k != k' && OwnerOf(t, k).Some? ensures OwnerOf(t, k) != OwnerOf(t, k') {
      assert Mine(w, k) && Mine(w, k') && OwnerOf(w, k) == OwnerOf(t, k) && OwnerOf(w, k') == OwnerOf(t, k');
    }
  }

  lemma MayStill(w: World, r: nat, q: Request)
    requires OnlyOurs(w) && r in w.sys.reqs
    requires Renames(q) ==> Renames(w.sys.reqs[r]) && Subject(q) == Subject(w.sys.reqs[r])
    ensures MayRename(w, r, q)
  {
  }

  /** Nothing that the ledger is about changes. */
  lemma Aside(w: World, t: World)
    requires TasksOk(w) && LedgerOk(w) && OnlyOurs(w)
    requires t.client == w.client && t.sys.last == w.sys.last && t.sys.reqs == w.sys.reqs
    ensures TasksOk(t) && LedgerOk(t) && OnlyOurs(t)
  {
    hide TaskOk, Plain, Renames, Owner, Subject;
    forall k | Mine(t, k) ensures Mine(w, k) && OwnerOf(w, k) == OwnerOf(t, k) {}
    forall k, k' | Mine(t, k) && Mine(t, k') && k != k' && OwnerOf(t, k).Some? ensures OwnerOf(t, k) != OwnerOf(t, k') {
      assert OwnerOf(w, k) != OwnerOf(w, k');
    }
  }

  lemma TaskQueries(task: Task, s: Sys, r: nat, last: map<int, string>, expected: map<int, string>)
    requires Protocol.Enabled(s, Query(r)) && TaskOk(task, s.reqs[r], last, expected)
    ensures var q := DoQuery(s, r).reqs[r];
      && TaskOk(task, q, last, expected) && Owner(task, q) == Owner(task, s.reqs[r])
  {
    hide Plain, ReadColumns;
  }

  lemma QueryMoves(w: World, r: nat)
    requires TasksOk(w) && LedgerOk(w) && OnlyOurs(w) && Protocol.Enabled(w.sys, Query(r))
    ensures var t := w.(sys := DoQuery(w.sys, r)); TasksOk(t) && LedgerOk(t) && OnlyOurs(t)
  {
    hide Plain, ReadColumns, TaskOk, LedgerOk, Owner;
    var t := w.(sys := DoQuery(w.sys, r));
    if r in w.client.tasks { TaskQueries(w.client.tasks[r], w.sys, r, w.sys.last, w.client.expected); }
    MayStill(w, r, t.sys.reqs[r]);
    hide TasksOk;
    MoveOn(w, t, r);
  }

  lemma FetchMoves(w: World, r: nat)
    requires TasksOk(w) && LedgerOk(w) && OnlyOurs(w) && Protocol.Enabled(w.sys, Fetch(r))
    requires w.sys.rows.Keys == w.sys.last.Keys && AllPresent(w.sys.schema, w.sys.reqs[r].cols)
    ensures var t := w.(sys := DoFetch(w.sys, r)); TasksOk(t) && LedgerOk(t) && OnlyOurs(t)
  {
    hide Plain, ReadColumns, AllPresent;
    var t := w.(sys := DoFetch(w.sys, r));
    assert r in w.client.tasks ==> TaskOk(w.client.tasks[r], t.sys.reqs[r], t.sys.last, t.client.expected);
    MayStill(w, r, t.sys.reqs[r]);
    hide TasksOk, LedgerOk, TaskOk;
    MoveOn(w, t, r);
  }

  /** A PATCH that writes nothing asks for the name the booking has. */
  lemma NothingToWrite(phase: Phase, n: NameCols, seen: string, name: string)
    requires Content(ReadColumns(phase), n, seen) && Plain(seen) && Plain(name)
    requires !NetChange(ReadColumns(phase), n, WriteColumns(phase), name)
    ensures seen == name
  {
    hide SplitGuestName, Plain;
    if phase == NewOnly {
      var p, q := SplitGuestName(seen), SplitGuestName(name);
      assert FirstName in WriteColumns(phase) && LastName in WriteColumns(phase);
      assert Cell(n, FirstName) == Some(ValueFor(name, FirstName))
        && Cell(n, LastName) == Some(ValueFor(name, LastName));
      assert p == Parts(p.first, p.last) && q == Parts(q.first, q.last);
      PlainSplits(seen, name);
    } else {
      assert GuestName in WriteColumns(phase);
      assert phase == LegacyPhase ==> Cell(n, GuestName) == Some(ValueFor(name, GuestName));
      assert phase != LegacyPhase ==> FirstName in WriteColumns(phase);
    }
  }

  lemma ShowResumes(phase: Phase, q: Request, rid: int, name: string)
    requires q.Fetched? && Showing(q, rid, name) && q.aligned && q.cols == ReadColumns(phase)
    requires Content(q.cols, q.names, q.seen)
    ensures Showing(Resumed(q, phase), rid, name)
  {
  }

  lemma RenameResumes(phase: Phase, q: Request, rid: int, was: string, name: string)
    requires q.Fetched? && Changing(q, rid, was, name) && q.cols == ReadColumns(phase)
    requires Content(q.cols, q.names, q.seen) && Plain(was) && Plain(name)
    ensures Changing(Resumed(q, phase), rid, was, name) || (Showing(Resumed(q, phase), rid, name) && was == name)
  {
    hide SplitGuestName, Plain, NetChange, Etag.CheckIfMatch, Content, ReadColumns, WriteColumns;
    if !NetChange(q.cols, q.names, WriteColumns(phase), name) { NothingToWrite(phase, q.names, was, name); }
  }

  lemma ResumeMoves(w: World, r: nat)
    requires TasksOk(w) && LedgerOk(w) && OnlyOurs(w) && Protocol.Enabled(w.sys, Resume(r))
    requires var q := w.sys.reqs[r];
      r in w.client.tasks ==> q.aligned && q.cols == ReadColumns(w.sys.phase) && Content(q.cols, q.names, q.seen)
    ensures var t := w.(sys := DoResume(w.sys, r)); TasksOk(t) && LedgerOk(t) && OnlyOurs(t)
  {
    hide Plain, ReadColumns, WriteColumns, Content, Etag.CheckIfMatch, NetChange, Render, Resumed;
    var t := w.(sys := DoResume(w.sys, r));
    var q := w.sys.reqs[r];
    if r in w.client.tasks { TaskResumes(w, r); }
    ResumedRenames(q, w.sys.phase);
    MayStill(w, r, t.sys.reqs[r]);
    hide TasksOk, LedgerOk, TaskOk;
    MoveOn(w, t, r);
  }

  lemma ResumedRenames(q: Request, phase: Phase)
    requires q.Fetched?
    ensures Renames(Resumed(q, phase)) ==> Renames(q) && Subject(Resumed(q, phase)) == Subject(q)
  {
  }

  lemma TaskResumes(w: World, r: nat)
    requires TasksOk(w) && LedgerOk(w) && Protocol.Enabled(w.sys, Resume(r)) && r in w.client.tasks
    requires var q := w.sys.reqs[r];
      q.aligned && q.cols == ReadColumns(w.sys.phase) && Content(q.cols, q.names, q.seen)
    ensures var task, q' := w.client.tasks[r], Resumed(w.sys.reqs[r], w.sys.phase);
      && TaskOk(task, q', w.sys.last, w.client.expected)
      && Owner(task, q') == Owner(task, w.sys.reqs[r])
  {
    hide Plain, ReadColumns, WriteColumns, Content, Etag.CheckIfMatch, NetChange, Render, Resumed;
    var task, q := w.client.tasks[r], w.sys.reqs[r];
    assert TaskOk(task, q, w.sys.last, w.client.expected);
    if task.Renaming? && Changing(q, task.rid, w.client.expected[task.rid], task.name) {
      RenameResumes(w.sys.phase, q, task.rid, w.client.expected[task.rid], task.name);
    } else {
      ShowResumes(w.sys.phase, q, q.id, q.seen);
    }
  }

  // ---- Commits ----

  lemma RefuseMoves(w: World, r: nat)
    requires TasksOk(w) && LedgerOk(w) && OnlyOurs(w) && Protocol.Enabled(w.sys, Refuse(r))
    ensures var t := w.(sys := Set(w.sys, r, Answered(Refused))); TasksOk(t) && LedgerOk(t) && OnlyOurs(t)
  {
    hide Plain;
    var t := w.(sys := Set(w.sys, r, Answered(Refused)));
    assert r in w.client.tasks ==> TaskOk(w.client.tasks[r], t.sys.reqs[r], t.sys.last, t.client.expected);
    hide TasksOk, LedgerOk, TaskOk;
    MoveOn(w, t, r);
  }

  lemma TaskElsewhere(task: Task, q: Request, last: map<int, string>, expected: map<int, string>, id: int, name: string)
    requires TaskOk(task, q, last, expected) && Owner(task, q) != Some(id)
    ensures TaskOk(task, q, last[id := name], expected)
  {
  }

  /** A name is committed for a booking that no other task is about. */
  lemma NameMoves(w: World, t: World, r: nat, id: int, name: string)
    requires TasksOk(w) && LedgerOk(w) && OnlyOurs(w) && t.client == w.client && t.sys.last == w.sys.last[id := name]
    requires r in t.sys.reqs && t.sys.reqs == w.sys.reqs[r := t.sys.reqs[r]] && !Renames(t.sys.reqs[r])
    requires r in w.client.tasks ==>
      && TaskOk(w.client.tasks[r], t.sys.reqs[r], t.sys.last, t.client.expected)
      && Owner(w.client.tasks[r], t.sys.reqs[r]) == Some(id)
      && (id in w.sys.last ==> r in w.sys.reqs && OwnerOf(w, r) == Some(id))
    requires forall k :: k != r && Mine(w, k) ==> OwnerOf(w, k) != Some(id)
    requires id in w.client.expected ==> Renamed(w.client, id)
    ensures TasksOk(t) && LedgerOk(t) && OnlyOurs(t)
  {
    hide TaskOk, Plain, Renames, Owner, Renamed, Subject;
    forall k | Mine(t, k) && k != r ensures Mine(w, k) && OwnerOf(w, k) == OwnerOf(t, k) {}
    forall k | k in t.client.tasks && k != r
      ensures TaskOk(t.client.tasks[k], t.sys.reqs[k], t.sys.last, t.client.expected)
    {
      assert Mine(w, k) && OwnerOf(w, k) != Some(id);
      TaskElsewhere(w.client.tasks[k], w.sys.reqs[k], w.sys.last, w.client.expected, id, name);
    }
    forall k, k' | Mine(t, k) && Mine(t, k') && k != k' && OwnerOf(t, k).Some? ensures OwnerOf(t, k) != OwnerOf(t, k') {
      assert Mine(w, k) && Mine(w, k');
      if k != r { assert OwnerOf(t, k) == OwnerOf(w, k); }
      if k' != r { assert OwnerOf(t, k') == OwnerOf(w, k'); }
    }
  }

  lemma UpdateMoves(w: World, r: nat)
    requires TasksOk(w) && LedgerOk(w) && OnlyOurs(w) && r in w.sys.reqs && w.sys.reqs[r].Updating?
    requires AllPresent(w.sys.schema, w.sys.reqs[r].cols)
    ensures var q := w.sys.reqs[r];
      var t := w.(sys := CommitUpdate(w.sys, r, q.id, q.name, q.cols, q.version));
      TasksOk(t) && LedgerOk(t) && OnlyOurs(t)
  {
    hide Plain, AllPresent, WriteName;
    var q := w.sys.reqs[r];
    var t := w.(sys := CommitUpdate(w.sys, r, q.id, q.name, q.cols, q.version));
    if r in w.client.tasks {
      assert TaskOk(w.client.tasks[r], q, w.sys.last, w.client.expected);
      assert w.client.tasks[r].Renaming? && w.client.tasks[r].rid == q.id && q.name == Some(w.client.tasks[r].name);
    }
    if t.sys.reqs[r] == Committed(q.id) && q.name.Some? {
      if r in w.client.tasks {
        assert Renamed(w.client, q.id) && Mine(w, r) && OwnerOf(w, r) == Some(q.id);
        Alone(w, r);
      } else {
        assert NotOurs(w, q.id);
      }
      hide OnlyOurs, LedgerOk, TasksOk, Renamed;
      NameMoves(w, t, r, q.id, q.name.value);
    } else {
      hide OnlyOurs, LedgerOk, TasksOk, Renamed;
      MoveOn(w, t, r);
    }
  }

  lemma Alone(w: World, r: nat)
    requires TasksOk(w) && Mine(w, r) && OwnerOf(w, r).Some?
    ensures forall k :: k != r && Mine(w, k) ==> OwnerOf(w, k) != OwnerOf(w, r)
  {
  }

  lemma OwnersExist(w: World, k: nat)
    requires TasksOk(w) && Mine(w, k) && OwnerOf(w, k).Some?
    ensures OwnerOf(w, k).value in w.sys.last
  {
  }

  lemma InsertMoves(w: World, r: nat, newId: int)
    requires TasksOk(w) && LedgerOk(w) && OnlyOurs(w) && r in w.sys.reqs && w.sys.reqs[r].Inserting?
    requires newId !in w.sys.last
    requires AllPresent(w.sys.schema, w.sys.reqs[r].cols) && CoversMandatory(w.sys.schema, w.sys.reqs[r].cols)
    ensures var q := w.sys.reqs[r];
      var t := w.(sys := CommitInsert(w.sys, r, q.guest, q.cols, newId));
      TasksOk(t) && LedgerOk(t) && OnlyOurs(t)
  {
    hide Plain, AllPresent, CoversMandatory, WriteName;
    var q := w.sys.reqs[r];
    var t := w.(sys := CommitInsert(w.sys, r, q.guest, q.cols, newId));
    if r in w.client.tasks {
      assert TaskOk(w.client.tasks[r], q, w.sys.last, w.client.expected);
      assert TaskOk(w.client.tasks[r], t.sys.reqs[r], t.sys.last, t.client.expected);
    }
    forall k | k != r && Mine(w, k) ensures OwnerOf(w, k) != Some(newId) {
      if OwnerOf(w, k).Some? { OwnersExist(w, k); }
    }
    hide OnlyOurs, TasksOk, TaskOk;
    NameMoves(w, t, r, newId, q.guest);
  }

  lemma CommitMoves(w: World, r: nat, newId: int)
    requires Inv(w) && Protocol.Enabled(w.sys, Commit(r, newId))
    ensures var t := w.(sys := DoCommit(w.sys, r, newId)); TasksOk(t) && LedgerOk(t) && OnlyOurs(t)
  {
    RequestFacts(w.sys, r);
    hide TasksOk, LedgerOk, OnlyOurs, Fidelity.Inv, CommitUpdate, CommitInsert;
    var q := w.sys.reqs[r];
    if q.Updating? {
      UpdateMoves(w, r);
    } else {
      InsertMoves(w, r, newId);
    }
  }

  /** What the migration's own invariant says of one request. */
  lemma RequestFacts(s: Sys, r: nat)
    requires Kept(s) && r in s.reqs
    ensures s.rows.Keys == s.last.Keys
    ensures var q := s.reqs[r];
      && (q.Querying? || q.Updating? || q.Inserting? ==> AllPresent(s.schema, q.cols))
      && (q.Inserting? ==> CoversMandatory(s.schema, q.cols))
      && (q.Fetched? && q.aligned ==> Content(q.cols, q.names, q.seen))
      && (q.Answered? ==> FaithfulReply(q.reply))
  {
  }

  lemma ArriveMoves(w: World, r: nat, q: Request)
    requires Inv(w) && r !in w.sys.reqs && (r !in w.client.tasks ==> MayRename(w, r, q))
    ensures var t := w.(sys := Set(w.sys, r, q)); TasksOk(t) && LedgerOk(t) && OnlyOurs(t)
  {
    hide TaskOk, Plain, Renames, Owner, Fidelity.Inv;
    var t := w.(sys := Set(w.sys, r, q));
    assert r !in w.client.tasks;
    MoveOn(w, t, r);
  }

  lemma ServerMoves(w: World, step: Step)
    requires Inv(w) && Enabled(w, Server(step)) && Calm(w, Server(step))
    ensures var t := w.(sys := Protocol.Apply(w.sys, step)); TasksOk(t) && LedgerOk(t) && OnlyOurs(t)
  {
    hide TasksOk, LedgerOk, OnlyOurs, PhasesFit, Kept, DoQuery, DoFetch, DoResume, DoCommit, Disciplined, NotOurs,
      Renames, ReadColumns, WriteColumns, Content, CoversMandatory, AllPresent, FaithfulReply;
    match step {
      case Arrive(r, goal, id) => ArriveMoves(w, r, Accepted(goal, id));
      case Book(r, name) => BookMoves(w, r, name);
      case Query(r) => QueryMoves(w, r);
      case Fetch(r) => RequestFacts(w.sys, r); FetchMoves(w, r);
      case Resume(r) => RequestFacts(w.sys, r); ResumeMoves(w, r);
      case Commit(r, newId) => CommitMoves(w, r, newId);
      case Refuse(r) => RefuseMoves(w, r);
      case Restart(configured) => RestartMoves(w, configured);
      case Count(_, _) => AsideMoves(w, step);
      case Check(_) => AsideMoves(w, step);
      case Enter(_) => AsideMoves(w, step);
      case Lock(_) => AsideMoves(w, step);
      case Fill => AsideMoves(w, step);
      case Abandon => AsideMoves(w, step);
      case Upgrade0002 => AsideMoves(w, step);
      case Upgrade0003 => AsideMoves(w, step);
      case FirstNotNull => AsideMoves(w, step);
      case LastNotNull => AsideMoves(w, step);
      case DropGuestName => AsideMoves(w, step);
      case Downgrade0004 => AsideMoves(w, step);
      case Downgrade0003 => AsideMoves(w, step);
      case Downgrade0002 => AsideMoves(w, step);
    }
  }

  lemma BookMoves(w: World, r: nat, name: string)
    requires Inv(w) && r !in w.sys.reqs
    ensures var t := w.(sys := Set(w.sys, r, Inserting(name, WriteColumns(w.sys.phase))));
      TasksOk(t) && LedgerOk(t) && OnlyOurs(t)
  {
    hide TasksOk, LedgerOk, OnlyOurs, Fidelity.Inv;
    ArriveMoves(w, r, Inserting(name, WriteColumns(w.sys.phase)));
  }

  lemma RestartMoves(w: World, configured: Phase)
    requires Inv(w) && w.client.tasks == map[]
    ensures var t := w.(sys := DoRestart(w.sys, configured)); TasksOk(t) && LedgerOk(t) && OnlyOurs(t)
  {
  }

  /** Phases, batches and revisions. */
  lemma AsideMoves(w: World, step: Step)
    requires TasksOk(w) && LedgerOk(w) && OnlyOurs(w) && Protocol.Enabled(w.sys, step)
    requires Aloof(step)
    ensures var t := w.(sys := Protocol.Apply(w.sys, step)); TasksOk(t) && LedgerOk(t) && OnlyOurs(t)
  {
    hide TasksOk, LedgerOk, OnlyOurs;
    SameRequests(w.sys, step);
    hide Protocol.Enabled, Protocol.Apply;
    Aside(w, w.(sys := Protocol.Apply(w.sys, step)));
  }

  lemma ServerKeeps(w: World, step: Step)
    requires Inv(w) && Enabled(w, Server(step)) && Calm(w, Server(step))
    ensures Inv(w.(sys := Protocol.Apply(w.sys, step)))
  {
    hide TasksOk, LedgerOk, OnlyOurs, Fidelity.Inv, Disciplined, Protocol.Apply, Protocol.Enabled;
    ServerMoves(w, step);
    Fidelity.StepKeeps(w.sys, step);
  }

  // ---- The generator's own moves ----

  /** A task that may start: nobody else is at its booking, whose name the ledger knows. */
  predicate Startable(w: World, task: Task) {
    if task.Creating? then Plain(task.name)
    else
      && task.rid in w.client.expected && task.rid in w.sys.last
      && w.sys.last[task.rid] == w.client.expected[task.rid]
      && (task.Reading? || Plain(task.name))
  }

  ghost predicate Free(w: World, task: Task) {
    !task.Creating? ==> forall k :: Mine(w, k) ==> OwnerOf(w, k) != Some(task.rid)
  }

  lemma SendKeeps(s: Sys, c: Client, r: nat, task: Task)
    requires Fidelity.Inv(s) && r !in s.reqs && (task.Reading? || Plain(task.name))
    ensures Protocol.Enabled(s, Send(c, r, task)) && Fidelity.Inv(Protocol.Apply(s, Send(c, r, task)))
  {
    hide Fidelity.Inv, Plain, Send, Protocol.Enabled, Protocol.Apply, Disciplined;
    SendMay(s, c, r, task);
    Fidelity.StepKeeps(s, Send(c, r, task));
  }

  lemma SendMay(s: Sys, c: Client, r: nat, task: Task)
    requires r !in s.reqs && (task.Reading? || Plain(task.name))
    ensures Protocol.Enabled(s, Send(c, r, task)) && Disciplined(s, Send(c, r, task))
  {
  }

  lemma NewOwner(w: World, r: nat, task: Task)
    requires r !in w.sys.reqs
    ensures Mine(Start(w, r, task), r)
    ensures OwnerOf(Start(w, r, task), r) == if task.Creating? then None else Some(task.rid)
    ensures Start(w, r, task).sys.last == w.sys.last
    ensures r in Start(w, r, task).sys.reqs
    ensures Start(w, r, task).sys.reqs == w.sys.reqs[r := Start(w, r, task).sys.reqs[r]]
    ensures Renames(Start(w, r, task).sys.reqs[r]) ==> task.Renaming?
  {
    hide Etag.Tag, WriteColumns;
  }

  lemma StartMoves(w: World, r: nat, task: Task)
    requires Inv(w) && r !in w.sys.reqs && Startable(w, task) && Free(w, task)
    ensures var t := Start(w, r, task); TasksOk(t) && LedgerOk(t) && OnlyOurs(t)
  {
    hide Plain, Fidelity.Inv, TaskOk, Owner, Send, Renames, Startable, Protocol.Apply;
    var t := Start(w, r, task);
    NewOwner(w, r, task);
    StartIsOk(w, r, task);
    if !task.Creating? { Known(w, task); }
    forall k, k' | Mine(t, k) && Mine(t, k') && k != k' && OwnerOf(t, k).Some? ensures OwnerOf(t, k) != OwnerOf(t, k') {
      if k != r { assert Mine(w, k) && OwnerOf(t, k) == OwnerOf(w, k); }
      if k' != r { assert Mine(w, k') && OwnerOf(t, k') == OwnerOf(w, k'); }
    }
    forall rid ensures Renamed(w.client, rid) ==> Renamed(t.client, rid) { StillRenamed(w.client, r, task, rid); }
    StartRenames(w, r, task);
    hide Renamed, OnlyOurs;
  }

  lemma Known(w: World, task: Task)
    requires Startable(w, task) && !task.Creating?
    ensures task.rid in w.client.expected
  {
  }

  lemma StartRenames(w: World, r: nat, task: Task)
    requires OnlyOurs(w) && r !in w.sys.reqs && (!task.Creating? ==> task.rid in w.client.expected)
    ensures OnlyOurs(Start(w, r, task))
  {
    NewOwner(w, r, task);
    hide Owner, Subject, Renames, Send, Protocol.Apply;
    var t := Start(w, r, task);
    forall id | NotOurs(w, id) ensures NotOurs(t, id) {
      forall i | i in t.client.tasks && Mine(t, i) ensures OwnerOf(t, i) != Some(id) {
        if i != r { assert Mine(w, i) && OwnerOf(t, i) == OwnerOf(w, i); }
      }
    }
    forall k | k in t.sys.reqs ensures MayRename(t, k, t.sys.reqs[k]) {
      if k != r { assert MayRename(w, k, w.sys.reqs[k]); }
    }
  }

  lemma StillRenamed(c: Client, r: nat, task: Task, rid: int)
    requires r !in c.tasks
    ensures Renamed(c, rid) ==> Renamed(c.(tasks := c.tasks[r := task]), rid)
  {
    if k :| k in c.tasks && c.tasks[k].Renaming? && c.tasks[k].rid == rid {
      var t := c.(tasks := c.tasks[r := task]);
      assert k in t.tasks && t.tasks[k].Renaming? && t.tasks[k].rid == rid;
    }
  }

  lemma StartIsOk(w: World, r: nat, task: Task)
    requires r !in w.sys.reqs && Startable(w, task)
    ensures var t := Start(w, r, task); TaskOk(task, t.sys.reqs[r], t.sys.last, t.client.expected)
  {
    hide Plain, Etag.Tag, WriteColumns;
  }

  lemma StartKeeps(w: World, r: nat, task: Task)
    requires Inv(w) && r !in w.sys.reqs && Startable(w, task) && Free(w, task)
    ensures Inv(Start(w, r, task))
  {
    hide TasksOk, LedgerOk, OnlyOurs, Plain, Send, Free;
    StartMoves(w, r, task);
    hide Fidelity.Inv;
    SendKeeps(w.sys, w.client, r, task);
  }

  // ---- Receiving ----

  lemma TaskApart(task: Task, q: Request, last: map<int, string>, expected: map<int, string>, id: int, name: string)
    requires TaskOk(task, q, last, expected) && Owner(task, q) != Some(id)
    ensures TaskOk(task, q, last, expected[id := name])
  {
  }

  /** The ledger enters `name` for a booking whose request is answered, and forgets the request. */
  lemma EnterKeeps(w: World, r: nat, id: int, name: string, version: map<int, nat>)
    requires Inv(w) && Mine(w, r) && w.sys.reqs[r].Answered? && OwnerOf(w, r) == Some(id)
    requires Plain(name) && id in w.sys.last && w.sys.last[id] == name
    ensures var c := Client(w.client.expected[id := name], version, w.client.tasks - {r}, 0); Inv(World(w.sys, c))
  {
    hide TaskOk, Plain, Owner, Fidelity.Inv;
    var c := Client(w.client.expected[id := name], version, w.client.tasks - {r}, 0);
    var t := World(w.sys, c);
    Alone(w, r);
    forall k | k in c.tasks ensures TaskOk(c.tasks[k], t.sys.reqs[k], t.sys.last, c.expected) {
      assert Mine(w, k);
      TaskApart(w.client.tasks[k], w.sys.reqs[k], w.sys.last, w.client.expected, id, name);
    }
    forall k, k' | Mine(t, k) && Mine(t, k') && k != k' && OwnerOf(t, k).Some? ensures OwnerOf(t, k) != OwnerOf(t, k') {
      assert Mine(w, k) && Mine(w, k') && OwnerOf(t, k) == OwnerOf(w, k) && OwnerOf(t, k') == OwnerOf(w, k');
    }
    forall rid ensures rid != id && Renamed(w.client, rid) ==> Renamed(c, rid) { StillOthers(w, r, id, rid, c); }
    forall k | k in w.sys.reqs ensures MayRename(t, k, w.sys.reqs[k]) {}
    hide Renamed;
  }

  lemma StillOthers(w: World, r: nat, id: int, rid: int, c: Client)
    requires Mine(w, r) && OwnerOf(w, r) == Some(id) && c.tasks == w.client.tasks - {r}
    ensures rid != id && Renamed(w.client, rid) ==> Renamed(c, rid)
  {
    if k :| rid != id && k in w.client.tasks && w.client.tasks[k].Renaming? && w.client.tasks[k].rid == rid {
      assert k in c.tasks && c.tasks[k].Renaming? && c.tasks[k].rid == rid;
    }
  }

  /** A refused booking has no entry. */
  lemma DropKeeps(w: World, r: nat)
    requires Inv(w) && Mine(w, r) && w.sys.reqs[r] == Answered(Refused) && w.client.tasks[r].Creating?
    ensures Inv(World(w.sys, w.client.(tasks := w.client.tasks - {r})))
  {
    hide TaskOk, Plain, Owner, Fidelity.Inv;
    var c := w.client.(tasks := w.client.tasks - {r});
    var t := World(w.sys, c);
    forall k, k' | Mine(t, k) && Mine(t, k') && k != k' && OwnerOf(t, k).Some? ensures OwnerOf(t, k) != OwnerOf(t, k') {
      assert Mine(w, k) && Mine(w, k') && OwnerOf(t, k) == OwnerOf(w, k) && OwnerOf(t, k') == OwnerOf(w, k');
    }
    forall rid ensures Renamed(w.client, rid) ==> Renamed(c, rid) { StillWithout(w.client, r, rid); }
    forall k | k in w.sys.reqs ensures MayRename(t, k, w.sys.reqs[k]) {}
    hide Renamed;
  }

  lemma StillWithout(c: Client, r: nat, rid: int)
    requires r in c.tasks && c.tasks[r].Creating?
    ensures Renamed(c, rid) ==> Renamed(c.(tasks := c.tasks - {r}), rid)
  {
    if k :| k in c.tasks && c.tasks[k].Renaming? && c.tasks[k].rid == rid {
      var t := c.(tasks := c.tasks - {r});
      assert k in t.tasks && t.tasks[k].Renaming? && t.tasks[k].rid == rid;
    }
  }

  /** The name the ledger holds once this response is in. */
  function NameAfter(w: World, r: nat): string
    requires Mine(w, r)
  {
    match w.client.tasks[r]
    case Creating(name) => name
    case Renaming(rid, name, _) =>
      if w.sys.reqs[r].Answered? && w.sys.reqs[r].reply.Shown? then name
      else if rid in w.client.expected then w.client.expected[rid] else name
    case Reading(rid) => if rid in w.client.expected then w.client.expected[rid] else ""
    case Rereading(rid, _, _) => if rid in w.client.expected then w.client.expected[rid] else ""
  }

  /** Every response is one the generator expects: the right name, a refused booking, or
      a version conflict that makes it read again. */
  lemma ResponseIsFine(w: World, r: nat)
    requires Inv(w) && Mine(w, r) && w.sys.reqs[r].Answered?
    ensures var task, reply := w.client.tasks[r], w.sys.reqs[r].reply;
      if reply.Shown? then reply.text == NameAfter(w, r) && OwnerOf(w, r) == Some(reply.id)
      else (task.Creating? && reply == Refused) || (task.Renaming? && (reply.Stale? || reply.Precondition?))
    ensures OwnerOf(w, r).Some? ==>
      && OwnerOf(w, r).value in w.sys.last && w.sys.last[OwnerOf(w, r).value] == NameAfter(w, r)
      && Plain(NameAfter(w, r))
  {
    hide Plain, PhasesFit, Kept, View, FaithfulReply, Content, OnlyOurs;
    RequestFacts(w.sys, r);
    var task, q := w.client.tasks[r], w.sys.reqs[r];
    assert TaskOk(task, q, w.sys.last, w.client.expected);
    if q.reply.Shown? {
      ShownIs(q.reply, NameAfter(w, r));
    }
  }

  lemma ShownIs(reply: Reply, name: string)
    requires reply.Shown? && FaithfulReply(reply) && reply.aligned && reply.seen == name && Plain(name)
    ensures reply.text == name
  {
    hide Plain, View;
    PlainIsKept(name, reply.cols);
  }

  lemma SameEntry(w: World, r: nat)
    requires Inv(w) && Mine(w, r) && w.sys.reqs[r].Answered? && OwnerOf(w, r).Some?
    ensures Entered(w.client, w.client.tasks[r], w.sys.reqs[r].reply).expected
      == w.client.expected[OwnerOf(w, r).value := NameAfter(w, r)]
  {
    hide Plain, Fidelity.Inv, OnlyOurs;
    ResponseIsFine(w, r);
    assert TaskOk(w.client.tasks[r], w.sys.reqs[r], w.sys.last, w.client.expected);
  }

  /** The task that follows a response may start. */
  lemma Resumable(w: World, r: nat, t: World, task: Task)
    requires Inv(w) && Mine(w, r) && w.sys.reqs[r].Answered? && OwnerOf(w, r).Some?
    requires Next(w.client.tasks[r], w.sys.reqs[r].reply) == Some(task)
    requires t.sys == w.sys && t.client.tasks == w.client.tasks - {r}
    requires t.client.expected == w.client.expected[OwnerOf(w, r).value := NameAfter(w, r)]
    ensures Startable(t, task) && Free(t, task)
  {
    hide Plain, Fidelity.Inv, OnlyOurs, LedgerOk;
    ResponseIsFine(w, r);
    Alone(w, r);
    assert TaskOk(w.client.tasks[r], w.sys.reqs[r], w.sys.last, w.client.expected);
    assert task.rid == OwnerOf(w, r).value;
    forall k | Mine(t, k) ensures OwnerOf(t, k) != Some(task.rid) {
      assert Mine(w, k) && OwnerOf(t, k) == OwnerOf(w, k);
    }
  }

  lemma ReceiveKeeps(w: World, r: nat, next: nat)
    requires Inv(w) && Enabled(w, Receive(r, next))
    ensures Inv(DoReceive(w, r, next))
  {
    hide Inv, Plain, Start, TaskOk, Startable, Free;
    ResponseIsFine(w, r);
    var task, reply := w.client.tasks[r], w.sys.reqs[r].reply;
    var c := Entered(w.client, task, reply);
    var t := World(w.sys, c.(tasks := c.tasks - {r}));
    assert w.client.bad == 0 by { NoneBad(w); }
    if reply == Refused {
      DropKeeps(w, r);
      assert t.client == w.client.(tasks := w.client.tasks - {r});
    } else {
      SameEntry(w, r);
      EnterKeeps(w, r, OwnerOf(w, r).value, NameAfter(w, r), c.version);
      if Next(task, reply).Some? {
        Resumable(w, r, t, Next(task, reply).value);
        StartKeeps(t, next, Next(task, reply).value);
      }
    }
  }

  lemma NoneBad(w: World)
    requires Inv(w)
    ensures w.client.bad == 0
  {
  }

  /** A booking with no request in flight. */
  lemma IdleIsStartable(w: World, rid: int)
    requires Inv(w) && rid in w.client.expected && !Busy(w.client, rid)
    ensures Startable(w, Reading(rid)) && Free(w, Reading(rid)) && Plain(w.client.expected[rid])
  {
    hide Plain, Fidelity.Inv, OnlyOurs;
    assert !Renamed(w.client, rid);
    forall k | Mine(w, k) ensures OwnerOf(w, k) != Some(rid) {
      assert TaskOk(w.client.tasks[k], w.sys.reqs[k], w.sys.last, w.client.expected);
    }
  }

  lemma MoveKeeps(w: World, move: Move)
    requires Inv(w) && Enabled(w, move) && Calm(w, move)
    ensures Inv(Apply(w, move))
  {
    hide Inv, Calm, Plain, Protocol.Enabled, Protocol.Apply, Start, DoReceive, Busy;
    match move {
      case Server(step) => ServerKeeps(w, step);
      case Create(r, name) => StartKeeps(w, r, Creating(name));
      case Read(r, rid) => IdleIsStartable(w, rid); StartKeeps(w, r, Reading(rid));
      case Rename(r, rid, name) => IdleIsStartable(w, rid); StartKeeps(w, r, Renaming(rid, name, 2));
      case Receive(r, next) => ReceiveKeeps(w, r, next);
    }
  }

  lemma {:induction false} RunKeeps(w: World, moves: seq<Move>)
    requires Inv(w) && Run(w, moves)
    ensures Inv(After(w, moves))
    decreases |moves|
  {
    hide Inv, Enabled, Calm, Apply;
    if moves != [] {
      MoveKeeps(w, moves[0]);
      RunKeeps(Apply(w, moves[0]), moves[1..]);
    }
  }

  /** The whole migration, watched: however the generator's requests, other people's bookings
      and reads, the backfill, the phases and the revisions interleave, no response ever shows
      a name other than the one in the ledger, the only other responses are refused bookings
      and version conflicts, and a booking with no request in flight has, in the columns that
      are read, exactly the name in the ledger. */
  lemma LedgerStaysTrue(w: World, moves: seq<Move>)
    requires Init(w) && Run(w, moves)
    ensures var t := After(w, moves);
      && t.client.bad == 0
      && (forall r :: Mine(t, r) && t.sys.reqs[r].Answered? ==>
            var reply := t.sys.reqs[r].reply;
            reply.Shown? || reply == Refused || reply.Stale? || reply.Precondition?)
      && (forall rid :: rid in t.client.expected && !Busy(t.client, rid) ==>
            rid in t.sys.rows && Content(ReadColumns(t.sys.phase), t.sys.rows[rid].names, t.client.expected[rid]))
  {
    assert Inv(w) by { InitIsFine(w); }
    RunKeeps(w, moves);
    var t := After(w, moves);
    hide Run, After, Inv, Content, Busy;
    NoneBad(t);
    forall r | Mine(t, r) && t.sys.reqs[r].Answered?
      ensures var reply := t.sys.reqs[r].reply; reply.Shown? || reply == Refused || reply.Stale? || reply.Precondition?
    {
      ResponseIsFine(t, r);
    }
    forall rid | rid in t.client.expected && !Busy(t.client, rid)
      ensures rid in t.sys.rows && Content(ReadColumns(t.sys.phase), t.sys.rows[rid].names, t.client.expected[rid])
    {
      IdleHolds(t, rid);
    }
  }

  lemma IdleHolds(w: World, rid: int)
    requires Inv(w) && rid in w.client.expected && !Busy(w.client, rid)
    ensures rid in w.sys.rows && Content(ReadColumns(w.sys.phase), w.sys.rows[rid].names, w.client.expected[rid])
  {
    IdleIsStartable(w, rid);
    hide TasksOk, LedgerOk, OnlyOurs, Content, Plain, Busy, Free, RequestsOk, BatchOk, PhasesFit, PhaseOk, RowOk,
      SplitGuestName;
    assert w.sys.rows.Keys == w.sys.last.Keys;
    FetchedContent(w.sys, rid);
  }

  lemma InitIsFine(w: World)
    requires Init(w)
    ensures Inv(w)
  {
    InitIsOk(w.sys);
    hide Fidelity.Inv;
    assert forall k :: !Mine(w, k);
  }

  // ---- The generator at work ----

  predicate Follows(w: World, move: Move, t: World) {
    Enabled(w, move) && Calm(w, move) && t == Apply(w, move)
  }

  lemma {:induction false} Played(ws: seq<World>, moves: seq<Move>)
    requires |ws| == |moves| + 1 && forall k :: 0 <= k < |moves| ==> Follows(ws[k], moves[k], ws[k + 1])
    ensures Run(ws[0], moves) && After(ws[0], moves) == ws[|moves|]
    decreases |moves|
  {
    hide Enabled, Calm, Apply;
    if moves != [] {
      assert Follows(ws[0], moves[0], ws[1]);
      Played(ws[1..], moves[1..]);
    }
  }

  function Undisturbed(name: string, id: int): seq<Move> {
    [Create(0, name), Server(Commit(0, id)), Server(Query(0)), Server(Fetch(0)), Server(Resume(0)), Receive(0, 1)]
  }

  /** The world with this request of the generator's booking, before and after the row is there. */
  function Before(w: World, name: string, q: Request): World {
    World(w.sys.(reqs := map[0 := q]), Client(map[], map[], map[0 := Creating(name)], 0))
  }

  function WithBooking(s: Sys, name: string, id: int): Sys {
    s.(rows := s.rows[id := Row(NameCols(Some(name), None, None), s.clock)], clock := s.clock + 1,
       last := s.last[id := name])
  }

  function Behind(w: World, name: string, id: int, q: Request): World {
    Before(World(WithBooking(w.sys, name, id), w.client), name, q)
  }

  lemma Sends(w: World, name: string)
    requires Init(w) && Plain(name)
    ensures Follows(w, Create(0, name), Before(w, name, Inserting(name, [GuestName])))
  {
    hide Plain, SplitGuestName;
  }

  lemma Saves(w: World, name: string, id: int)
    requires Init(w) && id !in w.sys.rows
    ensures Follows(
      Before(w, name, Inserting(name, [GuestName])), Server(Commit(0, id)), Behind(w, name, id, Committed(id)))
  {
    hide Plain, SplitGuestName;
  }

  lemma Shows(w: World, name: string, id: int)
    requires Init(w)
    ensures var q1 := Querying(Show, id, [GuestName]);
      var q2 := Fetched(Show, id, [GuestName], NameCols(Some(name), None, None), w.sys.clock, name, true);
      && Follows(Behind(w, name, id, Committed(id)), Server(Query(0)), Behind(w, name, id, q1))
      && Follows(Behind(w, name, id, q1), Server(Fetch(0)), Behind(w, name, id, q2))
  {
    hide Plain, SplitGuestName;
  }

  lemma Answers(w: World, name: string, id: int)
    requires Init(w)
    ensures var q2 := Fetched(Show, id, [GuestName], NameCols(Some(name), None, None), w.sys.clock, name, true);
      Follows(Behind(w, name, id, q2), Server(Resume(0)),
              Behind(w, name, id, Answered(Shown(id, [GuestName], name, name, w.sys.clock, true))))
  {
    hide Plain, SplitGuestName;
  }

  lemma Enters(w: World, name: string, id: int)
    requires Init(w)
    ensures var t := Behind(w, name, id, Answered(Shown(id, [GuestName], name, name, w.sys.clock, true)));
      Follows(t, Receive(0, 1), World(t.sys, Client(map[id := name], map[id := w.sys.clock], map[], 0)))
  {
    hide Plain, SplitGuestName;
  }

  /** Undisturbed, in legacy, a booking of the generator's ends in the ledger with its name and
      its version, and nothing is counted as bad. */
  lemma BookingIsEntered(w: World, name: string, id: int)
    requires Init(w) && Plain(name) && id !in w.sys.rows
    ensures Run(w, Undisturbed(name, id))
    ensures After(w, Undisturbed(name, id)).client == Client(map[id := name], map[id := w.sys.clock], map[], 0)
  {
    hide Plain, Run, After, Follows, Before, Behind, Init;
    Sends(w, name);
    Saves(w, name, id);
    Shows(w, name, id);
    Answers(w, name, id);
    Enters(w, name, id);
    var w5 := Behind(w, name, id, Answered(Shown(id, [GuestName], name, name, w.sys.clock, true)));
    var w6 := World(w5.sys, Client(map[id := name], map[id := w.sys.clock], map[], 0));
    Played([
      w, Before(w, name, Inserting(name, [GuestName])), Behind(w, name, id, Committed(id)),
      Behind(w, name, id, Querying(Show, id, [GuestName])),
      Behind(w, name, id, Fetched(Show, id, [GuestName], NameCols(Some(name), None, None), w.sys.clock, name, true)),
      w5, w6], Undisturbed(name, id));
  }
}

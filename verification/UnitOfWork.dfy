/**
 `MemoryUnitOfWork` as tasks on one thread, interleaved at every await. A call reads the async-local marker of the
 task that makes it: inside a scope it becomes a task of that scope at once, outside it joins the tail of the chain
 and may start when the job before it has settled, fulfilled or rejected.
 */
module UnitOfWork {
  import opened Outcomes
  import opened WorkPrograms

  type TaskId = nat

  /** A client outside any scope, a job on the chain behind the job it waits for, or a nested call of a task. */
  datatype Origin = Client | Job(waitsFor: Option<TaskId>) | Nested(parent: TaskId)

  datatype Status = Waiting | Started | Settled(ok: bool)

  /** `marker` is the async-local store; `before` and `after` are the stores at start and when settled. */
  datatype Task = Task(
    origin: Origin, marker: bool, body: seq<Action>, rollsBack: bool, status: Status,
    left: seq<Action>, awaits: Option<TaskId>, catches: bool, before: Stores, after: Stores)

  /** `tail` is the last job put on the chain; none stands for the resolved promise the chain starts with. */
  datatype Machine = Machine(store: Stores, tasks: seq<Task>, tail: Option<TaskId>)

  function NewTask(origin: Origin, marker: bool, body: seq<Action>, rollsBack: bool, status: Status, s: Stores): Task {
    Task(origin, marker, body, rollsBack, status, body, None, false, s, s)
  }

  predicate HasSettled(m: Machine, i: TaskId) {
    i < |m.tasks| && m.tasks[i].status.Settled?
  }

  /** The task is not held up by a promise. */
  predicate Runnable(m: Machine, i: TaskId) {
    && i < |m.tasks|
    && match m.tasks[i].status
       case Waiting => m.tasks[i].origin.Job?
       && (m.tasks[i].origin.waitsFor.Some? ==> HasSettled(m, m.tasks[i].origin.waitsFor.value))
       case Started => m.tasks[i].awaits.Some? ==> HasSettled(m, m.tasks[i].awaits.value)
       case Settled(_) => false
  }

  datatype Turn = Turn(task: Task, store: Stores)

  /** The promise of the task settles; a failed job restores the participants it took snapshots of. */
  function Settle(t: Task, s: Stores, ok: bool): Turn {
    var after := if !ok && t.rollsBack then RollBack(t.before, s) else s;
    Turn(t.(status := Settled(ok), after := after), after)
  }

  /** The next action is a call through the unit of work. */
  predicate Calls(t: Task) {
    t.status.Started? && t.awaits.None? && t.left != [] && t.left[0].Call?
  }

  /** The awaited promise was rejected and is not caught, or the next check throws. */
  predicate Fails(t: Task, s: Stores, promised: bool) {
    if t.awaits.Some? then !promised && !t.catches
    else t.left != [] && t.left[0].Check? && !Passes(t.left[0], s)
  }

  /** What a task that makes no call does to itself and to the stores; `promised` is how the awaited promise settled. */
  function Go(t: Task, s: Stores, promised: bool): Turn
    requires !Calls(t) && !t.status.Settled?
  {
    if t.status.Waiting? then Turn(t.(status := Started, before := s), s)
    else if Fails(t, s, promised) then Settle(t, s, false)
    else if t.awaits.Some? then Turn(t.(awaits := None), s)
    else if t.left == [] then Settle(t, s, true)
    else Turn(t.(left := t.left[1..]), if t.left[0].Write? then Done(t.left[0], s) else s)
  }

  predicate Promised(m: Machine, t: Task) {
    t.awaits.Some? && HasSettled(m, t.awaits.value) && m.tasks[t.awaits.value].status.ok
  }

  /** The caller goes on at once, or when the call has settled. */
  function Calling(t: Task, called: TaskId): Task
    requires Calls(t)
  {
    var mode := t.left[0].mode;
    t.(left := t.left[1..], awaits := if mode == Floating then None else Some(called), catches := mode == Caught)
  }

  /**
   `run`, `transactional` and `exclusive`: inline in the scope when the marker is set, enqueued behind the tail
   otherwise.
   */
  function Called(m: Machine, i: TaskId): Task
    requires i < |m.tasks| && Calls(m.tasks[i])
  {
    var call := m.tasks[i].left[0];
    if m.tasks[i].marker then NewTask(Nested(i), true, call.body, false, Started, m.store)
    else NewTask(Job(m.tail), true, call.body, call.rollsBack, Waiting, m.store)
  }

  function Advance(m: Machine, i: TaskId): Machine
    requires Runnable(m, i)
  {
    var t := m.tasks[i];
    if Calls(t) then
      var tasks := (m.tasks + [Called(m, i)])[i := Calling(t, |m.tasks|)];
      m.(tasks := tasks, tail := if t.marker then m.tail else Some(|m.tasks|))
    else
      var turn := Go(t, m.store, Promised(m, t));
      m.(store := turn.store, tasks := m.tasks[i := turn.task])
  }

  /** A client arrives, or any runnable task goes on to its next await. */
  datatype Event = Arrive(body: seq<Action>) | Resume(task: TaskId)

  function Happen(m: Machine, event: Event): Machine {
    match event
    case Arrive(body) => m.(tasks := m.tasks + [NewTask(Client, false, body, false, Started, m.store)])
    case Resume(i) => if Runnable(m, i) then Advance(m, i) else m
  }

  function Fresh(s: Stores): Machine {
    Machine(s, [], None)
  }

  function Run(m: Machine, events: seq<Event>): Machine {
    if events == [] then m else Happen(Run(m, events[..|events| - 1]), events[|events| - 1])
  }

  predicate IsJob(tasks: seq<Task>, i: TaskId) {
    i < |tasks| && tasks[i].origin.Job?
  }

  // ---------- writes outside the unit of work ----------

  ghost predicate NoneStarted(tasks: seq<Task>) {
    forall j: TaskId :: IsJob(tasks, j) ==> !tasks[j].status.Started?
  }

  predicate WritesNext(t: Task) {
    t.awaits.None? && t.left != [] && t.left[0].Write?
  }

  /** A client writes to the stores itself, as the compensation of a failed operation does. */
  predicate WritesOutside(m: Machine, event: Event) {
    event.Resume? && Runnable(m, event.task) && !m.tasks[event.task].marker && WritesNext(m.tasks[event.task])
  }

  /** Clients write only while no job is started. */
  ghost predicate ApartFrom(m: Machine, events: seq<Event>) {
    forall n :: 0 <= n < |events| && WritesOutside(Run(m, events[..n]), events[n]) ==>
      NoneStarted(Run(m, events[..n]).tasks)
  }

  // ---------- what every reachable state satisfies ----------

  /**
   A task's links: parents are older and have started; inside a scope only the task's own calls are awaited, outside
   only jobs.
   */
  ghost predicate Linked(tasks: seq<Task>, i: TaskId)
    requires i < |tasks|
  {
    var t := tasks[i];
    && (t.marker <==> !t.origin.Client?)
    && (!t.origin.Job? ==> !t.status.Waiting? && !t.rollsBack)
    && (t.origin.Nested? ==>
          t.origin.parent < i && tasks[t.origin.parent].marker && !tasks[t.origin.parent].status.Waiting?)
    && (t.awaits.Some? ==>
          && i < t.awaits.value < |tasks|
          && (if t.marker then tasks[t.awaits.value].origin == Nested(i) else IsJob(tasks, t.awaits.value)))
  }

  /** The last job among the first n tasks. */
  function LastJob(tasks: seq<Task>, n: nat): (last: Option<TaskId>)
    requires n <= |tasks|
    ensures last.None? ==> forall i: TaskId :: i < n ==> !IsJob(tasks, i)
    ensures last.Some? ==> last.value < n && IsJob(tasks, last.value)
    ensures last.Some? ==> forall i: TaskId :: last.value < i < n ==> !IsJob(tasks, i)
  {
    if n == 0 then None
    else if tasks[n - 1].origin.Job? then Some(n - 1)
    else LastJob(tasks, n - 1)
  }

  /** Jobs wait for the job enqueued just before them, and start only when all earlier ones have settled. */
  ghost predicate Queued(tasks: seq<Task>, j: TaskId)
    requires j < |tasks|
  {
    tasks[j].origin.Job? ==>
      && tasks[j].origin.waitsFor == LastJob(tasks, j)
      && (!tasks[j].status.Waiting? ==> forall i: TaskId :: i < j && IsJob(tasks, i) ==> tasks[i].status.Settled?)
  }

  ghost predicate Ordered(tasks: seq<Task>) {
    forall i: TaskId :: i < |tasks| ==> Linked(tasks, i) && Queued(tasks, i)
  }

  ghost predicate Inv(m: Machine) {
    Ordered(m.tasks) && m.tail == LastJob(m.tasks, |m.tasks|)
  }

  lemma {:induction false} LastJobSame(a: seq<Task>, b: seq<Task>, n: nat)
    requires n <= |a| && n <= |b| && forall i :: 0 <= i < n ==> a[i].origin == b[i].origin
    ensures LastJob(a, n) == LastJob(b, n)
  {
    if n > 0 {
      LastJobSame(a, b, n - 1);
    }
  }

  /** What may change about a task that is not new. */
  ghost predicate Moves(before: Task, after: Task) {
    && after.origin == before.origin && after.marker == before.marker && after.rollsBack == before.rollsBack
    && (after.awaits == before.awaits || after.awaits == None)
    && (after.status == before.status || (!after.status.Waiting? && !before.status.Settled?))
  }

  lemma PutKeeps(tasks: seq<Task>, i: TaskId, t: Task)
    requires Ordered(tasks) && i < |tasks| && Moves(tasks[i], t)
    requires tasks[i].status.Waiting? && !t.status.Waiting? ==>
               forall k: TaskId :: k < i && IsJob(tasks, k) ==> tasks[k].status.Settled?
    ensures Ordered(tasks[i := t]) && LastJob(tasks[i := t], |tasks|) == LastJob(tasks, |tasks|)
  {
    hide LastJob;
    var next := tasks[i := t];
    LastJobSame(next, tasks, |tasks|);
    forall j: TaskId | j < |next| ensures Linked(next, j) && Queued(next, j) {
      assert Linked(tasks, j) && Queued(tasks, j);
      LastJobSame(next, tasks, j);
      PutQueued(tasks, i, t, j);
    }
  }

  lemma PutQueued(tasks: seq<Task>, i: TaskId, t: Task, j: TaskId)
    requires i < |tasks| && j < |tasks| && Moves(tasks[i], t) && Queued(tasks, j) && Queued(tasks, i)
    requires LastJob(tasks[i := t], j) == LastJob(tasks, j)
    requires tasks[i].status.Waiting? && !t.status.Waiting? ==>
               forall k: TaskId :: k < i && IsJob(tasks, k) ==> tasks[k].status.Settled?
    ensures Queued(tasks[i := t], j)
  {
    hide LastJob;
    var next := tasks[i := t];
    if IsJob(next, j) && !next[j].status.Waiting? {
      forall k: TaskId | k < j && IsJob(next, k) ensures next[k].status.Settled? {
        assert IsJob(tasks, k);
      }
    }
  }

  lemma AppendKeeps(tasks: seq<Task>, t: Task)
    requires Ordered(tasks) && t.awaits == None && (t.marker <==> !t.origin.Client?)
    requires if t.origin.Job? then t.status.Waiting? && t.origin.waitsFor == LastJob(tasks, |tasks|)
             else t.status.Started? && !t.rollsBack
    requires t.origin.Nested? ==>
               t.origin.parent < |tasks| && tasks[t.origin.parent].marker && !tasks[t.origin.parent].status.Waiting?
    ensures Ordered(tasks + [t])
    ensures LastJob(tasks + [t], |tasks| + 1) == if t.origin.Job? then Some(|tasks|) else LastJob(tasks, |tasks|)
  {
    var next := tasks + [t];
    LastJobSame(next, tasks, |tasks|);
    forall j: TaskId | j < |next| ensures Linked(next, j) && Queued(next, j) {
      if j < |tasks| {
        assert Linked(tasks, j) && Queued(tasks, j);
        LastJobSame(next, tasks, j);
        assert forall k: TaskId :: k < j ==> (IsJob(next, k) <==> IsJob(tasks, k));
      }
    }
  }

  /** The caller of a new task may await it. */
  lemma AwaitKeeps(tasks: seq<Task>, i: TaskId, t: Task)
    requires Ordered(tasks) && i + 1 < |tasks| && Moves(tasks[i], t.(awaits := None)) && t.status == tasks[i].status
    requires t.awaits.Some? ==>
               t.awaits.value == |tasks| - 1
               && (if t.marker then tasks[t.awaits.value].origin == Nested(i) else IsJob(tasks, t.awaits.value))
    ensures Ordered(tasks[i := t]) && LastJob(tasks[i := t], |tasks|) == LastJob(tasks, |tasks|)
  {
    hide LastJob;
    var plain := tasks[i := t.(awaits := None)];
    PutKeeps(tasks, i, t.(awaits := None));
    var next := tasks[i := t];
    LastJobSame(next, plain, |tasks|);
    forall j: TaskId | j < |next| ensures Linked(next, j) && Queued(next, j) {
      assert Linked(plain, j) && Queued(plain, j);
      LastJobSame(next, plain, j);
      AwaitQueued(plain, next, j);
    }
  }

  lemma AwaitQueued(tasks: seq<Task>, next: seq<Task>, j: TaskId)
    requires |next| == |tasks| && j < |tasks| && Queued(tasks, j) && LastJob(next, j) == LastJob(tasks, j)
    requires forall k :: 0 <= k < |tasks| ==> next[k].origin == tasks[k].origin && next[k].status == tasks[k].status
    ensures Queued(next, j)
  {
    hide LastJob;
    assert forall k: TaskId :: IsJob(next, k) <==> IsJob(tasks, k);
  }

  lemma CallKeeps(m: Machine, i: TaskId)
    requires Inv(m) && Runnable(m, i) && Calls(m.tasks[i])
    ensures Inv(Advance(m, i))
  {
    var called, calling := Called(m, i), Calling(m.tasks[i], |m.tasks|);
    CallAppends(m, i);
    assert Linked(m.tasks, i);
    CalledFits(m, i);
    hide LastJob, Linked, Ordered, Called, Calling, Moves;
    AwaitKeeps(m.tasks + [called], i, calling);
  }

  /** The called task joins the others. */
  lemma CallAppends(m: Machine, i: TaskId)
    requires Inv(m) && Runnable(m, i) && Calls(m.tasks[i])
    ensures var next := m.tasks + [Called(m, i)];
            && Ordered(next)
            && LastJob(next, |next|) == if Called(m, i).origin.Job? then Some(|m.tasks|)
              else LastJob(m.tasks, |m.tasks|)
  {
    assert Linked(m.tasks, i);
    CalledFits(m, i);
    hide LastJob, Linked, Ordered, Called, Calling, Moves;
    AppendKeeps(m.tasks, Called(m, i));
  }

  lemma CalledFits(m: Machine, i: TaskId)
    requires i < |m.tasks| && Calls(m.tasks[i]) && Linked(m.tasks, i)
    ensures var t, called, calling := m.tasks[i], Called(m, i), Calling(m.tasks[i], |m.tasks|);
            && called.awaits == None && called.marker && !called.origin.Client?
            && (if t.marker then called.origin == Nested(i) && called.status.Started? && !called.rollsBack
                else called.origin == Job(m.tail) && called.status.Waiting?)
            && Moves(t, calling.(awaits := None)) && calling.status == t.status
            && (calling.awaits.Some? ==> calling.awaits.value == |m.tasks|)
  {
  }

  /** A job that may start is behind settled jobs only. */
  lemma StartsBehindSettled(m: Machine, i: TaskId)
    requires Inv(m) && Runnable(m, i) && m.tasks[i].status.Waiting?
    ensures forall k: TaskId :: k < i && IsJob(m.tasks, k) ==> m.tasks[k].status.Settled?
  {
    assert Queued(m.tasks, i);
    forall k: TaskId | k < i && IsJob(m.tasks, k) ensures m.tasks[k].status.Settled? {
      var w := m.tasks[i].origin.waitsFor.value;
      assert Queued(m.tasks, w);
      assert k <= w;
    }
  }

  lemma GoMoves(t: Task, s: Stores, promised: bool)
    requires !Calls(t) && !t.status.Settled?
    ensures Moves(t, Go(t, s, promised).task)
  {
    hide RollBack, Done, Fails;
    if t.status.Waiting? {
    } else if Fails(t, s, promised) {
    } else if t.awaits.Some? {
    } else if t.left == [] {
    } else {
    }
  }

  lemma AdvanceKeeps(m: Machine, i: TaskId)
    requires Inv(m) && Runnable(m, i)
    ensures Inv(Advance(m, i))
  {
    var t := m.tasks[i];
    if Calls(t) {
      CallKeeps(m, i);
    } else {
      if t.status.Waiting? {
        StartsBehindSettled(m, i);
      }
      GoMoves(t, m.store, Promised(m, t));
      hide LastJob, Ordered, Go, Calls;
      PutKeeps(m.tasks, i, Go(t, m.store, Promised(m, t)).task);
    }
  }

  lemma HappenKeeps(m: Machine, event: Event)
    requires Inv(m)
    ensures Inv(Happen(m, event))
  {
    hide LastJob, Ordered, Advance;
    match event
    case Arrive(body) => AppendKeeps(m.tasks, NewTask(Client, false, body, false, Started, m.store));
    case Resume(i) =>
      if Runnable(m, i) {
        AdvanceKeeps(m, i);
      }
  }

  lemma {:induction false} Reachable(start: Stores, events: seq<Event>)
    ensures Inv(Run(Fresh(start), events))
  {
    hide Inv, Happen;
    if events == [] {
      FreshInv(start);
    } else {
      Reachable(start, events[..|events| - 1]);
      HappenKeeps(Run(Fresh(start), events[..|events| - 1]), events[|events| - 1]);
    }
  }

  lemma FreshInv(start: Stores)
    ensures Inv(Fresh(start))
  {
  }

  // ---------- exclusion, order, progress: for any programs, awaited or not ----------

  /** At most one job is started and unsettled: top-level operations never overlap. */
  lemma OneAtATime(start: Stores, events: seq<Event>, i: TaskId, j: TaskId)
    requires var m := Run(Fresh(start), events); IsJob(m.tasks, i) && IsJob(m.tasks, j)
    requires var m := Run(Fresh(start), events); m.tasks[i].status.Started? && m.tasks[j].status.Started?
    ensures i == j
  {
    Reachable(start, events);
    assert Queued(Run(Fresh(start), events).tasks, i) && Queued(Run(Fresh(start), events).tasks, j);
  }

  /** First in, first out: a job that has started finds every job enqueued before it settled, failed or not. */
  lemma FirstInFirstOut(start: Stores, events: seq<Event>, i: TaskId, j: TaskId)
    requires var m := Run(Fresh(start), events);
             i < j && IsJob(m.tasks, i) && IsJob(m.tasks, j) && !m.tasks[j].status.Waiting?
    ensures Run(Fresh(start), events).tasks[i].status.Settled?
  {
    Reachable(start, events);
    assert Queued(Run(Fresh(start), events).tasks, j);
  }

  /**
   A call made inside a scope is never on the chain: what a task of a scope awaits is its own call, already started.
   */
  lemma ScopesNeverWait(start: Stores, events: seq<Event>, i: TaskId)
    requires var m := Run(Fresh(start), events); i < |m.tasks| && m.tasks[i].marker && m.tasks[i].awaits.Some?
    ensures var m := Run(Fresh(start), events);
            var called := m.tasks[i].awaits.value;
            called < |m.tasks| && m.tasks[called].origin == Nested(i) && !m.tasks[called].status.Waiting?
  {
    Reachable(start, events);
    var tasks := Run(Fresh(start), events).tasks;
    assert Linked(tasks, i) && Linked(tasks, tasks[i].awaits.value);
  }

  /** Following what the tasks of a scope await leads to one that can go on. */
  lemma ScopeGoesOn(m: Machine, i: TaskId) returns (next: TaskId)
    requires Inv(m) && i < |m.tasks| && m.tasks[i].marker && m.tasks[i].status.Started?
    ensures Runnable(m, next) && m.tasks[next].marker
    decreases |m.tasks| - i
  {
    assert Linked(m.tasks, i);
    next := i;
    if !Runnable(m, i) {
      var called := m.tasks[i].awaits.value;
      assert Linked(m.tasks, called);
      next := ScopeGoesOn(m, called);
    }
  }

  lemma JobGoesOn(m: Machine, i: TaskId) returns (next: TaskId)
    requires Inv(m) && IsJob(m.tasks, i) && !m.tasks[i].status.Settled?
    ensures Runnable(m, next)
    decreases i
  {
    assert Linked(m.tasks, i);
    if m.tasks[i].status.Started? {
      next := ScopeGoesOn(m, i);
    } else if Runnable(m, i) {
      next := i;
    } else {
      assert Queued(m.tasks, i);
      var w := m.tasks[i].origin.waitsFor.value;
      next := JobGoesOn(m, w);
    }
  }

  ghost predicate AllSettled(m: Machine) {
    forall i :: 0 <= i < |m.tasks| ==> m.tasks[i].status.Settled?
  }

  /** No deadlock: while anything is unsettled, something can go on, and no client need write beside a started job. */
  lemma SomethingGoesOn(m: Machine) returns (next: TaskId)
    requires Inv(m) && !AllSettled(m)
    ensures Runnable(m, next) && (m.tasks[next].marker || NoneStarted(m.tasks))
  {
    if j: TaskId :| IsJob(m.tasks, j) && m.tasks[j].status.Started? {
      assert Linked(m.tasks, j);
      next := ScopeGoesOn(m, j);
      return;
    }
    var i :| 0 <= i < |m.tasks| && !m.tasks[i].status.Settled?;
    assert Linked(m.tasks, i);
    if m.tasks[i].origin.Job? {
      next := JobGoesOn(m, i);
    } else if m.tasks[i].marker {
      next := ScopeGoesOn(m, i);
    } else if Runnable(m, i) {
      next := i;
    } else {
      var called := m.tasks[i].awaits.value;
      assert Linked(m.tasks, called);
      next := JobGoesOn(m, called);
    }
  }

  // ---------- everything submitted can finish ----------

  function Size(body: seq<Action>): nat {
    if body == [] then 0
    else (match body[0] case Call(inner, _, _) => 4 + Size(inner) case _ => 1) + Size(body[1..])
  }

  /** The turns a task has left at most, those of calls it has not made included. */
  function TurnsLeft(t: Task): nat {
    if t.status.Settled? then 0
    else 1 + Size(t.left) + (if t.awaits.Some? then 1 else 0) + if t.status.Waiting? then 1 else 0
  }

  function Total(tasks: seq<Task>): nat {
    if tasks == [] then 0 else Total(tasks[..|tasks| - 1]) + TurnsLeft(tasks[|tasks| - 1])
  }

  lemma {:induction false} TotalPut(tasks: seq<Task>, i: TaskId, t: Task)
    requires i < |tasks|
    ensures Total(tasks[i := t]) + TurnsLeft(tasks[i]) == Total(tasks) + TurnsLeft(t)
  {
    hide TurnsLeft;
    var n: nat := |tasks| - 1;
    if i < n {
      TotalPut(tasks[..n], i, t);
      assert tasks[i := t][..n] == tasks[..n][i := t];
    } else {
      assert tasks[i := t][..n] == tasks[..n];
    }
  }

  lemma GoShrinks(t: Task, s: Stores, promised: bool)
    requires !Calls(t) && !t.status.Settled?
    ensures TurnsLeft(Go(t, s, promised).task) < TurnsLeft(t)
  {
    hide RollBack, Done, Fails;
    if t.status.Waiting? {
    } else if Fails(t, s, promised) {
    } else if t.awaits.Some? {
    } else if t.left == [] {
    } else {
    }
  }

  lemma CallShrinks(m: Machine, i: TaskId)
    requires i < |m.tasks| && Calls(m.tasks[i])
    ensures TurnsLeft(Called(m, i)) + TurnsLeft(Calling(m.tasks[i], |m.tasks|)) < TurnsLeft(m.tasks[i])
  {
  }

  lemma AdvanceShrinks(m: Machine, i: TaskId)
    requires Runnable(m, i)
    ensures Total(Advance(m, i).tasks) < Total(m.tasks)
  {
    var t := m.tasks[i];
    if Calls(t) {
      CallShrinks(m, i);
      hide TurnsLeft, Called, Calling, Calls;
      assert (m.tasks + [Called(m, i)])[..|m.tasks|] == m.tasks;
      TotalPut(m.tasks + [Called(m, i)], i, Calling(t, |m.tasks|));
    } else {
      GoShrinks(t, m.store, Promised(m, t));
      hide TurnsLeft, Go, Calls;
      TotalPut(m.tasks, i, Go(t, m.store, Promised(m, t)).task);
    }
  }

  lemma {:induction false} RunTwice(m: Machine, a: seq<Event>, b: seq<Event>)
    ensures Run(m, a + b) == Run(Run(m, a), b)
  {
    hide Happen;
    if b == [] {
      assert a + b == a;
    } else {
      RunTwice(m, a, b[..|b| - 1]);
      assert (a + b)[..|a + b| - 1] == a + b[..|b| - 1];
    }
  }

  /** Turns of tasks already there, ending with every promise settled. */
  lemma {:induction false} Drains(m: Machine) returns (turns: seq<Event>)
    requires Inv(m)
    ensures forall e :: e in turns ==> e.Resume?
    ensures AllSettled(Run(m, turns)) && ApartFrom(m, turns)
    decreases Total(m.tasks)
  {
    hide Inv, Runnable, Advance, NoneStarted;
    turns := [];
    if !AllSettled(m) {
      var next := SomethingGoesOn(m);
      AdvanceKeeps(m, next);
      AdvanceShrinks(m, next);
      var rest := Drains(Advance(m, next));
      turns := [Resume(next)] + rest;
      RunTwice(m, [Resume(next)], rest);
      RunOne(m, Resume(next));
      ApartOne(m, Resume(next));
      ApartTwice(m, [Resume(next)], rest);
    }
  }

  lemma RunOne(m: Machine, event: Event)
    ensures Run(m, [event]) == Happen(m, event)
  {
    assert [event][..0] == [];
  }

  lemma RunThree(m: Machine, a: Event, b: Event, c: Event)
    ensures Run(m, [a, b, c]) == Happen(Happen(Happen(m, a), b), c)
  {
    hide Happen, Run;
    RunOne(m, a);
    RunOne(Happen(m, a), b);
    RunOne(Happen(Happen(m, a), b), c);
    RunTwice(m, [a], [b]);
    RunTwice(m, [a] + [b], [c]);
    assert [a] + [b] + [c] == [a, b, c];
  }

  lemma ApartOne(m: Machine, event: Event)
    requires WritesOutside(m, event) ==> NoneStarted(m.tasks)
    ensures ApartFrom(m, [event])
  {
    assert [event][..0] == [];
  }

  lemma ApartTwice(m: Machine, a: seq<Event>, b: seq<Event>)
    requires ApartFrom(m, a) && ApartFrom(Run(m, a), b)
    ensures ApartFrom(m, a + b)
  {
    hide WritesOutside, NoneStarted, Run;
    forall n | 0 <= n < |a + b| && WritesOutside(Run(m, (a + b)[..n]), (a + b)[n])
      ensures NoneStarted(Run(m, (a + b)[..n]).tasks)
    {
      if n < |a| {
        assert (a + b)[..n] == a[..n];
      } else {
        assert (a + b)[..n] == a + b[..n - |a|];
        RunTwice(m, a, b[..n - |a|]);
      }
    }
  }

  /** Whatever has happened, failures included, everything can go on until every promise has settled. */
  lemma EverythingSettles(start: Stores, events: seq<Event>) returns (turns: seq<Event>)
    ensures forall e :: e in turns ==> e.Resume?
    ensures AllSettled(Run(Fresh(start), events + turns))
    ensures ApartFrom(Run(Fresh(start), events), turns)
  {
    Reachable(start, events);
    turns := Drains(Run(Fresh(start), events));
    RunTwice(Fresh(start), events, turns);
  }
}

/**
 Where nested calls are awaited, a scope works like a stack of calls, and what the chain leaves is the serial reading of
 the jobs as they settle and of what clients write between them, each failed job undone as far as its participants go.
 */
module SerialReading {
  import opened Outcomes
  import opened WorkPrograms
  import opened UnitOfWork
  import opened SerialUnitOfWork

  predicate AllAwaited(body: seq<Action>) {
    body != [] ==> (body[0].Call? ==> body[0].mode != Floating && AllAwaited(body[0].body)) && AllAwaited(body[1..])
  }

  /** What a client submits awaits its nested calls. */
  predicate Disciplined(body: seq<Action>) {
    forall k :: 0 <= k < |body| && body[k].Call? ==> AllAwaited(body[k].body)
  }

  ghost predicate DisciplinedClients(events: seq<Event>) {
    forall e :: e in events && e.Arrive? ==> Disciplined(e.body)
  }

  ghost predicate Awaiting(tasks: seq<Task>, i: TaskId)
    requires i < |tasks|
  {
    var t := tasks[i];
    && (if t.marker then AllAwaited(t.left) && AllAwaited(t.body) else Disciplined(t.left))
    && (t.status.Waiting? ==> t.left == t.body && t.awaits.None?)
    && (t.origin.Nested? && !t.status.Settled? ==>
          t.origin.parent < i && tasks[t.origin.parent].status.Started? && tasks[t.origin.parent].awaits == Some(i))
  }

  /** How a task will end from here, if only its own calls run. */
  function Finish(tasks: seq<Task>, i: TaskId, s: Stores): Ending
    requires i < |tasks|
    decreases |tasks| - i
  {
    var t := tasks[i];
    if t.status.Settled? then Ending(t.status.ok, s)
    else if t.awaits.None? || t.awaits.value <= i || t.awaits.value >= |tasks| then Exec(t.left, s)
    else
      var e := Finish(tasks, t.awaits.value, s);
      if e.ok || t.catches then Exec(t.left, e.store) else e
  }

  /** The job ends, or has ended, as its serial reading from the stores it began with. */
  ghost predicate Reads(tasks: seq<Task>, s: Stores, j: TaskId)
    requires j < |tasks|
  {
    var t := tasks[j];
    t.origin.Job? ==>
      match t.status
      case Waiting => true
      case Started => Finish(tasks, j, s) == Exec(t.body, t.before)
      case Settled(ok) => ok == Exec(t.body, t.before).ok && t.after == Serial(t.body, t.rollsBack, t.before)
  }

  ghost predicate AllAwait(m: Machine) {
    forall i: TaskId :: i < |m.tasks| ==> Awaiting(m.tasks, i)
  }

  ghost predicate Reading(m: Machine) {
    AllAwait(m) && forall i: TaskId :: i < |m.tasks| ==> Reads(m.tasks, m.store, i)
  }

  // ---------- one turn ----------

  /** From `top`, following what is awaited, one comes to `i`. */
  predicate OnPath(tasks: seq<Task>, top: TaskId, i: TaskId)
    decreases |tasks| - top
  {
    && top < |tasks| && i < |tasks|
    && (top == i
        || (!tasks[top].status.Settled? && tasks[top].awaits.Some? && top < tasks[top].awaits.value
            && OnPath(tasks, tasks[top].awaits.value, i)))
  }

  lemma {:induction false} PathOn(tasks: seq<Task>, top: TaskId, mid: TaskId, i: TaskId)
    requires OnPath(tasks, top, mid) && mid < i < |tasks| && !tasks[mid].status.Settled? && tasks[mid].awaits == Some(i)
    ensures OnPath(tasks, top, i)
    decreases |tasks| - top
  {
    if top != mid {
      PathOn(tasks, tasks[top].awaits.value, mid, i);
    } else {
      assert OnPath(tasks, i, i);
    }
  }

  lemma {:induction false} ClimbPath(m: Machine, i: TaskId) returns (j: TaskId)
    requires Inv(m) && AllAwait(m) && i < |m.tasks| && m.tasks[i].marker && m.tasks[i].status.Started?
    ensures IsJob(m.tasks, j) && m.tasks[j].status.Started? && OnPath(m.tasks, j, i)
    decreases i
  {
    assert Linked(m.tasks, i) && Awaiting(m.tasks, i);
    j := i;
    if m.tasks[i].origin.Nested? {
      var p := m.tasks[i].origin.parent;
      j := ClimbPath(m, p);
      PathOn(m.tasks, j, p, i);
    }
  }

  /** A change to one task that keeps how it will end keeps how everything above it will end. */
  lemma {:induction false} PathFinishes(a: seq<Task>, s: Stores, b: seq<Task>, u: Stores, i: TaskId, top: TaskId)
    requires OnPath(a, top, i) && |a| <= |b| && forall k :: 0 <= k < |a| && k != i ==> b[k] == a[k]
    requires Finish(b, i, u) == Finish(a, i, s)
    ensures Finish(b, top, u) == Finish(a, top, s)
    decreases |a| - top
  {
    if top != i {
      PathFinishes(a, s, b, u, i, a[top].awaits.value);
    }
  }

  /** Tasks outside every scope have no part in how a task of a scope ends. */
  lemma {:induction false} FinishFrame(a: seq<Task>, b: seq<Task>, j: TaskId, s: Stores)
    requires Ordered(a) && |a| <= |b| && j < |a| && a[j].marker && forall k :: 0 <= k < |a| && a[k].marker ==>
               b[k] == a[k]
    ensures Finish(b, j, s) == Finish(a, j, s)
    decreases |a| - j
  {
    assert Linked(a, j);
    if a[j].awaits.Some? {
      assert Linked(a, a[j].awaits.value);
      FinishFrame(a, b, a[j].awaits.value, s);
    }
  }

  /** How the task ends as seen before the turn, in terms of the turn. */
  lemma GoFinishes(m: Machine, i: TaskId)
    requires Runnable(m, i) && m.tasks[i].status.Started? && !Calls(m.tasks[i]) && Linked(m.tasks, i)
    requires m.tasks[i].marker && AllAwaited(m.tasks[i].left)
    ensures var turn := Go(m.tasks[i], m.store, Promised(m, m.tasks[i]));
            Finish(m.tasks, i, m.store) ==
            if turn.task.status.Settled? then Ending(turn.task.status.ok, m.store) else Exec(turn.task.left, turn.store)
    ensures var turn := Go(m.tasks[i], m.store, Promised(m, m.tasks[i]));
            !turn.task.status.Settled? ==> turn.task.awaits.None? && AllAwaited(turn.task.left)
  {
    hide RollBack, Done, Passes;
    var t := m.tasks[i];
    if Fails(t, m.store, Promised(m, t)) {
    } else if t.awaits.Some? {
    } else if t.left == [] {
    } else {
    }
  }

  lemma CallFinishes(m: Machine, i: TaskId)
    requires Runnable(m, i) && Calls(m.tasks[i]) && m.tasks[i].marker && AllAwaited(m.tasks[i].left)
    ensures Finish(Advance(m, i).tasks, i, m.store) == Finish(m.tasks, i, m.store)
  {
    var t, n := m.tasks[i], Advance(m, i);
    var called := |m.tasks|;
    assert n.tasks[called] == Called(m, i) && n.tasks[i] == Calling(t, called);
    assert Finish(n.tasks, called, m.store) == Exec(t.left[0].body, m.store);
  }

  // ---------- the invariant ----------

  /** One task moves, having no unsettled call it awaits. */
  lemma PutAwaiting(tasks: seq<Task>, i: TaskId, u: Task, k: TaskId)
    requires i < |tasks| && k < |tasks| && Awaiting(tasks, i) && Awaiting(tasks, k)
    requires u.origin == tasks[i].origin && u.marker == tasks[i].marker && u.body == tasks[i].body && !u.status.Waiting?
    requires u.left == tasks[i].left || (tasks[i].left != [] && u.left == tasks[i].left[1..])
    requires !tasks[i].status.Settled?
    requires tasks[i].awaits.Some? && tasks[i].awaits.value < |tasks| ==> tasks[tasks[i].awaits.value].status.Settled?
    ensures Awaiting(tasks[i := u], k)
  {
  }

  lemma TurnAwaiting(m: Machine, i: TaskId)
    requires Inv(m) && AllAwait(m) && Runnable(m, i) && !Calls(m.tasks[i])
    ensures forall k: TaskId :: k < |m.tasks| ==> Awaiting(Advance(m, i).tasks, k)
  {
    var t := m.tasks[i];
    GoShape(t, m.store, Promised(m, t));
    assert Awaiting(m.tasks, i) && Linked(m.tasks, i);
    hide Go, Calls, Awaiting, Linked;
    var u := Go(t, m.store, Promised(m, t)).task;
    var next := m.tasks[i := u];
    forall k: TaskId | k < |m.tasks| ensures Awaiting(next, k) {
      assert Awaiting(m.tasks, k);
      PutAwaiting(m.tasks, i, u, k);
    }
  }

  lemma CallAwaiting(m: Machine, i: TaskId, k: TaskId)
    requires Inv(m) && AllAwait(m) && Runnable(m, i) && Calls(m.tasks[i]) && k < |Advance(m, i).tasks|
    ensures Awaiting(Advance(m, i).tasks, k)
  {
    var t, n := m.tasks[i], Advance(m, i);
    CallingShape(t, |m.tasks|);
    CalledAwaiting(m, i);
    hide Calling, Called, Awaiting;
    if k < |m.tasks| {
      assert Awaiting(m.tasks, k) && Awaiting(m.tasks, i);
      AppendAwaiting(m.tasks, i, Calling(t, |m.tasks|), Called(m, i), k);
    }
  }

  lemma CalledAwaiting(m: Machine, i: TaskId)
    requires Inv(m) && AllAwait(m) && Runnable(m, i) && Calls(m.tasks[i])
    ensures Awaiting(Advance(m, i).tasks, |m.tasks|)
  {
    assert Awaiting(m.tasks, i) && Linked(m.tasks, i);
    var t, n := m.tasks[i], Advance(m, i);
    assert n.tasks[|m.tasks|] == Called(m, i) && n.tasks[i] == Calling(t, |m.tasks|);
  }

  lemma AppendAwaiting(tasks: seq<Task>, i: TaskId, calling: Task, called: Task, k: TaskId)
    requires i < |tasks| && k < |tasks| && Awaiting(tasks, i) && Awaiting(tasks, k) && Calls(tasks[i])
    requires calling == tasks[i].(left := tasks[i].left[1..], awaits := calling.awaits, catches := calling.catches)
    ensures Awaiting((tasks + [called])[i := calling], k)
  {
  }

  /** The same records of jobs, their programs included. */
  ghost predicate SameJobs(a: seq<Task>, b: seq<Task>) {
    Extends(a, b) && forall k: TaskId :: k < |a| && a[k].origin.Job? ==> b[k].body == a[k].body
  }

  /** At most one job is started, so how that one will end is all there is to check. */
  lemma OneReads(a: seq<Task>, s: Stores, b: seq<Task>, u: Stores, j: TaskId, k: TaskId)
    requires Ordered(a) && SameJobs(a, b) && k < |a| && Reads(a, s, k)
    requires IsJob(a, j) && a[j].status.Started? && Finish(b, j, u) == Finish(a, j, s)
    ensures Reads(b, u, k)
  {
    hide Finish, Exec, Serial;
    if IsJob(a, k) && a[k].status.Started? {
      assert Queued(a, k) && Queued(a, j);
      assert k == j;
    }
  }

  lemma NewReads(tasks: seq<Task>, s: Stores, k: TaskId)
    requires k < |tasks| && (tasks[k].origin.Job? ==> tasks[k].status.Waiting?)
    ensures Reads(tasks, s, k)
  {
  }

  /** A job that is not started reads the same whatever the stores. */
  lemma RestReads(a: seq<Task>, s: Stores, b: seq<Task>, u: Stores, k: TaskId)
    requires k < |a| && k < |b| && Reads(a, s, k) && b[k] == a[k] && (IsJob(a, k) ==> !a[k].status.Started?)
    ensures Reads(b, u, k)
  {
    hide Finish, Exec, Serial;
  }

  lemma StartFinishes(m: Machine, i: TaskId)
    requires Inv(m) && Reading(m) && Runnable(m, i) && m.tasks[i].status.Waiting?
    ensures Finish(Advance(m, i).tasks, i, m.store) == Exec(m.tasks[i].body, m.store)
  {
    assert Awaiting(m.tasks, i);
    StartShape(m, i);
    hide Go, Advance, Exec, Inv, Runnable;
  }

  lemma StartReads(m: Machine, i: TaskId)
    requires Inv(m) && Reading(m) && Runnable(m, i) && m.tasks[i].status.Waiting?
    ensures forall k: TaskId :: k < |m.tasks| ==> Reads(Advance(m, i).tasks, m.store, k)
    ensures Advance(m, i).store == m.store
  {
    var n := Advance(m, i);
    StartShape(m, i);
    StartFinishes(m, i);
    hide Advance, Finish, Exec, Serial, Ordered, Runnable, Awaiting, Inv;
    forall k: TaskId | k < |m.tasks| ensures Reads(n.tasks, m.store, k) {
      assert Reads(m.tasks, m.store, k);
      if k != i {
        OnlyOne(n.tasks, i, k);
        RestReads(m.tasks, m.store, n.tasks, m.store, k);
      }
    }
  }

  lemma SettledReads(m: Machine, i: TaskId)
    requires Inv(m) && Reading(m) && Runnable(m, i) && IsJob(m.tasks, i) && m.tasks[i].status.Started?
          && !Calls(m.tasks[i])
    requires Go(m.tasks[i], m.store, Promised(m, m.tasks[i])).task.status.Settled?
    ensures var n := Advance(m, i);
            |n.tasks| == |m.tasks| && Reads(n.tasks, n.store, i) && forall k :: 0 <= k < |m.tasks| && k != i ==>
              n.tasks[k] == m.tasks[k]
  {
    var t := m.tasks[i];
    assert Awaiting(m.tasks, i) && Linked(m.tasks, i) && Reads(m.tasks, m.store, i);
    GoShape(t, m.store, Promised(m, t));
    GoFinishes(m, i);
    hide Go, Finish, Exec, Awaiting, Linked;
  }

  lemma SettleReads(m: Machine, i: TaskId)
    requires Inv(m) && Reading(m) && Runnable(m, i) && IsJob(m.tasks, i) && m.tasks[i].status.Started?
          && !Calls(m.tasks[i])
    requires Go(m.tasks[i], m.store, Promised(m, m.tasks[i])).task.status.Settled?
    ensures forall k: TaskId :: k < |m.tasks| ==> Reads(Advance(m, i).tasks, Advance(m, i).store, k)
  {
    var n := Advance(m, i);
    SettledReads(m, i);
    hide Go, Advance, Finish, Exec, Serial, Ordered, Runnable, Awaiting, Calls;
    forall k: TaskId | k < |m.tasks| ensures Reads(n.tasks, n.store, k) {
      assert Reads(m.tasks, m.store, k);
      if k != i {
        OnlyOne(m.tasks, i, k);
        RestReads(m.tasks, m.store, n.tasks, n.store, k);
      }
    }
  }

  lemma ScopeReads(m: Machine, i: TaskId, k: TaskId)
    requires Inv(m) && Reading(m) && Runnable(m, i) && m.tasks[i].marker && m.tasks[i].status.Started? && k < |m.tasks|
    requires Calls(m.tasks[i]) || !IsJob(m.tasks, i)
          || !Go(m.tasks[i], m.store, Promised(m, m.tasks[i])).task.status.Settled?
    ensures Reads(Advance(m, i).tasks, Advance(m, i).store, k)
  {
    var n := Advance(m, i);
    assert Reads(m.tasks, m.store, k);
    var j := ClimbPath(m, i);
    ScopeShape(m, i);
    ScopeFinishes(m, i);
    PathFinishes(m.tasks, m.store, n.tasks, n.store, i, j);
    OneReads(m.tasks, m.store, n.tasks, n.store, j, k);
  }

  lemma ScopeShape(m: Machine, i: TaskId)
    requires Inv(m) && Runnable(m, i) && m.tasks[i].status.Started?
    requires Calls(m.tasks[i]) || !IsJob(m.tasks, i)
          || !Go(m.tasks[i], m.store, Promised(m, m.tasks[i])).task.status.Settled?
    ensures var n := Advance(m, i);
            SameJobs(m.tasks, n.tasks) && forall k :: 0 <= k < |m.tasks| && k != i ==> n.tasks[k] == m.tasks[k]
  {
    if Calls(m.tasks[i]) {
      CallExtends(m, i);
      CallingShape(m.tasks[i], |m.tasks|);
      hide Calls, Calling, Called, Extends;
    } else {
      GoSameJobs(m, i);
    }
  }

  lemma PutSameJobs(tasks: seq<Task>, i: TaskId, u: Task)
    requires i < |tasks| && u == tasks[i].(status := u.status, left := u.left, awaits := u.awaits, after := u.after)
    requires u.origin.Job? ==> u.status == tasks[i].status && u.after == tasks[i].after
    ensures SameJobs(tasks, tasks[i := u])
  {
    hide Extends;
    PutExtends(tasks, i, u);
  }

  lemma GoSameJobs(m: Machine, i: TaskId)
    requires Runnable(m, i) && m.tasks[i].status.Started? && !Calls(m.tasks[i])
    requires !IsJob(m.tasks, i) || !Go(m.tasks[i], m.store, Promised(m, m.tasks[i])).task.status.Settled?
    ensures var n := Advance(m, i);
            SameJobs(m.tasks, n.tasks) && forall k :: 0 <= k < |m.tasks| && k != i ==> n.tasks[k] == m.tasks[k]
  {
    hide Go, Calls, SameJobs;
    var t := m.tasks[i];
    var u := Go(t, m.store, Promised(m, t)).task;
    GoShape(t, m.store, Promised(m, t));
    PutSameJobs(m.tasks, i, u);
  }

  lemma ScopeFinishes(m: Machine, i: TaskId)
    requires Inv(m) && Reading(m) && Runnable(m, i) && m.tasks[i].marker && m.tasks[i].status.Started?
    requires Calls(m.tasks[i]) || !IsJob(m.tasks, i)
          || !Go(m.tasks[i], m.store, Promised(m, m.tasks[i])).task.status.Settled?
    ensures Finish(Advance(m, i).tasks, i, Advance(m, i).store) == Finish(m.tasks, i, m.store)
  {
    var t := m.tasks[i];
    assert Awaiting(m.tasks, i) && Linked(m.tasks, i);
    if Calls(t) {
      CallFinishes(m, i);
    } else {
      GoFinishes(m, i);
      GoShape(t, m.store, Promised(m, t));
      hide Go, Exec;
    }
  }

  lemma ClientReads(m: Machine, i: TaskId, k: TaskId)
    requires Inv(m) && Reading(m) && Runnable(m, i) && !m.tasks[i].marker && k < |m.tasks|
    requires WritesNext(m.tasks[i]) ==> NoneStarted(m.tasks)
    ensures Reads(Advance(m, i).tasks, Advance(m, i).store, k)
  {
    ClientKeepsScopes(m, i);
    assert Linked(m.tasks, k) && Reads(m.tasks, m.store, k);
    var n := Advance(m, i);
    hide Advance, Finish, Exec, Serial, Reads, Reading, Runnable, SameJobs, Linked, NoneStarted;
    if IsJob(m.tasks, k) && m.tasks[k].status.Started? {
      SomeStarted(m.tasks, k);
      JobIsMarked(m.tasks, k);
      FinishFrame(m.tasks, n.tasks, k, m.store);
      OneReads(m.tasks, m.store, n.tasks, n.store, k, k);
    } else if IsJob(m.tasks, k) {
      JobIsMarked(m.tasks, k);
      RestReads(m.tasks, m.store, n.tasks, n.store, k);
    } else {
      SameOrigin(m.tasks, n.tasks, k);
      NewReads(n.tasks, n.store, k);
    }
  }

  lemma SomeStarted(tasks: seq<Task>, k: TaskId)
    requires IsJob(tasks, k) && tasks[k].status.Started?
    ensures !NoneStarted(tasks)
  {
  }

  lemma JobIsMarked(tasks: seq<Task>, k: TaskId)
    requires IsJob(tasks, k) && Linked(tasks, k)
    ensures tasks[k].marker
  {
  }

  lemma SameOrigin(a: seq<Task>, b: seq<Task>, k: TaskId)
    requires SameJobs(a, b) && k < |a|
    ensures k < |b| && b[k].origin == a[k].origin
  {
  }

  /** A client's turn leaves the tasks of every scope alone, and the stores too unless it writes itself. */
  lemma ClientKeepsScopes(m: Machine, i: TaskId)
    requires Inv(m) && Runnable(m, i) && !m.tasks[i].marker
    ensures var n := Advance(m, i);
            && (!WritesNext(m.tasks[i]) ==> n.store == m.store) && SameJobs(m.tasks, n.tasks) && |m.tasks| <= |n.tasks|
            && forall k :: 0 <= k < |m.tasks| && m.tasks[k].marker ==> n.tasks[k] == m.tasks[k]
  {
    assert Linked(m.tasks, i);
    ScopeShape(m, i);
    if !Calls(m.tasks[i]) {
      ClientStore(m, i);
      hide Go, Calls, Linked, SameJobs;
    } else {
      hide Calls, Called, Calling, Linked, SameJobs;
    }
  }

  lemma CallReads(m: Machine, i: TaskId)
    requires Inv(m) && Reading(m) && Runnable(m, i) && Calls(m.tasks[i])
    ensures Reading(Advance(m, i))
  {
    var n := Advance(m, i);
    assert |n.tasks| == |m.tasks| + 1 && n.tasks[|m.tasks|] == Called(m, i);
    NewReads(n.tasks, n.store, |m.tasks|);
    hide Inv, Calls, Advance, Awaiting, Reads;
    forall k: TaskId | k < |n.tasks| ensures Awaiting(n.tasks, k) && Reads(n.tasks, n.store, k) {
      CallAwaiting(m, i, k);
      if k < |m.tasks| {
        CallReadsAt(m, i, k);
      }
    }
  }

  lemma CallReadsAt(m: Machine, i: TaskId, k: TaskId)
    requires Inv(m) && Reading(m) && Runnable(m, i) && Calls(m.tasks[i]) && k < |m.tasks|
    ensures Reads(Advance(m, i).tasks, Advance(m, i).store, k)
  {
    CallSettlesNone(m, i);
    hide Inv, Reading, Advance;
    if m.tasks[i].marker {
      ScopeReads(m, i, k);
    } else {
      ClientReads(m, i, k);
    }
  }

  lemma GoReadsAt(m: Machine, i: TaskId, k: TaskId)
    requires Inv(m) && Reading(m) && Runnable(m, i) && !Calls(m.tasks[i]) && k < |m.tasks|
    requires WritesOutside(m, Resume(i)) ==> NoneStarted(m.tasks)
    ensures Reads(Advance(m, i).tasks, Advance(m, i).store, k)
  {
    hide Go, Calls, Advance, Reading, Reads, IsJob;
    var t := m.tasks[i];
    if t.status.Waiting? {
      StartReads(m, i);
    } else if IsJob(m.tasks, i) && Go(t, m.store, Promised(m, t)).task.status.Settled? {
      SettleReads(m, i);
    } else if t.marker {
      ScopeReads(m, i, k);
    } else {
      ClientReads(m, i, k);
    }
  }

  lemma TurnReads(m: Machine, i: TaskId)
    requires Inv(m) && Reading(m) && Runnable(m, i) && (WritesOutside(m, Resume(i)) ==> NoneStarted(m.tasks))
    ensures Reading(Advance(m, i))
  {
    if Calls(m.tasks[i]) {
      CallReads(m, i);
    } else {
      assert |Advance(m, i).tasks| == |m.tasks|;
      hide Inv, Calls, Advance, Awaiting, Reads;
      TurnAwaiting(m, i);
      forall k: TaskId | k < |m.tasks| ensures Reads(Advance(m, i).tasks, Advance(m, i).store, k) {
        GoReadsAt(m, i, k);
      }
    }
  }

  lemma ArriveAwaits(m: Machine, body: seq<Action>)
    requires AllAwait(m) && Disciplined(body)
    ensures AllAwait(Happen(m, Arrive(body)))
  {
    var n := Happen(m, Arrive(body));
    forall k: TaskId | k < |n.tasks| ensures Awaiting(n.tasks, k) {
      assert k < |m.tasks| ==> Awaiting(m.tasks, k);
    }
  }

  lemma ArriveReads(m: Machine, body: seq<Action>)
    requires Inv(m) && Reading(m) && Disciplined(body)
    ensures Reading(Happen(m, Arrive(body)))
  {
    ArriveAwaits(m, body);
    var n := Happen(m, Arrive(body));
    hide AllAwait;
    forall k: TaskId | k < |n.tasks| ensures Reads(n.tasks, n.store, k) {
      if k < |m.tasks| {
        assert Reads(m.tasks, m.store, k) && Linked(m.tasks, k);
        if IsJob(m.tasks, k) {
          FinishFrame(m.tasks, n.tasks, k, m.store);
        }
      }
    }
  }

  lemma TurnAwaits(m: Machine, i: TaskId)
    requires Inv(m) && AllAwait(m) && Runnable(m, i)
    ensures AllAwait(Advance(m, i))
  {
    var n := Advance(m, i);
    hide Awaiting, Inv;
    if Calls(m.tasks[i]) {
      forall k: TaskId | k < |n.tasks| ensures Awaiting(n.tasks, k) {
        CallAwaiting(m, i, k);
      }
    } else {
      TurnAwaiting(m, i);
      assert |n.tasks| == |m.tasks|;
    }
  }

  lemma {:induction false} ReachableAwaits(start: Stores, events: seq<Event>)
    requires DisciplinedClients(events)
    ensures AllAwait(Run(Fresh(start), events))
  {
    hide Inv, AllAwait, Runnable, Advance, Disciplined;
    if events == [] {
      NothingReads(start);
    } else {
      var rest, last := events[..|events| - 1], events[|events| - 1];
      ReachableAwaits(start, rest);
      Reachable(start, rest);
      var m := Run(Fresh(start), rest);
      match last
      case Arrive(body) => ArriveAwaits(m, body);
      case Resume(i) =>
        if Runnable(m, i) {
          TurnAwaits(m, i);
        }
    }
  }

  lemma {:induction false} ReachableReads(start: Stores, events: seq<Event>)
    requires DisciplinedClients(events) && Apart(start, events)
    ensures Reading(Run(Fresh(start), events))
  {
    hide Inv, Reading, Runnable, Advance, Disciplined, NoneStarted, WritesOutside, Apart;
    if events == [] {
      NothingReads(start);
    } else {
      var rest, last := events[..|events| - 1], events[|events| - 1];
      ApartBefore(start, events);
      ReachableReads(start, rest);
      Reachable(start, rest);
      var m := Run(Fresh(start), rest);
      match last
      case Arrive(body) => ArriveReads(m, body);
      case Resume(i) =>
        if Runnable(m, i) {
          TurnReads(m, i);
        }
    }
  }

  lemma NothingReads(start: Stores)
    ensures AllAwait(Fresh(start)) && Reading(Fresh(start))
  {
  }

  /** Awaiting every nested call is enough for none to outlive its parent. */
  lemma AwaitedSettleFirst(start: Stores, events: seq<Event>)
    requires DisciplinedClients(events)
    ensures ParentsLastThroughout(start, events)
  {
    forall n | 0 <= n <= |events| ensures ParentsLast(Run(Fresh(start), events[..n])) {
      ReachableAwaits(start, events[..n]);
      AwaitedLast(Run(Fresh(start), events[..n]));
    }
  }

  lemma AwaitedLast(m: Machine)
    requires AllAwait(m)
    ensures ParentsLast(m)
  {
    forall i: TaskId | i < |m.tasks| && m.tasks[i].origin.Nested? && !m.tasks[i].status.Settled?
      ensures m.tasks[i].origin.parent < |m.tasks| && !m.tasks[m.tasks[i].origin.parent].status.Settled?
    {
      assert Awaiting(m.tasks, i);
    }
  }

  // ---------- the serial reading of a run ----------

  /** The event, read serially: a job runs when it settles, and a client's write is done, on what was left so far. */
  function SerialAfter(m: Machine, event: Event, serial: Stores): Stores {
    if WritesOutside(m, event) then Done(m.tasks[event.task].left[0], serial)
    else if SettlesJob(m, event) then Serial(m.tasks[event.task].body, m.tasks[event.task].rollsBack, serial)
    else serial
  }

  /** The jobs one after another as they settle, each failed one undone, and what clients write between them. */
  function SerialSoFar(start: Stores, events: seq<Event>): Stores {
    if events == [] then start
    else
      var rest, last := events[..|events| - 1], events[|events| - 1];
      SerialAfter(Run(Fresh(start), rest), last, SerialSoFar(start, rest))
  }

  lemma SettledIs(m: Machine, left: Stores, i: TaskId)
    requires Inv(m) && Follows(m, left) && SettlesJob(m, Resume(i)) && Reading(Happen(m, Resume(i)))
    ensures Happen(m, Resume(i)).store == Serial(m.tasks[i].body, m.tasks[i].rollsBack, left)
  {
    hide Go, Exec, Serial, Finish, RollBack;
    var t, n := m.tasks[i], Happen(m, Resume(i));
    if Calls(t) {
      CallSettlesNone(m, i);
    } else if t.status.Waiting? {
      StartsJob(m, i);
    } else {
      GoShape(t, m.store, Promised(m, t));
      assert Reads(n.tasks, n.store, i);
    }
  }

  lemma WrittenIs(m: Machine, left: Stores, i: TaskId)
    requires Inv(m) && Follows(m, left) && NoneStarted(m.tasks) && WritesOutside(m, Resume(i))
    ensures Happen(m, Resume(i)).store == Done(m.tasks[i].left[0], left)
  {
    assert Linked(m.tasks, i);
    GoStore(m.tasks[i], m.store, Promised(m, m.tasks[i]));
    hide Go, Done;
  }

  lemma {:induction false} LeftIsSerial(start: Stores, events: seq<Event>)
    requires DisciplinedClients(events) && Apart(start, events)
    ensures LeftBy(start, events) == SerialSoFar(start, events)
  {
    hide Inv, Follows, Reading, SettlesJob, WritesOutside, NoneStarted, Disciplined, Apart, Serial,
         ParentsLastThroughout, Happen, Done;
    if events != [] {
      var rest, last := events[..|events| - 1], events[|events| - 1];
      var m := Run(Fresh(start), rest);
      ApartBefore(start, events);
      LeftIsSerial(start, rest);
      AwaitedSettleFirst(start, rest);
      JobsFollowEachOther(start, rest);
      Reachable(start, rest);
      ReachableReads(start, events);
      TurnsOnly(m, last);
      if WritesOutside(m, last) {
        WrittenIs(m, LeftBy(start, rest), last.task);
      } else if SettlesJob(m, last) {
        SettledIs(m, LeftBy(start, rest), last.task);
      }
    }
  }

  lemma TurnsOnly(m: Machine, event: Event)
    ensures WritesOutside(m, event) || SettlesJob(m, event) ==> event.Resume? && event.task < |m.tasks|
    ensures WritesOutside(m, event) ==> WritesNext(m.tasks[event.task])
  {
  }

  /** A job that has settled ended, with its outcome, as its serial reading from the stores it began with. */
  ghost predicate EndedSerially(t: Task) {
    t.status.Settled? ==> t.status.ok == Exec(t.body, t.before).ok && t.after == Serial(t.body, t.rollsBack, t.before)
  }

  /**
   Serialisation. For every interleaving in which nested calls are awaited and clients write between jobs only: between
   jobs the stores are the serial reading of what has settled and been written so far; the started job began with it;
   and every job that has settled ended, with the same outcome, where running it alone ends.
   */
  lemma RunsSerially(start: Stores, events: seq<Event>)
    requires DisciplinedClients(events) && Apart(start, events)
    ensures Follows(Run(Fresh(start), events), SerialSoFar(start, events))
    ensures var tasks := Run(Fresh(start), events).tasks; forall j: TaskId :: IsJob(tasks, j) ==>
              EndedSerially(tasks[j])
  {
    AwaitedSettleFirst(start, events);
    JobsFollowEachOther(start, events);
    LeftIsSerial(start, events);
    ReachableReads(start, events);
    var m := Run(Fresh(start), events);
    hide Run, Follows, Inv, Exec, Finish, Serial, AllAwait;
    forall j: TaskId | IsJob(m.tasks, j) ensures EndedSerially(m.tasks[j]) {
      assert Reads(m.tasks, m.store, j);
    }
  }

  /**
   Whatever has happened, and however many operations failed, everything submitted can settle, without a client writing
   beside a started job, and then the stores hold exactly the serial reading of the whole run.
   */
  lemma SettlesSerially(start: Stores, events: seq<Event>) returns (turns: seq<Event>)
    requires DisciplinedClients(events) && Apart(start, events)
    ensures (forall e :: e in turns ==> e.Resume?) && Apart(start, events + turns)
    ensures var m := Run(Fresh(start), events + turns);
            AllSettled(m) && m.store == SerialSoFar(start, events + turns)
  {
    turns := EverythingSettles(start, events);
    ApartTwice(Fresh(start), events, turns);
    RunsSerially(start, events + turns);
    hide Run, SerialSoFar, Disciplined, ApartFrom;
  }

  /**
   What a failed job leaves, in any such run: the stores it began with, if and only if it rolls back and reached no
   write, nested calls included, to a store that registered no rollback, or reached no write at all.
   */
  lemma FailedJobLeaves(start: Stores, events: seq<Event>, j: TaskId)
    requires DisciplinedClients(events) && Apart(start, events) && IsJob(Run(Fresh(start), events).tasks, j)
    requires Run(Fresh(start), events).tasks[j].status == Settled(false)
    ensures var t := Run(Fresh(start), events).tasks[j];
            t.after == t.before <==> forall name :: name in Reached(t.body, t.before) ==>
              t.rollsBack && Registered(name)
  {
    RunsSerially(start, events);
    var t := Run(Fresh(start), events).tasks[j];
    assert EndedSerially(t);
    hide Run, Follows, SerialSoFar;
    FailedIsIdentityIff(t.body, t.rollsBack, t.before);
  }

  // ---------- clients that only submit ----------

  /** The jobs that have settled among the first n tasks run one after another, in the order they were enqueued. */
  function SerialJobs(tasks: seq<Task>, n: nat, start: Stores): Stores
    requires n <= |tasks|
  {
    if n == 0 then start
    else
      var before, t := SerialJobs(tasks, n - 1, start), tasks[n - 1];
      if t.origin.Job? && t.status.Settled? then Serial(t.body, t.rollsBack, before) else before
  }

  lemma SerialStep(tasks: seq<Task>, n: nat, start: Stores)
    requires n < |tasks|
    ensures SerialJobs(tasks, n + 1, start) ==
            if tasks[n].origin.Job? && tasks[n].status.Settled?
            then Serial(tasks[n].body, tasks[n].rollsBack, SerialJobs(tasks, n, start))
            else SerialJobs(tasks, n, start)
  {
  }

  lemma {:induction false} NoneSettledBetween(tasks: seq<Task>, from: nat, to: nat, start: Stores)
    requires from <= to <= |tasks|
    requires forall k: TaskId :: from <= k < to && IsJob(tasks, k) ==> !tasks[k].status.Settled?
    ensures SerialJobs(tasks, to, start) == SerialJobs(tasks, from, start)
  {
    hide Serial, SerialJobs;
    if from < to {
      assert IsJob(tasks, to - 1) ==> !tasks[to - 1].status.Settled?;
      NoneSettledBetween(tasks, from, to - 1, start);
      SerialStep(tasks, to - 1, start);
    }
  }

  /** The same jobs among these, each settled or not as before. */
  ghost predicate SameSettled(a: seq<Task>, b: seq<Task>, n: nat) {
    && n <= |a| && n <= |b|
    && forall k :: 0 <= k < n ==>
         && b[k].origin == a[k].origin
         && (a[k].origin.Job? ==>
               b[k].body == a[k].body && b[k].rollsBack == a[k].rollsBack
               && (b[k].status.Settled? <==> a[k].status.Settled?))
  }

  lemma {:induction false} SameSerial(a: seq<Task>, b: seq<Task>, n: nat, start: Stores)
    requires SameSettled(a, b, n)
    ensures SerialJobs(b, n, start) == SerialJobs(a, n, start)
  {
    hide Serial;
    if n > 0 {
      SameSerial(a, b, n - 1, start);
      SerialStep(a, n - 1, start);
      SerialStep(b, n - 1, start);
      hide SerialJobs;
    }
  }

  /** Clients write through the unit of work only. */
  predicate KeepsOut(body: seq<Action>) {
    forall k :: 0 <= k < |body| ==> !body[k].Write?
  }

  ghost predicate ClientsKeepOut(events: seq<Event>) {
    forall e :: e in events && e.Arrive? ==> KeepsOut(e.body)
  }

  ghost predicate ClientsOut(m: Machine) {
    forall i: TaskId :: i < |m.tasks| && m.tasks[i].origin.Client? ==> KeepsOut(m.tasks[i].left)
  }

  lemma TurnOut(m: Machine, i: TaskId)
    requires ClientsOut(m) && Runnable(m, i)
    ensures ClientsOut(Advance(m, i))
  {
    var t := m.tasks[i];
    if Calls(t) {
      CallingShape(t, |m.tasks|);
      hide Calls, Calling;
    } else {
      GoShape(t, m.store, Promised(m, t));
      hide Go, Calls;
    }
  }

  lemma {:induction false} ReachableOut(start: Stores, events: seq<Event>)
    requires ClientsKeepOut(events)
    ensures ClientsOut(Run(Fresh(start), events))
  {
    hide Runnable, Advance, KeepsOut;
    if events != [] {
      var rest, last := events[..|events| - 1], events[|events| - 1];
      ReachableOut(start, rest);
      var m := Run(Fresh(start), rest);
      if last.Resume? && Runnable(m, last.task) {
        TurnOut(m, last.task);
      }
    }
  }

  lemma NoWriteOutside(m: Machine, event: Event)
    requires Inv(m) && ClientsOut(m)
    ensures !WritesOutside(m, event)
  {
    if event.Resume? && Runnable(m, event.task) {
      assert Linked(m.tasks, event.task);
    }
  }

  /** An event that settles no job keeps the settled ones as they are. */
  ghost predicate SettlesNothing(a: seq<Task>, b: seq<Task>) {
    && |a| <= |b| && SameSettled(a, b, |a|)
    && forall k: TaskId :: |a| <= k && IsJob(b, k) ==> !b[k].status.Settled?
  }

  lemma NothingSettles(m: Machine, event: Event)
    requires !SettlesJob(m, event)
    ensures SettlesNothing(m.tasks, Happen(m, event).tasks)
  {
    hide Advance, Calls, SettlesNothing;
    match event
    case Arrive(body) => ArriveSettlesNothing(m, body);
    case Resume(i) =>
      if !Runnable(m, i) {
        NoTurnSettlesNothing(m.tasks);
      } else if Calls(m.tasks[i]) {
        CallSettlesNothing(m, i);
      } else {
        GoSettlesNothing(m, i);
      }
  }

  lemma NoTurnSettlesNothing(tasks: seq<Task>)
    ensures SettlesNothing(tasks, tasks)
  {
  }

  lemma ArriveSettlesNothing(m: Machine, body: seq<Action>)
    ensures SettlesNothing(m.tasks, Happen(m, Arrive(body)).tasks)
  {
  }

  lemma PutSettlesNothing(tasks: seq<Task>, i: TaskId, u: Task)
    requires i < |tasks| && u.origin == tasks[i].origin && u.body == tasks[i].body && u.rollsBack == tasks[i].rollsBack
    requires u.origin.Job? ==> (u.status.Settled? <==> tasks[i].status.Settled?)
    ensures SettlesNothing(tasks, tasks[i := u])
  {
  }

  lemma CallSettlesNothing(m: Machine, i: TaskId)
    requires Runnable(m, i) && Calls(m.tasks[i])
    ensures SettlesNothing(m.tasks, Advance(m, i).tasks)
  {
    CallExtends(m, i);
    CallingShape(m.tasks[i], |m.tasks|);
    hide Calls, Calling;
  }

  lemma GoSettlesNothing(m: Machine, i: TaskId)
    requires Runnable(m, i) && !Calls(m.tasks[i]) && !SettlesJob(m, Resume(i))
    ensures SettlesNothing(m.tasks, Advance(m, i).tasks)
  {
    hide Go, Calls, SettlesNothing;
    var t := m.tasks[i];
    var u := Go(t, m.store, Promised(m, t)).task;
    GoShape(t, m.store, Promised(m, t));
    PutSettlesNothing(m.tasks, i, u);
  }

  lemma LaterWait(tasks: seq<Task>, i: TaskId)
    requires IsJob(tasks, i) && tasks[i].status.Started? && forall k: TaskId :: k < |tasks| ==> Queued(tasks, k)
    ensures forall k: TaskId :: i < k && IsJob(tasks, k) ==> tasks[k].status.Waiting?
  {
    forall k: TaskId | i < k && IsJob(tasks, k) ensures tasks[k].status.Waiting? {
      assert Queued(tasks, k);
    }
  }

  /** Between these tasks one started job settles, behind all that were enqueued before it. */
  lemma SettledAdds(a: seq<Task>, b: seq<Task>, i: TaskId, start: Stores)
    requires |b| == |a| && IsJob(a, i) && a[i].status.Started? && b[i].status.Settled? && b[i].origin == a[i].origin
    requires b[i].body == a[i].body && b[i].rollsBack == a[i].rollsBack
    requires forall k :: 0 <= k < |a| && k != i ==> b[k] == a[k]
    requires forall k: TaskId :: i < k && IsJob(a, k) ==> a[k].status.Waiting?
    ensures SerialJobs(b, |b|, start) == Serial(a[i].body, a[i].rollsBack, SerialJobs(a, |a|, start))
  {
    hide Serial, SerialJobs;
    SameSerial(a, b, i, start);
    NoneSettledBetween(a, i, |a|, start);
    NoneSettledBetween(b, i + 1, |b|, start);
    SerialStep(b, i, start);
  }

  lemma SettlesNext(m: Machine, i: TaskId, start: Stores)
    requires Inv(m) && SettlesJob(m, Resume(i))
    ensures var n := Happen(m, Resume(i));
            SerialJobs(n.tasks, |n.tasks|, start) ==
            Serial(m.tasks[i].body, m.tasks[i].rollsBack, SerialJobs(m.tasks, |m.tasks|, start))
  {
    OneSettles(m, i);
    hide SettlesJob, Happen, Serial, SerialJobs, Inv, Queued;
    LaterWait(m.tasks, i);
    SettledAdds(m.tasks, Happen(m, Resume(i)).tasks, i, start);
  }

  lemma OneSettles(m: Machine, i: TaskId)
    requires Inv(m) && SettlesJob(m, Resume(i))
    ensures var n := Happen(m, Resume(i));
            && i < |m.tasks| && |n.tasks| == |m.tasks| && IsJob(m.tasks, i) && m.tasks[i].status.Started?
            && n.tasks[i].status.Settled? && n.tasks[i].origin == m.tasks[i].origin
            && n.tasks[i].body == m.tasks[i].body && n.tasks[i].rollsBack == m.tasks[i].rollsBack
            && (forall k :: 0 <= k < |m.tasks| && k != i ==> n.tasks[k] == m.tasks[k])
    ensures forall k: TaskId :: k < |m.tasks| ==> Queued(m.tasks, k)
  {
    hide Go, LastJob, RollBack, Exec;
    var t := m.tasks[i];
    if Calls(t) {
      CallSettlesNone(m, i);
    } else if t.status.Waiting? {
      StartsJob(m, i);
    } else {
      GoShape(t, m.store, Promised(m, t));
    }
  }

  /** Where clients only submit, the serial reading is that of the settled jobs in the order they were enqueued. */
  lemma {:induction false} SettledInOrder(start: Stores, events: seq<Event>)
    requires ClientsKeepOut(events)
    ensures var tasks := Run(Fresh(start), events).tasks;
            Apart(start, events) && SerialSoFar(start, events) == SerialJobs(tasks, |tasks|, start)
  {
    hide Inv, SettlesJob, WritesOutside, NoneStarted, KeepsOut, ClientsOut, Serial, Happen;
    forall n | 0 <= n < |events| ensures !WritesOutside(Run(Fresh(start), events[..n]), events[n]) {
      ReachableOut(start, events[..n]);
      Reachable(start, events[..n]);
      NoWriteOutside(Run(Fresh(start), events[..n]), events[n]);
    }
    if events != [] {
      var rest, last := events[..|events| - 1], events[|events| - 1];
      var m, n := Run(Fresh(start), rest), Run(Fresh(start), events);
      SettledInOrder(start, rest);
      Reachable(start, rest);
      if SettlesJob(m, last) {
        TurnsOnly(m, last);
        SettlesNext(m, last.task, start);
      } else {
        NothingSettles(m, last);
        SameSerial(m.tasks, n.tasks, |m.tasks|, start);
        NoneSettledBetween(n.tasks, |m.tasks|, |n.tasks|, start);
      }
    }
  }
}

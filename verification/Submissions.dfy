/**
 Which operations a run consists of: the jobs on the chain are the calls that clients make, in the order they make them,
 each with the program and the kind of rollback it was made with, whatever the client does with its promise.
 */
module Submissions {
  import opened Outcomes
  import opened WorkPrograms
  import opened UnitOfWork
  import opened SerialUnitOfWork
  import opened SerialReading

  /** The program that the task arrived with, if it is a client. */
  function Program(start: Stores, events: seq<Event>, i: TaskId): seq<Action> {
    if events == [] then []
    else
      var rest, last := events[..|events| - 1], events[|events| - 1];
      if last.Arrive? && |Run(Fresh(start), rest).tasks| == i then last.body else Program(start, rest, i)
  }

  /** At this event this client makes the call that is this action of its program. */
  datatype Made = Made(event: nat, client: TaskId, action: nat)

  ghost predicate IsCall(start: Stores, events: seq<Event>, c: Made) {
    && c.event < |events| && events[c.event] == Resume(c.client)
    && c.action < |Program(start, events, c.client)| && Program(start, events, c.client)[c.action].Call?
  }

  function CallOf(start: Stores, events: seq<Event>, c: Made): Action
    requires c.action < |Program(start, events, c.client)|
  {
    Program(start, events, c.client)[c.action]
  }

  /** Calls of clients, in the order of their events, a client's own in the order of its program. */
  ghost predicate InOrder(start: Stores, events: seq<Event>, made: seq<Made>) {
    && (forall n :: 0 <= n < |made| ==> IsCall(start, events, made[n]))
    && (forall n, k :: 0 <= n < k < |made| ==> made[n].event < made[k].event)
    && (forall n, k :: 0 <= n < k < |made| && made[n].client == made[k].client ==> made[n].action < made[k].action)
  }

  /** How far the client has come in its program. */
  function Passed(m: Machine, program: seq<Action>, i: TaskId): int
    requires i < |m.tasks|
  {
    |program| - |m.tasks[i].left|
  }

  predicate CallPassed(m: Machine, program: seq<Action>, i: TaskId, p: nat)
    requires i < |m.tasks|
  {
    p < |program| && p < Passed(m, program, i) && program[p].Call?
  }

  /** All calls that a client has come past are among these. */
  ghost predicate Complete(start: Stores, events: seq<Event>, made: seq<Made>) {
    var m := Run(Fresh(start), events);
    forall i: TaskId, p: nat ::
      i < |m.tasks| && m.tasks[i].origin.Client? && CallPassed(m, Program(start, events, i), i, p) ==>
      exists n :: 0 <= n < |made| && made[n].client == i && made[n].action == p
  }

  /** Exactly the jobs, in the order they were enqueued. */
  ghost predicate AreJobs(tasks: seq<Task>, jobs: seq<TaskId>) {
    && (forall n, k :: 0 <= n < k < |jobs| ==> jobs[n] < jobs[k])
    && (forall n :: 0 <= n < |jobs| ==> IsJob(tasks, jobs[n]))
    && (forall j: TaskId :: IsJob(tasks, j) ==> j in jobs)
  }

  /** Job by job, the program and the kind of rollback are those of the call. */
  ghost predicate Carry(tasks: seq<Task>, jobs: seq<TaskId>, calls: seq<Action>) {
    && |jobs| == |calls|
    && (forall n :: 0 <= n < |jobs| ==>
          && calls[n].Call? && jobs[n] < |tasks|
          && tasks[jobs[n]].body == calls[n].body && tasks[jobs[n]].rollsBack == calls[n].rollsBack)
  }

  /** What is left of a program is its end, and nothing where the client settled well. */
  ghost predicate StandsAt(t: Task, program: seq<Action>) {
    && |t.left| <= |program| && t.left == program[|program| - |t.left|..]
    && (t.status == Settled(true) ==> t.left == [])
  }

  /** Where clients stand in their programs. */
  ghost predicate ClientsStand(start: Stores, events: seq<Event>) {
    var m := Run(Fresh(start), events);
    forall i: TaskId :: i < |m.tasks| && m.tasks[i].origin.Client? ==>
      StandsAt(m.tasks[i], Program(start, events, i))
  }

  // ---------- one event ----------

  /** A client makes a call. */
  predicate Submits(m: Machine, event: Event) {
    event.Resume? && Runnable(m, event.task) && !m.tasks[event.task].marker && Calls(m.tasks[event.task])
  }

  /** At most one task is new, and the old ones keep what they are. */
  ghost predicate Keeps(m: Machine, n: Machine) {
    && |m.tasks| <= |n.tasks| <= |m.tasks| + 1
    && forall k :: 0 <= k < |m.tasks| ==>
         && n.tasks[k].origin == m.tasks[k].origin && n.tasks[k].body == m.tasks[k].body
         && n.tasks[k].rollsBack == m.tasks[k].rollsBack
  }

  /** A client goes on in its program by one action at most, and settles well at its end only. */
  ghost predicate GoesBy(m: Machine, n: Machine, event: Event, k: TaskId)
    requires k < |m.tasks| && k < |n.tasks|
  {
    var before, after := m.tasks[k], n.tasks[k];
    && (after.left == before.left
        || (event == Resume(k) && before.left != [] && after.left == before.left[1..]
            && (before.left[0].Call? ==> Submits(m, event))))
    && (after.status == Settled(true) && before.status != Settled(true) ==> after.left == [])
  }

  /** The new task, if there is one. */
  ghost predicate Brings(m: Machine, n: Machine, event: Event) {
    if Submits(m, event) then
      && |n.tasks| == |m.tasks| + 1 && IsJob(n.tasks, |m.tasks|)
      && n.tasks[|m.tasks|].body == m.tasks[event.task].left[0].body
      && n.tasks[|m.tasks|].rollsBack == m.tasks[event.task].left[0].rollsBack
      && n.tasks[event.task].left == m.tasks[event.task].left[1..]
    else if event.Arrive? then
      && |n.tasks| == |m.tasks| + 1 && n.tasks[|m.tasks|].origin.Client?
      && n.tasks[|m.tasks|].left == event.body && n.tasks[|m.tasks|].status.Started?
    else |n.tasks| > |m.tasks| ==> n.tasks[|m.tasks|].origin.Nested?
  }

  ghost predicate Shaped(m: Machine, n: Machine, event: Event) {
    && Keeps(m, n) && Brings(m, n, event)
    && forall k: TaskId :: k < |m.tasks| && m.tasks[k].origin.Client? ==> GoesBy(m, n, event, k)
  }

  lemma CalledShape(m: Machine, i: TaskId)
    requires i < |m.tasks| && Calls(m.tasks[i])
    ensures var called, call := Called(m, i), m.tasks[i].left[0];
            if m.tasks[i].marker then called.origin.Nested?
            else called.origin.Job? && called.body == call.body && called.rollsBack == call.rollsBack
  {
  }

  lemma CallAdvances(m: Machine, i: TaskId)
    requires Runnable(m, i) && Calls(m.tasks[i])
    ensures Advance(m, i).tasks == (m.tasks + [Called(m, i)])[i := Calling(m.tasks[i], |m.tasks|)]
  {
    hide Called, Calling;
  }

  lemma CallBrings(m: Machine, n: Machine, i: TaskId, calling: Task, called: Task)
    requires i < |m.tasks| && n.tasks == (m.tasks + [called])[i := calling]
    requires m.tasks[i].status.Started? && m.tasks[i].left != [] && m.tasks[i].left[0].Call?
    requires calling == m.tasks[i].(left := m.tasks[i].left[1..], awaits := calling.awaits, catches := calling.catches)
    requires m.tasks[i].origin.Client? ==> !m.tasks[i].marker
    requires Submits(m, Resume(i)) <==> !m.tasks[i].marker
    requires if m.tasks[i].marker then called.origin.Nested?
             else called.origin.Job? && called.body == m.tasks[i].left[0].body
                  && called.rollsBack == m.tasks[i].left[0].rollsBack
    ensures Shaped(m, n, Resume(i))
  {
    hide Submits;
    assert n.tasks[|m.tasks|] == called && n.tasks[i] == calling;
  }

  lemma CallShaped(m: Machine, i: TaskId)
    requires Inv(m) && Runnable(m, i) && Calls(m.tasks[i])
    ensures Shaped(m, Advance(m, i), Resume(i))
  {
    hide Called, Calling, Shaped;
    assert Linked(m.tasks, i);
    CallingShape(m.tasks[i], |m.tasks|);
    CalledShape(m, i);
    CallAdvances(m, i);
    assert Submits(m, Resume(i)) <==> !m.tasks[i].marker;
    CallBrings(m, Advance(m, i), i, Calling(m.tasks[i], |m.tasks|), Called(m, i));
  }

  lemma GoEnds(t: Task, s: Stores, promised: bool)
    requires !Calls(t) && t.status.Started?
    ensures var u := Go(t, s, promised).task;
            && u.body == t.body && (u.status == Settled(true) ==> u.left == [])
            && (u.left == t.left || (t.left != [] && !t.left[0].Call? && u.left == t.left[1..]))
  {
    hide RollBack, Done, Fails;
    if Fails(t, s, promised) {
    } else if t.awaits.Some? {
    } else if t.left == [] {
    } else {
    }
  }

  lemma PutShaped(m: Machine, n: Machine, i: TaskId, u: Task)
    requires i < |m.tasks| && n.tasks == m.tasks[i := u] && !Submits(m, Resume(i))
    requires u.origin == m.tasks[i].origin && u.body == m.tasks[i].body && u.rollsBack == m.tasks[i].rollsBack
    requires u.origin.Client? ==>
               && (u.status == Settled(true) ==> u.left == [])
               && (u.left == m.tasks[i].left
                   || (m.tasks[i].left != [] && !m.tasks[i].left[0].Call? && u.left == m.tasks[i].left[1..]))
    ensures Shaped(m, n, Resume(i))
  {
    hide Submits;
  }

  lemma GoShaped(m: Machine, i: TaskId)
    requires Inv(m) && Runnable(m, i) && !Calls(m.tasks[i])
    ensures Shaped(m, Advance(m, i), Resume(i))
  {
    var t := m.tasks[i];
    assert Linked(m.tasks, i);
    GoShape(t, m.store, Promised(m, t));
    if t.status.Started? {
      GoEnds(t, m.store, Promised(m, t));
    }
    hide Inv, Go, Calls, Shaped;
    PutShaped(m, Advance(m, i), i, Go(t, m.store, Promised(m, t)).task);
  }

  lemma EventShaped(m: Machine, event: Event)
    requires Inv(m)
    ensures Shaped(m, Happen(m, event), event)
  {
    hide Inv, Advance, Shaped;
    match event
    case Arrive(body) => ArriveShaped(m, body);
    case Resume(i) =>
      if !Runnable(m, i) {
        NothingShaped(m, event);
      } else if Calls(m.tasks[i]) {
        CallShaped(m, i);
      } else {
        GoShaped(m, i);
      }
  }

  lemma ArriveShaped(m: Machine, body: seq<Action>)
    ensures Shaped(m, Happen(m, Arrive(body)), Arrive(body))
  {
  }

  lemma NothingShaped(m: Machine, event: Event)
    requires event.Resume? && !Runnable(m, event.task)
    ensures Shaped(m, m, event)
  {
  }

  // ---------- runs ----------

  /** The jobs so far, and the calls they come from. */
  ghost predicate Tracks(start: Stores, events: seq<Event>, jobs: seq<TaskId>, made: seq<Made>) {
    var m := Run(Fresh(start), events);
    && |jobs| == |made| && AreJobs(m.tasks, jobs)
    && InOrder(start, events, made) && Complete(start, events, made) && ClientsStand(start, events)
    && (forall n :: 0 <= n < |made| ==>
          && ComesFrom(start, events, jobs[n], made[n])
          && made[n].client < |m.tasks| && m.tasks[made[n].client].origin.Client?
          && made[n].action < Passed(m, Program(start, events, made[n].client), made[n].client))
  }

  lemma ProgramStays(start: Stores, events: seq<Event>, i: TaskId)
    requires events != [] && i < |Run(Fresh(start), events[..|events| - 1]).tasks|
    ensures Program(start, events, i) == Program(start, events[..|events| - 1], i)
  {
  }

  lemma ProgramArrives(start: Stores, events: seq<Event>)
    requires events != [] && events[|events| - 1].Arrive?
    ensures Program(start, events, |Run(Fresh(start), events[..|events| - 1]).tasks|) == events[|events| - 1].body
  {
  }

  lemma RunStep(start: Stores, events: seq<Event>)
    requires events != []
    ensures Run(Fresh(start), events) == Happen(Run(Fresh(start), events[..|events| - 1]), events[|events| - 1])
  {
  }

  lemma SameCalls(start: Stores, events: seq<Event>, made: seq<Made>, n: nat)
    requires events != [] && n < |made| && IsCall(start, events[..|events| - 1], made[n])
    requires made[n].client < |Run(Fresh(start), events[..|events| - 1]).tasks|
    ensures IsCall(start, events, made[n])
    ensures CallOf(start, events, made[n]) == CallOf(start, events[..|events| - 1], made[n])
  {
    hide Run;
    ProgramStays(start, events, made[n].client);
  }

  lemma StandsOn(m: Machine, n: Machine, event: Event, i: TaskId, program: seq<Action>)
    requires i < |m.tasks| && i < |n.tasks| && GoesBy(m, n, event, i) && StandsAt(m.tasks[i], program)
    ensures StandsAt(n.tasks[i], program)
    ensures Passed(n, program, i) == Passed(m, program, i)
         || (Passed(n, program, i) == Passed(m, program, i) + 1 && event == Resume(i)
             && 0 <= Passed(m, program, i) < |program|
             && program[Passed(m, program, i)] == m.tasks[i].left[0]
             && (m.tasks[i].left[0].Call? ==> Submits(m, event)))
  {
    hide Submits;
  }

  /** The client did not move, or it moved past one action, a call only if it submitted that. */
  ghost predicate MovedBy(m: Machine, n: Machine, event: Event, i: TaskId, program: seq<Action>)
    requires i < |m.tasks| && i < |n.tasks|
  {
    || Passed(n, program, i) == Passed(m, program, i)
    || (Passed(n, program, i) == Passed(m, program, i) + 1 && event == Resume(i)
        && 0 <= Passed(m, program, i) < |program|
        && m.tasks[i].left != [] && program[Passed(m, program, i)] == m.tasks[i].left[0]
        && (m.tasks[i].left[0].Call? ==> Submits(m, event)))
  }

  /** One client that was there before. */
  lemma ClientOn(start: Stores, events: seq<Event>, i: TaskId)
    requires events != [] && ClientsStand(start, events[..|events| - 1])
    requires var m := Run(Fresh(start), events[..|events| - 1]);
             && Shaped(m, Run(Fresh(start), events), events[|events| - 1])
             && i < |m.tasks| && m.tasks[i].origin.Client?
    ensures Program(start, events, i) == Program(start, events[..|events| - 1], i)
    ensures var m, n, program := Run(Fresh(start), events[..|events| - 1]), Run(Fresh(start), events),
            Program(start, events, i);
            && i < |n.tasks| && n.tasks[i].origin.Client? && StandsAt(n.tasks[i], program)
            && MovedBy(m, n, events[|events| - 1], i, program)
  {
    hide Run, Program, Submits, Brings, GoesBy, StandsAt;
    ProgramStays(start, events, i);
    var m, n := Run(Fresh(start), events[..|events| - 1]), Run(Fresh(start), events);
    assert StandsAt(m.tasks[i], Program(start, events, i));
    assert GoesBy(m, n, events[|events| - 1], i);
    StandsMoved(m, n, events[|events| - 1], i, Program(start, events, i));
  }

  lemma StandsMoved(m: Machine, n: Machine, event: Event, i: TaskId, program: seq<Action>)
    requires i < |m.tasks| && i < |n.tasks| && GoesBy(m, n, event, i) && StandsAt(m.tasks[i], program)
    ensures StandsAt(n.tasks[i], program) && MovedBy(m, n, event, i, program)
  {
    hide Submits;
    StandsOn(m, n, event, i, program);
  }

  lemma ClientsOn(start: Stores, events: seq<Event>)
    requires events != [] && ClientsStand(start, events[..|events| - 1])
    requires var m := Run(Fresh(start), events[..|events| - 1]);
             Shaped(m, Run(Fresh(start), events), events[|events| - 1])
    ensures ClientsStand(start, events)
  {
    hide Run, Program, Submits, GoesBy, StandsAt;
    var m, n := Run(Fresh(start), events[..|events| - 1]), Run(Fresh(start), events);
    forall i: TaskId | i < |n.tasks| && n.tasks[i].origin.Client?
      ensures StandsAt(n.tasks[i], Program(start, events, i))
    {
      if i < |m.tasks| {
        ClientOn(start, events, i);
      } else {
        NewClient(start, events, i);
      }
    }
  }

  lemma NewClient(start: Stores, events: seq<Event>, i: TaskId)
    requires events != []
    requires var m, n := Run(Fresh(start), events[..|events| - 1]), Run(Fresh(start), events);
             Shaped(m, n, events[|events| - 1]) && |m.tasks| <= i < |n.tasks| && n.tasks[i].origin.Client?
    ensures var n, program := Run(Fresh(start), events), Program(start, events, i);
            StandsAt(n.tasks[i], program) && Passed(n, program, i) == 0 && events[|events| - 1].Arrive?
  {
    hide Run, Program, Submits, GoesBy;
    var m, n := Run(Fresh(start), events[..|events| - 1]), Run(Fresh(start), events);
    assert Keeps(m, n) && Brings(m, n, events[|events| - 1]);
    ProgramArrives(start, events);
  }

  /** No client comes past a call here. */
  lemma CompleteOn(start: Stores, events: seq<Event>, made: seq<Made>)
    requires events != [] && ClientsStand(start, events[..|events| - 1])
          && Complete(start, events[..|events| - 1], made)
    requires var m := Run(Fresh(start), events[..|events| - 1]);
             !Submits(m, events[|events| - 1]) && Shaped(m, Run(Fresh(start), events), events[|events| - 1])
    ensures Complete(start, events, made)
  {
    hide Run, Program, Submits, Shaped, ClientsStand, StandsAt;
    var rest := events[..|events| - 1];
    var m, n := Run(Fresh(start), rest), Run(Fresh(start), events);
    forall i: TaskId, p: nat | i < |n.tasks| && n.tasks[i].origin.Client?
      && CallPassed(n, Program(start, events, i), i, p)
      ensures exists k :: 0 <= k < |made| && made[k].client == i && made[k].action == p
    {
      if i < |m.tasks| {
        SameOriginOf(m, n, events[|events| - 1], i);
        ClientOn(start, events, i);
        assert CallPassed(m, Program(start, rest, i), i, p);
      } else {
        NewClient(start, events, i);
      }
    }
  }

  lemma SameOriginOf(m: Machine, n: Machine, event: Event, i: TaskId)
    requires Shaped(m, n, event) && i < |m.tasks|
    ensures i < |n.tasks| && n.tasks[i].origin == m.tasks[i].origin
    ensures n.tasks[i].body == m.tasks[i].body && n.tasks[i].rollsBack == m.tasks[i].rollsBack
  {
    hide Submits, GoesBy;
  }

  /** One call made before the event. */
  ghost predicate CallKept(start: Stores, events: seq<Event>, c: Made)
    requires events != [] && c.action < |Program(start, events[..|events| - 1], c.client)|
  {
    && IsCall(start, events, c)
    && CallOf(start, events, c) == CallOf(start, events[..|events| - 1], c)
    && c.client < |Run(Fresh(start), events).tasks| && Run(Fresh(start), events).tasks[c.client].origin.Client?
    && c.action < Passed(Run(Fresh(start), events), Program(start, events, c.client), c.client)
  }

  lemma CallStays(start: Stores, events: seq<Event>, made: seq<Made>, k: nat)
    requires events != [] && ClientsStand(start, events[..|events| - 1]) && k < |made|
    requires var m := Run(Fresh(start), events[..|events| - 1]);
             && Shaped(m, Run(Fresh(start), events), events[|events| - 1])
             && IsCall(start, events[..|events| - 1], made[k])
             && made[k].client < |m.tasks| && m.tasks[made[k].client].origin.Client?
             && made[k].action < Passed(m, Program(start, events[..|events| - 1], made[k].client), made[k].client)
    ensures CallKept(start, events, made[k])
  {
    hide Run, Program, Submits, Shaped, ClientsStand, StandsAt, IsCall, CallOf;
    SameCalls(start, events, made, k);
    ClientOn(start, events, made[k].client);
  }

  /** Job number n comes from call number n. */
  ghost predicate ComesFrom(start: Stores, events: seq<Event>, job: TaskId, c: Made)
    requires c.action < |Program(start, events, c.client)| && CallOf(start, events, c).Call?
  {
    var tasks := Run(Fresh(start), events).tasks;
    job < |tasks| && tasks[job].body == CallOf(start, events, c).body
    && tasks[job].rollsBack == CallOf(start, events, c).rollsBack
  }

  /** An event that submits nothing. */
  lemma TracksOn(start: Stores, events: seq<Event>, jobs: seq<TaskId>, made: seq<Made>)
    requires events != [] && Tracks(start, events[..|events| - 1], jobs, made)
    requires var m := Run(Fresh(start), events[..|events| - 1]);
             !Submits(m, events[|events| - 1]) && Shaped(m, Run(Fresh(start), events), events[|events| - 1])
    ensures Tracks(start, events, jobs, made)
  {
    hide Run, Program, Submits, Complete, ClientsStand, GoesBy, Shaped, Passed, AreJobs;
    var m, n := Run(Fresh(start), events[..|events| - 1]), Run(Fresh(start), events);
    ClientsOn(start, events);
    CompleteOn(start, events, made);
    JobsSame(m, n, events[|events| - 1], jobs);
    forall k | 0 <= k < |made|
      ensures CallKept(start, events, made[k]) && ComesFrom(start, events, jobs[k], made[k])
    {
      CallStays(start, events, made, k);
      JobIn(m.tasks, jobs, k);
      SameOriginOf(m, n, events[|events| - 1], jobs[k]);
    }
  }

  lemma ShapedParts(m: Machine, n: Machine, event: Event)
    requires Shaped(m, n, event)
    ensures Keeps(m, n) && Brings(m, n, event)
  {
  }

  lemma JobIn(tasks: seq<Task>, jobs: seq<TaskId>, k: nat)
    requires AreJobs(tasks, jobs) && k < |jobs|
    ensures jobs[k] < |tasks| && IsJob(tasks, jobs[k])
  {
  }

  lemma JobsSame(m: Machine, n: Machine, event: Event, jobs: seq<TaskId>)
    requires AreJobs(m.tasks, jobs) && !Submits(m, event) && Shaped(m, n, event)
    ensures AreJobs(n.tasks, jobs)
  {
    hide Submits, GoesBy;
    forall j: TaskId | IsJob(n.tasks, j) ensures j in jobs {
      assert j < |m.tasks|;
      assert IsJob(m.tasks, j);
    }
  }

  /** An event that submits a call. */
  lemma TracksMore(start: Stores, events: seq<Event>, jobs: seq<TaskId>, made: seq<Made>) returns (next: Made)
    requires events != [] && Tracks(start, events[..|events| - 1], jobs, made)
    requires var m := Run(Fresh(start), events[..|events| - 1]);
             && Submits(m, events[|events| - 1]) && m.tasks[events[|events| - 1].task].origin.Client?
             && Shaped(m, Run(Fresh(start), events), events[|events| - 1])
    ensures Tracks(start, events, jobs + [|Run(Fresh(start), events[..|events| - 1]).tasks|], made + [next])
  {
    hide Run, Program, Complete, ClientsStand, GoesBy, Shaped, AreJobs, Passed;
    var rest, last := events[..|events| - 1], events[|events| - 1];
    var m, n := Run(Fresh(start), rest), Run(Fresh(start), events);
    next := NextMade(start, events);
    var all, more := made + [next], jobs + [|m.tasks|];
    ClientsOn(start, events);
    CompleteMore(start, events, made, next);
    ShapedParts(m, n, last);
    JobsMore(m, n, last, jobs);
    forall k | 0 <= k < |made|
      ensures all[k] == made[k] && more[k] == jobs[k]
      ensures CallKept(start, events, made[k]) && ComesFrom(start, events, jobs[k], made[k])
      ensures made[k].client == next.client ==> made[k].action < next.action
    {
      CallStays(start, events, made, k);
      JobIn(m.tasks, jobs, k);
      SameOriginOf(m, n, last, jobs[k]);
    }
    assert all[|made|] == next && more[|jobs|] == |m.tasks|;
  }

  /** The call that this event makes. */
  lemma NextMade(start: Stores, events: seq<Event>) returns (next: Made)
    requires events != [] && ClientsStand(start, events[..|events| - 1])
    requires var m := Run(Fresh(start), events[..|events| - 1]);
             && Submits(m, events[|events| - 1]) && m.tasks[events[|events| - 1].task].origin.Client?
             && Shaped(m, Run(Fresh(start), events), events[|events| - 1])
    ensures next.event == |events| - 1 && next.client == events[|events| - 1].task
    ensures IsCall(start, events, next)
    ensures var m, n := Run(Fresh(start), events[..|events| - 1]), Run(Fresh(start), events);
            && next.client < |m.tasks| && next.client < |n.tasks| && n.tasks[next.client].origin.Client?
            && next.action == Passed(m, Program(start, events[..|events| - 1], next.client), next.client)
            && next.action < Passed(n, Program(start, events, next.client), next.client)
            && ComesFrom(start, events, |m.tasks|, next)
  {
    var m, n, i := Run(Fresh(start), events[..|events| - 1]), Run(Fresh(start), events), events[|events| - 1].task;
    ClientOn(start, events, i);
    hide Run, Program, ClientsStand;
    var program := Program(start, events, i);
    assert StandsAt(m.tasks[i], program) by {
      StoodAt(start, events[..|events| - 1], i);
    }
    next := Made(|events| - 1, i, Passed(m, program, i));
    assert program[next.action] == m.tasks[i].left[0];
    assert Brings(m, n, events[|events| - 1]);
  }

  lemma StoodAt(start: Stores, events: seq<Event>, i: TaskId)
    requires ClientsStand(start, events) && i < |Run(Fresh(start), events).tasks|
    requires Run(Fresh(start), events).tasks[i].origin.Client?
    ensures StandsAt(Run(Fresh(start), events).tasks[i], Program(start, events, i))
  {
  }

  lemma JobsMore(m: Machine, n: Machine, event: Event, jobs: seq<TaskId>)
    requires AreJobs(m.tasks, jobs) && Submits(m, event) && Keeps(m, n) && Brings(m, n, event)
    ensures AreJobs(n.tasks, jobs + [|m.tasks|])
  {
    hide Submits;
    var more := jobs + [|m.tasks|];
    forall j: TaskId | IsJob(n.tasks, j) ensures j in more {
      if j < |m.tasks| {
        assert IsJob(m.tasks, j);
      } else {
        assert more[|jobs|] == j;
      }
    }
  }

  lemma ClientIsOld(m: Machine, n: Machine, event: Event, i: TaskId)
    requires Shaped(m, n, event) && Submits(m, event) && i < |n.tasks| && n.tasks[i].origin.Client?
    ensures i < |m.tasks| && m.tasks[i].origin.Client?
  {
    hide Submits, GoesBy;
  }

  /** The calls a client has come past are those before, and the one it submits now. */
  lemma PassedIsMade(start: Stores, events: seq<Event>, next: Made, i: TaskId, p: nat)
    requires events != [] && ClientsStand(start, events[..|events| - 1]) && events[|events| - 1].Resume?
    requires var m := Run(Fresh(start), events[..|events| - 1]);
             && Shaped(m, Run(Fresh(start), events), events[|events| - 1])
             && i < |m.tasks| && i < |Run(Fresh(start), events).tasks| && m.tasks[i].origin.Client?
             && next.client == events[|events| - 1].task && next.client < |m.tasks|
             && next.action == Passed(m, Program(start, events[..|events| - 1], next.client), next.client)
    requires CallPassed(Run(Fresh(start), events), Program(start, events, i), i, p)
    ensures CallPassed(Run(Fresh(start), events[..|events| - 1]), Program(start, events[..|events| - 1], i), i, p)
         || (next.client == i && next.action == p)
  {
    hide Run, Program, Submits, Shaped, ClientsStand, StandsAt;
    ClientOn(start, events, i);
  }

  lemma CompleteMore(start: Stores, events: seq<Event>, made: seq<Made>, next: Made)
    requires events != [] && ClientsStand(start, events[..|events| - 1])
          && Complete(start, events[..|events| - 1], made)
    requires var m := Run(Fresh(start), events[..|events| - 1]);
             && Submits(m, events[|events| - 1]) && Shaped(m, Run(Fresh(start), events), events[|events| - 1])
             && next.client == events[|events| - 1].task
             && next.client < |m.tasks|
             && next.action == Passed(m, Program(start, events[..|events| - 1], next.client), next.client)
    ensures Complete(start, events, made + [next])
  {
    hide Run, Program, Shaped, ClientsStand, CallPassed, Passed;
    var rest, all := events[..|events| - 1], made + [next];
    var m, n := Run(Fresh(start), rest), Run(Fresh(start), events);
    forall i: TaskId, p: nat | i < |n.tasks| && n.tasks[i].origin.Client?
      && CallPassed(n, Program(start, events, i), i, p)
      ensures exists k :: 0 <= k < |all| && all[k].client == i && all[k].action == p
    {
      ClientIsOld(m, n, events[|events| - 1], i);
      PassedIsMade(start, events, next, i, p);
      if CallPassed(m, Program(start, rest, i), i, p) {
        var k :| 0 <= k < |made| && made[k].client == i && made[k].action == p;
        assert all[k] == made[k];
      } else {
        assert all[|made|] == next;
      }
    }
  }

  lemma SubmitterIsClient(m: Machine, event: Event)
    requires Inv(m) && Submits(m, event)
    ensures m.tasks[event.task].origin.Client?
  {
    assert Linked(m.tasks, event.task);
  }

  lemma NothingTracked(start: Stores)
    ensures Tracks(start, [], [], [])
  {
  }

  lemma {:induction false} RunTracks(start: Stores, events: seq<Event>) returns (jobs: seq<TaskId>, made: seq<Made>)
    ensures Tracks(start, events, jobs, made)
  {
    hide Tracks, Inv, Shaped, Submits;
    jobs, made := [], [];
    if events == [] {
      NothingTracked(start);
    } else {
      var rest, last := events[..|events| - 1], events[|events| - 1];
      var m := Run(Fresh(start), rest);
      jobs, made := RunTracks(start, rest);
      Reachable(start, rest);
      EventShaped(m, last);
      if Submits(m, last) {
        SubmitterIsClient(m, last);
        var next := TracksMore(start, events, jobs, made);
        jobs, made := jobs + [|m.tasks|], made + [next];
      } else {
        TracksOn(start, events, jobs, made);
      }
    }
  }

  /** A client that has come to its end has made every call of its program. */
  lemma AllCallsMade(start: Stores, events: seq<Event>, jobs: seq<TaskId>, made: seq<Made>, i: TaskId, p: nat)
    requires Tracks(start, events, jobs, made)
    requires var tasks := Run(Fresh(start), events).tasks;
             i < |tasks| && tasks[i].origin.Client? && tasks[i].status == Settled(true)
    requires p < |Program(start, events, i)| && Program(start, events, i)[p].Call?
    ensures exists n :: 0 <= n < |made| && made[n].client == i && made[n].action == p
  {
    hide Run, Program, AreJobs, InOrder;
    StoodAt(start, events, i);
    assert CallPassed(Run(Fresh(start), events), Program(start, events, i), i, p);
  }

  // ---------- the serial reading, over the calls ----------

  function CallsOf(start: Stores, events: seq<Event>, made: seq<Made>): (calls: seq<Action>)
    requires forall n :: 0 <= n < |made| ==> made[n].action < |Program(start, events, made[n].client)|
  {
    seq(|made|, n requires 0 <= n < |made| => CallOf(start, events, made[n]))
  }

  /** Calls one after another, each failed one undone as its kind says. */
  function Serially(calls: seq<Action>, start: Stores): Stores
    requires forall n :: 0 <= n < |calls| ==> calls[n].Call?
  {
    if calls == [] then start
    else
      var last := calls[|calls| - 1];
      Serial(last.body, last.rollsBack, Serially(calls[..|calls| - 1], start))
  }

  function EndOf(tasks: seq<Task>, jobs: seq<TaskId>, k: nat): nat {
    if k < |jobs| then jobs[k] else |tasks|
  }

  /** The first `done` jobs have settled and the others have not. */
  ghost predicate SettledUpTo(tasks: seq<Task>, jobs: seq<TaskId>, done: nat)
    requires forall n :: 0 <= n < |jobs| ==> jobs[n] < |tasks|
  {
    done <= |jobs| && forall n :: 0 <= n < |jobs| ==> (tasks[jobs[n]].status.Settled? <==> n < done)
  }

  lemma {:induction false} SerialOverCalls(
    tasks: seq<Task>, jobs: seq<TaskId>, calls: seq<Action>, done: nat, k: nat, start: Stores)
    requires AreJobs(tasks, jobs) && Carry(tasks, jobs, calls) && SettledUpTo(tasks, jobs, done) && k <= |jobs|
    ensures EndOf(tasks, jobs, k) <= |tasks|
    ensures SerialJobs(tasks, EndOf(tasks, jobs, k), start) == Serially(calls[..if k < done then k else done], start)
  {
    hide Serial, SerialJobs, AreJobs, Serially;
    if k == 0 {
      NoJobBetween(tasks, jobs, 0, 0);
      NoneSettledBetween(tasks, 0, EndOf(tasks, jobs, 0), start);
      SerialNone(tasks, start);
      SeriallyNone(start);
      assert calls[..0] == [];
    } else {
      SerialOverCalls(tasks, jobs, calls, done, k - 1, start);
      JobIn(tasks, jobs, k - 1);
      NoJobBetween(tasks, jobs, k, jobs[k - 1] + 1);
      NextCall(tasks, jobs[k - 1], EndOf(tasks, jobs, k), calls[k - 1], start);
      if k <= done {
        SeriallyNext(calls, k, start);
      }
    }
  }

  lemma SeriallyNone(start: Stores)
    ensures Serially([], start) == start
  {
  }

  lemma SeriallyNext(calls: seq<Action>, k: nat, start: Stores)
    requires 1 <= k <= |calls| && forall n :: 0 <= n < |calls| ==> calls[n].Call?
    ensures Serially(calls[..k], start) ==
            Serial(calls[k - 1].body, calls[k - 1].rollsBack, Serially(calls[..k - 1], start))
  {
    hide Serial;
    assert calls[..k][..k - 1] == calls[..k - 1];
  }

  /** A job and the tasks after it, up to the next job. */
  lemma NextCall(tasks: seq<Task>, job: TaskId, to: nat, call: Action, start: Stores)
    requires job < to <= |tasks| && IsJob(tasks, job) && forall j: TaskId :: job < j < to ==> !IsJob(tasks, j)
    requires call.Call? && tasks[job].body == call.body && tasks[job].rollsBack == call.rollsBack
    ensures SerialJobs(tasks, to, start) ==
            if tasks[job].status.Settled? then Serial(call.body, call.rollsBack, SerialJobs(tasks, job, start))
            else SerialJobs(tasks, job, start)
  {
    hide Serial, SerialJobs;
    SerialStep(tasks, job, start);
    NoneSettledBetween(tasks, job + 1, to, start);
  }

  lemma SerialNone(tasks: seq<Task>, start: Stores)
    ensures SerialJobs(tasks, 0, start) == start
  {
  }

  lemma NoJobBetween(tasks: seq<Task>, jobs: seq<TaskId>, k: nat, from: nat)
    requires AreJobs(tasks, jobs) && k <= |jobs| && from == if k == 0 then 0 else jobs[k - 1] + 1
    ensures from <= EndOf(tasks, jobs, k) <= |tasks|
    ensures forall j: TaskId :: from <= j < EndOf(tasks, jobs, k) ==> !IsJob(tasks, j)
  {
    if k > 0 {
      JobIn(tasks, jobs, k - 1);
    }
    forall n | 0 <= n < |jobs| ensures jobs[n] < from || EndOf(tasks, jobs, k) <= jobs[n] {
      assert n < k - 1 ==> jobs[n] < jobs[k - 1];
      assert k < n ==> jobs[k] < jobs[n];
    }
    forall j: TaskId | from <= j < EndOf(tasks, jobs, k) ensures !IsJob(tasks, j) {
      NotAmong(tasks, jobs, j);
    }
  }

  lemma NotAmong(tasks: seq<Task>, jobs: seq<TaskId>, j: TaskId)
    requires AreJobs(tasks, jobs) && forall n :: 0 <= n < |jobs| ==> jobs[n] != j
    ensures !IsJob(tasks, j)
  {
  }

  lemma EarlierSettled(tasks: seq<Task>, i: TaskId, j: TaskId)
    requires Ordered(tasks) && i < j && IsJob(tasks, i) && IsJob(tasks, j) && tasks[j].status.Settled?
    ensures tasks[i].status.Settled?
  {
    assert Queued(tasks, j);
  }

  lemma JobBefore(tasks: seq<Task>, jobs: seq<TaskId>, k: nat, n: nat)
    requires AreJobs(tasks, jobs) && k < n < |jobs|
    ensures jobs[k] < jobs[n]
  {
  }

  lemma {:induction false} SettledFirst(tasks: seq<Task>, jobs: seq<TaskId>, n: nat) returns (done: nat)
    requires Ordered(tasks) && AreJobs(tasks, jobs) && n <= |jobs|
    ensures forall k :: 0 <= k < |jobs| ==> jobs[k] < |tasks|
    ensures done <= n && forall k :: 0 <= k < n ==> (tasks[jobs[k]].status.Settled? <==> k < done)
  {
    hide Ordered, AreJobs;
    forall k | 0 <= k < |jobs| ensures jobs[k] < |tasks| && IsJob(tasks, jobs[k]) {
      JobIn(tasks, jobs, k);
    }
    done := 0;
    if n > 0 {
      done := SettledFirst(tasks, jobs, n - 1);
      if tasks[jobs[n - 1]].status.Settled? {
        forall k | 0 <= k < n - 1 ensures tasks[jobs[k]].status.Settled? {
          JobBefore(tasks, jobs, k, n - 1);
          EarlierSettled(tasks, jobs[k], jobs[n - 1]);
        }
        done := n;
      }
    }
  }

  lemma Carried(start: Stores, events: seq<Event>, jobs: seq<TaskId>, made: seq<Made>)
    requires Tracks(start, events, jobs, made)
    ensures forall n :: 0 <= n < |made| ==> made[n].action < |Program(start, events, made[n].client)|
    ensures Carry(Run(Fresh(start), events).tasks, jobs, CallsOf(start, events, made))
    ensures AreJobs(Run(Fresh(start), events).tasks, jobs) && |jobs| == |made|
    ensures forall n :: 0 <= n < |made| ==> CallOf(start, events, made[n]).Call?
  {
    hide Run, Program, Complete, ClientsStand, AreJobs;
    forall n | 0 <= n < |made| ensures made[n].action < |Program(start, events, made[n].client)| {
      assert IsCall(start, events, made[n]);
    }
  }

  /**
   Where clients only submit, the serial reading is that of the calls they made, in the order they made them: the first
   `done` calls, those whose jobs have settled, one after another, each failed one undone as it was called.
   */
  lemma JobsInOrder(start: Stores, events: seq<Event>) returns (jobs: seq<TaskId>, made: seq<Made>, done: nat)
    requires ClientsKeepOut(events)
    ensures Tracks(start, events, jobs, made) && done <= |made|
    ensures forall n :: 0 <= n < |made| ==>
              && made[n].action < |Program(start, events, made[n].client)| && CallOf(start, events, made[n]).Call?
              && jobs[n] < |Run(Fresh(start), events).tasks|
              && (Run(Fresh(start), events).tasks[jobs[n]].status.Settled? <==> n < done)
    ensures SerialSoFar(start, events) == Serially(CallsOf(start, events, made)[..done], start)
  {
    hide Run, Tracks, AreJobs, SerialSoFar, SerialJobs, Serially, Program, ClientsKeepOut, Inv, Ordered;
    jobs, made := RunTracks(start, events);
    var tasks := Run(Fresh(start), events).tasks;
    Carried(start, events, jobs, made);
    Reachable(start, events);
    InvOrdered(Run(Fresh(start), events));
    done := SettledFirst(tasks, jobs, |jobs|);
    SettledInOrder(start, events);
    SerialOverCalls(tasks, jobs, CallsOf(start, events, made), done, |jobs|, start);
  }

  lemma InvOrdered(m: Machine)
    requires Inv(m)
    ensures Ordered(m.tasks)
  {
  }

  // ---------- failed calls ----------

  /** A failed job that rolls back left the registered stores as it found them. */
  ghost predicate Restored(t: Task) {
    t.origin.Job? && t.status == Settled(false) && t.rollsBack ==>
      forall name: StoreName :: Registered(name) ==> t.after[name] == t.before[name]
  }

  ghost predicate AllRestored(tasks: seq<Task>) {
    forall j: TaskId :: j < |tasks| ==> Restored(tasks[j])
  }

  lemma CallRestores(m: Machine, i: TaskId)
    requires Inv(m) && AllRestored(m.tasks) && Runnable(m, i) && Calls(m.tasks[i])
    ensures AllRestored(Advance(m, i).tasks)
  {
    CallingShape(m.tasks[i], |m.tasks|);
    assert Restored(m.tasks[i]) && Restored(Called(m, i));
    hide Calls, Calling, Called, Restored;
    RestoredSame(m.tasks[i], Calling(m.tasks[i], |m.tasks|));
  }

  lemma RestoredSame(t: Task, u: Task)
    requires Restored(t) && u.origin == t.origin && u.status == t.status && u.rollsBack == t.rollsBack
    requires u.before == t.before && u.after == t.after
    ensures Restored(u)
  {
  }

  lemma GoRestores(m: Machine, i: TaskId)
    requires AllRestored(m.tasks) && Runnable(m, i) && !Calls(m.tasks[i])
    ensures AllRestored(Advance(m, i).tasks)
  {
    var t := m.tasks[i];
    var u := Go(t, m.store, Promised(m, t)).task;
    GoShape(t, m.store, Promised(m, t));
    assert Restored(t);
    hide Go, Calls;
    assert Restored(u);
    hide Restored;
  }

  lemma {:induction false} RunRestores(start: Stores, events: seq<Event>)
    ensures AllRestored(Run(Fresh(start), events).tasks)
  {
    hide Inv, AllRestored, Runnable, Advance;
    if events == [] {
      NothingRestored(start);
    } else {
      var rest, last := events[..|events| - 1], events[|events| - 1];
      RunRestores(start, rest);
      Reachable(start, rest);
      var m := Run(Fresh(start), rest);
      match last
      case Arrive(body) => ArriveRestores(m, body);
      case Resume(i) =>
        if Runnable(m, i) {
          TurnRestores(m, i);
        }
    }
  }

  lemma TurnRestores(m: Machine, i: TaskId)
    requires Inv(m) && AllRestored(m.tasks) && Runnable(m, i)
    ensures AllRestored(Advance(m, i).tasks)
  {
    hide Inv, AllRestored, Advance, Calls;
    if Calls(m.tasks[i]) {
      CallRestores(m, i);
    } else {
      GoRestores(m, i);
    }
  }

  lemma NothingRestored(start: Stores)
    ensures AllRestored(Fresh(start).tasks)
  {
  }

  lemma ArriveRestores(m: Machine, body: seq<Action>)
    requires AllRestored(m.tasks)
    ensures AllRestored(Happen(m, Arrive(body)).tasks)
  {
  }

  /**
   A call that a client makes through `run`, awaited, caught or left alone: if its job fails, in whatever run, every
   registered store is as the job found it.
   */
  lemma FailedRunRestores(start: Stores, events: seq<Event>, jobs: seq<TaskId>, made: seq<Made>, n: nat)
    requires Tracks(start, events, jobs, made) && n < |made| && IsCall(start, events, made[n])
    requires CallOf(start, events, made[n]).rollsBack
    requires jobs[n] < |Run(Fresh(start), events).tasks|
          && Run(Fresh(start), events).tasks[jobs[n]].status == Settled(false)
    ensures var job := Run(Fresh(start), events).tasks[jobs[n]];
            forall name: StoreName :: Registered(name) ==> job.after[name] == job.before[name]
  {
    hide Run, Program, Complete, ClientsStand, InOrder;
    RunRestores(start, events);
    JobIn(Run(Fresh(start), events).tasks, jobs, n);
    assert Restored(Run(Fresh(start), events).tasks[jobs[n]]);
  }

  /**
   What a failed call leaves where nested calls are awaited and clients write between jobs only: the stores its job
   began with, if and only if it was made with rollback and reached no write to a store that registered none, or no
   write at all.
   */
  lemma FailedCallLeaves(start: Stores, events: seq<Event>, jobs: seq<TaskId>, made: seq<Made>, n: nat)
    requires DisciplinedClients(events) && Apart(start, events)
    requires Tracks(start, events, jobs, made) && n < |made| && IsCall(start, events, made[n])
    requires jobs[n] < |Run(Fresh(start), events).tasks|
          && Run(Fresh(start), events).tasks[jobs[n]].status == Settled(false)
    ensures var job, call := Run(Fresh(start), events).tasks[jobs[n]], CallOf(start, events, made[n]);
            job.after == job.before <==>
              forall name :: name in Reached(call.body, job.before) ==> call.rollsBack && Registered(name)
  {
    hide Run, Program, Complete, ClientsStand, InOrder, Reached, Apart, DisciplinedClients;
    JobIn(Run(Fresh(start), events).tasks, jobs, n);
    FailedJobLeaves(start, events, jobs[n]);
  }

  // ---------- an awaited operation that fails ----------

  function WriteThenFail(): seq<Action> {
    [Write(Inventory, (s: Stores) => "x"), Check((s: Stores) => false)]
  }

  /** A client awaits an operation that writes to the inventory and fails: the inventory is as it was. */
  lemma AwaitedRunRestores(start: Stores)
    ensures var run := Call(WriteThenFail(), true, Awaited);
            var events := [Arrive([run]), Resume(0), Resume(1), Resume(1), Resume(1), Resume(0)];
            var m := Run(Fresh(start), events);
            && AllSettled(m) && |m.tasks| == 2 && m.tasks[1].status == Settled(false)
            && m.tasks[0].status == Settled(false)
            && m.store == start
  {
    var program := [Call(WriteThenFail(), true, Awaited)];
    var s := start;
    assert program[1..] == [] && WriteThenFail()[1..] == [Check((s: Stores) => false)];
    var c0 := Task(Client, false, program, false, Started, program, None, false, s, s);
    var c1 := c0.(left := [], awaits := Some(1));
    var j1 := Task(Job(None), true, WriteThenFail(), true, Waiting, WriteThenFail(), None, false, s, s);
    var m1, m2 := Machine(s, [c0], None), Machine(s, [c1, j1], Some(1));
    assert Happen(Fresh(start), Arrive(program)) == m1;
    assert Happen(m1, Resume(0)) == m2;
    hide Happen;
    JobStarts(s, m2);
    JobWrites(s, Happen(m2, Resume(1)));
    JobThrows(s, Happen(Happen(m2, Resume(1)), Resume(1)));
    ClientThrows(s, Happen(Happen(Happen(m2, Resume(1)), Resume(1)), Resume(1)), WriteThenFail()[1..]);
    RunSix(Fresh(start), Arrive(program), Resume(0), Resume(1), Resume(1), Resume(1), Resume(0));
  }

  /** The job is about to run, and its client waits for it. */
  ghost predicate WaitedFor(s: Stores, m: Machine, status: Status, left: seq<Action>) {
    && |m.tasks| == 2 && m.tasks[0].status.Started? && m.tasks[0].awaits == Some(1)
    && !m.tasks[0].catches && !m.tasks[0].rollsBack
    && m.tasks[1].origin == Job(None) && m.tasks[1].marker && m.tasks[1].rollsBack && m.tasks[1].awaits.None?
    && m.tasks[1].status == status && m.tasks[1].left == left && (status.Started? ==> m.tasks[1].before == s)
  }

  lemma Goes(m: Machine, i: TaskId)
    requires Runnable(m, i) && !Calls(m.tasks[i])
    ensures var turn := Go(m.tasks[i], m.store, Promised(m, m.tasks[i]));
            Happen(m, Resume(i)) == m.(store := turn.store, tasks := m.tasks[i := turn.task])
  {
    hide Go, Promised;
  }

  lemma GoWrites(t: Task, s: Stores, promised: bool)
    requires t.status.Started? && t.awaits.None? && t.left != [] && t.left[0].Write?
    ensures Go(t, s, promised) == Turn(t.(left := t.left[1..]), Done(t.left[0], s))
  {
    hide RollBack, Done;
  }

  lemma GoFails(t: Task, s: Stores, promised: bool)
    requires !Calls(t) && t.status.Started? && Fails(t, s, promised)
    ensures var after := if t.rollsBack then RollBack(t.before, s) else s;
            Go(t, s, promised) == Turn(t.(status := Settled(false), after := after), after)
  {
    hide RollBack, Done;
  }

  lemma JobStarts(s: Stores, m: Machine)
    requires WaitedFor(s, m, Waiting, WriteThenFail()) && m.store == s
    ensures var n := Happen(m, Resume(1)); WaitedFor(s, n, Started, WriteThenFail()) && n.store == s
  {
    hide Happen, RollBack, Done, Passes;
    Goes(m, 1);
  }

  lemma JobWrites(s: Stores, m: Machine)
    requires WaitedFor(s, m, Started, WriteThenFail()) && m.store == s
    ensures var n := Happen(m, Resume(1));
            WaitedFor(s, n, Started, WriteThenFail()[1..]) && n.store == Written(s, Inventory, "x")
  {
    hide Happen, Go, RollBack, Passes, Promised;
    var t := m.tasks[1];
    Goes(m, 1);
    GoWrites(t, m.store, Promised(m, t));
    assert Done(WriteThenFail()[0], s) == Written(s, Inventory, "x");
  }

  lemma JobThrows(s: Stores, m: Machine)
    requires WaitedFor(s, m, Started, WriteThenFail()[1..]) && m.store == Written(s, Inventory, "x")
    ensures var n := Happen(m, Resume(1)); WaitedFor(s, n, Settled(false), WriteThenFail()[1..]) && n.store == s
  {
    hide Happen, Go, Promised, RollBack;
    var t := m.tasks[1];
    assert WriteThenFail()[1..] == [Check((s: Stores) => false)];
    Goes(m, 1);
    GoFails(t, m.store, Promised(m, t));
    WrittenBack(s);
  }

  lemma WrittenBack(s: Stores)
    ensures RollBack(s, Written(s, Inventory, "x")) == s
  {
  }

  lemma ClientThrows(s: Stores, m: Machine, left: seq<Action>)
    requires WaitedFor(s, m, Settled(false), left) && m.store == s
    ensures var n := Happen(m, Resume(0));
            && AllSettled(n) && |n.tasks| == 2 && n.store == s
            && n.tasks[0].status == Settled(false) && n.tasks[1].status == Settled(false)
  {
    hide Happen, Go, RollBack, Passes;
    var t := m.tasks[0];
    Goes(m, 0);
    GoFails(t, m.store, Promised(m, t));
  }

  lemma RunSix(m: Machine, a: Event, b: Event, c: Event, d: Event, e: Event, f: Event)
    ensures Run(m, [a, b, c, d, e, f]) == Happen(Happen(Happen(Happen(Happen(Happen(m, a), b), c), d), e), f)
  {
    hide Happen, Run;
    RunThree(m, a, b, c);
    RunThree(Run(m, [a, b, c]), d, e, f);
    RunTwice(m, [a, b, c], [d, e, f]);
    assert [a, b, c] + [d, e, f] == [a, b, c, d, e, f];
  }
}

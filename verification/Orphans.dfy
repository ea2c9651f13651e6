/**
 What the chain does not give. A nested call that nobody awaits can run beside the next job, and so can a client that
 writes itself; whatever they write to a registered store is lost when that job fails.
 */
module Orphans {
  import opened Outcomes
  import opened WorkPrograms
  import opened UnitOfWork
  import opened SerialUnitOfWork
  import opened SerialReading

  // ---------- a nested call left alone runs as its serial reading ----------

  /** The nested call is not waiting for anything. */
  ghost predicate Ready(m: Machine, i: TaskId) {
    && i < |m.tasks|
    && var t := m.tasks[i];
       t.origin.Nested? && t.marker && t.status.Started? && t.awaits.None? && !t.rollsBack
  }

  /** Only this task moved, and what it called has settled. */
  ghost predicate Moved(m: Machine, n: Machine, i: TaskId) {
    && i < |m.tasks| <= |n.tasks| && n.tail == m.tail
    && n.tasks[i].origin == m.tasks[i].origin && n.tasks[i].body == m.tasks[i].body
    && (forall k :: 0 <= k < |m.tasks| && k != i ==> n.tasks[k] == m.tasks[k])
    && (forall k :: |m.tasks| <= k < |n.tasks| ==> n.tasks[k].origin.Nested? && n.tasks[k].status.Settled?)
  }

  ghost predicate Inlined(m: Machine, n: Machine, i: TaskId, e: Ending) {
    Moved(m, n, i) && n.store == e.store && n.tasks[i].status == Settled(e.ok)
  }

  lemma MovedOn(m: Machine, n: Machine, o: Machine, i: TaskId)
    requires Moved(m, n, i) && Moved(n, o, i)
    ensures Moved(m, o, i)
  {
  }

  /** The call ends here: nothing is left, or its check throws. */
  predicate Stops(left: seq<Action>, s: Stores) {
    left == [] || (left[0].Check? && !Passes(left[0], s))
  }

  lemma StopsHere(m: Machine, i: TaskId)
    requires Ready(m, i) && Stops(m.tasks[i].left, m.store)
    ensures Inlined(m, Happen(m, Resume(i)), i, Exec(m.tasks[i].left, m.store))
  {
  }

  lemma StepsOn(m: Machine, i: TaskId)
    requires Ready(m, i) && !Stops(m.tasks[i].left, m.store) && !m.tasks[i].left[0].Call?
    ensures var n, left := Happen(m, Resume(i)), m.tasks[i].left;
            && Moved(m, n, i) && Ready(n, i) && n.tasks[i].left == left[1..]
            && Exec(left, m.store) == Exec(left[1..], n.store)
  {
  }

  lemma CallsOut(m: Machine, i: TaskId)
    requires Ready(m, i) && m.tasks[i].left != [] && m.tasks[i].left[0].Call?
    ensures var n, call := Happen(m, Resume(i)), m.tasks[i].left[0];
            && n.store == m.store && n.tail == m.tail && |n.tasks| == |m.tasks| + 1
            && Ready(n, |m.tasks|) && n.tasks[|m.tasks|].left == call.body
            && n.tasks[i] == Calling(m.tasks[i], |m.tasks|)
            && (forall k :: 0 <= k < |m.tasks| && k != i ==> n.tasks[k] == m.tasks[k])
  {
    assert Runnable(m, i) && Calls(m.tasks[i]);
  }

  /** After the inner call has run, before the caller goes on. */
  lemma CallRan(m: Machine, called: Machine, ran: Machine, i: TaskId, e: Ending)
    requires Ready(m, i) && m.tasks[i].left != [] && m.tasks[i].left[0].Call? && called == Happen(m, Resume(i))
    requires Inlined(called, ran, |m.tasks|, e)
    ensures Moved(m, ran, i) && ran.tasks[i] == Calling(m.tasks[i], |m.tasks|) && ran.store == e.store
    ensures |m.tasks| < |ran.tasks| && ran.tasks[|m.tasks|].status == Settled(e.ok)
  {
    CallsOut(m, i);
    hide Happen, Calling;
    CallingShape(m.tasks[i], |m.tasks|);
  }

  /** The caller goes on after the call it awaited, or fails with it. */
  lemma CallerGoesOn(ran: Machine, i: TaskId, k: TaskId, ok: bool)
    requires i < |ran.tasks| && k < |ran.tasks| && ran.tasks[k].status == Settled(ok) && ran.tasks[i].awaits == Some(k)
    requires ran.tasks[i].origin.Nested? && ran.tasks[i].marker && ran.tasks[i].status.Started?
          && !ran.tasks[i].rollsBack
    ensures var n := Happen(ran, Resume(i));
            && Moved(ran, n, i) && n.store == ran.store
            && (if ok || ran.tasks[i].catches then Ready(n, i) && n.tasks[i].left == ran.tasks[i].left
                else n.tasks[i].status == Settled(false))
  {
  }

  lemma {:induction false} RunsInline(m: Machine, i: TaskId) returns (turns: seq<Event>)
    requires Ready(m, i)
    ensures forall e :: e in turns ==> e.Resume?
    ensures Inlined(m, Run(m, turns), i, Exec(m.tasks[i].left, m.store))
    decreases m.tasks[i].left, 1
  {
    hide Exec, Happen, Moved;
    var left := m.tasks[i].left;
    if Stops(left, m.store) {
      StopsHere(m, i);
      turns := [Resume(i)];
      RunOne(m, Resume(i));
    } else if left[0].Call? {
      turns := CallsInline(m, i);
    } else {
      StepsOn(m, i);
      var next := Happen(m, Resume(i));
      var rest := RunsInline(next, i);
      turns := [Resume(i)] + rest;
      RunOne(m, Resume(i));
      RunTwice(m, [Resume(i)], rest);
      MovedOn(m, next, Run(next, rest), i);
    }
  }

  lemma CallsInline(m: Machine, i: TaskId) returns (turns: seq<Event>)
    requires Ready(m, i) && m.tasks[i].left != [] && m.tasks[i].left[0].Call?
    ensures forall e :: e in turns ==> e.Resume?
    ensures Inlined(m, Run(m, turns), i, Exec(m.tasks[i].left, m.store))
    decreases m.tasks[i].left, 0
  {
    hide Happen, Moved;
    var left, called, k := m.tasks[i].left, Happen(m, Resume(i)), |m.tasks|;
    CallsOut(m, i);
    var inner := RunsInline(called, k);
    var ran := Run(called, inner);
    var e := Exec(left[0].body, m.store);
    CallRan(m, called, ran, i, e);
    turns := [Resume(i)] + inner;
    RunOne(m, Resume(i));
    RunTwice(m, [Resume(i)], inner);
    var now := ran;
    if left[0].mode != Floating {
      CallerGoesOn(ran, i, k, e.ok);
      now := Happen(ran, Resume(i));
      MovedOn(m, ran, now, i);
      RunTwice(m, turns, [Resume(i)]);
      RunOne(ran, Resume(i));
      turns := turns + [Resume(i)];
    }
    assert Run(m, turns) == now;
    if e.ok || left[0].mode != Awaited {
      assert Ready(now, i) && now.tasks[i].left == left[1..] && now.store == e.store;
      var rest := RunsInline(now, i);
      RunTwice(m, turns, rest);
      MovedOn(m, now, Run(now, rest), i);
      turns := turns + rest;
    }
  }

  // ---------- the orphan ----------

  /** An operation that makes a nested call and does not await it. */
  function Careless(inner: seq<Action>): seq<Action> {
    [Call(inner, false, Floating)]
  }

  function Failing(): seq<Action> {
    [Check((s: Stores) => false)]
  }

  function Submits(inner: seq<Action>): seq<Action> {
    [Call(Careless(inner), true, Floating), Call(Failing(), true, Floating)]
  }

  /** The client is task 0, the careless job 1, the failing job 2 and the orphan 3. */
  function TheClient(s: Stores, inner: seq<Action>, left: seq<Action>, status: Status): Task {
    Task(Client, false, Submits(inner), false, status, left, None, false, s, s)
  }

  function First(s: Stores, inner: seq<Action>, left: seq<Action>, status: Status): Task {
    Task(Job(None), true, Careless(inner), true, status, left, None, false, s, s)
  }

  function Second(s: Stores, status: Status): Task {
    Task(Job(Some(1)), true, Failing(), true, status, Failing(), None, false, s, s)
  }

  function Orphan(s: Stores, inner: seq<Action>): Task {
    Task(Nested(1), true, inner, false, Started, inner, None, false, s, s)
  }

  function Submitted(s: Stores, inner: seq<Action>): Machine {
    Machine(s, [TheClient(s, inner, [], Settled(true)), First(s, inner, Careless(inner), Waiting), Second(s, Waiting)],
      Some(2))
  }

  function BothCalled(s: Stores, inner: seq<Action>): Machine {
    Machine(s, [TheClient(s, inner, [], Started), First(s, inner, Careless(inner), Waiting), Second(s, Waiting)],
      Some(2))
  }

  /** The first job has settled while its nested call has not begun. */
  function Orphaned(s: Stores, inner: seq<Action>, second: Status): Machine {
    Machine(
      s, [TheClient(s, inner, [], Settled(true)), First(s, inner, [], Settled(true)), Second(s, second),
        Orphan(s, inner)], Some(2))
  }

  function Submitting(inner: seq<Action>): seq<Event> {
    [Arrive(Submits(inner)), Resume(0), Resume(0), Resume(0)]
  }

  function Opening(inner: seq<Action>): seq<Event> {
    Submitting(inner) + [Resume(1), Resume(1), Resume(1)]
  }

  lemma RunFour(m: Machine, a: Event, b: Event, c: Event, d: Event)
    ensures Run(m, [a, b, c, d]) == Happen(Happen(Happen(Happen(m, a), b), c), d)
  {
    hide Happen;
    RunThree(m, a, b, c);
    assert [a, b, c, d][..3] == [a, b, c];
  }

  lemma ClientCalls(s: Stores, inner: seq<Action>)
    ensures var m := Happen(Fresh(s), Arrive(Submits(inner)));
            Happen(Happen(m, Resume(0)), Resume(0)) ==
            BothCalled(s, inner)
  {
    var m := Happen(Fresh(s), Arrive(Submits(inner)));
    assert m == Machine(s, [TheClient(s, inner, Submits(inner), Started)], None);
    assert Submits(inner)[1..] == [Call(Failing(), true, Floating)] && Submits(inner)[1..][1..] == [];
    var once := Machine(
      s, [TheClient(s, inner, Submits(inner)[1..], Started), First(s, inner, Careless(inner), Waiting)], Some(1));
    FirstCall(s, inner);
    hide Submits, Careless, Failing, Happen, Fresh;
    assert Happen(m, Resume(0)) == once;
    SecondCall(s, inner);
  }

  lemma FirstCall(s: Stores, inner: seq<Action>)
    ensures Happen(Machine(s, [TheClient(s, inner, Submits(inner), Started)], None), Resume(0)) == Machine(
              s, [TheClient(s, inner, Submits(inner)[1..], Started), First(s, inner, Careless(inner), Waiting)],
                Some(1))
  {
  }

  lemma SecondCall(s: Stores, inner: seq<Action>)
    ensures Happen(Machine(
              s, [TheClient(s, inner, Submits(inner)[1..], Started), First(s, inner, Careless(inner), Waiting)],
                Some(1)), Resume(0)) ==
            BothCalled(s, inner)
  {
    assert Submits(inner)[1..] == [Call(Failing(), true, Floating)] && Submits(inner)[1..][1..] == [];
  }

  lemma ClientEnds(s: Stores, inner: seq<Action>)
    ensures Happen(BothCalled(s, inner), Resume(0)) ==
            Submitted(s, inner)
  {
    hide Submits, Careless, Failing;
  }

  lemma FirstRuns(s: Stores, inner: seq<Action>)
    ensures Happen(Happen(Happen(Submitted(s, inner), Resume(1)), Resume(1)), Resume(1)) == Orphaned(s, inner, Waiting)
  {
    hide Submits, Failing;
    var c, b := TheClient(s, inner, [], Settled(true)), Second(s, Waiting);
    var started := Machine(s, [c, First(s, inner, Careless(inner), Started), b], Some(2));
    var called := Machine(s, [c, First(s, inner, [], Started), b, Orphan(s, inner)], Some(2));
    assert Happen(Submitted(s, inner), Resume(1)) == started;
    assert Careless(inner)[1..] == [];
    assert Happen(started, Resume(1)) == called;
    assert Happen(called, Resume(1)) == Orphaned(s, inner, Waiting);
  }

  lemma Opened(s: Stores, inner: seq<Action>)
    ensures Run(Fresh(s), Opening(inner)) == Orphaned(s, inner, Waiting)
  {
    hide Submits, Careless, Failing, Happen, Run, Fresh;
    ClientCalls(s, inner);
    ClientEnds(s, inner);
    FirstRuns(s, inner);
    RunFour(Fresh(s), Arrive(Submits(inner)), Resume(0), Resume(0), Resume(0));
    RunThree(Submitted(s, inner), Resume(1), Resume(1), Resume(1));
    RunTwice(Fresh(s), Submitting(inner), [Resume(1), Resume(1), Resume(1)]);
  }

  lemma SecondStarts(s: Stores, inner: seq<Action>)
    ensures Happen(Orphaned(s, inner, Waiting), Resume(2)) == Orphaned(s, inner, Started)
         && Ready(Orphaned(s, inner, Started), 3)
  {
    hide Submits, Careless, Failing;
  }

  /** The failure of the second job takes back what the orphan wrote to registered stores. */
  lemma SecondFails(s: Stores, inner: seq<Action>, ran: Machine, e: Ending)
    requires Inlined(Orphaned(s, inner, Started), ran, 3, e)
    ensures var n := Happen(ran, Resume(2));
            && |n.tasks| == |ran.tasks| && n.store == RollBack(s, e.store)
            && n.tasks[2] == Second(s, Settled(false)).(after := n.store)
            && (forall k :: 0 <= k < |n.tasks| && k != 2 ==> n.tasks[k] == ran.tasks[k])
  {
    hide Submits, Careless, RollBack;
    assert ran.tasks[2] == Second(s, Started);
  }

  /** The serial reading of the two jobs keeps what the orphan wrote. */
  lemma SerialKeeps(s: Stores, inner: seq<Action>, tasks: seq<Task>, after: Stores)
    requires |tasks| >= 4 && tasks[0] == TheClient(s, inner, [], Settled(true))
          && tasks[1] == First(s, inner, [], Settled(true))
    requires tasks[2] == Second(s, Settled(false)).(after := after)
    requires forall k :: 3 <= k < |tasks| ==> tasks[k].origin.Nested?
    ensures SerialJobs(tasks, |tasks|, s) == Exec(inner, s).store
  {
    var left := Exec(inner, s).store;
    assert Careless(inner)[1..] == [];
    assert Exec(Careless(inner), s) == Ending(true, left);
    assert Exec(Failing(), left) == Ending(false, left);
    assert RollBack(left, left) == left;
    SerialStep(tasks, 0, s);
    SerialStep(tasks, 1, s);
    SerialStep(tasks, 2, s);
    hide Exec, RollBack, Careless, Failing;
    NoneSettledBetween(tasks, 3, |tasks|, s);
  }

  /** The orphan runs beside the second job, which then fails. */
  lemma OrphanRuns(s: Stores, inner: seq<Action>) returns (turns: seq<Event>)
    ensures forall e :: e in turns ==> e.Resume?
    ensures var n, e := Happen(Run(Orphaned(s, inner, Started), turns), Resume(2)), Exec(inner, s);
            && AllSettled(n) && |n.tasks| >= 4
            && IsJob(n.tasks, 1) && n.tasks[1].status == Settled(true)
            && IsJob(n.tasks, 2) && n.tasks[2].status == Settled(false)
            && n.tasks[3].origin == Nested(1) && n.tasks[3].body == inner && n.tasks[3].status == Settled(e.ok)
            && n.store == RollBack(s, e.store) && SerialJobs(n.tasks, |n.tasks|, s) == e.store
  {
    hide Run, Happen, Exec, Submits, Careless, Failing, RollBack, Second, First, TheClient, Inlined, AllSettled,
         SerialJobs;
    var begun := Orphaned(s, inner, Started);
    SecondStarts(s, inner);
    turns := RunsInline(begun, 3);
    var ran, e := Run(begun, turns), Exec(inner, s);
    SecondFails(s, inner, ran, e);
    var n := Happen(ran, Resume(2));
    AllEnded(s, inner, ran, n, e);
    SerialKeeps(s, inner, n.tasks, n.store);
  }

  /**
   However a nested call looks that writes to a registered store: if nobody awaits it, there is a run in which it
   settles after its parent has succeeded, the next job fails, and the write is gone. The serial reading keeps it.
   */
  lemma AnyOrphanIsLost(start: Stores, inner: seq<Action>, name: StoreName) returns (events: seq<Event>)
    requires Registered(name) && name in Reached(inner, start)
    ensures ClientsKeepOut(events) && !ParentsLastThroughout(start, events)
    ensures var m := Run(Fresh(start), events);
            && AllSettled(m) && |m.tasks| >= 4
            && IsJob(m.tasks, 1) && m.tasks[1].status == Settled(true)
            && IsJob(m.tasks, 2) && m.tasks[2].status == Settled(false)
            && m.tasks[3].origin == Nested(1) && m.tasks[3].body == inner
            && m.tasks[3].status == Settled(Exec(inner, start).ok)
            && m.store[name] == start[name] && SerialJobs(m.tasks, |m.tasks|, start)[name] != start[name]
  {
    hide Run, Happen, Exec, Reached, RollBack, Fresh, Opening, Orphaned, ParentsLastThroughout, AllSettled, SerialJobs,
         ClientsKeepOut;
    var turns := OrphanRuns(start, inner);
    events := Opening(inner) + ([Resume(2)] + (turns + [Resume(2)]));
    Assembled(start, inner, turns);
    UntouchedIff(inner, start, name);
    TakenBack(start, Exec(inner, start).store, name);
    SubmitsOnly(inner, turns);
    Outlived(start, inner, [Resume(2)] + (turns + [Resume(2)]));
  }

  lemma Assembled(start: Stores, inner: seq<Action>, turns: seq<Event>)
    ensures Run(Fresh(start), Opening(inner) + ([Resume(2)] + (turns + [Resume(2)]))) ==
            Happen(Run(Orphaned(start, inner, Started), turns), Resume(2))
  {
    hide Happen, Run, Fresh, Orphaned, Opening;
    var waiting, begun := Orphaned(start, inner, Waiting), Orphaned(start, inner, Started);
    Opened(start, inner);
    SecondStarts(start, inner);
    RunTwice(Fresh(start), Opening(inner), [Resume(2)] + (turns + [Resume(2)]));
    RunTwice(waiting, [Resume(2)], turns + [Resume(2)]);
    RunOne(waiting, Resume(2));
    RunTwice(begun, turns, [Resume(2)]);
    RunOne(Run(begun, turns), Resume(2));
  }

  lemma TakenBack(before: Stores, after: Stores, name: StoreName)
    requires Registered(name)
    ensures RollBack(before, after)[name] == before[name]
  {
  }

  lemma SubmitsOnly(inner: seq<Action>, turns: seq<Event>)
    requires forall e :: e in turns ==> e.Resume?
    ensures ClientsKeepOut(Opening(inner) + ([Resume(2)] + (turns + [Resume(2)])))
  {
  }

  lemma Outlived(start: Stores, inner: seq<Action>, rest: seq<Event>)
    ensures !ParentsLastThroughout(start, Opening(inner) + rest)
  {
    var events, opening := Opening(inner) + rest, Opening(inner);
    Opened(start, inner);
    assert events[..|opening|] == opening;
    hide Run, Opening, ParentsLast;
    OrphanLeft(start, inner);
    assert !ParentsLast(Run(Fresh(start), events[..|opening|]));
  }

  lemma OrphanLeft(start: Stores, inner: seq<Action>)
    ensures !ParentsLast(Orphaned(start, inner, Waiting))
  {
    assert Orphaned(start, inner, Waiting).tasks[3].origin == Nested(1);
  }

  lemma AllEnded(s: Stores, inner: seq<Action>, ran: Machine, n: Machine, e: Ending)
    requires Inlined(Orphaned(s, inner, Started), ran, 3, e) && |n.tasks| == |ran.tasks|
    requires n.tasks[2] == Second(s, Settled(false)).(after := n.store)
    requires forall k :: 0 <= k < |n.tasks| && k != 2 ==> n.tasks[k] == ran.tasks[k]
    ensures AllSettled(n) && |n.tasks| >= 4 && IsJob(n.tasks, 1) && n.tasks[1].status == Settled(true)
    ensures IsJob(n.tasks, 2) && n.tasks[2].status == Settled(false)
    ensures n.tasks[3].origin == Nested(1) && n.tasks[3].body == inner && n.tasks[3].status == Settled(e.ok)
    ensures n.tasks[0] == TheClient(s, inner, [], Settled(true)) && n.tasks[1] == First(s, inner, [], Settled(true))
    ensures forall k :: 3 <= k < |n.tasks| ==> n.tasks[k].origin.Nested?
  {
    var begun := Orphaned(s, inner, Started);
    hide Submits, Careless, Failing;
    assert begun.tasks[3] == Orphan(s, inner);
    forall k | 0 <= k < |n.tasks| ensures n.tasks[k].status.Settled? {
      if k >= 4 {
        assert ran.tasks[k].status.Settled?;
      }
    }
  }

  function Entry(): seq<Action> {
    [Write(Audit, (s: Stores) => "entry")]
  }

  /** One such call writes one entry to the audit. */
  lemma OrphanIsLost(start: Stores) returns (events: seq<Event>)
    ensures ClientsKeepOut(events) && AllSettled(Run(Fresh(start), events))
    ensures var m := Run(Fresh(start), events);
            && |m.tasks| >= 4 && m.tasks[3].status == Settled(true)
            && m.store[Audit] == start[Audit] && SerialJobs(m.tasks, |m.tasks|, start)[Audit] != start[Audit]
  {
    assert Entry()[1..] == [];
    assert Reached(Entry(), start) == [Audit];
    assert Exec(Entry(), start).ok;
    hide Run, SerialJobs, Exec, Reached;
    events := AnyOrphanIsLost(start, Entry(), Audit);
  }

  // ---------- a client that writes while a job is started ----------

  function FailsAlone(s: Stores, status: Status): Task {
    Task(Job(None), true, Failing(), true, status, Failing(), None, false, s, s)
  }

  function Submitter(s: Stores): Task {
    Task(Client, false, [Call(Failing(), true, Floating)], false, Settled(true), [], None, false, s, s)
  }

  function Writer(s: Stores, write: Action, left: seq<Action>, status: Status, after: Stores): Task {
    Task(Client, false, [write], false, status, left, None, false, s, after)
  }

  function Beside(s: Stores, write: Action): Machine {
    Machine(s, [Submitter(s), FailsAlone(s, Started), Writer(s, write, [write], Started, s)], Some(1))
  }

  function Beginning(write: Action): seq<Event> {
    [Arrive([Call(Failing(), true, Floating)]), Resume(0), Resume(0)] + ([Resume(1)] + [Arrive([write])])
  }

  lemma BeginsBeside(s: Stores, write: Action)
    ensures Run(Fresh(s), Beginning(write)) == Beside(s, write)
  {
    var submits := [Call(Failing(), true, Floating)];
    var arrived := Machine(s, [Task(Client, false, submits, false, Started, submits, None, false, s, s)], None);
    var called := Machine(
      s, [Task(Client, false, submits, false, Started, [], None, false, s, s), FailsAlone(s, Waiting)], Some(1));
    var ended := Machine(s, [Submitter(s), FailsAlone(s, Waiting)], Some(1));
    var started := Machine(s, [Submitter(s), FailsAlone(s, Started)], Some(1));
    assert submits[1..] == [];
    assert Happen(Fresh(s), Arrive(submits)) == arrived;
    assert Happen(arrived, Resume(0)) == called;
    assert Happen(called, Resume(0)) == ended;
    assert Happen(ended, Resume(1)) == started;
    assert Happen(started, Arrive([write])) == Beside(s, write);
    hide Happen, Run, Failing, Fresh;
    RunThree(Fresh(s), Arrive(submits), Resume(0), Resume(0));
    RunOne(ended, Resume(1));
    RunOne(started, Arrive([write]));
    RunTwice(ended, [Resume(1)], [Arrive([write])]);
    RunTwice(Fresh(s), [Arrive(submits), Resume(0), Resume(0)], [Resume(1)] + [Arrive([write])]);
  }

  lemma WritesBeside(s: Stores, write: Action)
    requires write.Write?
    ensures var wrote := Happen(Beside(s, write), Resume(2));
            && WritesOutside(Beside(s, write), Resume(2)) && !NoneStarted(Beside(s, write).tasks)
            && wrote == Machine(Done(write, s),
              [Submitter(s), FailsAlone(s, Started), Writer(s, write, [], Started, s)], Some(1))
  {
    assert [write][1..] == [];
    assert IsJob(Beside(s, write).tasks, 1);
    hide Done, Failing;
  }

  lemma FailsBeside(s: Stores, write: Action, t: Stores)
    ensures var wrote := Machine(t, [Submitter(s), FailsAlone(s, Started), Writer(s, write, [], Started, s)], Some(1));
            Happen(Happen(wrote, Resume(1)), Resume(2)) == TakenBeside(s, write, t)
  {
    hide RollBack;
    var wrote := Machine(t, [Submitter(s), FailsAlone(s, Started), Writer(s, write, [], Started, s)], Some(1));
    var back := RollBack(s, t);
    assert Happen(wrote, Resume(1)) == Machine(
      back, [Submitter(s), FailsAlone(s, Settled(false)).(after := back), Writer(s, write, [], Started, s)], Some(1));
  }

  function TakenBeside(s: Stores, write: Action, t: Stores): Machine {
    var back := RollBack(s, t);
    Machine(back, [Submitter(s), FailsAlone(s, Settled(false)).(after := back),
      Writer(s, write, [], Settled(true), back)], Some(1))
  }

  lemma TakenBesideEnds(s: Stores, write: Action, t: Stores)
    requires write.Write? && Registered(write.store)
    ensures var m := TakenBeside(s, write, t);
            && AllSettled(m) && |m.tasks| == 3 && m.tasks[2].body == [write] && m.tasks[2].status == Settled(true)
            && m.store[write.store] == s[write.store]
  {
    TakenBack(s, t, write.store);
    hide Failing, RollBack;
  }

  lemma NotApart(start: Stores, before: seq<Event>, rest: seq<Event>)
    requires rest != [] && WritesOutside(Run(Fresh(start), before), rest[0])
          && !NoneStarted(Run(Fresh(start), before).tasks)
    ensures !Apart(start, before + rest)
  {
    hide WritesOutside, NoneStarted;
    assert (before + rest)[..|before|] == before && (before + rest)[|before|] == rest[0];
  }

  /** Whatever a client writes to a registered store itself, there is a run in which the write is gone. */
  lemma OutsideWriteIsLost(start: Stores, write: Action) returns (events: seq<Event>)
    requires write.Write? && Registered(write.store)
    ensures !Apart(start, events)
    ensures var m := Run(Fresh(start), events);
            && AllSettled(m) && |m.tasks| == 3 && m.tasks[2].body == [write] && m.tasks[2].status == Settled(true)
            && m.store[write.store] == start[write.store]
  {
    var beside, t := Beside(start, write), Done(write, start);
    events := Beginning(write) + [Resume(2), Resume(1), Resume(2)];
    BeginsBeside(start, write);
    WritesBeside(start, write);
    FailsBeside(start, write, t);
    TakenBesideEnds(start, write, t);
    hide Happen, Run, Failing, Fresh, Beginning, NoneStarted, WritesOutside, Done, RollBack, Apart, AllSettled,
         TakenBeside, Beside;
    RunTwice(Fresh(start), Beginning(write), [Resume(2), Resume(1), Resume(2)]);
    RunThree(beside, Resume(2), Resume(1), Resume(2));
    NotApart(start, Beginning(write), [Resume(2), Resume(1), Resume(2)]);
  }
}

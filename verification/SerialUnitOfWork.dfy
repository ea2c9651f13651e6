/**
 What the chain gives the stores. While nested calls settle before their parents, every job has the stores to itself
 from its start to its end, and it starts with what the job before it left and clients wrote in between.
 */
module SerialUnitOfWork {
  import opened WorkPrograms
  import opened UnitOfWork

  /** No nested call outlives the task that made it. */
  ghost predicate ParentsLast(m: Machine) {
    forall i: TaskId :: i < |m.tasks| && m.tasks[i].origin.Nested? && !m.tasks[i].status.Settled? ==>
      m.tasks[i].origin.parent < |m.tasks| && !m.tasks[m.tasks[i].origin.parent].status.Settled?
  }

  ghost predicate ParentsLastThroughout(start: Stores, events: seq<Event>) {
    forall n :: 0 <= n <= |events| ==> ParentsLast(Run(Fresh(start), events[..n]))
  }

  /** Clients write between jobs only. */
  ghost predicate Apart(start: Stores, events: seq<Event>) {
    ApartFrom(Fresh(start), events)
  }

  /** The event settles a job. */
  predicate SettlesJob(m: Machine, event: Event) {
    && event.Resume? && Runnable(m, event.task) && IsJob(m.tasks, event.task)
    && event.task < |Happen(m, event).tasks| && Happen(m, event).tasks[event.task].status.Settled?
  }

  /** What is left after the event: a job that settles and a client that writes leave the stores as they then are. */
  function LeftAfter(m: Machine, event: Event, left: Stores): Stores {
    if WritesOutside(m, event) || SettlesJob(m, event) then Happen(m, event).store else left
  }

  /** The stores when last a job settled or a client wrote. */
  function LeftBy(start: Stores, events: seq<Event>): Stores {
    if events == [] then start
    else
      var rest, last := events[..|events| - 1], events[|events| - 1];
      LeftAfter(Run(Fresh(start), rest), last, LeftBy(start, rest))
  }

  /** Between jobs the stores are as they were left, and so they were at the start of the started one. */
  ghost predicate Follows(m: Machine, left: Stores) {
    && (NoneStarted(m.tasks) ==> m.store == left)
    && (forall j: TaskId :: IsJob(m.tasks, j) && m.tasks[j].status.Started? ==> m.tasks[j].before == left)
  }

  // ---------- one turn ----------

  /** The same tasks, with the same records of jobs, and perhaps new ones; new jobs wait. */
  ghost predicate Extends(a: seq<Task>, b: seq<Task>) {
    && |a| <= |b|
    && (forall k :: 0 <= k < |a| ==>
          && b[k].origin == a[k].origin
          && (a[k].origin.Job? ==>
                && b[k].status == a[k].status && b[k].rollsBack == a[k].rollsBack
                && b[k].before == a[k].before && b[k].after == a[k].after))
    && (forall k :: |a| <= k < |b| && b[k].origin.Job? ==> b[k].status.Waiting?)
  }

  lemma ExtendFollows(m: Machine, n: Machine, left: Stores)
    requires Follows(m, left) && Extends(m.tasks, n.tasks) && (NoneStarted(m.tasks) ==> n.store == m.store)
    ensures Follows(n, left)
  {
    forall j: TaskId | IsJob(n.tasks, j) && n.tasks[j].status.Started?
      ensures IsJob(m.tasks, j) && m.tasks[j].status.Started?
    {
    }
    if NoneStarted(n.tasks) {
      forall j: TaskId | IsJob(m.tasks, j) ensures !m.tasks[j].status.Started? {
        assert IsJob(n.tasks, j);
      }
    }
  }

  /** An unsettled task of a scope belongs to a job that has started. */
  lemma Climb(m: Machine, i: TaskId) returns (j: TaskId)
    requires Inv(m) && ParentsLast(m) && i < |m.tasks| && m.tasks[i].marker && m.tasks[i].status.Started?
    ensures IsJob(m.tasks, j) && m.tasks[j].status.Started? && j <= i
    decreases i
  {
    assert Linked(m.tasks, i);
    j := i;
    if m.tasks[i].origin.Nested? {
      j := Climb(m, m.tasks[i].origin.parent);
    }
  }

  /** Starting, settling, or going on: what a turn does to the task's record. */
  lemma GoShape(t: Task, s: Stores, promised: bool)
    requires !Calls(t) && !t.status.Settled?
    ensures var u := Go(t, s, promised).task;
            && (t.status.Waiting? ==> Go(t, s, promised) == Turn(t.(status := Started, before := s), s))
            && (t.status.Started? && u.status.Settled? ==> Ends(t, s, Go(t, s, promised)))
            && (t.status.Started? && !u.status.Settled? ==>
                  u == t.(left := u.left, awaits := u.awaits)
                  && (u.left == t.left || (t.left != [] && u.left == t.left[1..])))
  {
    hide RollBack, Done, Fails;
    if t.status.Waiting? {
    } else if Fails(t, s, promised) {
    } else if t.awaits.Some? {
    } else if t.left == [] {
    } else {
    }
  }

  /** The task settles, recording the stores it leaves. */
  ghost predicate Ends(t: Task, s: Stores, turn: Turn) {
    && turn.task.status.Settled? && turn.task == t.(status := turn.task.status, after := turn.store)
    && turn.store == if !turn.task.status.ok && t.rollsBack then RollBack(t.before, s) else s
  }

  lemma CallingShape(t: Task, called: TaskId)
    requires Calls(t)
    ensures var calling := Calling(t, called);
            calling == t.(left := t.left[1..], awaits := calling.awaits, catches := calling.catches)
  {
  }

  /** A task that rolls nothing back changes the stores by its writes only, one at a time. */
  lemma GoStore(t: Task, s: Stores, promised: bool)
    requires !Calls(t) && t.status.Started? && !t.rollsBack
    ensures Go(t, s, promised).store == if WritesNext(t) then Done(t.left[0], s) else s
  {
    hide RollBack, Done, Fails;
    if t.awaits.Some? {
      if Fails(t, s, promised) {
      }
    } else if t.left == [] {
    } else if Fails(t, s, promised) {
      FailsNoWrite(t, s, promised);
    } else {
    }
  }

  lemma FailsNoWrite(t: Task, s: Stores, promised: bool)
    requires Fails(t, s, promised)
    ensures !WritesNext(t)
  {
  }

  lemma CallExtends(m: Machine, i: TaskId)
    requires i < |m.tasks| && Calls(m.tasks[i])
    ensures Extends(m.tasks, (m.tasks + [Called(m, i)])[i := Calling(m.tasks[i], |m.tasks|)])
  {
  }

  lemma PutExtends(tasks: seq<Task>, i: TaskId, u: Task)
    requires i < |tasks| && u.origin == tasks[i].origin && u.rollsBack == tasks[i].rollsBack
    requires u.origin.Job? ==> u.status == tasks[i].status && u.before == tasks[i].before && u.after == tasks[i].after
    ensures Extends(tasks, tasks[i := u])
  {
  }

  lemma OnlyOne(tasks: seq<Task>, i: TaskId, k: TaskId)
    requires Ordered(tasks) && IsJob(tasks, i) && tasks[i].status.Started?
    ensures k != i && IsJob(tasks, k) ==> !tasks[k].status.Started?
  {
    if k != i && IsJob(tasks, k) {
      assert Queued(tasks, k) && Queued(tasks, i);
    }
  }

  lemma StartShape(m: Machine, i: TaskId)
    requires Inv(m) && Runnable(m, i) && m.tasks[i].status.Waiting?
    ensures IsJob(m.tasks, i) && m.tasks[i].marker
    ensures Advance(m, i) == m.(tasks := m.tasks[i := m.tasks[i].(status := Started, before := m.store)])
    ensures Ordered(Advance(m, i).tasks)
  {
    AdvanceKeeps(m, i);
    GoShape(m.tasks[i], m.store, Promised(m, m.tasks[i]));
    assert Linked(m.tasks, i);
    hide Go, LastJob;
  }

  /** A job starts: none was started, and it records the stores as they were left. */
  lemma StartFollows(m: Machine, left: Stores, i: TaskId)
    requires Inv(m) && Follows(m, left) && Runnable(m, i) && m.tasks[i].status.Waiting?
    ensures Follows(Advance(m, i), left)
  {
    var n := Advance(m, i);
    StartShape(m, i);
    hide Go, Advance, Calls, Ordered, Inv, Runnable;
    forall j: TaskId | IsJob(m.tasks, j) ensures !m.tasks[j].status.Started? {
      OnlyOne(n.tasks, i, j);
      assert j != i ==> n.tasks[j] == m.tasks[j];
    }
    forall j: TaskId | IsJob(n.tasks, j) && n.tasks[j].status.Started? ensures n.tasks[j].before == left {
      OnlyOne(n.tasks, i, j);
    }
  }

  lemma SettleShape(m: Machine, i: TaskId)
    requires Inv(m) && Runnable(m, i) && !Calls(m.tasks[i])
    ensures Ordered(m.tasks) && i < |Advance(m, i).tasks|
    ensures Advance(m, i).tasks == m.tasks[i := Advance(m, i).tasks[i]]
  {
    hide Go, Ordered, LastJob;
  }

  /** A job settles: none is started any more. */
  lemma SettleFollows(m: Machine, i: TaskId)
    requires Inv(m) && Runnable(m, i) && IsJob(m.tasks, i) && m.tasks[i].status.Started? && !Calls(m.tasks[i])
    requires Advance(m, i).tasks[i].status.Settled?
    ensures Follows(Advance(m, i), Advance(m, i).store)
  {
    NoneLeft(m, i);
    hide Go, Advance, Calls, Inv, Runnable;
  }

  /** Any other turn leaves the records of jobs alone. */
  lemma OtherExtends(m: Machine, i: TaskId)
    requires Runnable(m, i) && !Calls(m.tasks[i]) && m.tasks[i].status.Started?
    requires IsJob(m.tasks, i) ==> Advance(m, i).tasks[i].status.Started?
    ensures Extends(m.tasks, Advance(m, i).tasks)
  {
    var t := m.tasks[i];
    GoShape(t, m.store, Promised(m, t));
    hide Go, Calls, Extends;
    PutExtends(m.tasks, i, Go(t, m.store, Promised(m, t)).task);
  }

  /** A turn inside a scope is a turn for the started job. */
  lemma ScopeFollows(m: Machine, left: Stores, i: TaskId)
    requires Inv(m) && Follows(m, left) && ParentsLast(m) && Runnable(m, i) && m.tasks[i].marker
    requires !Calls(m.tasks[i]) && m.tasks[i].status.Started?
    requires IsJob(m.tasks, i) ==> Advance(m, i).tasks[i].status.Started?
    ensures Follows(Advance(m, i), left)
  {
    OtherExtends(m, i);
    var j := Climb(m, i);
    hide Go, Advance, Calls, Follows, Inv, ParentsLast, Extends;
    ExtendFollows(m, Advance(m, i), left);
  }

  /** A client's turn changes the stores where it writes itself. */
  lemma ClientStore(m: Machine, i: TaskId)
    requires Inv(m) && Runnable(m, i) && !m.tasks[i].marker && !Calls(m.tasks[i])
    ensures m.tasks[i].status.Started? && !IsJob(m.tasks, i)
    ensures !WritesNext(m.tasks[i]) ==> Advance(m, i).store == m.store
  {
    assert Linked(m.tasks, i);
    GoStore(m.tasks[i], m.store, Promised(m, m.tasks[i]));
  }

  lemma ClientFollows(m: Machine, left: Stores, i: TaskId)
    requires Inv(m) && Follows(m, left) && Runnable(m, i) && !m.tasks[i].marker && !Calls(m.tasks[i])
    requires WritesNext(m.tasks[i]) ==> NoneStarted(m.tasks)
    ensures Follows(Advance(m, i), if WritesNext(m.tasks[i]) then Advance(m, i).store else left)
  {
    ClientStore(m, i);
    OtherExtends(m, i);
    var n := Advance(m, i);
    hide Go, Advance, Calls, Inv, Extends;
    if WritesNext(m.tasks[i]) {
      NoneStays(m.tasks, n.tasks);
    } else {
      hide Follows;
      ExtendFollows(m, n, left);
    }
  }

  lemma NoneStays(a: seq<Task>, b: seq<Task>)
    requires NoneStarted(a) && Extends(a, b)
    ensures NoneStarted(b)
  {
    forall j: TaskId | IsJob(b, j) ensures !b[j].status.Started? {
      assert j < |a| ==> IsJob(a, j);
    }
  }

  lemma CallFollows(m: Machine, left: Stores, i: TaskId)
    requires Follows(m, left) && Runnable(m, i) && Calls(m.tasks[i])
    ensures Follows(Advance(m, i), left)
  {
    CallExtends(m, i);
    hide Calls, Called, Calling, Follows, Extends;
    ExtendFollows(m, Advance(m, i), left);
  }

  lemma TurnFollows(m: Machine, left: Stores, i: TaskId)
    requires Inv(m) && Follows(m, left) && ParentsLast(m) && Runnable(m, i)
    requires WritesOutside(m, Resume(i)) ==> NoneStarted(m.tasks)
    ensures Follows(Happen(m, Resume(i)), LeftAfter(m, Resume(i), left))
  {
    hide Follows, Go, ParentsLast, Runnable;
    InRange(m, i);
    var t := m.tasks[i];
    if Calls(t) {
      CallFollows(m, left, i);
      CallSettlesNone(m, i);
    } else if t.status.Waiting? {
      StartFollows(m, left, i);
      StartsJob(m, i);
    } else if !t.marker {
      ClientStore(m, i);
      ClientFollows(m, left, i);
    } else if IsJob(m.tasks, i) && Advance(m, i).tasks[i].status.Settled? {
      StartedStays(m, i);
      SettleFollows(m, i);
    } else {
      StartedStays(m, i);
      ScopeFollows(m, left, i);
    }
  }

  lemma InRange(m: Machine, i: TaskId)
    requires Runnable(m, i)
    ensures i < |m.tasks| && !m.tasks[i].status.Settled?
  {
  }

  lemma CallSettlesNone(m: Machine, i: TaskId)
    requires Runnable(m, i) && Calls(m.tasks[i])
    ensures !SettlesJob(m, Resume(i)) && !WritesNext(m.tasks[i])
  {
  }

  lemma StartsJob(m: Machine, i: TaskId)
    requires Inv(m) && Runnable(m, i) && m.tasks[i].status.Waiting?
    ensures m.tasks[i].marker && !SettlesJob(m, Resume(i))
  {
    StartShape(m, i);
    hide Advance, Inv, Runnable;
  }

  lemma StartedStays(m: Machine, i: TaskId)
    requires Runnable(m, i) && !m.tasks[i].status.Waiting?
    ensures m.tasks[i].status.Started? && i < |Advance(m, i).tasks|
    ensures IsJob(m.tasks, i) && !Calls(m.tasks[i]) && !Advance(m, i).tasks[i].status.Settled? ==>
              Advance(m, i).tasks[i].status.Started?
  {
    var t := m.tasks[i];
    if !Calls(t) {
      GoShape(t, m.store, Promised(m, t));
    }
  }

  /** Right after a job settles none is started, so a compensation that comes first is apart from every job. */
  lemma SettledLeavesNone(m: Machine, event: Event)
    requires Inv(m) && SettlesJob(m, event)
    ensures NoneStarted(Happen(m, event).tasks)
  {
    hide Inv, Runnable, Go, Follows;
    var i := event.task;
    InRange(m, i);
    if Calls(m.tasks[i]) {
      CallSettlesNone(m, i);
    } else if m.tasks[i].status.Waiting? {
      StartsJob(m, i);
    } else {
      NoneLeft(m, i);
    }
  }

  lemma NoneLeft(m: Machine, i: TaskId)
    requires Inv(m) && Runnable(m, i) && IsJob(m.tasks, i) && m.tasks[i].status.Started? && !Calls(m.tasks[i])
    requires i < |Advance(m, i).tasks| && Advance(m, i).tasks[i].status.Settled?
    ensures NoneStarted(Advance(m, i).tasks)
  {
    var n := Advance(m, i);
    SettleShape(m, i);
    hide Go, Advance, Calls, Ordered, Inv, Runnable;
    forall j: TaskId | IsJob(n.tasks, j) ensures !n.tasks[j].status.Started? {
      OnlyOne(m.tasks, i, j);
    }
  }

  // ---------- runs ----------

  /**
   While no nested call outlives its parent, and clients write between jobs only, every job has the stores to itself:
   between jobs, and at the start of each, the stores are what the last job to settle left and clients wrote since.
   */
  lemma {:induction false} JobsFollowEachOther(start: Stores, events: seq<Event>)
    requires Apart(start, events) && ParentsLastThroughout(start, events)
    ensures Follows(Run(Fresh(start), events), LeftBy(start, events))
  {
    hide Inv, Follows, Runnable, Advance, ParentsLast, NoneStarted, WritesOutside, SettlesJob;
    if events == [] {
      NothingFollows(start);
    } else {
      var rest, last := events[..|events| - 1], events[|events| - 1];
      assert forall n :: 0 <= n <= |rest| ==> rest[..n] == events[..n];
      assert rest[..|rest|] == rest;
      ApartBefore(start, events);
      JobsFollowEachOther(start, rest);
      Reachable(start, rest);
      EventFollows(Run(Fresh(start), rest), LeftBy(start, rest), last);
    }
  }

  lemma ApartBefore(start: Stores, events: seq<Event>)
    requires Apart(start, events) && events != []
    ensures var rest, last := events[..|events| - 1], events[|events| - 1];
            var m := Run(Fresh(start), rest);
            Apart(start, rest) && (WritesOutside(m, last) ==> NoneStarted(m.tasks))
  {
    hide WritesOutside, NoneStarted;
    var rest := events[..|events| - 1];
    assert forall n :: 0 <= n <= |rest| ==> rest[..n] == events[..n];
  }

  lemma EventFollows(m: Machine, left: Stores, event: Event)
    requires Inv(m) && Follows(m, left) && ParentsLast(m) && (WritesOutside(m, event) ==> NoneStarted(m.tasks))
    ensures Follows(Happen(m, event), LeftAfter(m, event, left))
  {
    hide Inv, Runnable, Advance, ParentsLast;
    match event
    case Arrive(body) => ArriveFollows(m, left, body);
    case Resume(i) =>
      if Runnable(m, i) {
        TurnFollows(m, left, i);
      }
  }

  lemma NothingFollows(start: Stores)
    ensures Follows(Fresh(start), start)
  {
  }

  lemma ArriveFollows(m: Machine, left: Stores, body: seq<Action>)
    requires Follows(m, left)
    ensures Follows(Happen(m, Arrive(body)), left)
  {
    hide Follows;
    var n := Happen(m, Arrive(body));
    assert Extends(m.tasks, n.tasks);
    ExtendFollows(m, n, left);
  }
}

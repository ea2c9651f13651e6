/**
 What an operation does, and its serial reading: the operation run to its end with nothing beside it.
 Stores are named as in `createMemoryRuntime`; each holds the records written to it, so a write always changes it.
 */
module WorkPrograms {

  datatype StoreName =
    | Team | Workflows | Images | Projects | Inventory | Audit | Idempotency
    | Categories | Catalog | BuildConfigurations | SetupPreviews | InspectionPreviews | Artifacts | Offers

  /** The participants that `createMemoryRuntime` registers for rollback. */
  predicate Registered(name: StoreName) {
    name in {Team, Workflows, Images, Projects, Inventory, Audit, Idempotency}
  }

  type Record = string

  type Stores = s: map<StoreName, seq<Record>> | forall name: StoreName :: name in s
    witness map name: StoreName | true :: []

  datatype Mode = Awaited | Caught | Floating

  /**
   One action between two awaits. A check throws unless it holds of the stores. A call goes through the unit of
   work: `run` and `transactional` roll back, `exclusive` does not; the caller awaits it, awaits it and catches its
   failure, or goes on without awaiting it.
   */
  datatype Action =
    | Write(store: StoreName, record: Stores -> Record)
    | Check(holds: Stores -> bool)
    | Call(body: seq<Action>, rollsBack: bool, mode: Mode)

  function Written(s: Stores, name: StoreName, record: Record): Stores {
    s[name := s[name] + [record]]
  }

  /** A write done. */
  function Done(write: Action, s: Stores): Stores
    requires write.Write?
  {
    Written(s, write.store, write.record(s))
  }

  /** A check that does not throw. */
  predicate Passes(check: Action, s: Stores)
    requires check.Check?
  {
    check.holds(s)
  }

  /** The registered stores as they were, the others as they are. */
  function RollBack(before: Stores, after: Stores): Stores {
    map name: StoreName | true :: if Registered(name) then before[name] else after[name]
  }

  // ---------- the serial reading ----------

  datatype Ending = Ending(ok: bool, store: Stores)

  /** A nested call takes no snapshot of its own, whichever kind it is. */
  function Exec(body: seq<Action>, s: Stores): Ending {
    if body == [] then Ending(true, s)
    else
      match body[0]
      case Write(_, _) => Exec(body[1..], Done(body[0], s))
      case Check(_) => if Passes(body[0], s) then Exec(body[1..], s) else Ending(false, s)
      case Call(inner, _, mode) =>
        var e := Exec(inner, s);
        if e.ok || mode != Awaited then Exec(body[1..], e.store) else e
  }

  /** The stores after a top-level operation. */
  function Serial(body: seq<Action>, rollsBack: bool, s: Stores): Stores {
    var e := Exec(body, s);
    if !e.ok && rollsBack then RollBack(s, e.store) else e.store
  }

  /** The writes that are reached, nested ones included, in order. */
  function Reached(body: seq<Action>, s: Stores): seq<StoreName> {
    if body == [] then []
    else
      match body[0]
      case Write(name, _) => [name] + Reached(body[1..], Done(body[0], s))
      case Check(_) => if Passes(body[0], s) then Reached(body[1..], s) else []
      case Call(inner, _, mode) =>
        var e := Exec(inner, s);
        Reached(inner, s) + if e.ok || mode != Awaited then Reached(body[1..], e.store) else []
  }

  /** A store is only ever appended to, and grows exactly when a write to it is reached. */
  ghost predicate Grows(before: Stores, after: Stores, name: StoreName, written: bool) {
    before[name] <= after[name] && (written <==> |before[name]| < |after[name]|)
  }

  lemma {:induction false} ReachedGrows(body: seq<Action>, s: Stores, name: StoreName)
    ensures Grows(s, Exec(body, s).store, name, name in Reached(body, s))
    decreases body, 1
  {
    hide Grows;
    GrowsNot(s, name);
    if body != [] {
      match body[0]
      case Write(n, record) =>
        var written := Done(body[0], s);
        ReachedGrows(body[1..], written, name);
        WriteGrows(s, n, record(s), name);
        GrowsOn(s, written, Exec(body[1..], written).store, name, n == name, name in Reached(body[1..], written));
      case Check(_) =>
        if Passes(body[0], s) {
          ReachedGrows(body[1..], s, name);
        }
      case Call(inner, _, mode) =>
        ReachedGrows(inner, s, name);
        CallGrows(body, s, name);
    }
  }

  lemma CallGrows(body: seq<Action>, s: Stores, name: StoreName)
    requires body != [] && body[0].Call?
    requires Grows(s, Exec(body[0].body, s).store, name, name in Reached(body[0].body, s))
    ensures Grows(s, Exec(body, s).store, name, name in Reached(body, s))
    decreases body, 0
  {
    hide Grows;
    var e := Exec(body[0].body, s);
    if e.ok || body[0].mode != Awaited {
      ReachedGrows(body[1..], e.store, name);
      GrowsOn(s, e.store, Exec(body[1..], e.store).store, name, name in Reached(body[0].body, s),
        name in Reached(body[1..], e.store));
      AfterCall(body, s, name);
    }
  }

  lemma AfterCall(body: seq<Action>, s: Stores, name: StoreName)
    requires body != [] && body[0].Call? && (Exec(body[0].body, s).ok || body[0].mode != Awaited)
    ensures var mid := Exec(body[0].body, s).store;
            && Exec(body, s) == Exec(body[1..], mid)
            && (name in Reached(body, s) <==> name in Reached(body[0].body, s) || name in Reached(body[1..], mid))
  {
  }

  lemma GrowsNot(s: Stores, name: StoreName)
    ensures Grows(s, s, name, false)
  {
  }

  lemma WriteGrows(s: Stores, n: StoreName, record: Record, name: StoreName)
    ensures Grows(s, Written(s, n, record), name, n == name)
  {
  }

  lemma GrowsOn(a: Stores, b: Stores, c: Stores, name: StoreName, first: bool, second: bool)
    requires Grows(a, b, name, first) && Grows(b, c, name, second)
    ensures Grows(a, c, name, first || second)
  {
  }

  lemma UntouchedIff(body: seq<Action>, s: Stores, name: StoreName)
    ensures Exec(body, s).store[name] == s[name] <==> name !in Reached(body, s)
  {
    ReachedGrows(body, s, name);
  }

  /**
   What a failed operation leaves. With rollback it is the identity if and only if no write it reached before the
   throw, nested calls included, names a store that is not registered; without, if and only if it reached no write.
   */
  lemma FailedIsIdentityIff(body: seq<Action>, rollsBack: bool, s: Stores)
    requires !Exec(body, s).ok
    ensures Serial(body, rollsBack, s) == s <==>
              forall name :: name in Reached(body, s) ==> rollsBack && Registered(name)
    ensures rollsBack ==> forall name: StoreName :: Registered(name) ==> Serial(body, rollsBack, s)[name] == s[name]
  {
    var after := Serial(body, rollsBack, s);
    forall name: StoreName
      ensures after[name] == s[name] <==> (rollsBack && Registered(name)) || name !in Reached(body, s)
    {
      UntouchedIff(body, s, name);
    }
    if forall name :: name in Reached(body, s) ==> rollsBack && Registered(name) {
      assert forall name: StoreName :: after[name] == s[name];
      assert after == s;
    }
  }

  lemma CaughtIsInline(inner: seq<Action>, innerRollsBack: bool, s: Stores)
    ensures Exec([Call(inner, innerRollsBack, Caught)], s) == Ending(true, Exec(inner, s).store)
  {
    assert [Call(inner, innerRollsBack, Caught)][1..] == [];
  }

  /**
   The same failing calls, at the top and nested under a caller that catches: at the top the registered stores are
   restored, nested every write reached is kept, because only the outermost call takes snapshots.
   */
  lemma CaughtKeepsWrites(inner: seq<Action>, innerRollsBack: bool, rollsBack: bool, s: Stores)
    requires !Exec(inner, s).ok
    ensures var nested := Serial([Call(inner, innerRollsBack, Caught)], rollsBack, s);
            && nested == Exec(inner, s).store
            && (forall name: StoreName :: nested[name] == s[name] <==> name !in Reached(inner, s))
            && (forall name: StoreName :: Registered(name) && name in Reached(inner, s) ==>
                  nested[name] != Serial(inner, true, s)[name])
  {
    hide Exec, Reached;
    CaughtIsInline(inner, innerRollsBack, s);
    forall name: StoreName
      ensures Exec(inner, s).store[name] == s[name] <==> name !in Reached(inner, s)
    {
      UntouchedIff(inner, s, name);
    }
  }

  function CategoryThenFailure(): seq<Action> {
    [Write(Categories, (s: Stores) => "category"), Check((s: Stores) => false)]
  }

  /** A category written by an operation that then fails is still there after its rollback. */
  lemma FailureKeepsCategory(s: Stores)
    ensures !Exec(CategoryThenFailure(), s).ok
    ensures Serial(CategoryThenFailure(), true, s)[Categories] == s[Categories] + ["category"]
  {
    assert CategoryThenFailure()[1..] == [Check((s: Stores) => false)];
  }

  function WriteThenThrow(name: StoreName): seq<Action> {
    [Write(name, (s: Stores) => "record"), Check((s: Stores) => false)]
  }

  /** What a failing operation wrote is gone from seven of the stores, and stays in the others. */
  lemma RestoredStores(name: StoreName, s: Stores)
    ensures Serial(WriteThenThrow(name), true, s)[name] == s[name] <==>
              name.Team? || name.Workflows? || name.Images? || name.Projects? || name.Inventory? || name.Audit?
              || name.Idempotency?
    ensures Serial(WriteThenThrow(name), false, s)[name] == s[name] + ["record"]
  {
    var body, written := WriteThenThrow(name), Written(s, name, "record");
    assert body[1..] == [Check((s: Stores) => false)];
    assert Done(body[0], s) == written;
    assert Exec(body[1..], written) == Ending(false, written);
    assert Exec(body, s) == Ending(false, written);
    assert |s[name]| < |written[name]|;
  }
}

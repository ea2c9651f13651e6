/** `MemoryMakerWorkflows`: records saved under optimistic versions, with every version kept. */
module MakerWorkflows {
  import opened Outcomes

  datatype Key = Key(kind: string, id: string)

  datatype WorkflowRecord = WorkflowRecord(kind: string, id: string, projectId: string, revisionId: string,
    version: nat, body: string)

  datatype Workflows = Workflows(records: map<Key, WorkflowRecord>, versions: map<Key, seq<WorkflowRecord>>)

  datatype HistoryPage = HistoryPage(data: seq<WorkflowRecord>, nextCursor: Option<nat>)

  function KeyOf(record: WorkflowRecord): Key {
    Key(record.kind, record.id)
  }

  function VersionOf(w: Workflows, key: Key): nat {
    if key in w.records then w.records[key].version else 0
  }

  function Saved(w: Workflows, record: WorkflowRecord, expected: nat): Result<Workflows> {
    var key := KeyOf(record);
    if VersionOf(w, key) != expected || record.version != expected + 1 then Err(Conflict)
    else if key in w.records
         && (w.records[key].projectId != record.projectId || w.records[key].revisionId != record.revisionId)
    then Err(IntegrityError)
    else
      var prior := if key in w.versions then w.versions[key] else [];
      Ok(Workflows(w.records[key := record], w.versions[key := prior + [record]]))
  }

  datatype Save = Save(record: WorkflowRecord, expected: nat)

  function Run(w: Workflows, saves: seq<Save>): Workflows {
    if saves == [] then w
    else
      var before, last := Run(w, saves[..|saves| - 1]), saves[|saves| - 1];
      match Saved(before, last.record, last.expected)
      case Ok(after) => after
      case Err(_) => before
  }

  /** Versions 1..n without a gap, one project and revision throughout, the last entry being the current record. */
  ghost predicate HistoryOk(w: Workflows, key: Key)
    requires key in w.records
  {
    && key in w.versions && w.versions[key] != []
    && var h := w.versions[key];
       && h[|h| - 1] == w.records[key]
       && (forall j :: 0 <= j < |h| ==>
             && h[j].version == j + 1 && KeyOf(h[j]) == key
             && h[j].projectId == w.records[key].projectId && h[j].revisionId == w.records[key].revisionId)
  }

  ghost predicate Inv(w: Workflows) {
    w.versions.Keys == w.records.Keys && forall key :: key in w.records ==> HistoryOk(w, key)
  }

  lemma SaveKeeps(w: Workflows, record: WorkflowRecord, expected: nat)
    requires Inv(w) && Saved(w, record, expected).Ok?
    ensures Inv(Saved(w, record, expected).value)
  {
    var after := Saved(w, record, expected).value;
    forall key | key in after.records ensures HistoryOk(after, key) {
      if key in w.records {
        assert HistoryOk(w, key);
      }
    }
  }

  lemma {:induction false} RunKeeps(w: Workflows, saves: seq<Save>)
    requires Inv(w)
    ensures Inv(Run(w, saves))
  {
    if saves != [] {
      var rest, last := saves[..|saves| - 1], saves[|saves| - 1];
      RunKeeps(w, rest);
      if Saved(Run(w, rest), last.record, last.expected).Ok? {
        SaveKeeps(Run(w, rest), last.record, last.expected);
      }
    }
  }

  lemma {:induction false} HistoryGrows(w: Workflows, saves: seq<Save>, key: Key)
    requires Inv(w) && key in w.records
    ensures key in Run(w, saves).records && VersionOf(w, key) <= VersionOf(Run(w, saves), key)
    ensures key in w.versions && key in Run(w, saves).versions && w.versions[key] <= Run(w, saves).versions[key]
  {
    assert HistoryOk(w, key);
    if saves != [] {
      HistoryGrows(w, saves[..|saves| - 1], key);
    }
  }

  /** Once a save for a version succeeded, no later save with the same expectation on the same record can. */
  lemma OneWinner(w: Workflows, first: Save, between: seq<Save>, second: Save)
    requires Inv(w) && Saved(w, first.record, first.expected).Ok?
    requires KeyOf(second.record) == KeyOf(first.record) && second.expected == first.expected
    ensures var later := Run(Saved(w, first.record, first.expected).value, between);
            Saved(later, second.record, second.expected) == Err(Conflict)
  {
    var saved := Saved(w, first.record, first.expected).value;
    SaveKeeps(w, first.record, first.expected);
    HistoryGrows(saved, between, KeyOf(first.record));
  }

  function Reverse<T>(s: seq<T>): (r: seq<T>)
    ensures |r| == |s|
    ensures forall i :: 0 <= i < |s| ==> r[i] == s[|s| - 1 - i]
  {
    if s == [] then [] else Reverse(s[1..]) + [s[0]]
  }

  class MemoryMakerWorkflows {
    var records: map<Key, WorkflowRecord>
    var versions: map<Key, seq<WorkflowRecord>>

    constructor ()
      ensures Contents() == Workflows(map[], map[])
    {
      records, versions := map[], map[];
    }

    ghost function Contents(): Workflows
      reads this
    {
      Workflows(records, versions)
    }

    method Snapshot() returns (saved: Workflows)
      ensures saved == Contents()
    {
      return Workflows(records, versions);
    }

    method Restore(saved: Workflows)
      modifies this
      ensures Contents() == saved
    {
      records, versions := saved.records, saved.versions;
    }

    method Put(record: WorkflowRecord, expected: nat) returns (failure: Option<Error>)
      modifies this
      ensures match Saved(old(Contents()), record, expected)
              case Ok(after) => failure == None && Contents() == after
              case Err(error) => failure == Some(error) && Contents() == old(Contents())
    {
      var key := KeyOf(record);
      var prior := if key in records then records[key].version else 0;
      if prior != expected || record.version != expected + 1 {
        return Some(Conflict);
      }
      if key in records && (records[key].projectId != record.projectId
           || records[key].revisionId != record.revisionId) {
        return Some(IntegrityError);
      }
      records := records[key := record];
      var history := if key in versions then versions[key] else [];
      versions := versions[key := history + [record]];
      return None;
    }

    /** One page of the versions, newest first. */
    method History(key: Key, limit: nat, cursor: Option<nat>) returns (page: HistoryPage)
      ensures var rows := Reverse(if key in versions then versions[key] else []);
              var offset := if cursor.Some? then cursor.value else 0;
              && page.data == (if offset >= |rows| then []
                               else if offset + limit >= |rows| then rows[offset..]
                               else rows[offset..offset + limit])
              && page.nextCursor == if offset + limit < |rows| then Some(offset + limit) else None
    {
      var rows := Reverse(if key in versions then versions[key] else []);
      var offset := if cursor.Some? then cursor.value else 0;
      var from := if offset < |rows| then offset else |rows|;
      var to := if offset + limit < |rows| then offset + limit else |rows|;
      var next := if offset + limit < |rows| then Some(offset + limit) else None;
      return HistoryPage(if from <= to then rows[from..to] else [], next);
    }

    /** Following the pages reads the whole history, newest first, once. */
    method ReadHistory(key: Key, limit: nat) returns (all: seq<WorkflowRecord>)
      requires limit >= 1
      ensures all == Reverse(if key in versions then versions[key] else [])
    {
      ghost var rows := Reverse(if key in versions then versions[key] else []);
      all := [];
      var cursor: Option<nat> := None;
      while true
        invariant |all| <= |rows| && all == rows[..|all|]
        invariant (if cursor.Some? then cursor.value else 0) == |all|
        decreases |rows| - |all|
      {
        var page := History(key, limit, cursor);
        all := all + page.data;
        if page.nextCursor.None? {
          return;
        }
        cursor := page.nextCursor;
      }
    }
  }
}

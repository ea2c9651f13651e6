/** The workflow store read off its saves: what is stored under a key is the sequence of the saves it accepted. */
module WorkflowHistory {
  import opened Outcomes
  import opened MakerWorkflows

  /** The record continues what was kept: the next version, of the same project and revision. */
  predicate Continues(kept: seq<WorkflowRecord>, save: Save) {
    && save.expected == |kept| && save.record.version == |kept| + 1
    && (kept != [] ==> save.record.projectId == kept[0].projectId && save.record.revisionId == kept[0].revisionId)
  }

  /** The records saved under the key that continue those kept before, in order. */
  function Kept(saves: seq<Save>, key: Key): seq<WorkflowRecord> {
    if saves == [] then []
    else
      var rest, last := Kept(saves[..|saves| - 1], key), saves[|saves| - 1];
      if last.record.kind == key.kind && last.record.id == key.id && Continues(rest, last) then rest + [last.record]
      else rest
  }

  /** A key that was never saved is in neither table. */
  ghost predicate Holds(w: Workflows, key: Key, kept: seq<WorkflowRecord>) {
    && (key in w.records <==> kept != []) && (key in w.versions <==> kept != [])
    && (kept != [] ==> w.versions[key] == kept && w.records[key] == kept[|kept| - 1])
    && forall j :: 0 <= j < |kept| ==>
         kept[j].version == j + 1 && kept[j].projectId == kept[0].projectId && kept[j].revisionId == kept[0].revisionId
  }

  function Empty(): Workflows {
    Workflows(map[], map[])
  }

  lemma SaveHolds(w: Workflows, save: Save, key: Key, kept: seq<WorkflowRecord>, own: seq<WorkflowRecord>)
    requires Holds(w, key, kept) && Holds(w, KeyOf(save.record), own)
    ensures Saved(w, save.record, save.expected).Ok? <==> Continues(own, save)
    ensures Saved(w, save.record, save.expected).Ok? ==>
              Holds(Saved(w, save.record, save.expected).value, key,
                if KeyOf(save.record) == key then kept + [save.record] else kept)
  {
    if KeyOf(save.record) == key {
      assert own == kept;
    }
  }

  /**
   Over any run from an empty store, the versions and the current record under each key are the accepted saves, with
   everything they were saved with.
   */
  lemma {:induction false} StoreIsHistory(saves: seq<Save>, key: Key)
    ensures Holds(Run(Empty(), saves), key, Kept(saves, key))
  {
    if saves != [] {
      var rest, last := saves[..|saves| - 1], saves[|saves| - 1];
      StoreIsHistory(rest, key);
      StoreIsHistory(rest, KeyOf(last.record));
      hide Saved, Holds, Continues;
      SaveHolds(Run(Empty(), rest), last, key, Kept(rest, key), Kept(rest, KeyOf(last.record)));
    }
  }

  /** How the next save is answered, from the saves before it. */
  lemma NextSave(saves: seq<Save>, save: Save)
    ensures var kept := Kept(saves, KeyOf(save.record));
            var answer := Saved(Run(Empty(), saves), save.record, save.expected);
            && (answer.Ok? <==> Continues(kept, save))
            && (answer == Err(IntegrityError) <==>
                  !Continues(kept, save) && save.expected == |kept| && save.record.version == |kept| + 1)
            && (answer.Err? ==> answer.error in {Conflict, IntegrityError})
  {
    StoreIsHistory(saves, KeyOf(save.record));
  }
}

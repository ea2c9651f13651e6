/**
 The capability store as independent one-shot machines, one for each token: what a call does to a token, and what it
 answers, depends on where that token stands and on nothing else in the store.
 */
module TransferHistory {
  import opened Outcomes
  import opened Texts
  import opened TransferModel

  /** A token is unknown, free to be claimed, or claimed by a call that still runs. */
  datatype Standing = Gone | Free(bound: Capability) | Taken(bound: Capability)

  /** The call names this capability by its own action and resource. */
  predicate Names(bound: Capability, action: TransferAction, resourceId: string) {
    bound.action == action && bound.resourceId == resourceId && Identifier(resourceId, 128)
  }

  /** Uploads must bring what was stated at issue; downloads bring nothing. */
  predicate Fits(bound: Capability, details: Details) {
    bound.action == ArtifactDownload || details == Details(bound.byteLength, bound.sha256)
  }

  /** One call, seen by one token. */
  function Next(at: Standing, step: Step, token: Token): Standing {
    match step
    case IssueOne(t, c, now) =>
      if t == token then Free(c.(used := false, inFlight := false))
      else if at.Free? && at.bound.expiresAt <= now then Gone
      else at
    case Check(t, action, resourceId, now) =>
      if t == token && !at.Gone? && Names(at.bound, action, resourceId) && at.bound.expiresAt <= now then Gone else at
    case ClaimOne(t, action, resourceId, details, now) =>
      if t != token || at.Gone? || !Names(at.bound, action, resourceId) then at
      else if at.bound.expiresAt <= now then Gone
      else if at.Free? && Fits(at.bound, details) then Taken(at.bound)
      else at
    case CommitOne(t, action, resourceId) =>
      if t == token && at.Taken? && Names(at.bound, action, resourceId) then Gone else at
    case ReleaseOne(t, action, resourceId) =>
      if t == token && at.Taken? && Names(at.bound, action, resourceId) then Free(at.bound) else at
  }

  function After(at: Standing, steps: seq<Step>, token: Token): Standing {
    if steps == [] then at else Next(After(at, steps[..|steps| - 1], token), steps[|steps| - 1], token)
  }

  /** Where the token stands in the store. */
  function Stands(records: Records, token: Token): Standing {
    if Sha256(token) !in records then Gone
    else
      var c := records[Sha256(token)];
      if c.inFlight then Taken(c.(inFlight := false)) else Free(c)
  }

  predicate Unused(records: Records) {
    forall d :: d in records ==> !records[d].used
  }

  lemma StepIsNext(records: Records, step: Step, token: Token)
    requires Unused(records)
    ensures Stands(Apply(records, step), token) == Next(Stands(records, token), step, token)
  {
    match step
    case IssueOne(_, _, _) =>
    case Check(_, _, _, _) =>
    case ClaimOne(_, _, _, _, _) =>
    case CommitOne(_, _, _) =>
    case ReleaseOne(_, _, _) =>
  }

  /** Over any run, whatever is called for other tokens in between. */
  lemma {:induction false} TokensAreIndependent(records: Records, steps: seq<Step>, token: Token)
    requires Unused(records)
    ensures Stands(Run(records, steps), token) == After(Stands(records, token), steps, token)
  {
    hide Stands, Next, Apply, Unused;
    if steps != [] {
      TokensAreIndependent(records, steps[..|steps| - 1], token);
      StaysUnused(records, steps[..|steps| - 1]);
      StepIsNext(Run(records, steps[..|steps| - 1]), steps[|steps| - 1], token);
    }
  }

  lemma StaysUnused(records: Records, steps: seq<Step>)
    requires Unused(records)
    ensures Unused(Run(records, steps))
  {
    NoneUsed(records, steps);
  }

  // ---------- the answers ----------

  /** A claim is granted once, in time, to who names the capability and brings what it states. */
  lemma ClaimAnswers(
    records: Records, token: Token, action: TransferAction, resourceId: string, details: Details, now: int)
    requires Unused(records)
    ensures var at, answer := Stands(records, token), Claim(records, token, action, resourceId, details, now).outcome;
            var known := !at.Gone? && Names(at.bound, action, resourceId);
            && (answer.Ok? <==> known && now < at.bound.expiresAt && at.Free? && Fits(at.bound, details))
            && (answer.Ok? ==> answer.value == at.bound)
            && (answer == Err(Validation) <==> !Identifier(resourceId, 128))
            && (answer == Err(UploadExpired) <==> known && at.bound.expiresAt <= now)
            && (answer == Err(IntegrityError) <==>
                  known && now < at.bound.expiresAt && !Fits(at.bound, details) && (at.Free? || action == UploadWrite))
            && (answer.Err? ==> answer.error in {Validation, UploadExpired, IntegrityError, Forbidden})
  {
  }

  /** A check answers as a claim would, but asks for no details, and lets a download pass that is already claimed. */
  lemma CheckAnswers(records: Records, token: Token, action: TransferAction, resourceId: string, now: int)
    requires Unused(records)
    ensures var at, answer := Stands(records, token), Preflight(records, token, action, resourceId, now).outcome;
            var known := !at.Gone? && Names(at.bound, action, resourceId);
            && (answer.Ok? <==> known && now < at.bound.expiresAt && (at.Free? || action == ArtifactDownload))
            && (answer.Ok? ==> answer.value.(inFlight := false) == at.bound)
            && (answer == Err(Validation) <==> !Identifier(resourceId, 128))
            && (answer == Err(UploadExpired) <==> known && at.bound.expiresAt <= now)
            && (answer.Err? ==> answer.error in {Validation, UploadExpired, Forbidden})
  {
  }

  lemma CommitAnswers(records: Records, token: Token, action: TransferAction, resourceId: string)
    requires Unused(records)
    ensures var at, answer := Stands(records, token), Commit(records, token, action, resourceId).outcome;
            && (answer.Ok? <==> at.Taken? && Names(at.bound, action, resourceId))
            && (answer.Ok? ==> answer.value.(inFlight := false) == at.bound)
            && (answer == Err(Validation) <==> !Identifier(resourceId, 128))
            && (answer.Err? ==> answer.error in {Validation, Forbidden})
  {
  }

  /**
   A release gives the token back: the same claim is granted again, with the same capability, as if there had been none.
   */
  lemma ReleasedClaimsAgain(
    records: Records, token: Token, action: TransferAction, resourceId: string, details: Details, now: int, later: int)
    requires Unused(records) && Claim(records, token, action, resourceId, details, now).outcome.Ok?
    ensures var claimed := Claim(records, token, action, resourceId, details, now);
            var released := Release(claimed.records, token, action, resourceId);
            && released == records
            && Claim(claimed.records, token, action, resourceId, details, later).outcome.Err?
            && (later < claimed.outcome.value.expiresAt ==>
                  Claim(released, token, action, resourceId, details, later) == claimed)
  {
    var c := records[Sha256(token)];
    assert records[Sha256(token) := c] == records;
  }

  /** Resource ids: up to a hundred and twenty-eight letters; punctuation, though no space, and never at the start. */
  lemma IdBoundary(id: string)
    requires |id| >= 1 && forall i :: 0 <= i < |id| ==> 'a' <= id[i] <= 'z'
    ensures ValidId(id) <==> |id| < 129
    ensures ValidId("Z9.a_b:c-d") && !ValidId("") && !ValidId(".a") && !ValidId("a b") && !ValidId("a/b")
  {
    assert "a b"[1] == ' ' && "a/b"[1] == '/';
  }
}

/**
 One-shot transfer capabilities. A record is claimed while a durable operation runs, then committed, which
 deletes it, or released for another try. Digests are taken to be collision-free; the clock is an input.
 */
module TransferModel {
  import opened Outcomes
  import opened Texts

  type Token = string

  datatype Digest = Sha256(token: Token)

  datatype TransferAction = UploadWrite | UploadFinalize | ArtifactDownload

  datatype Capability = Capability(
    action: TransferAction, actor: string, resourceId: string, projectId: string,
    byteLength: nat, sha256: string, expiresAt: int, used: bool, inFlight: bool)

  /** Length and digest of an upload body, or as stated in a finalize request; downloads carry none. */
  datatype Details = Details(byteLength: nat, sha256: string)

  type Records = map<Digest, Capability>

  predicate ValidId(id: string) {
    Identifier(id, 128)
  }

  datatype Reply = Reply(outcome: Result<Capability>, records: Records)

  /** `find`: a record looked up for its own action and resource at or after its expiry is deleted. */
  function Find(records: Records, token: Token, action: TransferAction, resourceId: string, now: int): Reply {
    var d := Sha256(token);
    if d !in records || records[d].action != action || records[d].resourceId != resourceId
      then Reply(Err(Forbidden), records)
    else if now >= records[d].expiresAt then Reply(Err(UploadExpired), records - {d})
    else Reply(Ok(records[d]), records)
  }

  predicate Busy(c: Capability) {
    c.used || c.inFlight
  }

  function Preflight(records: Records, token: Token, action: TransferAction, resourceId: string, now: int): Reply {
    if !ValidId(resourceId) then Reply(Err(Validation), records)
    else
      var found := Find(records, token, action, resourceId, now);
      if found.outcome.Ok? && !action.ArtifactDownload? && Busy(found.outcome.value)
      then Reply(Err(Forbidden), found.records) else found
  }

  predicate DetailsMatch(c: Capability, details: Details) {
    details.byteLength == c.byteLength && details.sha256 == c.sha256
  }

  /**
   The three claims. A write checks its bytes before the one-shot state, a finalize after it, a download has
   nothing to check.
   */
  function Claim(
    records: Records, token: Token, action: TransferAction, resourceId: string, details: Details, now: int): Reply
  {
    if !ValidId(resourceId) then Reply(Err(Validation), records)
    else
      var found := Find(records, token, action, resourceId, now);
      if found.outcome.Err? then found
      else
        var c := found.outcome.value;
        if action.UploadWrite? && !DetailsMatch(c, details) then Reply(Err(IntegrityError), records)
        else if Busy(c) then Reply(Err(Forbidden), records)
        else if action.UploadFinalize? && !DetailsMatch(c, details) then Reply(Err(IntegrityError), records)
        else Reply(Ok(c), records[Sha256(token) := c.(inFlight := true)])
  }

  predicate Claimed(records: Records, token: Token, action: TransferAction, resourceId: string) {
    var d := Sha256(token);
    d in records && records[d].action == action && records[d].resourceId == resourceId && records[d].inFlight
  }

  function Commit(records: Records, token: Token, action: TransferAction, resourceId: string): Reply {
    if !ValidId(resourceId) then Reply(Err(Validation), records)
    else if !Claimed(records, token, action, resourceId) then Reply(Err(Forbidden), records)
    else Reply(Ok(records[Sha256(token)]), records - {Sha256(token)})
  }

  /** A release of nothing claimed does nothing. */
  function Release(records: Records, token: Token, action: TransferAction, resourceId: string): Records {
    if !ValidId(resourceId) || !Claimed(records, token, action, resourceId) then records
    else records[Sha256(token) := records[Sha256(token)].(inFlight := false)]
  }

  function RemoveExpired(records: Records, now: int): Records {
    map d | d in records && !(records[d].used || (!records[d].inFlight && records[d].expiresAt <= now)) :: records[d]
  }

  function Issue(records: Records, token: Token, c: Capability, now: int): Records {
    RemoveExpired(records, now)[Sha256(token) := c.(used := false, inFlight := false)]
  }

  // ---------- runs ----------

  datatype Step =
    | IssueOne(token: Token, capability: Capability, now: int)
    | Check(token: Token, action: TransferAction, resourceId: string, now: int)
    | ClaimOne(token: Token, action: TransferAction, resourceId: string, details: Details, now: int)
    | CommitOne(token: Token, action: TransferAction, resourceId: string)
    | ReleaseOne(token: Token, action: TransferAction, resourceId: string)

  function Apply(records: Records, step: Step): Records {
    match step
    case IssueOne(t, c, now) => Issue(records, t, c, now)
    case Check(t, a, r, now) => Preflight(records, t, a, r, now).records
    case ClaimOne(t, a, r, d, now) => Claim(records, t, a, r, d, now).records
    case CommitOne(t, a, r) => Commit(records, t, a, r).records
    case ReleaseOne(t, a, r) => Release(records, t, a, r)
  }

  function Run(records: Records, steps: seq<Step>): Records {
    if steps == [] then records else Apply(Run(records, steps[..|steps| - 1]), steps[|steps| - 1])
  }

  /** The step commits this token, and the commit is accepted. */
  predicate Commits(records: Records, step: Step, token: Token) {
    step.CommitOne? && step.token == token && Commit(records, token, step.action, step.resourceId).outcome.Ok?
  }

  function CommitCount(records: Records, steps: seq<Step>, token: Token): nat {
    if steps == [] then 0
    else
      var rest := steps[..|steps| - 1];
      CommitCount(records, rest, token) + if Commits(Run(records, rest), steps[|steps| - 1], token) then 1 else 0
  }

  /** Random tokens are new: never issued before, and not in the records the run starts from. */
  ghost predicate FreshTokens(records: Records, steps: seq<Step>) {
    && (forall n :: 0 <= n < |steps| && steps[n].IssueOne? ==> Sha256(steps[n].token) !in records)
    && (forall m, n :: 0 <= m < n < |steps| && steps[m].IssueOne? && steps[n].IssueOne? ==>
      steps[m].token != steps[n].token)
  }

  ghost predicate IssuedIn(steps: seq<Step>, token: Token) {
    exists n :: 0 <= n < |steps| && steps[n].IssueOne? && steps[n].token == token
  }

  lemma FreshPrefix(records: Records, steps: seq<Step>)
    requires FreshTokens(records, steps) && steps != []
    ensures FreshTokens(records, steps[..|steps| - 1])
    ensures var last := steps[|steps| - 1];
            last.IssueOne? ==> Sha256(last.token) !in records && !IssuedIn(steps[..|steps| - 1], last.token)
  {
  }

  /** Records only ever come from an issue. */
  lemma {:induction false} RecordsWereIssued(records: Records, steps: seq<Step>, token: Token)
    ensures Sha256(token) in Run(records, steps) ==> Sha256(token) in records || IssuedIn(steps, token)
  {
    if steps != [] {
      var rest, last := steps[..|steps| - 1], steps[|steps| - 1];
      RecordsWereIssued(records, rest, token);
      assert steps == rest + [last];
      if IssuedIn(rest, token) {
        var n :| 0 <= n < |rest| && rest[n].IssueOne? && rest[n].token == token;
        assert steps[n].IssueOne? && steps[n].token == token;
      } else if last.IssueOne? && last.token == token {
        assert steps[|steps| - 1].IssueOne?;
      }
    }
  }

  /** A commit takes its record away, and only an issue brings one. */
  lemma TokenStep(records: Records, step: Step, token: Token)
    ensures Commits(records, step, token) ==> Sha256(token) in records && Sha256(token) !in Apply(records, step)
    ensures Sha256(token) in Apply(records, step) && Sha256(token) !in records ==> step.IssueOne? && step.token == token
  {
  }

  lemma IssuedLater(steps: seq<Step>, token: Token)
    requires steps != [] && IssuedIn(steps[..|steps| - 1], token)
    ensures IssuedIn(steps, token)
  {
    var n :| 0 <= n < |steps| - 1 && steps[..|steps| - 1][n].IssueOne? && steps[..|steps| - 1][n].token == token;
    assert steps[n].IssueOne? && steps[n].token == token;
  }

  /**
   One-shot: over any run each token is committed at most once, and after that its record is gone for good.
   */
  lemma {:induction false} CommittedAtMostOnce(records: Records, steps: seq<Step>, token: Token)
    requires FreshTokens(records, steps)
    ensures CommitCount(records, steps, token) <= 1
    ensures CommitCount(records, steps, token) == 1 ==>
              Sha256(token) !in Run(records, steps) && (Sha256(token) in records || IssuedIn(steps, token))
  {
    if steps != [] {
      var rest, last := steps[..|steps| - 1], steps[|steps| - 1];
      FreshPrefix(records, steps);
      CommittedAtMostOnce(records, rest, token);
      RecordsWereIssued(records, rest, token);
      TokenStep(Run(records, rest), last, token);
      hide Apply, Commits, IssuedIn, FreshTokens;
      if IssuedIn(rest, token) {
        IssuedLater(steps, token);
      }
    }
  }

  /** What a record binds never changes while it is stored: only the claim mark moves. */
  lemma {:induction false} BindingFixed(records: Records, steps: seq<Step>, token: Token)
    requires forall n :: 0 <= n < |steps| && steps[n].IssueOne? ==> steps[n].token != token
    ensures Sha256(token) in Run(records, steps) ==>
              Sha256(token) in records
              && var before, after := records[Sha256(token)], Run(records, steps)[Sha256(token)];
                 after == before.(inFlight := after.inFlight)
  {
    if steps != [] {
      BindingFixed(records, steps[..|steps| - 1], token);
      assert steps[|steps| - 1].IssueOne? ==> steps[|steps| - 1].token != token;
    }
  }

  lemma {:induction false} RunOn(records: Records, a: seq<Step>, b: seq<Step>)
    ensures Run(records, a + b) == Run(Run(records, a), b)
  {
    hide Apply;
    if b == [] {
      assert a + b == a;
    } else {
      RunOn(records, a, b[..|b| - 1]);
      assert (a + b)[..|a + b| - 1] == a + b[..|b| - 1];
    }
  }

  /** An accepted commit goes back to the one issue of its token, and to the action and resource issued with it. */
  lemma CommitMatchesIssue(records: Records, steps: seq<Step>, n: nat) returns (m: nat)
    requires FreshTokens(records, steps) && n < |steps| && Sha256(steps[n].token) !in records
    requires Commits(Run(records, steps[..n]), steps[n], steps[n].token)
    ensures m < n && steps[m].IssueOne? && steps[m].token == steps[n].token
    ensures steps[m].capability.action == steps[n].action && steps[m].capability.resourceId == steps[n].resourceId
    ensures forall k :: 0 <= k < |steps| && steps[k].IssueOne? && steps[k].token == steps[n].token ==> k == m
  {
    hide Run, Apply, Commit, FreshTokens;
    var token, before := steps[n].token, steps[..n];
    CommitIsClaimed(Run(records, before), steps[n], token);
    OneIssue(records, steps, token);
    RecordsWereIssued(records, before, token);
    m :| 0 <= m < |before| && before[m].IssueOne? && before[m].token == token;
    assert steps[m] == before[m];
    var front, between := before[..m + 1], before[m + 1..];
    assert before == front + between && front[..m] == before[..m] && front[m] == steps[m];
    RunOn(records, front, between);
    forall k | 0 <= k < |between| && between[k].IssueOne? ensures between[k].token != token {
      assert between[k] == steps[m + 1 + k];
    }
    BindingFixed(Run(records, front), between, token);
    JustIssued(records, front);
  }

  lemma CommitIsClaimed(records: Records, step: Step, token: Token)
    requires Commits(records, step, token)
    ensures Claimed(records, token, step.action, step.resourceId)
  {
  }

  lemma OneIssue(records: Records, steps: seq<Step>, token: Token)
    requires FreshTokens(records, steps)
    ensures forall j, k :: 0 <= j < k < |steps| && steps[j].IssueOne? && steps[k].IssueOne? ==>
              steps[j].token != token || steps[k].token != token
  {
  }

  lemma JustIssued(records: Records, steps: seq<Step>)
    requires steps != [] && steps[|steps| - 1].IssueOne?
    ensures var last := steps[|steps| - 1];
            && Sha256(last.token) in Run(records, steps)
            && Run(records, steps)[Sha256(last.token)] == last.capability.(used := false, inFlight := false)
  {
  }

  // ---------- claims exclude each other ----------

  /** No claim of this token can succeed now. */
  predicate Held(records: Records, token: Token) {
    Sha256(token) in records ==> records[Sha256(token)].inFlight
  }

  predicate Releases(records: Records, step: Step, token: Token) {
    step.ReleaseOne? && step.token == token && ValidId(step.resourceId)
    && Claimed(records, token, step.action, step.resourceId)
  }

  /** Steps in which this token is neither issued again nor released. */
  ghost predicate Undisturbed(records: Records, steps: seq<Step>, token: Token) {
    forall n :: 0 <= n < |steps| ==>
      !(steps[n].IssueOne? && steps[n].token == token) && !Releases(Run(records, steps[..n]), steps[n], token)
  }

  lemma {:induction false} StaysHeld(records: Records, steps: seq<Step>, token: Token)
    requires Held(records, token) && Undisturbed(records, steps, token)
    ensures Held(Run(records, steps), token)
  {
    if steps != [] {
      var rest := steps[..|steps| - 1];
      assert forall n :: 0 <= n < |rest| ==> rest[..n] == steps[..n];
      StaysHeld(records, rest, token);
      assert !Releases(Run(records, steps[..|steps| - 1]), steps[|steps| - 1], token);
      assert !(steps[|steps| - 1].IssueOne? && steps[|steps| - 1].token == token);
      HeldOn(Run(records, rest), steps[|steps| - 1], token);
      hide Apply, Held, Releases, Undisturbed;
    }
  }

  lemma HeldOn(records: Records, step: Step, token: Token)
    requires Held(records, token) && !(step.IssueOne? && step.token == token) && !Releases(records, step, token)
    ensures Held(Apply(records, step), token)
  {
  }

  /** Between a successful claim and its commit or release, no second claim of the token succeeds. */
  lemma NoSecondClaim(records: Records, claim: Step, steps: seq<Step>, second: Step)
    requires claim.ClaimOne? && second.ClaimOne? && second.token == claim.token
    requires Claim(records, claim.token, claim.action, claim.resourceId, claim.details, claim.now).outcome.Ok?
    requires Undisturbed(Apply(records, claim), steps, claim.token)
    ensures var later := Run(Apply(records, claim), steps);
            Claim(later, second.token, second.action, second.resourceId, second.details, second.now).outcome.Err?
  {
    StaysHeld(Apply(records, claim), steps, claim.token);
  }

  // ---------- a claim may finish late, unless somebody looks ----------

  /** Issuing sweeps expired records away, but never one that is claimed. */
  lemma IssueKeepsClaims(records: Records, token: Token, c: Capability, now: int, other: Token)
    requires other != token && Sha256(other) in records && records[Sha256(other)].inFlight
          && !records[Sha256(other)].used
    ensures Sha256(other) in Issue(records, token, c, now)
    ensures Issue(records, token, c, now)[Sha256(other)] == records[Sha256(other)]
  {
  }

  /** No stored record is marked used: a commit deletes the record it marks. */
  lemma {:induction false} NoneUsed(records: Records, steps: seq<Step>)
    requires forall d :: d in records ==> !records[d].used
    ensures forall d :: d in Run(records, steps) ==> !Run(records, steps)[d].used
  {
    if steps != [] {
      NoneUsed(records, steps[..|steps| - 1]);
      StepUsesNone(Run(records, steps[..|steps| - 1]), steps[|steps| - 1]);
      hide Apply;
    }
  }

  lemma StepUsesNone(records: Records, step: Step)
    requires forall d :: d in records ==> !records[d].used
    ensures forall d :: d in Apply(records, step) ==> !Apply(records, step)[d].used
  {
  }

  /** The step looks the record up for its own action and resource at or after its expiry. */
  predicate LateLook(c: Capability, step: Step, token: Token) {
    && (step.Check? || step.ClaimOne?) && step.token == token
    && step.action == c.action && step.resourceId == c.resourceId && ValidId(c.resourceId)
    && step.now >= c.expiresAt
  }

  ghost predicate LateLooks(c: Capability, steps: seq<Step>, token: Token) {
    exists n :: 0 <= n < |steps| && LateLook(c, steps[n], token)
  }

  /** The token is not issued again, and neither committed nor released. */
  ghost predicate Pending(steps: seq<Step>, token: Token) {
    forall n :: 0 <= n < |steps| ==>
      (steps[n].IssueOne? || steps[n].CommitOne? || steps[n].ReleaseOne?) ==> steps[n].token != token
  }

  /** One step by others: only a late look takes a claimed record away, and nothing else touches it. */
  lemma ClaimStep(records: Records, step: Step, token: Token)
    requires Sha256(token) in records && records[Sha256(token)].inFlight && !records[Sha256(token)].used
    requires step.IssueOne? || step.CommitOne? || step.ReleaseOne? ==> step.token != token
    ensures Sha256(token) in Apply(records, step) <==> !LateLook(records[Sha256(token)], step, token)
    ensures Sha256(token) in Apply(records, step) ==> Apply(records, step)[Sha256(token)] == records[Sha256(token)]
  {
  }

  lemma GoneStays(records: Records, step: Step, token: Token)
    requires Sha256(token) !in records && (step.IssueOne? ==> step.token != token)
    ensures Sha256(token) !in Apply(records, step)
  {
  }

  lemma LateLooksOn(c: Capability, steps: seq<Step>, token: Token)
    requires steps != []
    ensures LateLooks(c, steps, token) <==>
              LateLooks(c, steps[..|steps| - 1], token) || LateLook(c, steps[|steps| - 1], token)
  {
    hide LateLook;
    var rest, last := steps[..|steps| - 1], steps[|steps| - 1];
    if LateLooks(c, rest, token) {
      var n :| 0 <= n < |rest| && LateLook(c, rest[n], token);
      assert LateLook(c, steps[n], token);
    }
    if LateLooks(c, steps, token) {
      var n :| 0 <= n < |steps| && LateLook(c, steps[n], token);
      assert n < |rest| ==> LateLook(c, rest[n], token);
    }
  }

  /**
   A claimed record survives any steps of others and any passing of time, with one exception: a look-up of the
   same token for the same resource after expiry deletes it under its holder.
   */
  lemma {:induction false} ClaimSurvivesIff(records: Records, steps: seq<Step>, token: Token)
    requires Sha256(token) in records && records[Sha256(token)].inFlight && !records[Sha256(token)].used
    requires Pending(steps, token)
    ensures var c := records[Sha256(token)];
            var left := Run(records, steps);
            && (Sha256(token) in left <==> !LateLooks(c, steps, token))
            && (Sha256(token) in left ==> left[Sha256(token)] == c)
  {
    hide Apply, LateLook, LateLooks;
    var c := records[Sha256(token)];
    if steps == [] {
      NoLooks(c, token);
    } else {
      var rest, last := steps[..|steps| - 1], steps[|steps| - 1];
      ClaimSurvivesIff(records, rest, token);
      LateLooksOn(c, steps, token);
      if Sha256(token) in Run(records, rest) {
        ClaimStep(Run(records, rest), last, token);
      } else {
        GoneStays(Run(records, rest), last, token);
      }
    }
  }

  lemma NoLooks(c: Capability, token: Token)
    ensures !LateLooks(c, [], token)
  {
  }

  /** So the commit that ends a claim is accepted exactly when nobody looked late. */
  lemma CommitAfterClaimIff(records: Records, claim: Step, steps: seq<Step>)
    requires claim.ClaimOne? && Pending(steps, claim.token)
    requires Claim(records, claim.token, claim.action, claim.resourceId, claim.details, claim.now).outcome.Ok?
    ensures var later := Run(Apply(records, claim), steps);
            Commit(later, claim.token, claim.action, claim.resourceId).outcome.Ok? <==>
            !LateLooks(records[Sha256(claim.token)].(inFlight := true), steps, claim.token)
  {
    ClaimSurvivesIff(Apply(records, claim), steps, claim.token);
  }

  /** A download claimed at time 0 until 10, checked again at 10: its holder's commit is refused. */
  lemma LateLookLosesClaim()
    ensures var c := Capability(ArtifactDownload, "ann", "a1", "p1", 4, "digest", 10, false, false);
            var issued := Issue(map[], "token", c, 0);
            var claimed := Claim(issued, "token", ArtifactDownload, "a1", Details(0, ""), 0);
            var looked := Preflight(claimed.records, "token", ArtifactDownload, "a1", 10);
            && claimed.outcome.Ok? && looked.outcome == Err(UploadExpired)
            && Commit(claimed.records, "token", ArtifactDownload, "a1").outcome.Ok?
            && Commit(looked.records, "token", ArtifactDownload, "a1").outcome == Err(Forbidden)
  {
    assert ValidId("a1");
  }
}

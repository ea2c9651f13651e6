/**
 Resumable artifact uploads: sessions collect bytes, a finalization checks them against their declaration, and
 the artifact then reads as those bytes. Digests are taken to be collision-free; the clock is an input.
 */
module UploadModel {
  import opened Outcomes
  import opened Texts

  type Id = string

  datatype Hash = Sha256(body: seq<Byte>)

  datatype UploadStatus = Pending | Finalized

  datatype Upload = Upload(
    artifactId: Id, byteSize: nat, sha256: Hash, expiresAt: int, status: UploadStatus, body: seq<Byte>)

  datatype Artifact = Artifact(byteSize: nat, sha256: Hash, retired: bool, version: nat)

  datatype Files = Files(uploads: map<Id, Upload>, artifacts: map<Id, Artifact>)

  const UPLOAD_TTL := 15 * 60 * 1000

  predicate Open(files: Files, session: Id, now: int) {
    session in files.uploads && files.uploads[session].status == Pending && now < files.uploads[session].expiresAt
  }

  function BeginUpload(files: Files, session: Id, artifactId: Id, byteSize: nat, sha256: Hash, now: int): Files {
    files.(uploads := files.uploads[session := Upload(artifactId, byteSize, sha256, now + UPLOAD_TTL, Pending, [])])
  }

  /** Without an offset the chunk replaces the body; with one it must continue it exactly. */
  function WriteUpload(files: Files, session: Id, chunk: seq<Byte>, offset: Option<nat>, now: int): Result<Files> {
    if !Open(files, session, now) then Err(UploadExpired)
    else
      var upload := files.uploads[session];
      if offset.Some? && offset.value != |upload.body| then Err(Conflict)
      else
        var received := if offset.Some? then upload.body + chunk else chunk;
        if |received| > upload.byteSize then Err(QuotaExceeded)
        else Ok(files.(uploads := files.uploads[session := upload.(body := received)]))
  }

  function AbortUpload(files: Files, session: Id): Files {
    files.(uploads := files.uploads - {session})
  }

  function FinalizeUpload(files: Files, session: Id, now: int): Result<Files> {
    if !Open(files, session, now) then Err(UploadExpired)
    else
      var upload := files.uploads[session];
      if |upload.body| != upload.byteSize || Sha256(upload.body) != upload.sha256 then Err(IntegrityError)
      else
        Ok(Files(files.uploads[session := upload.(status := Finalized)],
                 files.artifacts[upload.artifactId := Artifact(upload.byteSize, upload.sha256, false, 1)]))
  }

  function RollbackFinalization(files: Files, session: Id, artifactId: Id): Result<Files> {
    if session !in files.uploads || files.uploads[session].artifactId != artifactId then Err(IntegrityError)
    else
      Ok(Files(files.uploads[session := files.uploads[session].(status := Pending)], files.artifacts - {artifactId}))
  }

  function RetireArtifact(files: Files, artifactId: Id, expected: Option<nat>): Result<Files> {
    if artifactId !in files.artifacts then Err(NotFound)
    else
      var artifact := files.artifacts[artifactId];
      if Stale(artifact.version, expected) then Err(Conflict)
      else Ok(files.(artifacts := files.artifacts[artifactId :=
        artifact.(retired := true, version := artifact.version + 1)]))
  }

  /** `readArtifact` may return this body: that of some session for the artifact, or nothing when there is none. */
  ghost predicate Reads(files: Files, artifactId: Id, body: seq<Byte>) {
    || (exists s :: s in files.uploads && files.uploads[s].artifactId == artifactId && files.uploads[s].body == body)
    || (body == [] && forall s :: s in files.uploads ==> files.uploads[s].artifactId != artifactId)
  }

  // ---------- runs ----------

  datatype Step =
    | Begin(session: Id, artifactId: Id, byteSize: nat, sha256: Hash, now: int)
    | Write(session: Id, chunk: seq<Byte>, offset: Option<nat>, now: int)
    | Abort(session: Id)
    | Finalize(session: Id, now: int)
    | Rollback(session: Id, artifactId: Id)
    | Retire(artifactId: Id, expected: Option<nat>)

  function Attempt(files: Files, step: Step): Result<Files> {
    match step
    case Begin(s, a, n, h, now) => Ok(BeginUpload(files, s, a, n, h, now))
    case Write(s, c, o, now) => WriteUpload(files, s, c, o, now)
    case Abort(s) => Ok(AbortUpload(files, s))
    case Finalize(s, now) => FinalizeUpload(files, s, now)
    case Rollback(s, a) => RollbackFinalization(files, s, a)
    case Retire(a, v) => RetireArtifact(files, a, v)
  }

  function Apply(files: Files, step: Step): Files {
    var r := Attempt(files, step);
    if r.Ok? then r.value else files
  }

  function Run(files: Files, steps: seq<Step>): Files {
    if steps == [] then files else Apply(Run(files, steps[..|steps| - 1]), steps[|steps| - 1])
  }

  /** Generated ids are new. */
  predicate FreshIds(files: Files, step: Step) {
    step.Begin? ==> step.session !in files.uploads && step.artifactId !in files.artifacts
                    && forall s :: s in files.uploads ==> files.uploads[s].artifactId != step.artifactId
  }

  ghost predicate FreshThroughout(files: Files, steps: seq<Step>) {
    forall n :: 0 <= n < |steps| ==> FreshIds(Run(files, steps[..n]), steps[n])
  }

  ghost predicate Inv(files: Files) {
    && (forall s, t :: s in files.uploads && t in files.uploads && s != t ==>
          files.uploads[s].artifactId != files.uploads[t].artifactId)
    && (forall s :: s in files.uploads ==> |files.uploads[s].body| <= files.uploads[s].byteSize)
    && (forall s :: s in files.uploads && files.uploads[s].status == Finalized ==> Verified(files, s))
  }

  /** A finalized session holds exactly the declared bytes, and its artifact declares the same. */
  ghost predicate Verified(files: Files, session: Id)
    requires session in files.uploads
  {
    var u := files.uploads[session];
    && |u.body| == u.byteSize && Sha256(u.body) == u.sha256
    && u.artifactId in files.artifacts
    && files.artifacts[u.artifactId].byteSize == u.byteSize && files.artifacts[u.artifactId].sha256 == u.sha256
  }

  lemma StepKeeps(files: Files, step: Step)
    requires Inv(files) && FreshIds(files, step)
    ensures Inv(Apply(files, step))
  {
    var after := Apply(files, step);
    forall s | s in after.uploads && after.uploads[s].status == Finalized ensures Verified(after, s) {
      if s in files.uploads && files.uploads[s].status == Finalized {
        assert Verified(files, s);
      }
    }
  }

  /** A body never exceeds its declared size, and a finalized one is what was declared, in every run. */
  lemma {:induction false} RunKeeps(files: Files, steps: seq<Step>)
    requires Inv(files) && FreshThroughout(files, steps)
    ensures Inv(Run(files, steps))
  {
    if steps != [] {
      var rest := steps[..|steps| - 1];
      assert forall n :: 0 <= n < |rest| ==> rest[..n] == steps[..n];
      RunKeeps(files, rest);
      StepKeeps(Run(files, rest), steps[|steps| - 1]);
    }
  }

  // ---------- the body is the accepted chunks ----------

  /** The step starts the session's body over: a new session, a whole-body write, an abort. */
  predicate StartsOver(step: Step, session: Id) {
    (step.Begin? || step.Abort? || (step.Write? && step.offset.None?)) && step.session == session
  }

  ghost predicate OnlyContinued(steps: seq<Step>, session: Id) {
    forall n :: 0 <= n < |steps| ==> !StartsOver(steps[n], session)
  }

  predicate Accepted(files: Files, step: Step, session: Id) {
    step.Write? && step.session == session && Attempt(files, step).Ok?
  }

  /** The chunks written to the session and accepted, in order, joined. */
  function Joined(files: Files, steps: seq<Step>, session: Id): seq<Byte> {
    if steps == [] then []
    else
      var rest, last := steps[..|steps| - 1], steps[|steps| - 1];
      Joined(files, rest, session) + if Accepted(Run(files, rest), last, session) then last.chunk else []
  }

  lemma BodyStep(files: Files, step: Step, session: Id)
    requires session in files.uploads && !StartsOver(step, session)
    ensures session in Apply(files, step).uploads
    ensures Apply(files, step).uploads[session].body ==
            files.uploads[session].body + if Accepted(files, step, session) then step.chunk else []
  {
  }

  /** Under offset writes the body is what was there, followed by the accepted chunks; refused writes leave no trace. */
  lemma {:induction false} BodyIsJoined(files: Files, steps: seq<Step>, session: Id)
    requires session in files.uploads && OnlyContinued(steps, session)
    ensures session in Run(files, steps).uploads
    ensures Run(files, steps).uploads[session].body == files.uploads[session].body + Joined(files, steps, session)
  {
    if steps != [] {
      hide Apply, Accepted, StartsOver;
      var rest, last := steps[..|steps| - 1], steps[|steps| - 1];
      BodyIsJoined(files, rest, session);
      BodyStep(Run(files, rest), last, session);
    }
  }

  /** A chunk accepted at an offset stays at that offset, whatever is appended later. */
  lemma ChunkInPlace(files: Files, write: Step, steps: seq<Step>)
    requires write.Write? && write.offset.Some? && Accepted(files, write, write.session)
    requires OnlyContinued(steps, write.session)
    ensures write.session in Run(Apply(files, write), steps).uploads
    ensures var body := Run(Apply(files, write), steps).uploads[write.session].body;
            write.offset.value + |write.chunk| <= |body|
            && body[write.offset.value..write.offset.value + |write.chunk|] == write.chunk
  {
    BodyIsJoined(Apply(files, write), steps, write.session);
  }

  // ---------- finalized bytes are forever ----------

  ghost predicate Kept(steps: seq<Step>, session: Id) {
    forall n :: 0 <= n < |steps| ==> !((steps[n].Abort? || steps[n].Rollback?) && steps[n].session == session)
  }

  lemma {:induction false} FinalizedStays(files: Files, steps: seq<Step>, session: Id)
    requires Inv(files) && FreshThroughout(files, steps) && Kept(steps, session)
    requires session in files.uploads && files.uploads[session].status == Finalized
    ensures session in Run(files, steps).uploads && Run(files, steps).uploads[session] == files.uploads[session]
  {
    if steps != [] {
      var rest, last := steps[..|steps| - 1], steps[|steps| - 1];
      assert forall n :: 0 <= n < |rest| ==> rest[..n] == steps[..n];
      FinalizedStays(files, rest, session);
      assert FreshIds(Run(files, steps[..|steps| - 1]), last);
      assert !((last.Abort? || last.Rollback?) && last.session == session);
    }
  }

  /**
   Once a session is finalized, and while it is neither aborted nor rolled back, its artifact reads as the
   finalized bytes and nothing else, which have the declared length and digest.
   */
  lemma ReadsForever(files: Files, finalize: Step, steps: seq<Step>, body: seq<Byte>)
    requires Inv(files) && finalize.Finalize? && Attempt(files, finalize).Ok?
    requires FreshThroughout(Apply(files, finalize), steps) && Kept(steps, finalize.session)
    ensures var u := files.uploads[finalize.session];
            var later := Run(Apply(files, finalize), steps);
            && u.artifactId in later.artifacts
            && later.artifacts[u.artifactId].sha256 == Sha256(u.body)
            && later.artifacts[u.artifactId].byteSize == |u.body|
            && (Reads(later, u.artifactId, body) <==> body == u.body)
  {
    var done := Apply(files, finalize);
    StepKeeps(files, finalize);
    FinalizedStays(done, steps, finalize.session);
    RunKeeps(done, steps);
    assert Verified(Run(done, steps), finalize.session);
  }
}

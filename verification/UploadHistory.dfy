/** Whole uploads: what a client that begins, writes and finalizes is answered, and what a rollback undoes. */
module UploadHistory {
  import opened Outcomes
  import opened Texts
  import opened UploadModel

  /** The session takes bytes at this time. */
  predicate Takes(files: Files, session: Id, now: int) {
    session in files.uploads && files.uploads[session].status == Pending && now < files.uploads[session].expiresAt
  }

  /** The body after the chunk: in place of what was there, or behind it. */
  function Received(files: Files, session: Id, chunk: seq<Byte>, offset: Option<nat>): seq<Byte>
    requires session in files.uploads
  {
    (if offset == None then [] else files.uploads[session].body) + chunk
  }

  /** A chunk is taken if and only if it is in time, continues the body, and keeps within the declared size. */
  lemma WriteAnswers(files: Files, session: Id, chunk: seq<Byte>, offset: Option<nat>, now: int)
    ensures var answer := WriteUpload(files, session, chunk, offset, now);
            var takes := Takes(files, session, now);
            var inPlace := takes && (offset.Some? ==> offset.value == |files.uploads[session].body|);
            && (answer.Ok? <==> inPlace && |Received(files, session, chunk, offset)| <= files.uploads[session].byteSize)
            && (answer == Err(UploadExpired) <==> !takes)
            && (answer == Err(Conflict) <==> takes && !inPlace)
            && (answer.Err? ==> answer.error in {UploadExpired, Conflict, QuotaExceeded})
            && (answer.Ok? ==>
                  && answer.value.artifacts == files.artifacts && answer.value.uploads.Keys == files.uploads.Keys
                  && (forall s :: s in files.uploads && s != session ==> answer.value.uploads[s] == files.uploads[s])
                  && var before, after := files.uploads[session], answer.value.uploads[session];
                     after.body == Received(files, session, chunk, offset) && before == after.(body := before.body))
  {
    if session in files.uploads {
      assert [] + chunk == chunk;
    }
  }

  /**
   A finalization is accepted if and only if it is in time and the body is as declared: then the artifact is there.
   */
  lemma FinalizeAnswers(files: Files, session: Id, now: int)
    ensures var answer := FinalizeUpload(files, session, now);
            var takes := Takes(files, session, now);
            && (answer.Ok? <==>
                  takes && var u := files.uploads[session]; |u.body| == u.byteSize && u.sha256 == Sha256(u.body))
            && (answer == Err(UploadExpired) <==> !takes)
            && (answer.Err? ==> answer.error in {UploadExpired, IntegrityError})
  {
  }

  /** Rolling a finalization back takes the artifact away and opens the session again: all is as before. */
  lemma FinalizeThenRollback(files: Files, session: Id, now: int)
    requires FinalizeUpload(files, session, now).Ok? && files.uploads[session].artifactId !in files.artifacts
    ensures var u, after := files.uploads[session], FinalizeUpload(files, session, now).value;
            && after != files && after.artifacts.Keys == files.artifacts.Keys + {u.artifactId}
            && FinalizeUpload(after, session, now) == Err(UploadExpired)
            && RollbackFinalization(after, session, u.artifactId) == Ok(files)
            && forall other :: other != u.artifactId ==>
                 RollbackFinalization(after, session, other) == Err(IntegrityError)
  {
    var u, after := files.uploads[session], FinalizeUpload(files, session, now).value;
    assert after.uploads[session := after.uploads[session].(status := Pending)] == files.uploads;
    assert after.artifacts - {u.artifactId} == files.artifacts;
  }

  /** An unknown session has nothing to roll back. */
  lemma RollbackRefusedIff(files: Files, session: Id, artifactId: Id)
    ensures RollbackFinalization(files, session, artifactId) == Err(IntegrityError) <==>
              session in files.uploads ==> files.uploads[session].artifactId != artifactId
    ensures RollbackFinalization(files, session, artifactId).Ok? ==>
              var after := RollbackFinalization(files, session, artifactId).value;
              && artifactId !in after.artifacts && after.uploads[session].status == Pending
              && after.uploads == files.uploads[session := after.uploads[session]]
              && after.uploads[session].body == files.uploads[session].body
  {
  }

  /** Of two retirements that expect the same version, the second is refused. */
  lemma RetiredOnce(files: Files, artifactId: Id, expected: nat)
    ensures RetireArtifact(files, artifactId, Some(expected)).Ok? <==>
              artifactId in files.artifacts && files.artifacts[artifactId].version == expected
    ensures RetireArtifact(files, artifactId, Some(expected)) == Err(NotFound) <==> artifactId !in files.artifacts
    ensures RetireArtifact(files, artifactId, Some(expected)).Ok? ==>
              var after := RetireArtifact(files, artifactId, Some(expected)).value;
              && RetireArtifact(files, artifactId, None) == Ok(after)
              && RetireArtifact(after, artifactId, Some(expected)) == Err(Conflict)
              && RetireArtifact(after, artifactId, Some(expected + 1)).Ok?
              && after.uploads == files.uploads && after.artifacts[artifactId].retired
              && after.artifacts[artifactId].sha256 == files.artifacts[artifactId].sha256
              && after.artifacts[artifactId].byteSize == files.artifacts[artifactId].byteSize
              && forall a :: a in files.artifacts && a != artifactId ==>
                   a in after.artifacts && after.artifacts[a] == files.artifacts[a]
  {
  }

  // ---------- a whole upload ----------

  function Concat(chunks: seq<seq<Byte>>): seq<Byte> {
    if chunks == [] then [] else Concat(chunks[..|chunks| - 1]) + chunks[|chunks| - 1]
  }

  datatype Chunk = Chunk(bytes: seq<Byte>, now: int)

  function Bytes(chunks: seq<Chunk>): seq<seq<Byte>> {
    seq(|chunks|, n requires 0 <= n < |chunks| => chunks[n].bytes)
  }

  /** A session begun, and each chunk written behind the last. */
  function Sent(files: Files, begin: Step, chunks: seq<Chunk>): Files
    requires begin.Begin?
  {
    if chunks == [] then Apply(files, begin)
    else
      var last := chunks[|chunks| - 1];
      var before := Sent(files, begin, chunks[..|chunks| - 1]);
      var offset := |Concat(Bytes(chunks[..|chunks| - 1]))|;
      Apply(before, Write(begin.session, last.bytes, Some(offset), last.now))
  }

  /** Every chunk within a quarter of an hour, and all of them together within the declared size. */
  predicate InTime(begin: Step, chunks: seq<Chunk>)
    requires begin.Begin?
  {
    && |Concat(Bytes(chunks))| <= begin.byteSize
    && forall n :: 0 <= n < |chunks| ==> chunks[n].now < begin.now + 900000
  }

  lemma BytesNext(chunks: seq<Chunk>)
    requires chunks != []
    ensures var rest := chunks[..|chunks| - 1];
            Concat(Bytes(chunks)) == Concat(Bytes(rest)) + chunks[|chunks| - 1].bytes
  {
    var rest := chunks[..|chunks| - 1];
    assert Bytes(chunks)[..|chunks| - 1] == Bytes(rest);
  }

  lemma {:induction false} BodySent(files: Files, begin: Step, chunks: seq<Chunk>)
    requires begin.Begin? && InTime(begin, chunks)
    ensures Sent(files, begin, chunks) == files.(uploads := files.uploads[begin.session :=
              Upload(begin.artifactId, begin.byteSize, begin.sha256, begin.now + 900000, Pending,
                Concat(Bytes(chunks)))])
  {
    if chunks != [] {
      BytesNext(chunks);
      BodySent(files, begin, chunks[..|chunks| - 1]);
    }
  }

  /**
   A client that sends everything in time is done if and only if what it sent has the size and the digest it declared;
   then the artifact is there, and reads as exactly that.
   */
  lemma WholeUpload(files: Files, begin: Step, chunks: seq<Chunk>, now: int)
    requires begin.Begin? && FreshIds(files, begin) && InTime(begin, chunks)
    ensures var body, sent := Concat(Bytes(chunks)), Sent(files, begin, chunks);
            var answer := Attempt(sent, Finalize(begin.session, now));
            && (answer.Ok? <==> now < begin.now + 900000 && |body| == begin.byteSize && Sha256(body) == begin.sha256)
            && (answer.Ok? ==>
                  && answer.value.artifacts ==
                     files.artifacts[begin.artifactId := Artifact(begin.byteSize, begin.sha256, false, 1)]
                  && forall read :: Reads(answer.value, begin.artifactId, read) <==> read == body)
  {
    BodySent(files, begin, chunks);
    var body, sent := Concat(Bytes(chunks)), Sent(files, begin, chunks);
    var answer := Attempt(sent, Finalize(begin.session, now));
    if answer.Ok? {
      assert answer.value.uploads[begin.session].body == body;
      forall read ensures Reads(answer.value, begin.artifactId, read) <==> read == body {
      }
    }
  }

  /** One chunk too many is refused and changes nothing; an aborted session takes nothing more. */
  lemma TooMuch(files: Files, begin: Step, chunks: seq<Chunk>, more: Chunk)
    requires begin.Begin? && InTime(begin, chunks) && more.now < begin.now + 900000
    ensures var sent, offset := Sent(files, begin, chunks), |Concat(Bytes(chunks))|;
            var write := Write(begin.session, more.bytes, Some(offset), more.now);
            && (Attempt(sent, write) == Err(QuotaExceeded) <==> offset + |more.bytes| > begin.byteSize)
            && (Attempt(sent, write).Ok? <==> offset + |more.bytes| <= begin.byteSize)
            && Attempt(Apply(sent, Abort(begin.session)), write) == Err(UploadExpired)
  {
    BodySent(files, begin, chunks);
  }
}

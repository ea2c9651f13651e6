/** `MemoryArtifacts`: the upload sessions and artifacts as two maps that each call updates in place. */
module ArtifactUploads {
  import opened Outcomes
  import opened Texts
  import Spec = UploadModel
  import opened UploadModel

  class MemoryArtifacts {
    var uploads: map<Id, Upload>
    var artifacts: map<Id, Artifact>

    constructor ()
      ensures Contents() == Files(map[], map[])
    {
      uploads, artifacts := map[], map[];
    }

    ghost function Contents(): Files
      reads this
    {
      Files(uploads, artifacts)
    }

    method BeginUpload(session: Id, artifactId: Id, byteSize: nat, sha256: Hash, now: int)
      modifies this
      ensures Contents() == Spec.BeginUpload(old(Contents()), session, artifactId, byteSize, sha256, now)
    {
      uploads := uploads[session := Upload(artifactId, byteSize, sha256, now + UPLOAD_TTL, Pending, [])];
    }

    method WriteUpload(session: Id, chunk: seq<Byte>, offset: Option<nat>, now: int) returns (received: Result<nat>)
      modifies this
      ensures match Spec.WriteUpload(old(Contents()), session, chunk, offset, now)
              case Ok(files) => Contents() == files && received == Ok(|files.uploads[session].body|)
              case Err(error) => Contents() == old(Contents()) && received == Err(error)
    {
      if session !in uploads || uploads[session].status != Pending || uploads[session].expiresAt <= now {
        return Err(UploadExpired);
      }
      var upload := uploads[session];
      if offset.Some? && offset.value != |upload.body| {
        return Err(Conflict);
      }
      var body := chunk;
      if offset.Some? {
        body := upload.body + chunk;
      }
      if |body| > upload.byteSize {
        return Err(QuotaExceeded);
      }
      uploads := uploads[session := upload.(body := body)];
      return Ok(|body|);
    }

    method AbortUpload(session: Id)
      modifies this
      ensures Contents() == Spec.AbortUpload(old(Contents()), session)
    {
      uploads := uploads - {session};
    }

    method FinalizeUpload(session: Id, now: int) returns (artifact: Result<Artifact>)
      modifies this
      ensures match Spec.FinalizeUpload(old(Contents()), session, now)
              case Ok(files) => Contents() == files && artifact == Ok(files.artifacts[old(uploads)[session].artifactId])
              case Err(error) => Contents() == old(Contents()) && artifact == Err(error)
    {
      if session !in uploads || uploads[session].status != Pending || uploads[session].expiresAt <= now {
        return Err(UploadExpired);
      }
      var upload := uploads[session];
      if |upload.body| != upload.byteSize {
        return Err(IntegrityError);
      }
      var actual := Sha256(upload.body);
      if actual != upload.sha256 {
        return Err(IntegrityError);
      }
      var created := Artifact(upload.byteSize, actual, false, 1);
      artifacts := artifacts[upload.artifactId := created];
      uploads := uploads[session := upload.(status := Finalized)];
      return Ok(created);
    }

    method RollbackFinalization(session: Id, artifactId: Id) returns (failure: Option<Error>)
      modifies this
      ensures match Spec.RollbackFinalization(old(Contents()), session, artifactId)
              case Ok(files) => Contents() == files && failure == None
              case Err(error) => Contents() == old(Contents()) && failure == Some(error)
    {
      if session !in uploads || uploads[session].artifactId != artifactId {
        return Some(IntegrityError);
      }
      artifacts := artifacts - {artifactId};
      uploads := uploads[session := uploads[session].(status := Pending)];
      return None;
    }

    /** The first session found for the artifact supplies the body. */
    method ReadArtifact(artifactId: Id) returns (body: Result<seq<Byte>>)
      ensures artifactId !in artifacts ==> body == Err(NotFound)
      ensures artifactId in artifacts ==> body.Ok? && Reads(Contents(), artifactId, body.value)
    {
      if artifactId !in artifacts {
        return Err(NotFound);
      }
      var rest := uploads.Keys;
      while rest != {}
        invariant rest <= uploads.Keys
        invariant forall s :: s in uploads && s !in rest ==> uploads[s].artifactId != artifactId
        decreases rest
      {
        var s :| s in rest;
        if uploads[s].artifactId == artifactId {
          return Ok(uploads[s].body);
        }
        rest := rest - {s};
      }
      return Ok([]);
    }
  }
}

/** `ArtifactTransferManager`: the capability records in a map that the claims, commits and releases update. */
module ArtifactTransfer {
  import opened Outcomes
  import Spec = TransferModel
  import opened TransferModel

  class ArtifactTransferManager {
    var capabilities: Records

    constructor ()
      ensures capabilities == map[]
    {
      capabilities := map[];
    }

    method FindStored(token: Token, action: TransferAction, resourceId: string, now: int)
      returns (found: Result<Capability>)
      modifies this
      ensures Reply(found, capabilities) == Spec.Find(old(capabilities), token, action, resourceId, now)
    {
      var digest := Sha256(token);
      if digest !in capabilities {
        return Err(Forbidden);
      }
      var capability := capabilities[digest];
      if capability.action != action || capability.resourceId != resourceId {
        return Err(Forbidden);
      }
      if now >= capability.expiresAt {
        capabilities := capabilities - {digest};
        return Err(UploadExpired);
      }
      return Ok(capability);
    }

    method Preflight(token: Token, action: TransferAction, resourceId: string, now: int) returns (r: Result<Capability>)
      modifies this
      ensures Reply(r, capabilities) == Spec.Preflight(old(capabilities), token, action, resourceId, now)
    {
      if !ValidId(resourceId) {
        return Err(Validation);
      }
      r := FindStored(token, action, resourceId, now);
      if r.Ok? && (action == UploadWrite || action == UploadFinalize) {
        var stored := capabilities[Sha256(token)];
        if stored.used || stored.inFlight {
          return Err(Forbidden);
        }
      }
    }

    method MarkInFlight(token: Token)
      requires Sha256(token) in capabilities
      modifies this
      ensures capabilities == old(capabilities)[Sha256(token) := old(capabilities)[Sha256(token)].(inFlight := true)]
    {
      var stored := capabilities[Sha256(token)];
      capabilities := capabilities[Sha256(token) := stored.(inFlight := true)];
    }

    method ClaimUploadWrite(token: Token, uploadId: string, body: Details, now: int) returns (r: Result<Capability>)
      modifies this
      ensures Reply(r, capabilities) == Spec.Claim(old(capabilities), token, UploadWrite, uploadId, body, now)
    {
      if !ValidId(uploadId) {
        return Err(Validation);
      }
      r := FindStored(token, UploadWrite, uploadId, now);
      if r.Err? {
        return;
      }
      if body.byteLength != r.value.byteLength {
        return Err(IntegrityError);
      }
      if body.sha256 != r.value.sha256 {
        return Err(IntegrityError);
      }
      var stored := capabilities[Sha256(token)];
      if stored.used || stored.inFlight {
        return Err(Forbidden);
      }
      MarkInFlight(token);
    }

    method ClaimFinalize(token: Token, uploadId: string, body: Details, now: int) returns (r: Result<Capability>)
      modifies this
      ensures Reply(r, capabilities) == Spec.Claim(old(capabilities), token, UploadFinalize, uploadId, body, now)
    {
      r := Preflight(token, UploadFinalize, uploadId, now);
      if r.Err? {
        return;
      }
      if body.byteLength != r.value.byteLength || body.sha256 != r.value.sha256 {
        return Err(IntegrityError);
      }
      MarkInFlight(token);
    }

    method ClaimDownload(token: Token, artifactId: string, now: int) returns (r: Result<Capability>)
      modifies this
      ensures forall any :: Reply(r, capabilities) ==
                Spec.Claim(old(capabilities), token, ArtifactDownload, artifactId, any, now)
    {
      if !ValidId(artifactId) {
        return Err(Validation);
      }
      r := FindStored(token, ArtifactDownload, artifactId, now);
      if r.Err? {
        return;
      }
      var stored := capabilities[Sha256(token)];
      if stored.used || stored.inFlight {
        return Err(Forbidden);
      }
      MarkInFlight(token);
    }

    /** `commitUploadWrite`, `commitFinalize` and `commitDownload` differ only in the action they name. */
    method Commit(token: Token, action: TransferAction, resourceId: string) returns (r: Result<Capability>)
      modifies this
      ensures Reply(r, capabilities) == Spec.Commit(old(capabilities), token, action, resourceId)
    {
      if !ValidId(resourceId) {
        return Err(Validation);
      }
      var digest := Sha256(token);
      if digest !in capabilities || capabilities[digest].action != action
         || capabilities[digest].resourceId != resourceId || !capabilities[digest].inFlight {
        return Err(Forbidden);
      }
      r := Ok(capabilities[digest]);
      capabilities := capabilities[digest := capabilities[digest].(inFlight := false, used := true)];
      capabilities := capabilities - {digest};
    }

    method Release(token: Token, action: TransferAction, resourceId: string) returns (failure: Option<Error>)
      modifies this
      ensures failure == if ValidId(resourceId) then None else Some(Validation)
      ensures capabilities == Spec.Release(old(capabilities), token, action, resourceId)
    {
      if !ValidId(resourceId) {
        return Some(Validation);
      }
      var digest := Sha256(token);
      if digest in capabilities && capabilities[digest].action == action
         && capabilities[digest].resourceId == resourceId && capabilities[digest].inFlight {
        capabilities := capabilities[digest := capabilities[digest].(inFlight := false)];
      }
      return None;
    }

    method RemoveExpired(now: int)
      modifies this
      ensures capabilities == Spec.RemoveExpired(old(capabilities), now)
    {
      var rest := capabilities.Keys;
      ghost var before := capabilities;
      while rest != {}
        invariant rest <= before.Keys
        invariant forall d :: d in rest ==> d in capabilities
        invariant capabilities == map d | d in before
                   && (d in rest || !(before[d].used || (!before[d].inFlight && before[d].expiresAt <= now))) ::
                     before[d]
        decreases rest
      {
        var d :| d in rest;
        if capabilities[d].used || (!capabilities[d].inFlight && capabilities[d].expiresAt <= now) {
          capabilities := capabilities - {d};
        }
        rest := rest - {d};
      }
    }

    method IssueCapability(token: Token, c: Capability, now: int)
      modifies this
      ensures capabilities == Spec.Issue(old(capabilities), token, c, now)
    {
      RemoveExpired(now);
      capabilities := capabilities[Sha256(token) := c.(used := false, inFlight := false)];
    }
  }
}

/** The file service over its rows and its ledger; statements in the order the transactions run them. */
module StorageService {
  import opened Collections
  import opened StorageQuota

  datatype Outcome = Ok | ErrInvalid | ErrNotFound | ErrConflict | ErrStorageFull | ErrSizeMismatch | ErrStore

  class FileService {
    var files: map<Id, File>
    var uploads: map<Id, Upload>
    var avatars: map<Id, Option<Id>>
    var used: int
    var reserved: int
    ghost var claims: set<Claim>
    const limits: Limits

    ghost function State(): Store reads this { Store(files, uploads, avatars, used, reserved, claims) }

    constructor (limits: Limits, actors: set<Id>)
      ensures this.limits == limits && Inv(limits, State())
      ensures files == map[] && uploads == map[] && used == reserved == 0
    {
      this.limits := limits;
      files, uploads, claims := map[], map[], {};
      avatars := map a | a in actors :: None;
      used, reserved := 0, 0;
      new;
      EmptyLedger(limits, actors);
    }

    method CreateUpload(upload: Id, file: Id, actor: Id, mode: Mode, size: int, expiresAt: Instant) returns (r: Outcome)
      requires Inv(limits, State()) && upload !in uploads && file !in files
      modifies this`files, this`uploads, this`reserved
      ensures Inv(limits, State())
      ensures State() == Next(limits, old(State()), Step.CreateUpload(upload, file, actor, mode, size, expiresAt))
      ensures r == if size < 1 || size > limits.maxFile then ErrInvalid
                   else if old(used + reserved) + size > limits.quota then ErrStorageFull else Ok
    {
      StepKeepsInv(limits, State(), Step.CreateUpload(upload, file, actor, mode, size, expiresAt));
      if size < 1 || size > limits.maxFile { return ErrInvalid; }
      if used + reserved + size > limits.quota { return ErrStorageFull; }
      reserved := reserved + size;
      files := files[file := File(size, Pending, None)];
      uploads := uploads[upload := Upload(file, actor, mode, size, Active, expiresAt)];
      return Ok;
    }

    method ClaimUpload(upload: Id, actor: Id, required: Option<Mode>, now: Instant) returns (claim: Option<Claim>)
      requires Inv(limits, State())
      modifies this`uploads, this`claims
      ensures Inv(limits, State())
      ensures State() == Next(limits, old(State()), Step.ClaimUpload(upload, actor, required, now))
      ensures claim.Some? <==> Claimable(old(State()), upload, actor, required, now)
      ensures claim.Some? ==> claim.value == ClaimOf(old(State()), upload) && claim.value in claims
    {
      ghost var before := State();
      StepKeepsInv(limits, before, Step.ClaimUpload(upload, actor, required, now));
      if upload !in uploads || uploads[upload].actor != actor || !uploads[upload].status.Active? || uploads[upload].expiresAt <= now
         || uploads[upload].file !in files || (required.Some? && required.value != uploads[upload].mode)
      {
        return None;
      }
      var u := uploads[upload];
      uploads := uploads[upload := u.(status := Uploading)];
      var c := Claim(upload, u.file, u.mode, u.reserved, files[u.file].size);
      claims := claims + {c};
      return Some(c);
    }

    method FailUpload(upload: Id)
      requires Inv(limits, State())
      modifies this`files, this`uploads, this`reserved
      ensures Inv(limits, State())
      ensures State() == Next(limits, old(State()), Step.FailUpload(upload))
    {
      StepKeepsInv(limits, State(), Step.FailUpload(upload));
      if upload in uploads && Open(uploads[upload]) && uploads[upload].file in files {
        var u := uploads[upload];
        uploads := uploads[upload := u.(status := UploadFailed)];
        files := files[u.file := files[u.file].(status := FileFailed)];
        reserved := reserved - u.reserved;
      }
    }

    method CompleteClaim(claim: Claim, blobSize: nat) returns (r: Outcome)
      requires Inv(limits, State()) && claim in claims
      modifies this`files, this`uploads, this`reserved, this`used
      ensures Inv(limits, State())
      ensures State() == Next(limits, old(State()), Step.CompleteClaim(claim, blobSize))
      ensures r == if blobSize != claim.size then ErrSizeMismatch
                   else if claim.file in old(files) && old(files)[claim.file].status.Pending? then Ok else ErrNotFound
    {
      StepKeepsInv(limits, State(), Step.CompleteClaim(claim, blobSize));
      if blobSize != claim.size {
        FailUpload(claim.upload);
        return ErrSizeMismatch;
      }
      if claim.file !in files || !files[claim.file].status.Pending? {
        return ErrNotFound;
      }
      files := files[claim.file := files[claim.file].(status := Ready)];
      if claim.upload in uploads && uploads[claim.upload].status.Uploading? {
        uploads := uploads[claim.upload := uploads[claim.upload].(status := UploadCompleted)];
      }
      reserved := reserved - claim.reserved;
      used := used + blobSize;
      return Ok;
    }

    /** A completion request claims the upload first.  A streaming upload, a store that fails (no size) and a blob of another
        size fail the claimed upload; otherwise the claim is completed. */
    method CompleteUpload(upload: Id, actor: Id, now: Instant, blobSize: Option<nat>) returns (r: Outcome)
      requires Inv(limits, State())
      modifies this`files, this`uploads, this`reserved, this`used, this`claims
      ensures Inv(limits, State())
      ensures r.ErrNotFound? <==> !Claimable(old(State()), upload, actor, None, now)
      ensures r.ErrNotFound? ==> State() == old(State())
      ensures !r.ErrNotFound? ==>
                var u, size := old(uploads[upload]), old(files[uploads[upload].file].size);
                var claimed := Next(limits, old(State()), Step.ClaimUpload(upload, actor, None, now));
                && r == (if u.mode.Streaming? then ErrConflict
                         else if blobSize.None? then ErrStore else if blobSize.value != size then ErrSizeMismatch else Ok)
                && State() == Next(limits, claimed, if r.Ok? then Step.CompleteClaim(ClaimOf(old(State()), upload), size) else Step.FailUpload(upload))
                && upload in uploads && uploads[upload].status == (if r.Ok? then UploadCompleted else UploadFailed)
                && reserved == old(reserved) - u.reserved && used == old(used) + if r.Ok? then size else 0
    {
      var claim := ClaimUpload(upload, actor, None, now);
      if claim.None? { return ErrNotFound; }
      assert ClaimInv(State(), claim.value) && UploadInv(State(), uploads[upload]);
      if claim.value.mode.Streaming? {
        FailUpload(upload);
        return ErrConflict;
      }
      if blobSize.None? || blobSize.value != claim.value.size {
        FailUpload(upload);
        return if blobSize.None? then ErrStore else ErrSizeMismatch;
      }
      r := CompleteClaim(claim.value, blobSize.value);
    }

    method AbortUpload(upload: Id, actor: Id) returns (r: Outcome)
      requires Inv(limits, State())
      modifies this`files, this`uploads, this`reserved
      ensures Inv(limits, State())
      ensures State() == Next(limits, old(State()), Step.AbortUpload(upload, actor))
      ensures r == if Discardable(old(State()), upload) && old(uploads)[upload].actor == actor then Ok else ErrNotFound
    {
      StepKeepsInv(limits, State(), Step.AbortUpload(upload, actor));
      if upload !in uploads || uploads[upload].actor != actor || !Open(uploads[upload]) || uploads[upload].file !in files {
        return ErrNotFound;
      }
      var u := uploads[upload];
      uploads := uploads[upload := u.(status := Aborted)];
      files := files[u.file := files[u.file].(status := FileFailed)];
      reserved := reserved - u.reserved;
      return Ok;
    }

    method PutAvatar(actor: Id, file: Id, size: int) returns (r: Outcome)
      requires Inv(limits, State()) && file !in files
      modifies this`files, this`avatars, this`used
      ensures Inv(limits, State())
      ensures State() == Next(limits, old(State()), Step.PutAvatar(actor, file, size))
      ensures r == if size < 1 then ErrInvalid else if actor !in old(avatars) then ErrNotFound
                   else if old(State().used - OldAvatarSize(State(), actor) + State().reserved) + size > limits.quota then ErrStorageFull
                   else Ok
    {
      ghost var before := State();
      StepKeepsInv(limits, before, Step.PutAvatar(actor, file, size));
      if size < 1 { return ErrInvalid; }
      if actor !in avatars { return ErrNotFound; }
      var old' := avatars[actor];
      var oldBytes := if old'.Some? && old'.value in files then files[old'.value].size else 0;
      if used - oldBytes + reserved + size > limits.quota { return ErrStorageFull; }
      used := used - oldBytes + size;
      files := files[file := File(size, Ready, None)];
      avatars := avatars[actor := Some(file)];
      if old'.Some? && old'.value in files {
        files := files[old'.value := files[old'.value].(status := Deleted)];
      }
      assert files == WithoutOldAvatar(before, actor)[file := File(size, Ready, None)];
      return Ok;
    }

    method DeleteAvatar(actor: Id) returns (r: Outcome)
      requires Inv(limits, State())
      modifies this`files, this`avatars, this`used
      ensures Inv(limits, State())
      ensures State() == Next(limits, old(State()), Step.DeleteAvatar(actor))
      ensures r.Ok? <==> actor in old(avatars) && old(avatars)[actor].Some?
    {
      StepKeepsInv(limits, State(), Step.DeleteAvatar(actor));
      if actor !in avatars || avatars[actor].None? || avatars[actor].value !in files { return ErrNotFound; }
      var f := avatars[actor].value;
      avatars := avatars[actor := None];
      files := files[f := files[f].(status := Deleted)];
      used := if used - files[f].size < 0 then 0 else used - files[f].size;
      return Ok;
    }

    /** The ledger is charged first; a parent that already has a preview rolls the transaction back. */
    method SavePreview(parent: Id, file: Id, size: nat) returns (r: Outcome)
      requires Inv(limits, State()) && parent in files && file !in files
      modifies this`files, this`used
      ensures Inv(limits, State())
      ensures State() == Next(limits, old(State()), Step.SavePreview(parent, file, size))
      ensures r == if old(used + reserved) + size > limits.quota then ErrStorageFull else Ok
    {
      StepKeepsInv(limits, State(), Step.SavePreview(parent, file, size));
      var savedUsed, savedFiles := used, files;
      if used + reserved + size > limits.quota { return ErrStorageFull; }
      used := used + size;
      files := files[file := File(size, Ready, None)];
      if files[parent].preview.Some? {
        used, files := savedUsed, savedFiles;
        return Ok;
      }
      files := files[parent := files[parent].(preview := Some(file))];
      return Ok;
    }
  }
}

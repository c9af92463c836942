/**
 * The storage quota ledger of one organization: upload reservations, committed files, avatars and previews
 * (core/internal/files/service.go, avatar.go and processing.go).  Each transaction is one step; an upload's
 * content transfer happens between its claim and its completion, so anything may happen in between.
 */
module StorageQuota {
  import opened Collections

  type Id = nat
  type Instant = int

  datatype FileStatus = Pending | Ready | FileFailed | Deleted
  datatype File = File(size: nat, status: FileStatus, preview: Option<Id>)

  datatype Mode = Streaming | Presigned | Multipart
  datatype UploadStatus = Active | Uploading | UploadCompleted | Aborted | UploadFailed
  datatype Upload = Upload(file: Id, actor: Id, mode: Mode, reserved: nat, status: UploadStatus, expiresAt: Instant)

  /** What `claimUpload` hands to the request that will transfer the content. */
  datatype Claim = Claim(upload: Id, file: Id, mode: Mode, reserved: nat, size: nat)

  datatype Store = Store(files: map<Id, File>, uploads: map<Id, Upload>, avatars: map<Id, Option<Id>>,
                         used: int, reserved: int, claims: set<Claim>)

  datatype Limits = Limits(quota: nat, maxFile: nat)

  predicate Open(u: Upload) { u.status.Active? || u.status.Uploading? }

  // ---------- transactions ----------

  datatype Step =
    | CreateUpload(upload: Id, file: Id, actor: Id, mode: Mode, size: int, expiresAt: Instant)
    | ClaimUpload(upload: Id, actor: Id, required: Option<Mode>, now: Instant)
    | CompleteClaim(claim: Claim, blobSize: nat)
    | FailUpload(upload: Id)
    | AbortUpload(upload: Id, actor: Id)
    | ExpireUpload(upload: Id, now: Instant)
    | PutAvatar(actor: Id, file: Id, size: int)
    | DeleteAvatar(actor: Id)
    | SavePreview(parent: Id, file: Id, size: int)

  predicate Reservable(l: Limits, s: Store, upload: Id, file: Id, size: int) {
    1 <= size <= l.maxFile && upload !in s.uploads && file !in s.files && s.used + s.reserved + size <= l.quota
  }

  predicate Claimable(s: Store, upload: Id, actor: Id, required: Option<Mode>, now: Instant) {
    && upload in s.uploads && s.uploads[upload].actor == actor && s.uploads[upload].status.Active?
    && s.uploads[upload].expiresAt > now && (required.None? || required == Some(s.uploads[upload].mode))
    && s.uploads[upload].file in s.files
  }

  function ClaimOf(s: Store, upload: Id): Claim
    requires upload in s.uploads && s.uploads[upload].file in s.files
  {
    var u := s.uploads[upload];
    Claim(upload, u.file, u.mode, u.reserved, s.files[u.file].size)
  }

  function Greatest(a: int, b: int): int { if a < b then b else a }

  /** Closing an open upload without a file: its file fails and its reservation is given back. */
  function Discard(s: Store, upload: Id, status: UploadStatus): Store
    requires upload in s.uploads && s.uploads[upload].file in s.files
  {
    var u := s.uploads[upload];
    s.(uploads := s.uploads[upload := u.(status := status)],
       files := s.files[u.file := s.files[u.file].(status := FileFailed)],
       reserved := s.reserved - u.reserved)
  }

  predicate Discardable(s: Store, upload: Id) {
    upload in s.uploads && Open(s.uploads[upload]) && s.uploads[upload].file in s.files
  }

  function OldAvatarSize(s: Store, actor: Id): int
    requires actor in s.avatars
  {
    match s.avatars[actor]
    case Some(f) => if f in s.files then s.files[f].size else 0
    case None => 0
  }

  function WithoutOldAvatar(s: Store, actor: Id): map<Id, File>
    requires actor in s.avatars
  {
    match s.avatars[actor]
    case Some(f) => if f in s.files then s.files[f := s.files[f].(status := Deleted)] else s.files
    case None => s.files
  }

  function Next(l: Limits, s: Store, step: Step): Store {
    match step
    case CreateUpload(upload, file, actor, mode, size, expiresAt) =>
      if Reservable(l, s, upload, file, size)
      then s.(reserved := s.reserved + size, files := s.files[file := File(size, Pending, None)],
              uploads := s.uploads[upload := Upload(file, actor, mode, size, Active, expiresAt)])
      else s
    case ClaimUpload(upload, actor, required, now) =>
      if Claimable(s, upload, actor, required, now)
      then s.(uploads := s.uploads[upload := s.uploads[upload].(status := Uploading)], claims := s.claims + {ClaimOf(s, upload)})
      else s
    case CompleteClaim(claim, blobSize) =>
      if claim !in s.claims then s
      else if blobSize != claim.size then
        (if Discardable(s, claim.upload) then Discard(s, claim.upload, UploadFailed) else s)
      else if claim.file !in s.files || !s.files[claim.file].status.Pending? then s
      else
        s.(files := s.files[claim.file := s.files[claim.file].(status := Ready)],
           uploads := if claim.upload in s.uploads && s.uploads[claim.upload].status.Uploading?
                      then s.uploads[claim.upload := s.uploads[claim.upload].(status := UploadCompleted)] else s.uploads,
           reserved := s.reserved - claim.reserved, used := s.used + blobSize)
    case FailUpload(upload) =>
      if Discardable(s, upload) then Discard(s, upload, UploadFailed) else s
    case AbortUpload(upload, actor) =>
      if Discardable(s, upload) && s.uploads[upload].actor == actor then Discard(s, upload, Aborted) else s
    case ExpireUpload(upload, now) =>
      if Discardable(s, upload) && s.uploads[upload].expiresAt <= now
      then
        var u := s.uploads[upload];
        s.(uploads := s.uploads[upload := u.(status := Aborted)],
           files := if s.files[u.file].status.Pending? then s.files[u.file := s.files[u.file].(status := FileFailed)] else s.files,
           reserved := Greatest(0, s.reserved - u.reserved))
      else s
    case PutAvatar(actor, file, size) =>
      if actor !in s.avatars || file in s.files || size < 1 || s.used - OldAvatarSize(s, actor) + s.reserved + size > l.quota then s
      else
        s.(used := s.used - OldAvatarSize(s, actor) + size,
           files := WithoutOldAvatar(s, actor)[file := File(size, Ready, None)],
           avatars := s.avatars[actor := Some(file)])
    case DeleteAvatar(actor) =>
      if actor !in s.avatars || s.avatars[actor].None? || s.avatars[actor].value !in s.files then s
      else
        s.(used := Greatest(0, s.used - OldAvatarSize(s, actor)),
           files := WithoutOldAvatar(s, actor), avatars := s.avatars[actor := None])
    case SavePreview(parent, file, size) =>
      if parent !in s.files || file in s.files || size < 0 || s.used + s.reserved + size > l.quota || s.files[parent].preview.Some? then s
      else
        s.(used := s.used + size,
           files := s.files[file := File(size, Ready, None)][parent := s.files[parent].(preview := Some(file))])
  }

  function Exec(l: Limits, s: Store, steps: seq<Step>): Store
    decreases |steps|
  {
    if steps == [] then s else Exec(l, Next(l, s, steps[0]), steps[1..])
  }

  // ---------- invariant ----------

  function ReadySize(files: map<Id, File>, k: Id): int {
    if k in files && files[k].status.Ready? then files[k].size else 0
  }

  function OpenSize(uploads: map<Id, Upload>, k: Id): int {
    if k in uploads && Open(uploads[k]) then uploads[k].reserved else 0
  }

  ghost function ReadyBytes(files: map<Id, File>): int { Sum(files.Keys, k => ReadySize(files, k)) }

  ghost function OpenBytes(uploads: map<Id, Upload>): int { Sum(uploads.Keys, k => OpenSize(uploads, k)) }

  predicate UploadInv(s: Store, u: Upload) {
    && u.file in s.files && u.reserved == s.files[u.file].size
    && (Open(u) <==> s.files[u.file].status.Pending?)
  }

  predicate ClaimInv(s: Store, c: Claim) {
    && c.upload in s.uploads && s.uploads[c.upload].file == c.file && s.uploads[c.upload].reserved == c.reserved
    && c.file in s.files && s.files[c.file].size == c.size && !s.uploads[c.upload].status.Active?
  }

  ghost predicate Rows(s: Store) {
    && (forall k :: k in s.uploads ==> UploadInv(s, s.uploads[k]))
    && (forall j, k :: j in s.uploads && k in s.uploads && s.uploads[j].file == s.uploads[k].file ==> j == k)
    && (forall f :: f in s.files && s.files[f].status.Pending? ==> exists k :: k in s.uploads && s.uploads[k].file == f)
    && (forall c :: c in s.claims ==> ClaimInv(s, c))
    && (forall a :: a in s.avatars && s.avatars[a].Some? ==> s.avatars[a].value in s.files && s.files[s.avatars[a].value].status.Ready?)
    && (forall a, b :: a in s.avatars && b in s.avatars && s.avatars[a].Some? && s.avatars[a] == s.avatars[b] ==> a == b)
  }

  ghost predicate Inv(l: Limits, s: Store) {
    && Rows(s)
    && s.used == ReadyBytes(s.files) && s.reserved == OpenBytes(s.uploads)
    && s.used + s.reserved <= l.quota
  }

  // ---------- sums ----------

  lemma ReadyBytesUpdate(files: map<Id, File>, k: Id, f: File)
    ensures ReadyBytes(files[k := f]) == ReadyBytes(files) - ReadySize(files, k) + (if f.status.Ready? then f.size else 0)
  {
    var t := files[k := f];
    var before, after := (j: Id) => ReadySize(files, j), (j: Id) => ReadySize(t, j);
    if k in files {
      assert t.Keys == files.Keys;
      SumChange(files.Keys, before, after, k);
    } else {
      assert t.Keys == files.Keys + {k};
      SumInsert(files.Keys, after, k);
      SumExt(files.Keys, before, after);
    }
  }

  lemma OpenBytesUpdate(uploads: map<Id, Upload>, k: Id, u: Upload)
    ensures OpenBytes(uploads[k := u]) == OpenBytes(uploads) - OpenSize(uploads, k) + (if Open(u) then u.reserved else 0)
  {
    var t := uploads[k := u];
    var before, after := (j: Id) => OpenSize(uploads, j), (j: Id) => OpenSize(t, j);
    if k in uploads {
      assert t.Keys == uploads.Keys;
      SumChange(uploads.Keys, before, after, k);
    } else {
      assert t.Keys == uploads.Keys + {k};
      SumInsert(uploads.Keys, after, k);
      SumExt(uploads.Keys, before, after);
    }
  }

  lemma BytesBounds(s: Store)
    ensures 0 <= ReadyBytes(s.files) && 0 <= OpenBytes(s.uploads)
    ensures forall k :: k in s.files && s.files[k].status.Ready? ==> s.files[k].size <= ReadyBytes(s.files)
    ensures forall k :: k in s.uploads && Open(s.uploads[k]) ==> s.uploads[k].reserved <= OpenBytes(s.uploads)
  {
    var ready, open := (k: Id) => ReadySize(s.files, k), (k: Id) => OpenSize(s.uploads, k);
    SumNonNegative(s.files.Keys, ready);
    SumNonNegative(s.uploads.Keys, open);
    forall k | k in s.files && s.files[k].status.Ready? ensures s.files[k].size <= ReadyBytes(s.files) { assert ready(k) <= Sum(s.files.Keys, ready); }
    forall k | k in s.uploads && Open(s.uploads[k]) ensures s.uploads[k].reserved <= OpenBytes(s.uploads) { assert open(k) <= Sum(s.uploads.Keys, open); }
  }

  // ---------- preservation ----------

  lemma DiscardKeepsInv(l: Limits, s: Store, upload: Id, status: UploadStatus)
    requires Inv(l, s) && Discardable(s, upload) && (status.Aborted? || status.UploadFailed?)
    ensures Inv(l, Discard(s, upload, status))
  {
    var u := s.uploads[upload];
    assert UploadInv(s, u);
    ReadyBytesUpdate(s.files, u.file, s.files[u.file].(status := FileFailed));
    OpenBytesUpdate(s.uploads, upload, u.(status := status));
    DiscardKeepsRows(s, upload, status);
    BytesBounds(s);
  }

  lemma DiscardKeepsRows(s: Store, upload: Id, status: UploadStatus)
    requires Rows(s) && Discardable(s, upload) && (status.Aborted? || status.UploadFailed?)
    ensures Rows(Discard(s, upload, status))
  {
    var t := Discard(s, upload, status);
    var u := s.uploads[upload];
    assert UploadInv(s, u);
    forall k | k in t.uploads ensures UploadInv(t, t.uploads[k]) {
      assert UploadInv(s, s.uploads[k]);
    }
    forall f | f in t.files && t.files[f].status.Pending? ensures exists k :: k in t.uploads && t.uploads[k].file == f {
      var k :| k in s.uploads && s.uploads[k].file == f;
      assert k in t.uploads && t.uploads[k].file == f;
    }
    forall c | c in t.claims ensures ClaimInv(t, c) { assert ClaimInv(s, c); }
  }

  lemma CreateKeepsInv(l: Limits, s: Store, step: Step)
    requires Inv(l, s) && step.CreateUpload?
    ensures Inv(l, Next(l, s, step))
  {
    var t := Next(l, s, step);
    if t != s {
      var CreateUpload(upload, file, actor, mode, size, expiresAt) := step;
      ReadyBytesUpdate(s.files, file, File(size, Pending, None));
      OpenBytesUpdate(s.uploads, upload, Upload(file, actor, mode, size, Active, expiresAt));
      forall k | k in t.uploads ensures UploadInv(t, t.uploads[k]) { if k != upload { assert UploadInv(s, s.uploads[k]); } }
      forall f | f in t.files && t.files[f].status.Pending? ensures exists k :: k in t.uploads && t.uploads[k].file == f {
        if f == file {
          assert t.uploads[upload].file == f;
        } else {
          var k :| k in s.uploads && s.uploads[k].file == f;
          assert t.uploads[k].file == f;
        }
      }
      forall c | c in t.claims ensures ClaimInv(t, c) { assert ClaimInv(s, c); }
    }
  }

  lemma ClaimKeepsInv(l: Limits, s: Store, step: Step)
    requires Inv(l, s) && step.ClaimUpload?
    ensures Inv(l, Next(l, s, step))
  {
    var t := Next(l, s, step);
    if t != s {
      var upload := step.upload;
      OpenBytesUpdate(s.uploads, upload, s.uploads[upload].(status := Uploading));
      forall k | k in t.uploads ensures UploadInv(t, t.uploads[k]) { assert UploadInv(s, s.uploads[k]); }
      forall f | f in t.files && t.files[f].status.Pending? ensures exists k :: k in t.uploads && t.uploads[k].file == f {
        var k :| k in s.uploads && s.uploads[k].file == f;
        assert t.uploads[k].file == f;
      }
      forall c | c in t.claims ensures ClaimInv(t, c) { if c in s.claims { assert ClaimInv(s, c); } }
    }
  }

  lemma CompleteKeepsInv(l: Limits, s: Store, claim: Claim)
    requires Inv(l, s) && claim in s.claims && claim.file in s.files && s.files[claim.file].status.Pending?
    ensures Inv(l, Next(l, s, CompleteClaim(claim, claim.size)))
  {
    var t := Next(l, s, CompleteClaim(claim, claim.size));
    assert ClaimInv(s, claim) && UploadInv(s, s.uploads[claim.upload]);
    ReadyBytesUpdate(s.files, claim.file, s.files[claim.file].(status := Ready));
    OpenBytesUpdate(s.uploads, claim.upload, s.uploads[claim.upload].(status := UploadCompleted));
    forall k | k in t.uploads ensures UploadInv(t, t.uploads[k]) { assert UploadInv(s, s.uploads[k]); }
    forall f | f in t.files && t.files[f].status.Pending? ensures exists k :: k in t.uploads && t.uploads[k].file == f {
      var k :| k in s.uploads && s.uploads[k].file == f;
      assert t.uploads[k].file == f;
    }
    forall c | c in t.claims ensures ClaimInv(t, c) { assert ClaimInv(s, c); }
  }

  /** Adding ready files and deleting avatar files leaves every upload and claim as it was. */
  lemma FilesKeepRows(s: Store, t: Store)
    requires Rows(s) && t.uploads == s.uploads && t.claims == s.claims && s.files.Keys <= t.files.Keys
    requires forall f :: f in s.files ==> t.files[f].size == s.files[f].size && (t.files[f].status.Pending? <==> s.files[f].status.Pending?)
    requires forall f :: f in t.files && f !in s.files ==> t.files[f].status.Ready?
    requires forall a :: a in t.avatars && t.avatars[a].Some? ==> t.avatars[a].value in t.files && t.files[t.avatars[a].value].status.Ready?
    requires forall a, b :: a in t.avatars && b in t.avatars && t.avatars[a].Some? && t.avatars[a] == t.avatars[b] ==> a == b
    ensures Rows(t)
  {
    forall k | k in t.uploads ensures UploadInv(t, t.uploads[k]) { assert UploadInv(s, s.uploads[k]); }
    forall f | f in t.files && t.files[f].status.Pending? ensures exists k :: k in t.uploads && t.uploads[k].file == f {
      var k :| k in s.uploads && s.uploads[k].file == f;
    }
    forall c | c in t.claims ensures ClaimInv(t, c) { assert ClaimInv(s, c); }
  }

  lemma OldAvatarGone(s: Store, actor: Id)
    requires Rows(s) && actor in s.avatars
    ensures var files := WithoutOldAvatar(s, actor);
            && ReadyBytes(files) == ReadyBytes(s.files) - OldAvatarSize(s, actor)
            && 0 <= ReadyBytes(files)
            && files.Keys == s.files.Keys
            && forall f :: f in s.files ==> files[f].size == s.files[f].size
                                            && (files[f].status.Pending? <==> s.files[f].status.Pending?)
                                            && (files[f] == s.files[f] || s.avatars[actor] == Some(f))
  {
    if s.avatars[actor].Some? {
      var f := s.avatars[actor].value;
      ReadyBytesUpdate(s.files, f, s.files[f].(status := Deleted));
    }
    BytesBounds(s.(files := WithoutOldAvatar(s, actor)));
  }

  lemma PutAvatarKeepsInv(l: Limits, s: Store, step: Step)
    requires Inv(l, s) && step.PutAvatar?
    ensures Inv(l, Next(l, s, step))
  {
    var t := Next(l, s, step);
    if t != s {
      OldAvatarGone(s, step.actor);
      ReadyBytesUpdate(WithoutOldAvatar(s, step.actor), step.file, File(step.size, Ready, None));
      FilesKeepRows(s, t);
    }
  }

  lemma DeleteAvatarKeepsInv(l: Limits, s: Store, step: Step)
    requires Inv(l, s) && step.DeleteAvatar?
    ensures Inv(l, Next(l, s, step))
  {
    var t := Next(l, s, step);
    if t != s {
      OldAvatarGone(s, step.actor);
      FilesKeepRows(s, t);
    }
  }

  lemma SavePreviewKeepsInv(l: Limits, s: Store, step: Step)
    requires Inv(l, s) && step.SavePreview?
    ensures Inv(l, Next(l, s, step))
  {
    var t := Next(l, s, step);
    if t != s {
      var added := s.files[step.file := File(step.size, Ready, None)];
      ReadyBytesUpdate(s.files, step.file, File(step.size, Ready, None));
      ReadyBytesUpdate(added, step.parent, s.files[step.parent].(preview := Some(step.file)));
      FilesKeepRows(s, t);
    }
  }

  lemma StepKeepsInv(l: Limits, s: Store, step: Step)
    requires Inv(l, s)
    ensures Inv(l, Next(l, s, step))
  {
    match step
    case CreateUpload(_, _, _, _, _, _) => CreateKeepsInv(l, s, step);
    case ClaimUpload(_, _, _, _) => ClaimKeepsInv(l, s, step);
    case CompleteClaim(claim, blobSize) =>
      if claim in s.claims {
        if blobSize != claim.size {
          if Discardable(s, claim.upload) { DiscardKeepsInv(l, s, claim.upload, UploadFailed); }
        } else if claim.file in s.files && s.files[claim.file].status.Pending? {
          CompleteKeepsInv(l, s, claim);
        }
      }
    case FailUpload(upload) => if Discardable(s, upload) { DiscardKeepsInv(l, s, upload, UploadFailed); }
    case AbortUpload(upload, _) => if Discardable(s, upload) { DiscardKeepsInv(l, s, upload, Aborted); }
    case ExpireUpload(upload, now) =>
      if Discardable(s, upload) && s.uploads[upload].expiresAt <= now {
        DiscardKeepsInv(l, s, upload, Aborted);
        assert UploadInv(s, s.uploads[upload]);
        BytesBounds(s);
        assert Next(l, s, step) == Discard(s, upload, Aborted);
      }
    case PutAvatar(_, _, _) => PutAvatarKeepsInv(l, s, step);
    case DeleteAvatar(_) => DeleteAvatarKeepsInv(l, s, step);
    case SavePreview(_, _, _) => SavePreviewKeepsInv(l, s, step);
  }

  // ---------- main results ----------

  /** Over every interleaving, the ledger equals the rows it stands for and stays within the quota. */
  lemma {:induction false} LedgerIsExact(l: Limits, s: Store, steps: seq<Step>)
    requires Inv(l, s)
    ensures var t := Exec(l, s, steps);
            && Inv(l, t)
            && t.reserved == OpenBytes(t.uploads) && t.used == ReadyBytes(t.files) && t.used + t.reserved <= l.quota
            && 0 <= t.used && 0 <= t.reserved
    decreases |steps|
  {
    if steps == [] {
      BytesBounds(s);
    } else {
      StepKeepsInv(l, s, steps[0]);
      LedgerIsExact(l, Next(l, s, steps[0]), steps[1..]);
    }
  }

  /** An upload is open exactly when its file is pending, and every pending file has its upload. */
  lemma OpenExactlyWhenPending(l: Limits, s: Store, steps: seq<Step>, file: Id)
    requires Inv(l, s)
    ensures var t := Exec(l, s, steps);
            file in t.files ==>
              (t.files[file].status.Pending? <==> exists k :: k in t.uploads && t.uploads[k].file == file && Open(t.uploads[k]))
  {
    LedgerIsExact(l, s, steps);
    var t := Exec(l, s, steps);
    if file in t.files && t.files[file].status.Pending? {
      var k :| k in t.uploads && t.uploads[k].file == file;
      assert UploadInv(t, t.uploads[k]);
    } else if file in t.files {
      forall k | k in t.uploads && t.uploads[k].file == file ensures !Open(t.uploads[k]) { assert UploadInv(t, t.uploads[k]); }
    }
  }

  /** Deleting an avatar never truncates at zero: its bytes are in the ledger. */
  lemma DeleteAvatarNeverTruncates(l: Limits, s: Store, steps: seq<Step>, actor: Id)
    requires Inv(l, s)
    ensures var t := Exec(l, s, steps);
            actor in t.avatars && t.avatars[actor].Some? && t.avatars[actor].value in t.files ==>
              && 0 <= t.used - OldAvatarSize(t, actor)
              && Next(l, t, DeleteAvatar(actor)).used == t.used - t.files[t.avatars[actor].value].size
  {
    LedgerIsExact(l, s, steps);
    var t := Exec(l, s, steps);
    if actor in t.avatars { OldAvatarGone(t, actor); }
  }

  predicate Closed(s: Store, upload: Id) {
    upload in s.uploads && !Open(s.uploads[upload])
  }

  lemma StepKeepsClosed(l: Limits, s: Store, step: Step, upload: Id)
    requires Inv(l, s) && Closed(s, upload)
    ensures Closed(Next(l, s, step), upload) && Next(l, s, step).uploads[upload] == s.uploads[upload]
  {
  }

  /** Once an upload is closed, by an abort or in any other way, no later completion of any claim on it
      changes anything, whatever happened in between. */
  lemma {:induction false} LateCompletionChangesNothing(l: Limits, s: Store, steps: seq<Step>, claim: Claim, blobSize: nat)
    requires Inv(l, s) && Closed(s, claim.upload)
    ensures var t := Exec(l, s, steps); Next(l, t, CompleteClaim(claim, blobSize)) == t
    decreases |steps|
  {
    if steps == [] {
      if claim in s.claims {
        assert ClaimInv(s, claim);
        assert UploadInv(s, s.uploads[claim.upload]);
      }
    } else {
      StepKeepsInv(l, s, steps[0]);
      StepKeepsClosed(l, s, steps[0], claim.upload);
      LateCompletionChangesNothing(l, Next(l, s, steps[0]), steps[1..], claim, blobSize);
    }
  }

  /** An organization starts with an empty ledger and actors without avatars. */
  lemma EmptyLedger(l: Limits, actors: set<Id>)
    ensures Inv(l, Store(map[], map[], map a | a in actors :: None, 0, 0, {}))
  {
    var s := Store(map[], map[], map a | a in actors :: None, 0, 0, {});
    assert s.files.Keys == {} && s.uploads.Keys == {};
  }
}

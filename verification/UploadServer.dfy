// The server's half: one record under a row lock, changed by the operations of the upload API. Each
// operation is a function of the record, the provider and what becomes of its requests; the class
// runs it the way the program does, saving into a transaction that commits or rolls back.
module UploadServer {
  import opened Wrappers
  import opened ResumableStore

  datatype Status = Uploading | Uploaded | Ready | Rejected | Abandoned | Finalized

  datatype Binding = Binding(artifactId: string, purpose: string, schema: string, table: string, targetId: string)

  // What the content policy looks at beside the bytes and the intent.
  datatype FileFacts = FileFacts(name: string, mediaType: string)

  datatype Upload = Upload(
    owner: string, organization: string, intent: string, facts: FileFacts, size: nat, expiresAt: int, inNamespace: bool,
    session: bool, confirmedOffset: int, status: Status,
    completedSize: Option<nat>, completedSha: Option<string>, generation: Option<nat>,
    binding: Option<Binding>, cleanedAt: Option<int>, cleanupFailed: bool)

  // The hash of a byte sequence, and whether the content policy accepts a file.
  datatype Platform = Platform(sha: Bytes -> string, acceptable: (FileFacts, string, Bytes) -> bool)

  datatype UploadError =
    | Expired | Forbidden | Integrity | InvalidRequest | Missing | Unavailable | Conflict

  // Who asks, with the organization and intent the authorization step arrived at.
  datatype Caller = Caller(user: string, organization: string, intent: string, permitted: bool)

  datatype SafeState = SafeUploading | SafeReady | SafeFinalized | SafeAbandoned

  datatype SafeProgress = SafeProgress(confirmedOffset: int, state: SafeState)

  function Safe(u: Upload): SafeProgress {
    SafeProgress(u.confirmedOffset,
      match u.status
      case Ready => SafeReady
      case Finalized => SafeFinalized
      case Rejected => SafeAbandoned
      case Abandoned => SafeAbandoned
      case Uploading => SafeUploading
      case Uploaded => SafeUploading)
  }

  function AsUploadError(e: StorageError): UploadError {
    match e case IntegrityFailure => Integrity case NotFound => Missing case ProviderFailure => Unavailable
  }

  // The checks before and inside the lock; the fields they read never change.
  function Denied(u: Upload, caller: Caller, now: int): Option<UploadError> {
    if u.owner != caller.user then Some(Missing)
    else if u.expiresAt <= now then Some(UploadError.Expired)
    else if !caller.permitted || u.organization != caller.organization then Some(Forbidden)
    else if u.intent != caller.intent then Some(Conflict)
    else None
  }

  datatype ExactError = Storage(error: StorageError) | WrongSize

  // `exactTemporaryObject`
  function Exact(c: Cloud, size: nat, failure: Option<StorageError>): Result<StoredObject, ExactError> {
    match ReadTemporary(c, failure)
    case Err(e) => Err(Storage(e))
    case Ok(o) => if |o.bytes| != size then Err(WrongSize) else Ok(o)
  }

  function ExactUploadError(e: ExactError): UploadError {
    match e case WrongSize => Integrity case Storage(s) => AsUploadError(s)
  }

  function Recovered(p: Platform, u: Upload, o: StoredObject): Upload {
    u.(completedSize := Some(|o.bytes|), completedSha := Some(p.sha(o.bytes)), confirmedOffset := u.size,
       session := false, status := Uploaded, generation := Some(o.generation))
  }

  function Progressed(u: Upload, p: Progress): Upload {
    u.(confirmedOffset := p.nextOffset, status := if p.complete then Uploaded else Uploading)
  }

  // ---- reconcile ----

  // `late` are the requests that arrive between asking for the status and reading the object.
  datatype ReadFate = ReadFate(status: Reply, late: seq<Late>, read: Option<StorageError>)

  // The provider when the object is read.
  function AtRead(u: Upload, c: Cloud, fate: ReadFate): Cloud {
    if u.status == Uploading && u.session then Arrivals(c, u.size, fate.late) else c
  }

  function Reconciled(p: Platform, u: Upload, c: Cloud, fate: ReadFate): Result<Upload, UploadError> {
    if u.status != Uploading then Ok(u)
    else if !u.session then Err(Conflict)
    else
      match GetStatus(c, u.size, fate.status)
      case Ok(progress) => Ok(Progressed(u, progress))
      case Err(NotFound) =>
        (match Exact(AtRead(u, c, fate), u.size, fate.read)
         case Ok(o) => Ok(Recovered(p, u, o))
         case Err(e) => Err(ExactUploadError(e)))
      case Err(e) => Err(AsUploadError(e))
  }

  // ---- one transaction ----

  // What a locked operation leaves behind. A rejection commits although the caller gets an error.
  datatype Effect<T> = Effect(upload: Upload, cloud: Cloud, result: Result<T, UploadError>)

  // The operation threw: its saves are rolled back, the provider keeps what it did.
  function Throw<T>(u: Upload, c: Cloud, e: UploadError): Effect<T> {
    Effect(u, c, Err(e))
  }

  function Committed<T>(u: Upload, next: Upload, c: Cloud, commits: bool, value: Result<T, UploadError>): Effect<T> {
    if commits then Effect(next, c, value) else Throw(u, c, Unavailable)
  }

  // ---- get ----

  function GetEffect(p: Platform, u: Upload, c: Cloud, caller: Caller, now: int, fate: ReadFate,
      commits: bool): Effect<SafeProgress> {
    match Denied(u, caller, now)
    case Some(e) => Throw(u, c, e)
    case None =>
      match Reconciled(p, u, c, fate)
      case Err(e) => Throw(u, AtRead(u, c, fate), e)
      case Ok(next) => Committed(u, next, AtRead(u, c, fate), commits, Ok(Safe(next)))
  }

  // ---- append ----

  // `late` are the requests that arrive between the chunk and reading the object.
  datatype AppendFate = AppendFate(chunk: ChunkFate, late: seq<Late>, read: Option<StorageError>)

  function AppendEffect(p: Platform, u: Upload, c: Cloud, caller: Caller, now: int, offset: int, bytes: Bytes,
                        fate: AppendFate, commits: bool): Effect<SafeProgress> {
    if offset < 0 || offset > MAX_SAFE then Throw(u, c, InvalidRequest)
    else if Denied(u, caller, now).Some? then Throw(u, c, Denied(u, caller, now).value)
    else if u.status != Uploading || offset != u.confirmedOffset then Throw(u, c, Conflict)
    else if !u.session then
      if offset + |bytes| == u.size && Exact(c, u.size, fate.read).Ok? then
        var next := Recovered(p, u, Exact(c, u.size, fate.read).value);
        Committed(u, next, c, commits, Ok(Safe(next)))
      else Throw(u, c, Conflict)
    else
      var (after, progress) := UploadChunk(c, u.size, Put(offset, bytes), fate.chunk);
      match progress
      case Ok(reported) =>
        var next := Progressed(u, reported);
        Committed(u, next, after, commits, Ok(Safe(next)))
      case Err(e) =>
        if offset + |bytes| != u.size then Throw(u, after, AsUploadError(e))
        else
          var later := Arrivals(after, u.size, fate.late);
          match Exact(later, u.size, fate.read)
          case Err(_) => Throw(u, later, AsUploadError(e))
          case Ok(o) => Committed(u, Recovered(p, u, o), later, commits, Ok(Safe(Recovered(p, u, o))))
  }

  // ---- complete ----

  datatype CompleteFate = CompleteFate(reconcile: ReadFate, read: Option<StorageError>)

  function CompleteEffect(p: Platform, u: Upload, c: Cloud, caller: Caller, now: int, fate: CompleteFate,
      commits: bool): Effect<SafeProgress> {
    var denied := Denied(u, caller, now);
    if denied.Some? then Throw(u, c, denied.value)
    else if u.status == Ready then Effect(u, c, if commits then Ok(Safe(u)) else Err(Unavailable))
    else
      var d := AtRead(u, c, fate.reconcile);
      match Reconciled(p, u, c, fate.reconcile)
      case Err(Integrity) => Committed(u, u.(status := Rejected, cleanupFailed := false), d, commits, Err(Integrity))
      case Err(e) => Throw(u, d, e)
      case Ok(found) =>
        if found.status != Uploaded then Throw(u, d, Conflict)
        else
          match Exact(d, u.size, fate.read)
          case Err(Storage(ProviderFailure)) => Throw(u, d, Unavailable)
          case Err(Storage(NotFound)) => Throw(u, d, Missing)
          case Err(_) => Committed(u, found.(status := Rejected, cleanupFailed := false), d, commits, Err(Integrity))
          case Ok(o) =>
            if !p.acceptable(u.facts, u.intent, o.bytes) then
              Committed(u, found.(status := Rejected, cleanupFailed := false), d, commits, Err(Integrity))
            else
              var next := Recovered(p, found, o).(status := Ready);
              Committed(u, next, d, commits, Ok(Safe(next)))
  }

  // ---- removing the temporary object: abandon and cleanup ----

  datatype RequestFate = RequestFate(arrives: bool, answered: bool)

  datatype RemoveFate = RemoveFate(cancel: RequestFate, read: Option<StorageError>, delete: RequestFate)

  // Cancel the session, find the generation and delete it; the flag says that nothing failed.
  function Removed(u: Upload, c: Cloud, cancels: bool, fate: RemoveFate): (Cloud, bool) {
    var (c1, cancelled) := if cancels then Cancel(c, fate.cancel.arrives, fate.cancel.answered) else (c, Ok(()));
    if cancelled.Err? then (c1, false)
    else
      var found: Result<Option<nat>, StorageError> :=
        if u.generation.Some? then Ok(u.generation)
        else
          match ReadTemporary(c1, fate.read)
          case Ok(o) => Ok(Some(o.generation))
          case Err(NotFound) => Ok(None)
          case Err(e) => Err(e);
      match found
      case Err(_) => (c1, false)
      case Ok(None) => (c1, true)
      case Ok(Some(g)) =>
        var (c2, deleted) := DeleteTemporary(c1, g, fate.delete.arrives, fate.delete.answered);
        (c2, deleted.Ok?)
  }

  function AbandonEffect(u: Upload, c: Cloud, caller: Caller, now: int, fate: RemoveFate,
      commits: bool): Effect<SafeProgress> {
    var denied := Denied(u, caller, now);
    if denied.Some? then Throw(u, c, denied.value)
    else if u.status == Finalized then Throw(u, c, Conflict)
    else
      var (after, clean) := Removed(u, c, u.session, fate);
      if clean then
        Committed(u, u.(cleanedAt := Some(now), cleanupFailed := false, session := false, status := Abandoned),
          after, commits, Ok(SafeProgress(0, SafeAbandoned)))
      else
        Committed(u, u.(cleanupFailed := true, status := Abandoned), after, commits, Err(Unavailable))
  }

  datatype CleanupOutcome = Skipped | Failed | Cleaned

  predicate Eligible(u: Upload, before: int) {
    u.cleanedAt == None && (u.status == Finalized || u.status == Abandoned || u.status == Rejected
      || u.expiresAt <= before)
  }

  function CleanupEffect(u: Upload, c: Cloud, before: int, fate: RemoveFate): (Upload, Cloud, CleanupOutcome) {
    if !Eligible(u, before) then (u, c, Skipped)
    else if !u.inNamespace then (u.(cleanupFailed := true), c, Failed)
    else
      var (after, clean) := Removed(u, c, u.status != Finalized && u.session, fate);
      if clean then
        (u.(cleanedAt := Some(before), cleanupFailed := false, session := false,
            status := if u.status == Finalized then Finalized else Abandoned), after, Cleaned)
      else (u.(cleanupFailed := true), after, Failed)
  }

  // One turn of the job: the outcome is none when the transaction does not come through.
  function CleanupTurn(u: Upload, c: Cloud, before: int, fate: RemoveFate, commits: bool)
      : (Upload, Cloud, Option<CleanupOutcome>) {
    var (next, after, outcome) := CleanupEffect(u, c, before, fate);
    if commits then (next, after, Some(outcome)) else (u, after, None)
  }

  // ---- consume ----

  // What the first locked part finds: the bytes to bind, or the binding already there.
  datatype Prepared = Fresh(object: StoredObject) | AlreadyBound(binding: Binding)

  // The final action is checked without the expiry once the record is finalized.
  function DeniedFinal(u: Upload, caller: Caller): Option<UploadError> {
    if !caller.permitted then Some(Forbidden)
    else if u.owner != caller.user then Some(Missing)
    else if u.organization != caller.organization then Some(Forbidden)
    else if u.intent != caller.intent then Some(Conflict)
    else None
  }

  // `retained`: whether the bound artifact is still there.
  function PrepareResult(p: Platform, u: Upload, c: Cloud, caller: Caller, now: int, retained: bool,
      read: Option<StorageError>): Result<Prepared, UploadError> {
    var denied := DeniedFinal(u, caller);
    if denied.Some? then Err(denied.value)
    else if u.status == Finalized then
      match u.binding
      case Some(b) => if retained then Ok(AlreadyBound(b)) else Err(Conflict)
      case None => Err(Conflict)
    else if u.expiresAt <= now then Err(UploadError.Expired)
    else if u.status != Ready then Err(Conflict)
    else
      match Exact(c, u.size, read)
      case Err(e) => Err(ExactUploadError(e))
      case Ok(o) =>
        if Some(o.generation) != u.generation || Some(p.sha(o.bytes)) != u.completedSha then Err(Integrity)
        else if !p.acceptable(u.facts, u.intent, o.bytes) then Err(Unavailable)
        else Ok(Fresh(o))
  }

  // The one statement by which storing an artifact binds its pending upload; none when it binds no row.
  function Bind(u: Upload, b: Binding, size: nat, sha: string, now: int): Option<Upload> {
    if u.completedSize == Some(size) && u.completedSha == Some(sha)
       && ((u.status == Ready && u.expiresAt > now) || (u.status == Finalized && u.binding == Some(b)))
    then Some(u.(status := Finalized, binding := Some(b)))
    else None
  }

  // The second locked part: the binding the caller was told of is the one on record.
  predicate Confirms(u: Upload, claimed: Binding) {
    u.status == Finalized && u.binding == Some(claimed)
  }

  // ---- the operations as the program runs them ----

  class Server {
    const platform: Platform
    var row: Upload
    var cloud: Cloud

    constructor (platform: Platform, row: Upload, cloud: Cloud)
      ensures this.platform == platform && this.row == row && this.cloud == cloud
    {
      this.platform, this.row, this.cloud := platform, row, cloud;
    }

    // COMMIT, or ROLLBACK when it does not come through.
    method Commit(draft: Upload, commits: bool, value: Result<SafeProgress, UploadError>)
        returns (r: Result<SafeProgress, UploadError>)
      modifies this`row
      ensures row == (if commits then draft else old(row))
      ensures r == if commits then value else Err(Unavailable)
    {
      if !commits {
        return Err(Unavailable);
      }
      row := draft;
      r := value;
    }

    method ExactTemporary(size: nat, failure: Option<StorageError>) returns (r: Result<StoredObject, ExactError>)
      ensures r == Exact(cloud, size, failure)
    {
      var read := ReadTemporary(cloud, failure);
      if read.Err? {
        return Err(Storage(read.error));
      }
      if |read.value.bytes| != size {
        return Err(WrongSize);
      }
      r := Ok(read.value);
    }

    // `reconcileUpload`: the draft after its save, or the error thrown.
    method Reconcile(upload: Upload, fate: ReadFate) returns (r: Result<Upload, UploadError>)
      modifies this`cloud
      ensures r == Reconciled(platform, upload, old(cloud), fate) && cloud == AtRead(upload, old(cloud), fate)
      ensures upload.status != Uploading ==> r == Ok(upload) && cloud == old(cloud)
      ensures r.Ok? && upload.status == Uploading ==>
                && (r.value.status == Uploading || r.value.status == Uploaded)
                && r.value == upload.(status := r.value.status, confirmedOffset := r.value.confirmedOffset,
                                      session := r.value.session, generation := r.value.generation,
                                      completedSize := r.value.completedSize, completedSha := r.value.completedSha)
                && (r.value.session != upload.session || r.value.generation != upload.generation ==>
                      && cloud.stored.Some? && r.value.generation == Some(cloud.stored.value.generation)
                      && r.value.completedSha == Some(platform.sha(cloud.stored.value.bytes))
                      && r.value.completedSize == Some(upload.size))
      ensures r.Err? ==> upload.status == Uploading
    {
      hide Arrivals, GetStatus;
      if upload.status != Uploading {
        return Ok(upload);
      }
      if !upload.session {
        return Err(Conflict);
      }
      var progress := GetStatus(cloud, upload.size, fate.status);
      cloud := Arrivals(cloud, upload.size, fate.late);
      if progress.Ok? {
        var draft := upload.(confirmedOffset := progress.value.nextOffset);
        draft := draft.(status := if progress.value.complete then Uploaded else Uploading);
        return Ok(draft);
      }
      if progress.error != NotFound {
        return Err(AsUploadError(progress.error));
      }
      var temporary := ExactTemporary(upload.size, fate.read);
      if temporary.Err? {
        return Err(ExactUploadError(temporary.error));
      }
      r := Ok(Recovered(platform, upload, temporary.value));
    }

    method Get(caller: Caller, now: int, fate: ReadFate, commits: bool) returns (r: Result<SafeProgress, UploadError>)
      modifies this
      ensures Effect(row, cloud, r) == GetEffect(platform, old(row), old(cloud), caller, now, fate, commits)
      ensures row != old(row) ==>
                commits && old(row).status == Uploading && (row.status == Uploading || row.status == Uploaded)
      ensures r.Ok? ==> commits && Denied(row, caller, now) == None && r.value == Safe(row)
    {
      var denied := Denied(row, caller, now);
      if denied.Some? {
        return Err(denied.value);
      }
      var draft := Reconcile(row, fate);
      if draft.Err? {
        return Err(draft.error);
      }
      r := Commit(draft.value, commits, Ok(Safe(draft.value)));
    }

    method Append(caller: Caller, now: int, offset: int, bytes: Bytes, fate: AppendFate, commits: bool)
      returns (r: Result<SafeProgress, UploadError>)
      modifies this
      ensures Effect(row, cloud, r) == AppendEffect(platform, old(row), old(cloud), caller, now, offset, bytes, fate,
              commits)
      ensures row != old(row) || cloud != old(cloud) ==>
                old(row).status == Uploading && offset == old(row).confirmedOffset
                  && Denied(old(row), caller, now) == None
      ensures !commits ==> row == old(row)
      ensures r.Ok? ==> commits && r.value == Safe(row)
    {
      hide Exact, UploadChunk, Recovered, Denied;
      if offset < 0 || offset > MAX_SAFE {
        return Err(InvalidRequest);
      }
      var denied := Denied(row, caller, now);
      if denied.Some? {
        return Err(denied.value);
      }
      if row.status != Uploading || offset != row.confirmedOffset {
        return Err(Conflict);
      }
      var failure := Conflict;
      if row.session {
        var after, progress;
        var sent := UploadChunk(cloud, row.size, Put(offset, bytes), fate.chunk);
        after, progress := sent.0, sent.1;
        cloud := after;
        if progress.Ok? {
          var draft := Progressed(row, progress.value);
          r := Commit(draft, commits, Ok(Safe(draft)));
          return;
        }
        failure := AsUploadError(progress.error);
      }
      if offset + |bytes| == row.size {
        if row.session { cloud := Arrivals(cloud, row.size, fate.late); }
        var temporary := ExactTemporary(row.size, fate.read);
        if temporary.Ok? {
          var draft := Recovered(platform, row, temporary.value);
          r := Commit(draft, commits, Ok(Safe(draft)));
          return;
        }
      }
      r := Err(failure);
    }

    // A rejection is returned, not thrown, so that it commits.
    method Complete(caller: Caller, now: int, fate: CompleteFate, commits: bool)
        returns (r: Result<SafeProgress, UploadError>)
      modifies this
      ensures Effect(row, cloud, r) == CompleteEffect(platform, old(row), old(cloud), caller, now, fate, commits)
      ensures row.status == Ready && old(row).status != Ready ==>
                && var o := Exact(cloud, row.size, fate.read);
                && o.Ok? && row.generation == Some(o.value.generation)
                   && row.completedSha == Some(platform.sha(o.value.bytes))
                && platform.acceptable(row.facts, row.intent, o.value.bytes)
                && row.completedSize == Some(row.size) && row.confirmedOffset == row.size
      ensures Denied(old(row), caller, now) == None && old(row).status == Uploaded && commits
              && cloud.stored.Some? && |cloud.stored.value.bytes| == row.size && fate.read == None ==>
                if platform.acceptable(row.facts, row.intent, cloud.stored.value.bytes)
                then r == Ok(SafeProgress(row.size, SafeReady)) && row.status == Ready
                else r == Err(Integrity) && row.status == Rejected
      ensures r.Ok? ==> row.status == Ready && commits
      ensures r.Err? && row != old(row) ==> row.status == Rejected && r.error == Integrity
    {
      hide Denied;
      var denied := Denied(row, caller, now);
      if denied.Some? {
        return Err(denied.value);
      }
      if row.status == Ready {
        r := Commit(row, commits, Ok(Safe(row)));
        return;
      }
      var draft := Reconcile(row, fate.reconcile);
      if draft.Err? {
        if draft.error != Integrity {
          return Err(draft.error);
        }
        r := Commit(row.(cleanupFailed := false, status := Rejected), commits, Err(Integrity));
        return;
      }
      var upload := draft.value;
      if upload.status != Uploaded {
        return Err(Conflict);
      }
      var temporary := ExactTemporary(row.size, fate.read);
      var contentFailure := true;
      if temporary.Err? {
        contentFailure := temporary.error == WrongSize || temporary.error.error == IntegrityFailure;
        if !contentFailure {
          return Err(ExactUploadError(temporary.error));
        }
      } else if platform.acceptable(upload.facts, upload.intent, temporary.value.bytes) {
        upload := Recovered(platform, upload, temporary.value).(status := Ready);
        r := Commit(upload, commits, Ok(Safe(upload)));
        return;
      }
      r := Commit(upload.(cleanupFailed := false, status := Rejected), commits, Err(Integrity));
    }

    // The try block shared by abandon and cleanup.
    method RemoveTemporary(cancels: bool, fate: RemoveFate) returns (clean: bool)
      modifies this`cloud
      ensures (cloud, clean) == Removed(row, old(cloud), cancels, fate)
    {
      if cancels {
        var cancelled := Cancel(cloud, fate.cancel.arrives, fate.cancel.answered);
        cloud := cancelled.0;
        if cancelled.1.Err? {
          return false;
        }
      }
      var generation := row.generation;
      if generation == None {
        var temporary := ReadTemporary(cloud, fate.read);
        if temporary.Ok? {
          generation := Some(temporary.value.generation);
        } else if temporary.error != NotFound {
          return false;
        }
      }
      clean := true;
      if generation.Some? {
        var deleted := DeleteTemporary(cloud, generation.value, fate.delete.arrives, fate.delete.answered);
        cloud := deleted.0;
        clean := deleted.1.Ok?;
      }
    }

    method Abandon(caller: Caller, now: int, fate: RemoveFate, commits: bool)
        returns (r: Result<SafeProgress, UploadError>)
      modifies this
      ensures Effect(row, cloud, r) == AbandonEffect(old(row), old(cloud), caller, now, fate, commits)
      ensures old(row).status == Finalized ==> row == old(row) && cloud == old(cloud) && r.Err?
      ensures row != old(row) ==> commits && row.status == Abandoned
      ensures r.Ok? ==> row.status == Abandoned && row.cleanedAt == Some(now) && !row.session
    {
      hide Removed, Denied;
      var denied := Denied(row, caller, now);
      if denied.Some? {
        return Err(denied.value);
      }
      if row.status == Finalized {
        return Err(Conflict);
      }
      var clean := RemoveTemporary(row.session, fate);
      if clean {
        r := Commit(row.(cleanedAt := Some(now), cleanupFailed := false, session := false, status := Abandoned),
          commits, Ok(SafeProgress(0, SafeAbandoned)));
      } else {
        r := Commit(row.(cleanupFailed := true, status := Abandoned), commits, Err(Unavailable));
      }
    }

    // One turn of the cleanup job; none when the transaction does not come through.
    method Cleanup(before: int, fate: RemoveFate, commits: bool) returns (outcome: Option<CleanupOutcome>)
      modifies this
      ensures (row, cloud, outcome) == CleanupTurn(old(row), old(cloud), before, fate, commits)
      ensures !commits ==> row == old(row)
      ensures outcome == Some(Skipped) ==> row == old(row) && cloud == old(cloud) && !Eligible(row, before)
      ensures outcome == Some(Cleaned) ==> row.cleanedAt == Some(before) && !row.session && Eligible(old(row), before)
      ensures row.status != old(row).status ==> outcome == Some(Cleaned) && row.status == Abandoned
      ensures old(row).status == Finalized ==> row.status == Finalized && row.binding == old(row).binding
    {
      hide Removed;
      if !Eligible(row, before) {
        return if commits then Some(Skipped) else None;
      }
      var draft := row;
      if !row.inNamespace {
        draft := draft.(cleanupFailed := true);
        outcome := Some(Failed);
      } else {
        var clean := RemoveTemporary(row.status != Finalized && row.session, fate);
        if clean {
          draft := draft.(cleanedAt := Some(before), cleanupFailed := false, session := false,
                          status := if draft.status == Finalized then Finalized else Abandoned);
          outcome := Some(Cleaned);
        } else {
          draft := draft.(cleanupFailed := true);
          outcome := Some(Failed);
        }
      }
      if !commits { return None; }
      row := draft;
    }
  }
}

// What every call of the upload API comes to, outcome by outcome.
module UploadOutcomes {
  import opened Wrappers
  import opened ResumableStore
  import opened UploadServer

  predicate Permitted(u: Upload, caller: Caller, now: int) {
    && caller.user == u.owner && caller.permitted
    && caller.organization == u.organization && caller.intent == u.intent
    && now < u.expiresAt
  }

  // A call is let in exactly for the owner, before the expiry, with permission for the organization and the intent on
  // record; to anybody else the upload does not exist.
  lemma DeniedExactly(u: Upload, caller: Caller, now: int)
    ensures Denied(u, caller, now) == None <==> Permitted(u, caller, now)
    ensures Denied(u, caller, now) == Some(Missing) <==> caller.user != u.owner
    ensures Denied(u, caller, now) == Some(UploadError.Expired) <==> caller.user == u.owner && u.expiresAt <= now
    ensures Denied(u, caller, now) == Some(Conflict) ==> caller.intent != u.intent
    ensures Denied(u, caller, now) != Some(Unavailable) && Denied(u, caller, now) != Some(Integrity)
  {
  }

  // Nor does the final action for others; it disregards the expiry only of a finalized record.
  lemma DeniedFinalExactly(u: Upload, caller: Caller)
    ensures DeniedFinal(u, caller) == None <==>
              && caller.user == u.owner && caller.permitted
              && caller.organization == u.organization && caller.intent == u.intent
  {
  }

  // The caller is shown where the upload stands: a checked one is still uploading, a rejected one abandoned.
  lemma Shown(u: Upload)
    ensures Safe(u).confirmedOffset == u.confirmedOffset
    ensures Safe(u).state == SafeReady <==> u.status == Ready
    ensures Safe(u).state == SafeFinalized <==> u.status == Finalized
    ensures Safe(u).state == SafeUploading <==> u.status == Uploading || u.status == Uploaded
    ensures Safe(u).state == SafeAbandoned <==> u.status == Rejected || u.status == Abandoned
  {
  }

  // The record with the size, hash and generation of a stored object, and no session any more.
  predicate Holds(p: Platform, u: Upload, v: Upload, o: StoredObject) {
    && v == u.(session := false, confirmedOffset := u.size, status := v.status, generation := Some(o.generation),
               completedSize := Some(|o.bytes|), completedSha := Some(p.sha(o.bytes)), cleanupFailed := v.cleanupFailed)
  }

  // ---- reading where an upload stands ----

  // Only a record still uploading is asked about; when the session answers, it takes the length held, the whole object
  // of a session that is gone, or the reason why there is neither.
  lemma ReconcileOutcomes(p: Platform, u: Upload, c: Cloud, fate: ReadFate)
    requires WellFormed(c, u.size) && u.size <= MAX_SAFE
    ensures var r := Reconciled(p, u, c, fate);
            && (u.status != Uploading ==> r == Ok(u))
            && (u.status == Uploading && !u.session ==> r == Err(Conflict))
            && (u.status == Uploading && u.session && fate.status == Session ==>
                  match c.phase
                  case Open => r == Ok(u.(confirmedOffset := |c.held|))
                  case Done => r == Ok(u.(confirmedOffset := u.size, status := Uploaded))
                  case Gone =>
                    if fate.read == Some(IntegrityFailure) then r == Err(Integrity)
                    else if fate.read.Some? then r == Err(Unavailable)
                    else if c.stored == None then r == Err(Missing)
                    else if |c.stored.value.bytes| != u.size then r == Err(Integrity)
                    else r.Ok? && r.value.status == Uploaded && Holds(p, u, r.value, c.stored.value)
                         && r.value.cleanupFailed == u.cleanupFailed)
            && (u.status == Uploading && u.session && fate.status == Silence ==> r == Err(Unavailable))
  {
    hide ReadRange;
    AnswerIsTrue(c, u.size);
    ArrivalsKeep(c, u.size, fate.late);
    hide ReadProgress, WellFormed, Arrivals;
  }

  // A fault of the provider: gone, or to be tried again.
  lemma FaultOutcomes(p: Platform, u: Upload, c: Cloud, fate: ReadFate)
    requires u.status == Uploading && u.session && fate.status.Fault? && IsFault(fate.status)
    ensures fate.status.status !in {404, 410, 499} ==> Reconciled(p, u, c, fate) == Err(Unavailable)
    ensures fate.status.status in {404, 410, 499} && AtRead(u, c, fate).stored == None && fate.read == None ==>
              Reconciled(p, u, c, fate) == Err(Missing)
  {
    hide Arrivals;
  }

  // A read saves what it found and shows it, if it commits, and otherwise changes nothing.
  lemma GetOutcomes(p: Platform, u: Upload, c: Cloud, caller: Caller, now: int, fate: ReadFate, commits: bool)
    ensures var e := GetEffect(p, u, c, caller, now, fate, commits); var found := Reconciled(p, u, c, fate);
            && (!Permitted(u, caller, now) ==> e.upload == u && e.cloud == c && e.result.Err?)
            && (Permitted(u, caller, now) ==>
                  match found
                  case Err(error) => e.upload == u && e.result == Err(error)
                  case Ok(v) =>
                    if commits then e.upload == v && e.result == Ok(Safe(v))
                    else e.upload == u && e.result == Err(Unavailable))
  {
    DeniedExactly(u, caller, now);
    hide Denied, Reconciled, AtRead;
  }

  // ---- a chunk ----

  // A chunk that may not be sent reaches nothing: without permission, with an offset that is no position, unless the
  // record is uploading at that offset.
  lemma ChunkRefused(p: Platform, u: Upload, c: Cloud, caller: Caller, now: int, offset: int, bytes: Bytes,
      fate: AppendFate, commits: bool)
    requires !Permitted(u, caller, now) || offset < 0 || offset > 9007199254740991
             || u.status != Uploading || offset != u.confirmedOffset
    ensures var e := AppendEffect(p, u, c, caller, now, offset, bytes, fate, commits);
            && e.upload == u && e.cloud == c && e.result.Err?
            && (offset < 0 || offset > 9007199254740991 ==> e.result == Err(InvalidRequest))
            && (0 <= offset <= 9007199254740991 && Permitted(u, caller, now) ==> e.result == Err(Conflict))
  {
    DeniedExactly(u, caller, now);
    hide Denied, UploadChunk;
  }

  // A chunk that arrives and is answered moves the record to what is held then; a last one makes it uploaded.
  lemma ChunkTaken(p: Platform, u: Upload, c: Cloud, caller: Caller, now: int, offset: nat, bytes: Bytes,
      fate: AppendFate)
    requires WellFormed(c, u.size) && u.size <= MAX_SAFE && c.phase == Open && u.session
    requires Permitted(u, caller, now) && u.status == Uploading && offset == u.confirmedOffset
    requires 0 < |bytes| <= 4194304 && offset + |bytes| <= u.size
    requires offset + |bytes| == u.size || |bytes| % 262144 == 0
    requires offset <= |c.held| <= offset + |bytes| && c.stored == None
    requires fate.chunk.arrival == Now(|bytes|) && fate.chunk.reply == Session
    ensures var e := AppendEffect(p, u, c, caller, now, offset, bytes, fate, true);
            && e.cloud.held == c.held + bytes[|c.held| - offset..]
            && (offset + |bytes| < u.size ==>
                  && e.upload == u.(confirmedOffset := offset + |bytes|)
                  && e.result == Ok(SafeProgress(offset + |bytes|, SafeUploading)))
            && (offset + |bytes| == u.size ==>
                  && e.upload == u.(confirmedOffset := u.size, status := Uploaded)
                  && e.result == Ok(SafeProgress(u.size, SafeUploading))
                  && e.cloud.stored.Some? && e.cloud.stored.value.bytes == e.cloud.held)
  {
    DeniedExactly(u, caller, now);
    var put := Put(offset, bytes);
    ReceiveKeeps(c, u.size, put, |bytes|);
    var d := Receive(c, u.size, put, |bytes|);
    WholeNews(c.held, put);
    AnswerIsTrue(d, u.size);
    hide Denied, ReadProgress, ReadRange, Answer, WellFormed, Arrivals;
  }

  lemma WholeNews(held: Bytes, put: Put)
    requires put.offset <= |held| <= put.offset + |put.bytes|
    ensures var news := put.bytes[|held| - put.offset..];
            held + (if |put.bytes| < |News(held, put)| then News(held, put)[..|put.bytes|] else News(held, put))
            == held + news
  {
  }

  // Without a session only a last chunk can succeed, when the whole object is there already.
  lemma SessionlessChunk(p: Platform, u: Upload, c: Cloud, caller: Caller, now: int, offset: nat, bytes: Bytes,
      fate: AppendFate)
    requires Permitted(u, caller, now) && u.status == Uploading && offset == u.confirmedOffset && offset <= MAX_SAFE
    requires !u.session
    ensures var e := AppendEffect(p, u, c, caller, now, offset, bytes, fate, true);
            && e.cloud == c
            && if offset + |bytes| == u.size && fate.read == None && c.stored.Some? && |c.stored.value.bytes| == u.size
               then
                 && Holds(p, u, e.upload, c.stored.value) && e.upload.status == Uploaded
                 && e.upload.cleanupFailed == u.cleanupFailed
                 && e.result == Ok(SafeProgress(u.size, SafeUploading))
               else e.upload == u && e.result == Err(Conflict)
  {
    DeniedExactly(u, caller, now);
    hide Denied;
  }

  // When its answer is lost, a last chunk is recovered from the stored object; an earlier one only fails.
  lemma ChunkLost(p: Platform, u: Upload, c: Cloud, caller: Caller, now: int, offset: nat, bytes: Bytes,
      fate: AppendFate)
    requires Permitted(u, caller, now) && u.status == Uploading && offset == u.confirmedOffset && offset <= MAX_SAFE
    requires u.session && UploadChunk(c, u.size, Put(offset, bytes), fate.chunk).1 == Err(ProviderFailure)
    ensures var e := AppendEffect(p, u, c, caller, now, offset, bytes, fate, true);
            var sent := UploadChunk(c, u.size, Put(offset, bytes), fate.chunk).0;
            var later := Arrivals(sent, u.size, fate.late);
            && (offset + |bytes| != u.size ==> e == Effect(u, sent, Err(Unavailable)))
            && (offset + |bytes| == u.size && (later.stored == None || fate.read.Some?) ==>
                  e == Effect(u, later, Err(Unavailable)))
            && (offset + |bytes| == u.size && later.stored.Some? && fate.read == None
                && |later.stored.value.bytes| == u.size ==>
                  && e.cloud == later && e.upload.status == Uploaded && Holds(p, u, e.upload, later.stored.value)
                  && e.result == Ok(SafeProgress(u.size, SafeUploading)))
  {
    DeniedExactly(u, caller, now);
    hide Denied, UploadChunk, Arrivals;
  }

  // ---- completion ----

  // Completing again a record that is ready changes nothing.
  lemma CompletedAgain(p: Platform, u: Upload, c: Cloud, caller: Caller, now: int, fate: CompleteFate, commits: bool)
    requires u.status == Ready || !Permitted(u, caller, now)
    ensures var e := CompleteEffect(p, u, c, caller, now, fate, commits);
            && e.upload == u && e.cloud == c
            && (!Permitted(u, caller, now) ==> e.result.Err?)
            && (Permitted(u, caller, now) && commits ==> e.result == Ok(SafeProgress(u.confirmedOffset, SafeReady)))
  {
    DeniedExactly(u, caller, now);
    hide Denied, Reconciled, AtRead;
  }

  // A record with all its bytes becomes ready exactly when the object is readable, has the size announced and is
  // accepted by the content policy; bytes of another size, broken ones and refused ones are rejected for good, an
  // object that cannot be read now, or is not there, leaves the record alone.
  lemma CompletionOutcomes(p: Platform, u: Upload, c: Cloud, caller: Caller, now: int, fate: CompleteFate)
    requires Permitted(u, caller, now) && u.status == Uploaded
    ensures var e := CompleteEffect(p, u, c, caller, now, fate, true);
            && e.cloud == c
            && (fate.read == None && c.stored.Some? && |c.stored.value.bytes| == u.size
                && p.acceptable(u.facts, u.intent, c.stored.value.bytes) ==>
                  && e.result == Ok(SafeProgress(u.size, SafeReady)) && e.upload.status == Ready
                  && Holds(p, u, e.upload, c.stored.value) && e.upload.cleanupFailed == u.cleanupFailed)
            && (fate.read == None && c.stored.Some?
                && (|c.stored.value.bytes| != u.size || !p.acceptable(u.facts, u.intent, c.stored.value.bytes)) ==>
                  e.result == Err(Integrity) && e.upload == u.(status := Rejected, cleanupFailed := false))
            && (fate.read == Some(IntegrityFailure) ==>
                  e.result == Err(Integrity) && e.upload == u.(status := Rejected, cleanupFailed := false))
            && (fate.read == Some(ProviderFailure) || fate.read == Some(NotFound) ==>
                  e == Effect(u, c, Err(Unavailable)))
            && (fate.read == None && c.stored == None ==> e == Effect(u, c, Err(Missing)))
  {
    DeniedExactly(u, caller, now);
    hide Denied;
  }

  // A record that is still uploading is read first: incomplete bytes are a conflict, broken ones rejected, and a whole
  // file is checked as above.
  lemma UnfinishedCompletion(p: Platform, u: Upload, c: Cloud, caller: Caller, now: int, fate: CompleteFate)
    requires Permitted(u, caller, now) && u.status == Uploading
    ensures var e := CompleteEffect(p, u, c, caller, now, fate, true);
            var d := AtRead(u, c, fate.reconcile);
            && e.cloud == d
            && match Reconciled(p, u, c, fate.reconcile)
               case Err(error) =>
                 && e.result == Err(error)
                 && e.upload == (if error == Integrity then u.(status := Rejected, cleanupFailed := false) else u)
               case Ok(v) =>
                 if v.status != Uploaded then e.upload == u && e.result == Err(Conflict)
                 else
                   && (e.result.Ok? <==> fate.read == None && d.stored.Some? && |d.stored.value.bytes| == u.size
                                         && p.acceptable(u.facts, u.intent, d.stored.value.bytes))
                   && (e.result.Ok? ==> e.upload.status == Ready && e.result.value.state == SafeReady
                                        && Holds(p, u, e.upload, d.stored.value))
                   && (fate.read == None && d.stored.Some? && e.result.Err? ==>
                         e.result == Err(Integrity) && e.upload.status == Rejected)
  {
    DeniedExactly(u, caller, now);
    hide Denied, GetStatus, Arrivals;
  }

  // Any other record cannot be completed, and nothing is saved when the transaction does not come through.
  lemma CompletionRefused(p: Platform, u: Upload, c: Cloud, caller: Caller, now: int, fate: CompleteFate, commits: bool)
    ensures var e := CompleteEffect(p, u, c, caller, now, fate, commits);
            && (Permitted(u, caller, now) && u.status in {Rejected, Abandoned, Finalized} ==>
                  e == Effect(u, c, Err(Conflict)))
            && (!commits ==> e.upload == u && e.result.Err?)
  {
    DeniedExactly(u, caller, now);
    hide Denied, Exact, GetStatus, Arrivals;
  }

  // ---- abandoning and cleaning ----

  // The requests that remove an object: cancel, if there is a session, then find the generation, then delete it. Each
  // is made only after the one before went through.
  lemma RemovalOutcomes(u: Upload, c: Cloud, cancels: bool, fate: RemoveFate)
    requires c.stored.Some? && u.generation.Some? ==> u.generation.value == c.stored.value.generation
    ensures var (d, clean) := Removed(u, c, cancels, fate);
            var cancelled := cancels ==> fate.cancel.arrives && fate.cancel.answered;
            var found := u.generation.Some? || fate.read == None;
            var deleted := u.generation.Some? || c.stored.Some? ==> fate.delete.arrives && fate.delete.answered;
            && (clean <==> cancelled && found && deleted)
            && (d.stored == None <==>
                  c.stored == None || (cancelled && found && fate.delete.arrives))
            && (d.stored.Some? ==> d.stored == c.stored)
            && (cancels && fate.cancel.arrives ==> d.phase == Gone)
            && (!cancels || !fate.cancel.arrives ==> d.phase == c.phase)
            && d.held == c.held && d.written == c.written
  {
  }

  // A finalized upload is not abandoned; any other ends abandoned, and the call succeeds when nothing is left to clean.
  lemma AbandonOutcomes(u: Upload, c: Cloud, caller: Caller, now: int, fate: RemoveFate)
    ensures var e := AbandonEffect(u, c, caller, now, fate, true);
            var (d, clean) := Removed(u, c, u.session, fate);
            && (!Permitted(u, caller, now) ==> e.upload == u && e.cloud == c && e.result.Err?)
            && (Permitted(u, caller, now) && u.status == Finalized ==> e == Effect(u, c, Err(Conflict)))
            && (Permitted(u, caller, now) && u.status != Finalized && clean ==>
                  && e.cloud == d && e.result == Ok(SafeProgress(0, SafeAbandoned))
                  && e.upload == u.(status := Abandoned, session := false, cleanedAt := Some(now),
                                    cleanupFailed := false))
            && (Permitted(u, caller, now) && u.status != Finalized && !clean ==>
                  && e.cloud == d && e.result == Err(Unavailable)
                  && e.upload == u.(status := Abandoned, cleanupFailed := true))
  {
    DeniedExactly(u, caller, now);
    hide Denied, Removed;
  }

  // The job cleans what is finished with: finalized, abandoned, rejected or expired, and not cleaned yet. An object
  // outside its namespace is left and noted; a finalized upload stays finalized.
  lemma CleanupOutcomes(u: Upload, c: Cloud, before: int, fate: RemoveFate)
    ensures var (v, d, outcome) := CleanupEffect(u, c, before, fate);
            var due := u.cleanedAt == None && (u.status in {Finalized, Abandoned, Rejected} || u.expiresAt <= before);
            var (removed, clean) := Removed(u, c, u.session && u.status != Finalized, fate);
            && (outcome == Skipped <==> !due)
            && (!due ==> v == u && d == c)
            && (due && !u.inNamespace ==> outcome == Failed && d == c && v == u.(cleanupFailed := true))
            && (due && u.inNamespace ==> d == removed && (outcome == Cleaned <==> clean))
            && (due && u.inNamespace && !clean ==> v == u.(cleanupFailed := true))
            && (due && u.inNamespace && clean ==>
                  v == u.(status := v.status, session := false, cleanedAt := Some(before), cleanupFailed := false)
                  && v.status == (if u.status == Finalized then Finalized else Abandoned))
  {
    hide Removed;
  }

  // ---- the final action ----

  // Bytes are handed out for binding exactly when the record is ready in time and the object is the one it was ready
  // with, still acceptable.
  lemma PrepareOutcomes(p: Platform, u: Upload, c: Cloud, caller: Caller, now: int, retained: bool,
      read: Option<StorageError>)
    requires u.status != Finalized
    ensures var r := PrepareResult(p, u, c, caller, now, retained, read);
            && ((r.Ok? && r.value.Fresh?) <==>
                  && DeniedFinal(u, caller) == None && now < u.expiresAt && u.status == Ready
                  && read == None && c.stored.Some? && |c.stored.value.bytes| == u.size
                  && u.generation == Some(c.stored.value.generation)
                  && u.completedSha == Some(p.sha(c.stored.value.bytes))
                  && p.acceptable(u.facts, u.intent, c.stored.value.bytes))
            && (r.Ok? ==> r.value == Fresh(c.stored.value))
            && (DeniedFinal(u, caller) == None && u.expiresAt <= now ==> r == Err(UploadError.Expired))
            && (DeniedFinal(u, caller) == None && now < u.expiresAt && u.status != Ready ==> r == Err(Conflict))
  {
    hide DeniedFinal;
  }

  // A finalized record hands out its binding, whatever its expiry, as long as the artifact is retained.
  lemma RecoverOutcomes(p: Platform, u: Upload, c: Cloud, caller: Caller, now: int, retained: bool,
      read: Option<StorageError>)
    requires u.status == Finalized
    ensures var r := PrepareResult(p, u, c, caller, now, retained, read);
            && (r.Ok? <==> DeniedFinal(u, caller) == None && u.binding.Some? && retained)
            && (r.Ok? ==> r.value == AlreadyBound(u.binding.value))
            && (DeniedFinal(u, caller) == None && r.Err? ==> r == Err(Conflict))
  {
    hide DeniedFinal;
  }

  // Storing an artifact finalizes exactly a record that is ready in time with the same size and hash, or one finalized
  // with the same binding already.
  lemma BindOutcomes(u: Upload, b: Binding, size: nat, sha: string, now: int)
    ensures Bind(u, b, size, sha, now).Some? <==>
              && u.completedSize == Some(size) && u.completedSha == Some(sha)
              && ((u.status == Ready && now < u.expiresAt) || (u.status == Finalized && u.binding == Some(b)))
    ensures Bind(u, b, size, sha, now).Some? ==>
              Bind(u, b, size, sha, now).value == u.(status := Finalized, binding := Some(b))
  {
  }
}

// The upload protocol as a whole: any interleaving of API calls, consumers, cleanup, late requests
// and losses, over one upload. What every step keeps, and what every run therefore guarantees.
module UploadRuns {
  import opened Wrappers
  import opened ResumableStore
  import opened UploadServer

  // One call that consumes the upload: it holds the bytes, then the binding its finalizer claims,
  // then the confirmed binding, then it has returned. A recovering call found a binding on record.
  datatype Consumer =
    | Holding(stored: StoredObject)
    | Claiming(claimed: Binding, generation: nat)
    | Confirmed(claimed: Binding, generation: nat)
    | Returned(claimed: Binding)
    | Recovering(binding: Binding)

  datatype World = World(upload: Upload, cloud: Cloud, consumers: map<nat, Consumer>)

  datatype Event =
    | Get(caller: Caller, now: int, readFate: ReadFate, commits: bool)
    | Append(caller: Caller, now: int, offset: nat, bytes: Bytes, appendFate: AppendFate, commits: bool)
    | Complete(caller: Caller, now: int, completeFate: CompleteFate, commits: bool)
    | Abandon(caller: Caller, now: int, removeFate: RemoveFate, commits: bool)
    | Cleanup(before: int, removeFate: RemoveFate, commits: bool)
    | Arrive(put: Put, kept: nat)
    | Forget
    | Lose
    | Prepare(id: nat, caller: Caller, now: int, retained: bool, read: Option<StorageError>)
    | Finalize(id: nat, bound: Option<Binding>, claimed: Binding, now: int)
    | Confirm(id: nat)
    | Finish(id: nat, now: int, delete: RequestFate, commits: bool, commitsFailure: bool)

  function With<T>(w: World, e: Effect<T>): World {
    w.(upload := e.upload, cloud := e.cloud)
  }

  function Drop(w: World, id: nat): World {
    w.(consumers := w.consumers - {id})
  }

  function Put1(w: World, id: nat, consumer: Consumer): World {
    w.(consumers := w.consumers[id := consumer])
  }

  function Step(p: Platform, w: World, e: Event): World {
    match e
    case Get(caller, now, fate, commits) => With(w, GetEffect(p, w.upload, w.cloud, caller, now, fate, commits))
    case Append(caller, now, offset, bytes, fate, commits) =>
      With(w, AppendEffect(p, w.upload, w.cloud, caller, now, offset, bytes, fate, commits))
    case Complete(caller, now, fate, commits) =>
      With(w, CompleteEffect(p, w.upload, w.cloud, caller, now, fate, commits))
    case Abandon(caller, now, fate, commits) => With(w, AbandonEffect(w.upload, w.cloud, caller, now, fate, commits))
    case Cleanup(before, fate, commits) =>
      var (u, c, _) := CleanupTurn(w.upload, w.cloud, before, fate, commits);
      w.(upload := u, cloud := c)
    case Arrive(put, kept) => w.(cloud := Arrived(w.cloud, w.upload.size, Late(put, kept)))
    case Forget => w.(cloud := w.cloud.(phase := Gone))
    case Lose => w.(cloud := w.cloud.(stored := None))
    case Prepare(id, caller, now, retained, read) => PrepareStep(p, w, id, caller, now, retained, read)
    case Finalize(id, bound, claimed, now) => FinalizeStep(p, w, id, bound, claimed, now)
    case Confirm(id) =>
      if id !in w.consumers || !w.consumers[id].Claiming? then w
      else if Confirms(w.upload, w.consumers[id].claimed) then
        Put1(w, id, Confirmed(w.consumers[id].claimed, w.consumers[id].generation))
      else Drop(w, id)
    case Finish(id, now, delete, commits, commitsFailure) => FinishStep(w, id, now, delete, commits, commitsFailure)
  }

  function PrepareStep(p: Platform, w: World, id: nat, caller: Caller, now: int, retained: bool,
      read: Option<StorageError>): World {
    if id in w.consumers then w
    else
      match PrepareResult(p, w.upload, w.cloud, caller, now, retained, read)
      case Ok(Fresh(o)) => Put1(w, id, Holding(o))
      case Ok(AlreadyBound(b)) => Put1(w, id, Recovering(b))
      case Err(_) => w
  }

  // The caller's finalizer runs outside the lock. Storing the artifact may bind the upload, and a
  // binding that fails makes it throw; what it then claims to have bound is its own affair.
  function FinalizeStep(p: Platform, w: World, id: nat, bound: Option<Binding>, claimed: Binding, now: int): World {
    if id !in w.consumers || !w.consumers[id].Holding? then w
    else
      var o := w.consumers[id].stored;
      match bound
      case None => Put1(w, id, Claiming(claimed, o.generation))
      case Some(b) =>
        match Bind(w.upload, b, |o.bytes|, p.sha(o.bytes), now)
        case None => Drop(w, id)
        case Some(u) => Put1(w.(upload := u), id, Claiming(claimed, o.generation))
  }

  // Delete the temporary object and note it; the value is returned even when that fails.
  function FinishStep(w: World, id: nat, now: int, delete: RequestFate, commits: bool, commitsFailure: bool): World {
    if id !in w.consumers || !w.consumers[id].Confirmed? then w
    else
      var (c, deleted) := DeleteTemporary(w.cloud, w.consumers[id].generation, delete.arrives, delete.answered);
      var after := w.(cloud := c);
      if deleted.Ok? && commits then
        Put1(after.(upload := w.upload.(cleanedAt := Some(now), cleanupFailed := false)), id,
          Returned(w.consumers[id].claimed))
      else if commitsFailure then
        Put1(after.(upload := w.upload.(cleanupFailed := true)), id, Returned(w.consumers[id].claimed))
      else Drop(after, id)
  }

  function Run(p: Platform, w: World, events: seq<Event>): World {
    if events == [] then w else Step(p, Run(p, w, events[..|events| - 1]), events[|events| - 1])
  }

  // ---- what the steps of a consumer come to ----

  // The first part leaves record and provider alone and gives the call the bytes, or the binding there is already.
  lemma PreparedConsumer(p: Platform, w: World, id: nat, caller: Caller, now: int, retained: bool,
      read: Option<StorageError>)
    requires id !in w.consumers
    ensures var v := Step(p, w, Prepare(id, caller, now, retained, read));
            var found := PrepareResult(p, w.upload, w.cloud, caller, now, retained, read);
            && v.upload == w.upload && v.cloud == w.cloud
            && match found
               case Err(_) => v.consumers == w.consumers
               case Ok(Fresh(o)) => v.consumers == w.consumers[id := Holding(o)]
               case Ok(AlreadyBound(b)) => v.consumers == w.consumers[id := Recovering(b)]
  {
    hide PrepareResult;
  }

  // Storing the artifact finalizes the record and names the binding; if that cannot be, the call ends. What a finalizer
  // claims to have bound is its own affair.
  lemma FinalizedConsumer(p: Platform, w: World, id: nat, bound: Option<Binding>, claimed: Binding, now: int)
    requires id in w.consumers && w.consumers[id].Holding?
    ensures var v, u, o := Step(p, w, Finalize(id, bound, claimed, now)), w.upload, w.consumers[id].stored;
            var binds := u.completedSize == Some(|o.bytes|) && u.completedSha == Some(p.sha(o.bytes))
                         && ((u.status == Ready && now < u.expiresAt)
                             || (u.status == Finalized && u.binding == bound));
            && v.cloud == w.cloud
            && (bound == None ==> v.upload == u)
            && (bound.Some? && binds ==> v.upload == u.(status := Finalized, binding := bound))
            && (bound.Some? && !binds ==> v.upload == u && v.consumers == w.consumers - {id})
            && (bound == None || binds ==> v.consumers == w.consumers[id := Claiming(claimed, o.generation)])
  {
  }

  // The second part goes on exactly with the binding on record.
  lemma ConfirmedConsumer(p: Platform, w: World, id: nat)
    requires id in w.consumers && w.consumers[id].Claiming?
    ensures var v, c := Step(p, w, Confirm(id)), w.consumers[id];
            && v.upload == w.upload && v.cloud == w.cloud
            && v.consumers
               == if w.upload.status == Finalized && w.upload.binding == Some(c.claimed)
                  then w.consumers[id := Confirmed(c.claimed, c.generation)] else w.consumers - {id}
  {
  }

  // In the end the generation bound is deleted and that noted, or its failure, and the call returns if either is.
  lemma FinishedConsumer(p: Platform, w: World, id: nat, now: int, delete: RequestFate, commits: bool,
      commitsFailure: bool)
    requires id in w.consumers && w.consumers[id].Confirmed?
    ensures var v, c := Step(p, w, Finish(id, now, delete, commits, commitsFailure)), w.consumers[id];
            var deleted := delete.arrives && delete.answered;
            && v.cloud == w.cloud.(stored :=
                 if delete.arrives && w.cloud.stored.Some? && w.cloud.stored.value.generation == c.generation then None
                 else w.cloud.stored)
            && (deleted && commits ==>
                  v.upload == w.upload.(cleanedAt := Some(now), cleanupFailed := false))
            && (!(deleted && commits) && commitsFailure ==> v.upload == w.upload.(cleanupFailed := true))
            && (!(deleted && commits) && !commitsFailure ==> v.upload == w.upload)
            && v.consumers == if (deleted && commits) || commitsFailure then w.consumers[id := Returned(c.claimed)]
                              else w.consumers - {id}
  {
  }

  // Providers report faults with statuses that carry no progress.
  predicate Plausible(e: Event) {
    match e
    case Get(_, _, fate, _) => IsFault(fate.status)
    case Append(_, _, _, _, fate, _) => IsFault(fate.chunk.reply) && IsFault(fate.chunk.status)
    case Complete(_, _, fate, _) => IsFault(fate.reconcile.status)
    case _ => true
  }

  // A client sends slices of its file.
  predicate Honest(file: Bytes, e: Event) {
    e.Append? ==> Slice(file, Put(e.offset, e.bytes))
  }

  // ---- what holds in every reachable world ----

  ghost predicate RecordSound(p: Platform, u: Upload, c: Cloud) {
    && u.size <= MAX_SAFE
    && WellFormed(c, u.size)
    && 0 <= u.confirmedOffset <= |c.held|
    && (u.generation.Some? <==> u.completedSha.Some?)
    && (u.generation.Some? <==> u.completedSize.Some?)
    && (u.generation.Some? ==>
          && u.generation.value in c.written
          && u.completedSha.value == p.sha(c.written[u.generation.value])
          && u.completedSize.value == u.size
          && (u.status == Ready || u.status == Finalized ==>
                p.acceptable(u.facts, u.intent, c.written[u.generation.value])))
    && (u.status == Uploading ==> u.session && u.generation == None)
    && (u.status == Uploaded ==> u.confirmedOffset == u.size)
    && (u.status == Ready || u.status == Finalized ==> u.generation.Some? && u.confirmedOffset == u.size && !u.session)
    && (u.status == Finalized <==> u.binding.Some?)
    && (u.cleanedAt.Some? ==> u.status == Abandoned || u.status == Finalized)
    && (!u.session ==> c.phase != Open)
    && (u.cleanedAt.Some? ==> !u.session && c.stored == None)
  }

  ghost predicate ConsumerSound(u: Upload, c: Cloud, consumer: Consumer) {
    match consumer
    case Holding(o) => o.generation in c.written && c.written[o.generation] == o.bytes
    case Claiming(_, g) => g in c.written
    case Confirmed(b, g) => u.binding == Some(b) && g in c.written
    case Returned(b) => u.binding == Some(b)
    case Recovering(b) => u.binding == Some(b)
  }

  ghost predicate Sound(p: Platform, w: World) {
    && RecordSound(p, w.upload, w.cloud)
    && forall id :: id in w.consumers ==> ConsumerSound(w.upload, w.cloud, w.consumers[id])
  }

  predicate Slice(file: Bytes, put: Put) {
    put.offset + |put.bytes| <= |file| && put.bytes == file[put.offset..put.offset + |put.bytes|]
  }

  // The session holds a beginning of the client's file, and every request under way is a slice of it.
  ghost predicate Carries(file: Bytes, c: Cloud) {
    c.held <= file && forall put <- c.wire :: Slice(file, put)
  }

  ghost predicate Faithful(file: Bytes, w: World) {
    |file| == w.upload.size && Carries(file, w.cloud)
  }

  // Where a status may go in one step.
  predicate MayBecome(a: Status, b: Status) {
    match a
    case Uploading => b != Finalized
    case Uploaded => b != Uploading && b != Finalized
    case Ready => b == Ready || b == Abandoned || b == Finalized
    case Rejected => b == Rejected || b == Abandoned
    case Abandoned => b == Abandoned
    case Finalized => b == Finalized
  }

  // What one step never takes back.
  ghost predicate Advances(u: Upload, c: Cloud, v: Upload, d: Cloud) {
    && MayBecome(u.status, v.status)
    && (u.binding.Some? ==> v.binding == u.binding)
    && (u.cleanedAt.Some? ==> v.cleanedAt.Some?)
    && v.size == u.size && v.owner == u.owner && v.organization == u.organization && v.intent == u.intent
    && v.facts == u.facts && v.expiresAt == u.expiresAt
    && c.held <= d.held
    && (forall g :: g in c.written ==> g in d.written && d.written[g] == c.written[g])
  }

  ghost predicate Keeps(p: Platform, u: Upload, c: Cloud, v: Upload, d: Cloud) {
    RecordSound(p, v, d) && Advances(u, c, v, d)
  }

  // ---- each operation ----

  lemma ReconcileKeeps(p: Platform, u: Upload, c: Cloud, fate: ReadFate)
    requires RecordSound(p, u, c) && IsFault(fate.status)
    ensures var r := Reconciled(p, u, c, fate); r.Ok? ==> Keeps(p, u, c, r.value, AtRead(u, c, fate))
    ensures Keeps(p, u, c, u, AtRead(u, c, fate))
    ensures var r := Reconciled(p, u, c, fate);
            r.Ok? ==> r.value.binding == u.binding && r.value.cleanedAt == u.cleanedAt
    ensures var r := Reconciled(p, u, c, fate); u.status != Uploading ==> r == Ok(u)
    ensures var r := Reconciled(p, u, c, fate);
            r.Ok? && u.status == Uploading ==> r.value.status == Uploading || r.value.status == Uploaded
  {
    SoundSize(p, u, c);
    var d := AtRead(u, c, fate);
    ArrivalsKeep(c, u.size, fate.late);
    assert MovesOn(c, d, u.size);
    NothingKeeps(p, u, c);
    ProviderKeeps(p, u, c, d);
    StatusIsTrue(c, u.size, fate.status);
    var status := GetStatus(c, u.size, fate.status);
    if u.status == Uploading && u.session {
      if status.Ok? {
        ProgressKeeps(p, u, c, c, status.value);
        ProviderKeeps(p, Progressed(u, status.value), c, d);
        KeepsChains(p, u, c, Progressed(u, status.value), c, Progressed(u, status.value), d);
      }
      if Exact(d, u.size, fate.read).Ok? {
        var o := Exact(d, u.size, fate.read).value;
        RecoveredKeeps(p, u, d, o);
        KeepsChains(p, u, c, u, d, Recovered(p, u, o), d);
      }
    }
    hide GetStatus, RecordSound, Advances, MovesOn, Exact, Arrivals;
  }

  lemma GetKeeps(p: Platform, u: Upload, c: Cloud, caller: Caller, now: int, fate: ReadFate, commits: bool)
    requires RecordSound(p, u, c) && IsFault(fate.status)
    ensures var e := GetEffect(p, u, c, caller, now, fate, commits); Keeps(p, u, c, e.upload, e.cloud)
  {
    hide Reconciled, Denied, RecordSound, Advances, AtRead;
    ReconcileKeeps(p, u, c, fate);
    NothingKeeps(p, u, c);
  }

  lemma NothingKeeps(p: Platform, u: Upload, c: Cloud)
    requires RecordSound(p, u, c)
    ensures Keeps(p, u, c, u, c)
  {
    hide WellFormed;
  }

  // The provider moved on and the record follows what it reports.
  lemma ProgressKeeps(p: Platform, u: Upload, c: Cloud, d: Cloud, progress: Progress)
    requires RecordSound(p, u, c) && u.status == Uploading && u.session
    requires MovesOn(c, d, u.size) && TrueProgress(d, u.size, progress)
    ensures Keeps(p, u, c, Progressed(u, progress), d)
    ensures Keeps(p, u, c, u, d)
  {
    hide WellFormed;
  }

  lemma ProviderKeeps(p: Platform, u: Upload, c: Cloud, d: Cloud)
    requires RecordSound(p, u, c)
    requires MovesOn(c, d, u.size)
    ensures Keeps(p, u, c, u, d)
  {
    hide WellFormed;
  }

  // The record takes the size, hash and generation of the whole stored object.
  lemma RecoveredKeeps(p: Platform, u: Upload, c: Cloud, o: StoredObject)
    requires RecordSound(p, u, c) && (u.status == Uploading || u.status == Uploaded)
    requires c.stored == Some(o) && |o.bytes| == u.size
    ensures Keeps(p, u, c, Recovered(p, u, o), c)
    ensures p.acceptable(u.facts, u.intent, o.bytes) ==> Keeps(p, u, c, Recovered(p, u, o).(status := Ready), c)
  {
  }

  lemma RejectedKeeps(p: Platform, u: Upload, c: Cloud)
    requires RecordSound(p, u, c) && u.status != Ready && u.status != Abandoned && u.status != Finalized
    ensures Keeps(p, u, c, u.(status := Rejected, cleanupFailed := false), c)
  {
    hide WellFormed;
  }

  lemma KeepsChains(p: Platform, u: Upload, c: Cloud, v: Upload, d: Cloud, w: Upload, e: Cloud)
    requires Keeps(p, u, c, v, d) && Keeps(p, v, d, w, e) && MayBecome(u.status, w.status)
    ensures Keeps(p, u, c, w, e)
  {
    hide WellFormed;
  }

  lemma AppendKeeps(p: Platform, u: Upload, c: Cloud, caller: Caller, now: int, offset: nat, bytes: Bytes,
      fate: AppendFate, commits: bool)
    requires RecordSound(p, u, c) && IsFault(fate.chunk.reply) && IsFault(fate.chunk.status)
    ensures var e := AppendEffect(p, u, c, caller, now, offset, bytes, fate, commits); Keeps(p, u, c, e.upload, e.cloud)
  {
    SoundSize(p, u, c);
    ChunkIsTrue(c, u.size, Put(offset, bytes), fate.chunk);
    var sent := UploadChunk(c, u.size, Put(offset, bytes), fate.chunk);
    var later := Arrivals(sent.0, u.size, fate.late);
    ArrivalsKeep(sent.0, u.size, fate.late);
    ProviderKeeps(p, u, c, sent.0);
    ProviderKeeps(p, u, c, later);
    NothingKeeps(p, u, c);
    if u.status == Uploading && u.session && sent.1.Ok? { ProgressKeeps(p, u, c, sent.0, sent.1.value); }
    hide UploadChunk, Denied, RecordSound, Advances, WellFormed, TrueProgress, Recovered, Progressed, MovesOn, Arrivals;
    if u.status == Uploading {
      if Exact(c, u.size, fate.read).Ok? { RecoveredKeeps(p, u, c, Exact(c, u.size, fate.read).value); }
      if Exact(later, u.size, fate.read).Ok? {
        var o := Exact(later, u.size, fate.read).value;
        RecoveredKeeps(p, u, later, o);
        KeepsChains(p, u, c, u, later, Recovered(p, u, o), later);
      }
    }
  }

  lemma SoundSize(p: Platform, u: Upload, c: Cloud)
    requires RecordSound(p, u, c)
    ensures u.size <= MAX_SAFE && WellFormed(c, u.size)
  {
  }

  lemma CompleteKeeps(p: Platform, u: Upload, c: Cloud, caller: Caller, now: int, fate: CompleteFate, commits: bool)
    requires RecordSound(p, u, c) && IsFault(fate.reconcile.status)
    ensures var e := CompleteEffect(p, u, c, caller, now, fate, commits); Keeps(p, u, c, e.upload, e.cloud)
  {
    var d := AtRead(u, c, fate.reconcile);
    ReconcileKeeps(p, u, c, fate.reconcile);
    NothingKeeps(p, u, c);
    hide Reconciled, Denied, RecordSound, Advances, Recovered, AtRead;
    var found := Reconciled(p, u, c, fate.reconcile);
    if found == Err(Integrity) {
      ReconcileNeeds(p, u, c, fate.reconcile);
      RejectedKeeps(p, u, d);
      KeepsChains(p, u, c, u, d, u.(status := Rejected, cleanupFailed := false), d);
    } else if found.Ok? && found.value.status == Uploaded {
      FoundUploaded(p, u, c, fate.reconcile);
      RejectedKeeps(p, found.value, d);
      KeepsChains(p, u, c, found.value, d, found.value.(status := Rejected, cleanupFailed := false), d);
      if Exact(d, u.size, fate.read).Ok? {
        var o := Exact(d, u.size, fate.read).value;
        RecoveredKeeps(p, found.value, d, o);
        RecoveredBecomesReady(p, found.value, o);
        if p.acceptable(u.facts, u.intent, o.bytes) {
          KeepsChains(p, u, c, found.value, d, Recovered(p, found.value, o).(status := Ready), d);
        }
      }
    }
  }

  lemma RecoveredBecomesReady(p: Platform, u: Upload, o: StoredObject)
    ensures Recovered(p, u, o).(status := Ready).status == Ready
  {
  }

  lemma ReconcileNeeds(p: Platform, u: Upload, c: Cloud, fate: ReadFate)
    ensures Reconciled(p, u, c, fate).Err? ==> u.status == Uploading
  {
    hide GetStatus;
  }

  lemma FoundUploaded(p: Platform, u: Upload, c: Cloud, fate: ReadFate)
    requires RecordSound(p, u, c) && IsFault(fate.status)
    requires var r := Reconciled(p, u, c, fate); r.Ok? && r.value.status == Uploaded
    ensures var v := Reconciled(p, u, c, fate).value;
            && RecordSound(p, v, AtRead(u, c, fate)) && v.size == u.size && v.facts == u.facts && v.intent == u.intent
            && (u.status == Uploading || u.status == Uploaded)
  {
    ReconcileKeeps(p, u, c, fate);
    hide Reconciled, RecordSound, AtRead;
  }

  lemma CancelKeeps(c: Cloud, size: nat, arrives: bool, answered: bool)
    requires WellFormed(c, size)
    ensures var (d, cancelled) := Cancel(c, arrives, answered);
            && MovesOn(c, d, size) && d == c.(phase := d.phase)
            && (cancelled.Ok? ==> d.phase != Open)
  {
  }

  lemma DeleteKeeps(c: Cloud, size: nat, generation: nat, arrives: bool, answered: bool)
    requires WellFormed(c, size) && generation in c.written
    ensures var (d, deleted) := DeleteTemporary(c, generation, arrives, answered);
            && MovesOn(c, d, size) && d == c.(stored := d.stored)
            && (deleted.Ok? ==> d.stored == None)
  {
  }

  // A removal that succeeds leaves no object, and no session that could still make one.
  lemma RemoveKeeps(u: Upload, c: Cloud, cancels: bool, fate: RemoveFate)
    requires WellFormed(c, u.size) && (u.generation.Some? ==> u.generation.value in c.written)
    ensures var d := Removed(u, c, cancels, fate).0;
            MovesOn(c, d, u.size) && d.held == c.held && d.written == c.written && d.wire == c.wire
    ensures var (d, clean) := Removed(u, c, cancels, fate);
            clean && (cancels || c.phase != Open) ==> d.stored == None && d.phase != Open
  {
    hide WellFormed, MovesOn, Cancel, DeleteTemporary;
    CancelKeeps(c, u.size, fate.cancel.arrives, fate.cancel.answered);
    var c1 := if cancels then Cancel(c, fate.cancel.arrives, fate.cancel.answered).0 else c;
    MovesNowhere(c, u.size);
    var g := if u.generation.Some? then u.generation
             else if c1.stored.Some? then Some(c1.stored.value.generation)
             else None;
    if g.Some? {
      StoredIsWritten(c, u.size);
      MovedIsWellFormed(c, c1, u.size);
      DeleteKeeps(c1, u.size, g.value, fate.delete.arrives, fate.delete.answered);
      MovesFurther(c, c1, DeleteTemporary(c1, g.value, fate.delete.arrives, fate.delete.answered).0, u.size);
    }
  }

  lemma StoredIsWritten(c: Cloud, size: nat)
    requires WellFormed(c, size)
    ensures c.stored.Some? ==> c.stored.value.generation in c.written
  {
  }

  lemma MovedIsWellFormed(c: Cloud, d: Cloud, size: nat)
    requires MovesOn(c, d, size)
    ensures WellFormed(d, size)
  {
    hide WellFormed;
  }

  lemma MovesNowhere(c: Cloud, size: nat)
    requires WellFormed(c, size)
    ensures MovesOn(c, c, size)
  {
    hide WellFormed;
  }

  lemma MovesFurther(c: Cloud, d: Cloud, e: Cloud, size: nat)
    requires MovesOn(c, d, size) && MovesOn(d, e, size)
    ensures MovesOn(c, e, size)
  {
    hide WellFormed;
  }

  // No late request meets a removal between its requests: the session is not open by then.
  lemma RemovalMeetsNothing(p: Platform, u: Upload, c: Cloud, fate: RequestFate, late: seq<Late>)
    requires RecordSound(p, u, c)
    ensures var (d, cancelled) := if u.session then Cancel(c, fate.arrives, fate.answered) else (c, Ok(()));
            cancelled.Ok? ==> Arrivals(d, u.size, late) == d
  {
    var d := if u.session then Cancel(c, fate.arrives, fate.answered).0 else c;
    ArrivalsKeep(d, u.size, late);
  }

  // Nor the check of a record that has the whole file.
  lemma WholeFileMeetsNothing(p: Platform, u: Upload, c: Cloud, late: seq<Late>)
    requires RecordSound(p, u, c) && u.status == Uploaded
    ensures Arrivals(c, u.size, late) == c
  {
    ArrivalsKeep(c, u.size, late);
  }

  // The object may be gone; what was held and written is not forgotten.
  lemma AbandonedKeeps(p: Platform, u: Upload, c: Cloud, d: Cloud, now: int)
    requires RecordSound(p, u, c) && u.status != Finalized
    requires MovesOn(c, d, u.size) && d.held == c.held && d.written == c.written
    ensures var v := u.(cleanedAt := Some(now), cleanupFailed := false, session := false, status := Abandoned);
            d.stored == None && d.phase != Open ==> Keeps(p, u, c, v, d)
    ensures Keeps(p, u, c, u.(cleanupFailed := true, status := Abandoned), d)
  {
    hide WellFormed;
  }

  lemma AbandonKeeps(p: Platform, u: Upload, c: Cloud, caller: Caller, now: int, fate: RemoveFate, commits: bool)
    requires RecordSound(p, u, c)
    ensures var e := AbandonEffect(u, c, caller, now, fate, commits); Keeps(p, u, c, e.upload, e.cloud)
  {
    SoundSize(p, u, c);
    RemoveKeeps(u, c, u.session, fate);
    var d := Removed(u, c, u.session, fate).0;
    NothingKeeps(p, u, c);
    ProviderKeeps(p, u, c, d);
    if u.status != Finalized { AbandonedKeeps(p, u, c, d, now); }
    hide Removed, Denied, WellFormed, RecordSound, Advances;
  }

  lemma CleanupKeeps(p: Platform, u: Upload, c: Cloud, before: int, fate: RemoveFate, commits: bool)
    requires RecordSound(p, u, c)
    ensures var e := CleanupTurn(u, c, before, fate, commits); Keeps(p, u, c, e.0, e.1)
  {
    hide Removed, WellFormed;
    RemoveKeeps(u, c, u.status != Finalized && u.session, fate);
  }

  lemma BindKeeps(p: Platform, u: Upload, c: Cloud, b: Binding, size: nat, sha: string, now: int)
    requires RecordSound(p, u, c)
    ensures var v := Bind(u, b, size, sha, now); v.Some? ==> Keeps(p, u, c, v.value, c) && v.value.binding == Some(b)
  {
    hide WellFormed;
  }

  // ---- every step ----

  // Consumers rest on the binding and on the generations written, and neither is ever taken back.
  lemma ConsumersKeep(w: World, v: World)
    requires Advances(w.upload, w.cloud, v.upload, v.cloud)
    requires forall id :: id in w.consumers ==> ConsumerSound(w.upload, w.cloud, w.consumers[id])
    ensures forall id :: id in w.consumers ==> ConsumerSound(v.upload, v.cloud, w.consumers[id])
  {
  }

  ghost predicate StepKeeps(p: Platform, w: World, v: World) {
    Sound(p, v) && Advances(w.upload, w.cloud, v.upload, v.cloud)
  }

  lemma ApiStepKeeps(p: Platform, w: World, e: Event)
    requires Sound(p, w) && Plausible(e)
    requires e.Get? || e.Append? || e.Complete? || e.Abandon? || e.Cleanup?
    ensures StepKeeps(p, w, Step(p, w, e))
  {
    hide GetEffect, AppendEffect, CompleteEffect, AbandonEffect, CleanupTurn, RecordSound, Advances, ConsumerSound;
    match e {
      case Get(caller, now, fate, commits) => GetKeeps(p, w.upload, w.cloud, caller, now, fate, commits);
      case Append(caller, now, offset, bytes, fate, commits) =>
        AppendKeeps(p, w.upload, w.cloud, caller, now, offset, bytes, fate, commits);
      case Complete(caller, now, fate, commits) => CompleteKeeps(p, w.upload, w.cloud, caller, now, fate, commits);
      case Abandon(caller, now, fate, commits) => AbandonKeeps(p, w.upload, w.cloud, caller, now, fate, commits);
      case Cleanup(before, fate, commits) => CleanupKeeps(p, w.upload, w.cloud, before, fate, commits);
    }
    ConsumersKeep(w, Step(p, w, e));
  }

  lemma ProviderStepKeeps(p: Platform, w: World, e: Event)
    requires Sound(p, w)
    requires e.Arrive? || e.Forget? || e.Lose?
    ensures StepKeeps(p, w, Step(p, w, e))
  {
    hide Receive, ConsumerSound;
    if e.Arrive? && e.put in w.cloud.wire { ReceiveKeeps(w.cloud, w.upload.size, e.put, e.kept); }
    ConsumersKeep(w, Step(p, w, e));
  }

  lemma SameRecordKeeps(p: Platform, w: World, v: World)
    requires Sound(p, w) && v.upload == w.upload && v.cloud == w.cloud
    requires forall id :: id in v.consumers ==>
               (id in w.consumers && v.consumers[id] == w.consumers[id])
                 || ConsumerSound(w.upload, w.cloud, v.consumers[id])
    ensures StepKeeps(p, w, v)
  {
    hide WellFormed, ConsumerSound;
  }

  lemma PrepareStepKeeps(p: Platform, w: World, id: nat, caller: Caller, now: int, retained: bool,
      read: Option<StorageError>)
    requires Sound(p, w)
    ensures StepKeeps(p, w, PrepareStep(p, w, id, caller, now, retained, read))
  {
    PreparedIsSound(p, w.upload, w.cloud, caller, now, retained, read);
    hide PrepareResult, Sound;
    SameRecordKeeps(p, w, PrepareStep(p, w, id, caller, now, retained, read));
  }

  lemma PreparedIsSound(p: Platform, u: Upload, c: Cloud, caller: Caller, now: int, retained: bool,
      read: Option<StorageError>)
    requires RecordSound(p, u, c)
    ensures match PrepareResult(p, u, c, caller, now, retained, read)
            case Ok(Fresh(o)) => ConsumerSound(u, c, Holding(o))
            case Ok(AlreadyBound(b)) => ConsumerSound(u, c, Recovering(b))
            case Err(_) => true
  {
    hide DeniedFinal;
  }

  lemma FinalizeStepKeeps(p: Platform, w: World, id: nat, bound: Option<Binding>, claimed: Binding, now: int)
    requires Sound(p, w)
    ensures StepKeeps(p, w, FinalizeStep(p, w, id, bound, claimed, now))
  {
    NothingKeeps(p, w.upload, w.cloud);
    if id in w.consumers && w.consumers[id].Holding? && bound.Some? {
      var o := w.consumers[id].stored;
      BindKeeps(p, w.upload, w.cloud, bound.value, |o.bytes|, p.sha(o.bytes), now);
      hide Bind, RecordSound, Advances, ConsumerSound;
      var u := Bind(w.upload, bound.value, |o.bytes|, p.sha(o.bytes), now);
      if u.Some? {
        ConsumersKeep(w, w.(upload := u.value));
        ClaimIsSound(u.value, w.cloud, claimed, o.generation);
      }
    } else {
      hide Bind, RecordSound, Advances, ConsumerSound;
      if id in w.consumers && w.consumers[id].Holding? {
        ClaimIsSound(w.upload, w.cloud, claimed, w.consumers[id].stored.generation);
      }
    }
  }

  lemma ClaimIsSound(u: Upload, c: Cloud, claimed: Binding, generation: nat)
    requires generation in c.written
    ensures ConsumerSound(u, c, Claiming(claimed, generation))
  {
  }

  lemma ConfirmStepKeeps(p: Platform, w: World, id: nat)
    requires Sound(p, w)
    ensures StepKeeps(p, w, Step(p, w, Confirm(id)))
  {
    NothingKeeps(p, w.upload, w.cloud);
    hide RecordSound, Advances;
  }

  // Only the object and what the record notes of its cleanup change.
  lemma FinishedKeeps(p: Platform, u: Upload, c: Cloud, generation: nat, delete: RequestFate, now: int)
    requires RecordSound(p, u, c) && u.status == Finalized && generation in c.written
    ensures var (d, deleted) := DeleteTemporary(c, generation, delete.arrives, delete.answered);
            && Keeps(p, u, c, u, d)
            && (deleted.Ok? ==> Keeps(p, u, c, u.(cleanedAt := Some(now), cleanupFailed := false), d))
            && Keeps(p, u, c, u.(cleanupFailed := true), d)
  {
  }

  lemma FinishStepKeeps(p: Platform, w: World, id: nat, now: int, delete: RequestFate, commits: bool,
      commitsFailure: bool)
    requires Sound(p, w)
    ensures StepKeeps(p, w, FinishStep(w, id, now, delete, commits, commitsFailure))
  {
    NothingKeeps(p, w.upload, w.cloud);
    if id in w.consumers && w.consumers[id].Confirmed? {
      var v := FinishStep(w, id, now, delete, commits, commitsFailure);
      assert ConsumerSound(w.upload, w.cloud, w.consumers[id]);
      FinishedKeeps(p, w.upload, w.cloud, w.consumers[id].generation, delete, now);
      hide RecordSound, Advances, DeleteTemporary;
      assert Keeps(p, w.upload, w.cloud, v.upload, v.cloud);
      ConsumersKeep(w, v);
      assert v.upload.binding == w.upload.binding;
    } else {
      hide RecordSound, Advances;
    }
  }

  lemma ConsumeStepKeeps(p: Platform, w: World, e: Event)
    requires Sound(p, w)
    requires e.Prepare? || e.Finalize? || e.Confirm? || e.Finish?
    ensures StepKeeps(p, w, Step(p, w, e))
  {
    hide Sound, StepKeeps, PrepareStep, FinalizeStep, FinishStep;
    match e
    case Prepare(id, caller, now, retained, read) => PrepareStepKeeps(p, w, id, caller, now, retained, read);
    case Finalize(id, bound, claimed, now) => FinalizeStepKeeps(p, w, id, bound, claimed, now);
    case Confirm(id) => ConfirmStepKeeps(p, w, id);
    case Finish(id, now, delete, commits, commitsFailure) =>
      FinishStepKeeps(p, w, id, now, delete, commits, commitsFailure);
  }

  lemma StepIsSound(p: Platform, w: World, e: Event)
    requires Sound(p, w) && Plausible(e)
    ensures StepKeeps(p, w, Step(p, w, e))
  {
    hide Step, Sound, Advances;
    if e.Get? || e.Append? || e.Complete? || e.Abandon? || e.Cleanup? {
      ApiStepKeeps(p, w, e);
    } else if e.Arrive? || e.Forget? || e.Lose? {
      ProviderStepKeeps(p, w, e);
    } else {
      ConsumeStepKeeps(p, w, e);
    }
  }

  // ---- the client's bytes ----

  // A slice that arrives at a session holding a beginning of the file extends that beginning.
  lemma ReceiveIsFaithful(c: Cloud, file: Bytes, put: Put, kept: nat)
    requires c.held <= file && Slice(file, put)
    ensures Receive(c, |file|, put, kept).held <= file && Receive(c, |file|, put, kept).wire == c.wire
  {
    var news := News(c.held, put);
    if news != [] {
      assert news == file[|c.held|..put.offset + |put.bytes|];
      assert forall n :: 0 <= n <= |news| ==> c.held + news[..n] == file[..|c.held| + n];
    }
  }

  lemma {:induction false} ArrivalsAreFaithful(c: Cloud, file: Bytes, late: seq<Late>)
    requires Carries(file, c)
    ensures Carries(file, Arrivals(c, |file|, late))
    decreases |late|
  {
    hide Receive, Slice;
    if late != [] {
      if late[0].put in c.wire { ReceiveIsFaithful(c, file, late[0].put, late[0].kept); }
      ArrivalsAreFaithful(Arrived(c, |file|, late[0]), file, late[1..]);
    }
  }

  lemma ChunkIsFaithful(c: Cloud, file: Bytes, put: Put, fate: ChunkFate)
    requires Carries(file, c) && Slice(file, put)
    ensures Carries(file, UploadChunk(c, |file|, put, fate).0)
  {
    hide Receive, GetStatus, ReadProgress, Answer, Slice, Arrivals;
    if fate.arrival.Now? { ReceiveIsFaithful(c, file, put, fate.arrival.kept); }
    ArrivalsAreFaithful(Sent(c, |file|, put, fate.arrival), file, fate.late);
  }

  lemma AppendIsFaithful(p: Platform, u: Upload, c: Cloud, file: Bytes, caller: Caller, now: int, offset: nat,
      bytes: Bytes, fate: AppendFate, commits: bool)
    requires Carries(file, c) && |file| == u.size && Slice(file, Put(offset, bytes))
    ensures Carries(file, AppendEffect(p, u, c, caller, now, offset, bytes, fate, commits).cloud)
  {
    ChunkIsFaithful(c, file, Put(offset, bytes), fate.chunk);
    var sent := UploadChunk(c, u.size, Put(offset, bytes), fate.chunk).0;
    ArrivalsAreFaithful(sent, file, fate.late);
    hide UploadChunk, Arrivals, Carries, Exact, Denied, Recovered, Progressed;
  }

  // Reading, checking and asking for a status let late requests in, and nothing else.
  lemma ReadsLetIn(p: Platform, w: World, e: Event)
    requires e.Get? || e.Complete?
    ensures Step(p, w, e).upload.size == w.upload.size
    ensures var c := Step(p, w, e).cloud;
            c == w.cloud || c == AtRead(w.upload, w.cloud, if e.Get? then e.readFate else e.completeFate.reconcile)
  {
    hide Exact, Denied, AtRead, Arrivals, GetStatus;
  }

  // The others leave what the session holds and what is under way as they are.
  lemma HeldBytesStay(p: Platform, w: World, e: Event)
    requires !e.Append? && !e.Arrive? && !e.Get? && !e.Complete?
    ensures Step(p, w, e).cloud.held == w.cloud.held && Step(p, w, e).cloud.wire == w.cloud.wire
  {
    hide Exact, Bind, Denied, Recovered, DeniedFinal;
  }

  lemma StepIsFaithful(p: Platform, file: Bytes, w: World, e: Event)
    requires Sound(p, w) && Faithful(file, w) && Plausible(e) && Honest(file, e)
    ensures Faithful(file, Step(p, w, e))
  {
    hide AppendEffect, Carries, Sound, Arrivals, Slice;
    StepIsSound(p, w, e);
    match e {
      case Append(caller, now, offset, bytes, fate, commits) =>
        AppendIsFaithful(p, w.upload, w.cloud, file, caller, now, offset, bytes, fate, commits);
      case Arrive(put, kept) =>
        ArrivalsAreFaithful(w.cloud, file, [Late(put, kept)]);
        OneArrival(w.cloud, w.upload.size, Late(put, kept));
      case Get(_, _, fate, _) =>
        hide Step;
        ReadsLetIn(p, w, e);
        ArrivalsAreFaithful(w.cloud, file, fate.late);
      case Complete(_, _, fate, _) =>
        hide Step;
        ReadsLetIn(p, w, e);
        ArrivalsAreFaithful(w.cloud, file, fate.reconcile.late);
      case _ =>
        hide Step;
        HeldBytesStay(p, w, e);
        SameCarries(file, w.cloud, Step(p, w, e).cloud);
    }
  }

  lemma OneArrival(c: Cloud, size: nat, late: Late)
    ensures Arrivals(c, size, [late]) == Arrived(c, size, late)
  {
    hide Arrived;
    assert [late][1..] == [];
  }

  lemma SameCarries(file: Bytes, c: Cloud, d: Cloud)
    requires Carries(file, c) && d.held == c.held && d.wire == c.wire
    ensures Carries(file, d)
  {
  }

  // ---- every run ----

  // Where a status may be after any number of steps.
  predicate MayReach(a: Status, b: Status) {
    match a
    case Uploading => true
    case Uploaded => b != Uploading
    case Ready => b == Ready || b == Abandoned || b == Finalized
    case Rejected => b == Rejected || b == Abandoned
    case Abandoned => b == Abandoned
    case Finalized => b == Finalized
  }

  // From any sound world, every run stays sound; no status is taken back, no binding and no
  // completed cleanup is undone, and every generation written stays what it was.
  lemma {:induction false} RunsAreSound(p: Platform, w: World, events: seq<Event>)
    requires Sound(p, w) && forall i :: 0 <= i < |events| ==> Plausible(events[i])
    ensures var v := Run(p, w, events);
            && Sound(p, v)
            && MayReach(w.upload.status, v.upload.status)
            && (w.upload.binding.Some? ==> v.upload.binding == w.upload.binding)
            && (w.upload.cleanedAt.Some? ==> v.upload.cleanedAt.Some?)
            && v.upload.size == w.upload.size
            && v.upload.facts == w.upload.facts && v.upload.intent == w.upload.intent
            && w.cloud.held <= v.cloud.held
            && (forall g :: g in w.cloud.written ==> g in v.cloud.written && v.cloud.written[g] == w.cloud.written[g])
  {
    hide Sound, Step, Plausible;
    if events != [] {
      var before := events[..|events| - 1];
      assert forall i :: 0 <= i < |before| ==> before[i] == events[i];
      RunsAreSound(p, w, before);
      StepIsSound(p, Run(p, w, before), events[|events| - 1]);
    }
  }

  // A fresh upload, as `startPendingArtifactUpload` records it.
  ghost predicate Started(file: Bytes, w: World) {
    && 0 < |file| <= MAX_SAFE
    && w.cloud == EMPTY_CLOUD && w.consumers == map[]
    && w.upload.size == |file| && w.upload.session && w.upload.status == Uploading && w.upload.confirmedOffset == 0
    && w.upload.completedSize == None && w.upload.completedSha == None && w.upload.generation == None
    && w.upload.binding == None && w.upload.cleanedAt == None
  }

  lemma StartedIsSound(p: Platform, file: Bytes, w: World)
    requires Started(file, w)
    ensures Sound(p, w)
  {
  }

  lemma {:induction false} HonestRuns(p: Platform, file: Bytes, w: World, events: seq<Event>)
    requires Started(file, w)
    requires forall i :: 0 <= i < |events| ==> Plausible(events[i]) && Honest(file, events[i])
    ensures Sound(p, Run(p, w, events)) && Faithful(file, Run(p, w, events))
  {
    hide Step, Plausible, Honest;
    if events != [] {
      hide Sound, Faithful;
      var before := events[..|events| - 1];
      assert forall i :: 0 <= i < |before| ==> before[i] == events[i];
      HonestRuns(p, file, w, before);
      StepIsSound(p, Run(p, w, before), events[|events| - 1]);
      StepIsFaithful(p, file, Run(p, w, before), events[|events| - 1]);
    }
  }

  // The main result. In every run of an honest client, whatever is lost, late or rolled back: what
  // the provider holds is a beginning of the file that reaches at least the confirmed offset; a
  // ready or finalized record names a generation that was the whole file, with its size and hash;
  // and whoever holds bytes for a final action holds the file.
  lemma UploadedFilesAreExact(p: Platform, file: Bytes, w: World, events: seq<Event>)
    requires Started(file, w)
    requires forall i :: 0 <= i < |events| ==> Plausible(events[i]) && Honest(file, events[i])
    ensures var v := Run(p, w, events);
            && v.cloud.held <= file
            && 0 <= v.upload.confirmedOffset <= |v.cloud.held|
            && (v.cloud.stored.Some? ==> v.cloud.stored.value.bytes == file)
            && (v.upload.status == Ready || v.upload.status == Finalized ==>
                  && v.upload.completedSize == Some(|file|)
                  && v.upload.completedSha == Some(p.sha(file))
                  && v.upload.generation.Some? && v.upload.generation.value in v.cloud.written
                  && v.cloud.written[v.upload.generation.value] == file
                  && p.acceptable(v.upload.facts, v.upload.intent, file)
                  && v.upload.confirmedOffset == |file| && !v.upload.session)
            && (forall id :: id in v.consumers && v.consumers[id].Holding? ==> v.consumers[id].stored.bytes == file)
  {
    hide Run, Plausible, Honest;
    HonestRuns(p, file, w, events);
    StartedIsSound(p, file, w);
    RunsAreSound(p, w, events);
    var v := Run(p, w, events);
    assert forall g :: g in v.cloud.written ==> |v.cloud.written[g]| == |file| && v.cloud.written[g] == file;
    forall id | id in v.consumers && v.consumers[id].Holding? ensures v.consumers[id].stored.bytes == file {
      assert ConsumerSound(v.upload, v.cloud, v.consumers[id]);
    }
  }

  // No chunk leaves a gap: one sent from the confirmed offset and kept whole carries what is held to
  // its own end, or changes nothing that is already held beyond it.
  lemma ChunksLeaveNoGap(p: Platform, file: Bytes, w: World, events: seq<Event>, offset: nat, bytes: Bytes, kept: nat)
    requires Started(file, w)
    requires forall i :: 0 <= i < |events| ==> Plausible(events[i]) && Honest(file, events[i])
    requires var v := Run(p, w, events); v.cloud.phase == Open && v.upload.confirmedOffset == offset
    requires offset + |bytes| <= |file| && bytes == file[offset..offset + |bytes|] && kept >= |bytes|
    ensures var c := Run(p, w, events).cloud;
            var end := offset + |bytes|;
            && |c.held| <= |file|
            && Receive(c, |file|, Put(offset, bytes), kept).held == file[..if end > |c.held| then end else |c.held|]
  {
    hide Run, Plausible, Honest;
    HonestRuns(p, file, w, events);
    var c := Run(p, w, events).cloud;
    ReceiveIsFaithful(c, file, Put(offset, bytes), kept);
    assert Receive(c, |file|, Put(offset, bytes), kept).held == c.held + News(c.held, Put(offset, bytes));
  }

  // At most one binding: all consumers that return, or recover, name the one binding on record, and
  // it stays on record however the run goes on.
  lemma OneBinding(p: Platform, w: World, events: seq<Event>, more: seq<Event>, i: nat, j: nat)
    requires Sound(p, w) && forall k :: 0 <= k < |events| ==> Plausible(events[k])
    requires forall k :: 0 <= k < |more| ==> Plausible(more[k])
    requires i in Run(p, w, events).consumers && j in Run(p, w, events).consumers
    requires var v := Run(p, w, events);
             && (v.consumers[i].Returned? || v.consumers[i].Confirmed?)
             && (v.consumers[j].Returned? || v.consumers[j].Confirmed? || v.consumers[j].Recovering?)
    ensures var v := Run(p, w, events);
            var b := v.consumers[i].claimed;
            && v.upload.status == Finalized && v.upload.binding == Some(b)
            && b == (if v.consumers[j].Recovering? then v.consumers[j].binding else v.consumers[j].claimed)
            && Run(p, v, more).upload.status == Finalized && Run(p, v, more).upload.binding == Some(b)
  {
    hide Run, Plausible;
    RunsAreSound(p, w, events);
    var v := Run(p, w, events);
    RunsAreSound(p, v, more);
    assert ConsumerSound(v.upload, v.cloud, v.consumers[i]);
    assert ConsumerSound(v.upload, v.cloud, v.consumers[j]);
  }

  predicate Settled(w: World, id: nat) {
    id in w.consumers && (w.consumers[id].Confirmed? || w.consumers[id].Returned?)
  }

  lemma SettlesByConfirm(p: Platform, w: World, e: Event, id: nat)
    requires Settled(Step(p, w, e), id)
    ensures Settled(w, id) || (e == Confirm(id) && id in w.consumers && w.consumers[id].Claiming?
                               && Confirms(w.upload, w.consumers[id].claimed))
    ensures id in w.consumers && !w.consumers[id].Holding? && !w.consumers[id].Recovering?
            && Step(p, w, e).consumers[id].claimed == w.consumers[id].claimed
  {
    hide Bind, PrepareResult, GetEffect, AppendEffect, CompleteEffect, AbandonEffect, CleanupTurn, Arrived;
  }

  // Whoever is confirmed or has returned at the end of a run passed, in it, the check that found the record finalized
  // with exactly what it claimed.
  lemma {:induction false} ReturnsWereConfirmed(p: Platform, w: World, events: seq<Event>, id: nat)
    requires !Settled(w, id) && Settled(Run(p, w, events), id)
    ensures exists i :: 0 <= i < |events| && events[i] == Confirm(id)
              && var v := Run(p, w, events[..i]);
                 && id in v.consumers && v.consumers[id].Claiming?
                 && v.consumers[id].claimed == Run(p, w, events).consumers[id].claimed
                 && v.upload.status == Finalized && v.upload.binding == Some(v.consumers[id].claimed)
  {
    hide Step, Settled;
    if events != [] {
      var n := |events| - 1;
      var v := Run(p, w, events[..n]);
      SettlesByConfirm(p, v, events[n], id);
      if Settled(v, id) {
        ReturnsWereConfirmed(p, w, events[..n], id);
        var i :| 0 <= i < n && events[..n][i] == Confirm(id)
          && var u := Run(p, w, events[..n][..i]);
             && id in u.consumers && u.consumers[id].Claiming?
             && u.consumers[id].claimed == v.consumers[id].claimed
             && u.upload.status == Finalized && u.upload.binding == Some(u.consumers[id].claimed);
        assert events[..n][..i] == events[..i];
      }
    }
  }

  lemma FinalizedCallsRecover(p: Platform, w: World, id: nat, caller: Caller, now: int, retained: bool,
      read: Option<StorageError>)
    requires Sound(p, w) && w.upload.status == Finalized && id !in w.consumers
    ensures var v := Step(p, w, Prepare(id, caller, now, retained, read));
            id in v.consumers <==> DeniedFinal(w.upload, caller) == None && retained
    ensures var v := Step(p, w, Prepare(id, caller, now, retained, read));
            id in v.consumers ==> v.consumers[id] == Recovering(w.upload.binding.value)
  {
  }

  // Once a call has returned, every later call that is permitted and finds the artifact recovers with the same binding.
  lemma LaterCallsRecover(p: Platform, w: World, events: seq<Event>, more: seq<Event>, i: nat,
                          id: nat, caller: Caller, now: int, retained: bool, read: Option<StorageError>)
    requires Sound(p, w) && forall k :: 0 <= k < |events| ==> Plausible(events[k])
    requires forall k :: 0 <= k < |more| ==> Plausible(more[k])
    requires i in Run(p, w, events).consumers && Run(p, w, events).consumers[i].Returned?
    requires id !in Run(p, Run(p, w, events), more).consumers
    ensures var v := Run(p, Run(p, w, events), more);
            var after := Step(p, v, Prepare(id, caller, now, retained, read));
            && (id in after.consumers <==> DeniedFinal(v.upload, caller) == None && retained)
            && (id in after.consumers ==> after.consumers[id] == Recovering(Run(p, w, events).consumers[i].claimed))
  {
    hide Run, Plausible, Step;
    OneBinding(p, w, events, more, i, i);
    RunsAreSound(p, w, events);
    RunsAreSound(p, Run(p, w, events), more);
    FinalizedCallsRecover(p, Run(p, Run(p, w, events), more), id, caller, now, retained, read);
  }

  // A record whose cleanup completed is skipped by every later cleanup.
  lemma CleanedOnce(p: Platform, w: World, events: seq<Event>, before: int, fate: RemoveFate)
    requires Sound(p, w) && w.upload.cleanedAt.Some? && forall i :: 0 <= i < |events| ==> Plausible(events[i])
    ensures var v := Run(p, w, events); CleanupEffect(v.upload, v.cloud, before, fate) == (v.upload, v.cloud, Skipped)
  {
    hide Run, Plausible;
    RunsAreSound(p, w, events);
  }

  // A cleaned upload leaves no object behind and no session that could still make one, however the run goes on.
  lemma CleanedLeavesNothing(p: Platform, w: World, events: seq<Event>, more: seq<Event>)
    requires Sound(p, w) && Run(p, w, events).upload.cleanedAt.Some?
    requires forall i :: 0 <= i < |events| ==> Plausible(events[i])
    requires forall i :: 0 <= i < |more| ==> Plausible(more[i])
    ensures var v := Run(p, Run(p, w, events), more);
            && v.upload.cleanedAt.Some? && !v.upload.session
            && v.cloud.stored == None && v.cloud.phase != Open
    ensures forall put, kept :: Arrived(Run(p, Run(p, w, events), more).cloud, w.upload.size, Late(put, kept))
                                == Run(p, Run(p, w, events), more).cloud
  {
    hide Run, Plausible;
    RunsAreSound(p, w, events);
    RunsAreSound(p, Run(p, w, events), more);
  }
}

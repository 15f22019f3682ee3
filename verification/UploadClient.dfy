// The browser's half: the loop that carries a selected file to a ready upload, against a server that
// may answer anything.
module UploadClient {
  import opened Wrappers
  import opened ResumableStore
  import opened UploadServer
  import opened UploadRuns
  import opened UploadForm
  import UploadIntent

  // A number as it arrives in a JSON answer.
  datatype Offset = NotANumber | Number(value: real)

  predicate SafeInteger(x: Offset) {
    x.Number? && x.value == x.value.Floor as real && -MAX_SAFE <= x.value.Floor <= MAX_SAFE
  }

  datatype Report = Report(confirmedOffset: Offset, state: SafeState, uploadId: string)

  // An answer of the API, an error answer with its code, or a request that broke.
  datatype Reply = Reported(report: Report) | Refused(code: string) | Broken

  datatype Request =
    | Start(size: nat)
    | Status(id: string)
    | Chunk(id: string, offset: nat, bytes: Bytes)
    | Finish(id: string)
    | Delete(id: string)

  datatype ClientError = Api(code: string) | Network | InvalidProgress | Paused | InvalidIntent

  function ErrorOf(reply: Reply): ClientError
    requires !reply.Reported?
  {
    if reply.Refused? then Api(reply.code) else Network
  }

  predicate Retryable(e: ClientError) {
    !e.Api? || e.code == "provider_unavailable" || e.code == "state_conflict"
  }

  class CachedUpload {
    const file: ClientFile
    const intentKey: string
    var progress: Report
    var submitted: bool

    constructor (file: ClientFile, intentKey: string, progress: Report)
      ensures this.file == file && this.intentKey == intentKey && this.progress == progress && !submitted
    {
      this.file, this.intentKey, this.progress, this.submitted := file, intentKey, progress, false;
    }
  }

  // An answer after which it is worth asking again: none came, or it says so.
  predicate AsksAgain(reply: Reply) {
    reply.Broken? || (reply.Refused? && reply.code in {"provider_unavailable", "state_conflict"})
  }

  // An error code that says the upload cannot go on.
  predicate GivesUp(e: ClientError) {
    e.Api? && e.code != "provider_unavailable" && e.code != "state_conflict"
  }

  lemma AgainExactly(reply: Reply)
    requires !reply.Reported?
    ensures Retryable(ErrorOf(reply)) <==> AsksAgain(reply)
    ensures reply.Refused? ==> ErrorOf(reply) == Api(reply.code)
    ensures reply.Broken? ==> ErrorOf(reply) == Network
  {
  }

  lemma WholePosition(x: Offset)
    ensures SafeInteger(x) ==> x == Number(x.value.Floor as real) && x.value.Floor <= MAX_SAFE
  {
  }

  lemma GivesUpExactly(e: ClientError)
    ensures Retryable(e) <==> !GivesUp(e)
  {
  }

  // The position of the chunk that the k-th request sends or asks about.
  function Position(sent: seq<Request>, k: nat): nat
    requires k < |sent|
  {
    if sent[k].Chunk? then sent[k].offset else if k > 0 && sent[k - 1].Chunk? then sent[k - 1].offset else 0
  }

  // A turn that did not simply move on: a status had to be asked for, or the report came back no further.
  function Setbacks(sent: seq<Request>, answers: nat -> Reply, first: nat, end: nat): nat
    requires first <= end <= |sent|
    decreases end
  {
    if first == end then 0
    else
      Setbacks(sent, answers, first, end - 1)
      + (if sent[end - 1].Status? then 1 else 0)
      + (if answers(end - 1).Reported? && answers(end - 1).report.confirmedOffset.Number?
            && answers(end - 1).report.confirmedOffset.value <= Position(sent, end - 1) as real then 1 else 0)
  }

  lemma {:induction false} SetbacksSoFar(sent: seq<Request>, more: seq<Request>, answers: nat -> Reply, first: nat,
      end: nat)
    requires first <= end <= |sent| && sent <= more
    ensures Setbacks(more, answers, first, end) == Setbacks(sent, answers, first, end)
    decreases end
  {
    if first < end { SetbacksSoFar(sent, more, answers, first, end - 1); }
  }

  // What the requests of sending a file are: chunks of the largest size, each from the position last reported, and
  // after one that is worth asking again about, up to two setbacks, the status.
  predicate RightRequest(file: Bytes, id: string, start: Offset, answers: nat -> Reply, sent: seq<Request>, first: nat,
      k: nat)
    requires first <= k < |sent|
  {
    if sent[k].Chunk? then
      && sent[k].id == id && sent[k].offset < |file|
      && |sent[k].bytes| == (if |file| - sent[k].offset > 4194304 then 4194304 else |file| - sent[k].offset)
      && Number(sent[k].offset as real)
         == (if k == first then start
             else if answers(k - 1).Reported? then answers(k - 1).report.confirmedOffset else NotANumber)
    else
      && sent[k] == Status(id) && k > first && sent[k - 1].Chunk? && AsksAgain(answers(k - 1))
      && Setbacks(sent, answers, first, k - 1) < 2
  }

  ghost predicate SendsInTurn(file: Bytes, id: string, start: Offset, answers: nat -> Reply, sent: seq<Request>,
      first: nat)
  {
    forall k :: first <= k < |sent| ==> RightRequest(file, id, start, answers, sent, first, k)
  }

  lemma SendsMore(file: Bytes, id: string, start: Offset, answers: nat -> Reply, sent: seq<Request>, first: nat,
      next: Request)
    requires first <= |sent| && SendsInTurn(file, id, start, answers, sent, first)
    requires RightRequest(file, id, start, answers, sent + [next], first, |sent|)
    ensures SendsInTurn(file, id, start, answers, sent + [next], first)
  {
    var more := sent + [next];
    forall k | first <= k < |more| ensures RightRequest(file, id, start, answers, more, first, k) {
      if k < |sent| {
        assert RightRequest(file, id, start, answers, sent, first, k);
        assert more[k] == sent[k];
        if k > first {
          assert more[k - 1] == sent[k - 1];
          SetbacksSoFar(sent, more, answers, first, k - 1);
        }
      }
    }
  }

  lemma ChunkIsRight(file: Bytes, id: string, start: Offset, answers: nat -> Reply, sent: seq<Request>, first: nat,
      offset: nat)
    requires first <= |sent| && offset < |file|
    requires Number(offset as real)
          == (if |sent| == first then start
              else if answers(|sent| - 1).Reported? then answers(|sent| - 1).report.confirmedOffset else NotANumber)
    ensures RightRequest(file, id, start, answers, sent + [NextChunk(id, file, offset)], first, |sent|)
  {
  }

  lemma StatusIsRight(file: Bytes, id: string, start: Offset, answers: nat -> Reply, sent: seq<Request>, first: nat)
    requires first < |sent| && sent[|sent| - 1].Chunk? && AsksAgain(answers(|sent| - 1))
    requires Setbacks(sent, answers, first, |sent| - 1) < 2
    ensures RightRequest(file, id, start, answers, sent + [Status(id)], first, |sent|)
  {
    SetbacksSoFar(sent, sent + [Status(id)], answers, first, |sent| - 1);
  }

  // The setbacks after one more request.
  lemma OneMoreRequest(sent: seq<Request>, answers: nat -> Reply, first: nat, next: Request)
    requires first <= |sent|
    ensures var more := sent + [next];
            Setbacks(more, answers, first, |more|)
            == Setbacks(sent, answers, first, |sent|) + (if next.Status? then 1 else 0)
               + (if answers(|sent|).Reported? && answers(|sent|).report.confirmedOffset.Number?
                     && answers(|sent|).report.confirmedOffset.value <= Position(more, |sent|) as real then 1 else 0)
  {
    SetbacksSoFar(sent, sent + [next], answers, first, |sent|);
  }

  // The bytes still to send when the offset is a position in the file.
  function Left(x: Offset, size: nat): nat {
    if SafeInteger(x) && 0.0 <= x.value < size as real then size - x.value.Floor else 0
  }

  // Every chunk is a slice of the file that the provider's guard lets through.
  predicate GoodRequest(file: Bytes, request: Request) {
    request.Chunk? ==>
      && ChunkGuard(|file|, request.offset, |request.bytes|)
      && request.bytes == file[request.offset..request.offset + |request.bytes|]
  }

  function NextChunk(id: string, file: Bytes, offset: nat): Request
    requires offset < |file|
  {
    Chunk(id, offset, file[offset..if offset + CHUNK_MAX < |file| then offset + CHUNK_MAX else |file|])
  }

  lemma NextChunkIsGood(id: string, file: Bytes, offset: nat)
    requires offset < |file| && offset <= MAX_SAFE
    ensures GoodRequest(file, NextChunk(id, file, offset)) && NextChunk(id, file, offset).Chunk?
  {
  }

  lemma ChunkStartsAt(id: string, file: Bytes, offset: nat)
    requires offset < |file|
    ensures NextChunk(id, file, offset).Chunk? && NextChunk(id, file, offset).offset == offset
  {
  }

  // Sending goes on: the setbacks are counted, and the position is the one last reported.
  ghost predicate Underway(file: Bytes, id: string, start: Offset, answers: nat -> Reply, sent: seq<Request>,
      first: nat, recoveries: nat, position: Offset)
  {
    && first <= |sent| && SendsInTurn(file, id, start, answers, sent, first)
    && recoveries == Setbacks(sent, answers, first, |sent|)
    && if |sent| == first then position == start
       else answers(|sent| - 1).Reported? && answers(|sent| - 1).report.confirmedOffset == position
  }

  // Sending has ended with an error: the last answer's, or too many setbacks.
  ghost predicate GivenUp(file: Bytes, id: string, start: Offset, answers: nat -> Reply, sent: seq<Request>, first: nat,
      e: ClientError)
  {
    && first < |sent| && SendsInTurn(file, id, start, answers, sent, first)
    && match answers(|sent| - 1)
       case Reported(_) => e == Paused && Setbacks(sent, answers, first, |sent|) > 2
       case _ =>
         && e == (if answers(|sent| - 1).Refused? then Api(answers(|sent| - 1).code) else Network)
         && (sent[|sent| - 1].Chunk? && AsksAgain(answers(|sent| - 1)) ==>
               Setbacks(sent, answers, first, |sent| - 1) >= 2)
  }

  lemma NothingSent(file: Bytes, id: string, start: Offset, answers: nat -> Reply, sent: seq<Request>)
    ensures Underway(file, id, start, answers, sent, |sent|, 0, start)
  {
  }

  lemma UnderwayEnds(file: Bytes, id: string, start: Offset, answers: nat -> Reply, sent: seq<Request>, first: nat,
      recoveries: nat, position: Offset)
    requires Underway(file, id, start, answers, sent, first, recoveries, position)
    ensures SendsInTurn(file, id, start, answers, sent, first)
    ensures |sent| > first ==> answers(|sent| - 1).Reported? && !AsksAgain(answers(|sent| - 1))
  {
    hide SendsInTurn, Setbacks;
  }

  lemma GivenUpEnds(file: Bytes, id: string, start: Offset, answers: nat -> Reply, sent: seq<Request>, first: nat,
      e: ClientError)
    requires GivenUp(file, id, start, answers, sent, first, e)
    ensures SendsInTurn(file, id, start, answers, sent, first) && first < |sent|
    ensures answers(|sent| - 1).Refused? ==> e == Api(answers(|sent| - 1).code)
    ensures answers(|sent| - 1).Broken? ==> e == Network
    ensures sent[|sent| - 1].Chunk? && AsksAgain(answers(|sent| - 1)) ==>
              Setbacks(sent, answers, first, |sent| - 1) >= 2
    ensures e == Paused ==> Setbacks(sent, answers, first, |sent|) > 2
    ensures answers(|sent| - 1).Reported? ==> e == Paused
  {
    hide SendsInTurn, Setbacks;
  }

  lemma ChunkGoesOut(file: Bytes, id: string, start: Offset, answers: nat -> Reply, sent: seq<Request>, first: nat,
      recoveries: nat, offset: nat)
    requires offset < |file| && Underway(file, id, start, answers, sent, first, recoveries, Number(offset as real))
    ensures SendsInTurn(file, id, start, answers, sent + [NextChunk(id, file, offset)], first)
    ensures Setbacks(sent + [NextChunk(id, file, offset)], answers, first, |sent|) == recoveries
  {
    hide RightRequest, SendsInTurn, Setbacks;
    ChunkIsRight(file, id, start, answers, sent, first, offset);
    hide NextChunk;
    SendsMore(file, id, start, answers, sent, first, NextChunk(id, file, offset));
    SetbacksSoFar(sent, sent + [NextChunk(id, file, offset)], answers, first, |sent|);
  }

  lemma ChunkGivenUp(file: Bytes, id: string, start: Offset, answers: nat -> Reply, sent: seq<Request>, first: nat,
      recoveries: nat, offset: nat)
    requires offset < |file| && Underway(file, id, start, answers, sent, first, recoveries, Number(offset as real))
    requires !answers(|sent|).Reported? && (AsksAgain(answers(|sent|)) ==> recoveries >= 2)
    ensures GivenUp(file, id, start, answers, sent + [NextChunk(id, file, offset)], first,
              if answers(|sent|).Refused? then Api(answers(|sent|).code) else Network)
  {
    hide SendsInTurn, Setbacks, NextChunk, AsksAgain;
    ChunkGoesOut(file, id, start, answers, sent, first, recoveries, offset);
  }

  lemma StatusGoesOut(file: Bytes, id: string, start: Offset, answers: nat -> Reply, sent: seq<Request>, first: nat,
      recoveries: nat, offset: nat)
    requires offset < |file| && Underway(file, id, start, answers, sent, first, recoveries, Number(offset as real))
    requires AsksAgain(answers(|sent|)) && recoveries < 2
    ensures SendsInTurn(file, id, start, answers, sent + [NextChunk(id, file, offset)] + [Status(id)], first)
  {
    hide SendsInTurn, Setbacks, NextChunk, AsksAgain, RightRequest;
    ChunkGoesOut(file, id, start, answers, sent, first, recoveries, offset);
    ChunkStartsAt(id, file, offset);
    var more := sent + [NextChunk(id, file, offset)];
    StatusIsRight(file, id, start, answers, more, first);
    SendsMore(file, id, start, answers, more, first, Status(id));
  }

  lemma StatusGivenUp(file: Bytes, id: string, start: Offset, answers: nat -> Reply, sent: seq<Request>, first: nat,
      recoveries: nat, offset: nat)
    requires offset < |file| && Underway(file, id, start, answers, sent, first, recoveries, Number(offset as real))
    requires AsksAgain(answers(|sent|)) && recoveries < 2 && !answers(|sent| + 1).Reported?
    ensures GivenUp(file, id, start, answers, sent + [NextChunk(id, file, offset)] + [Status(id)], first,
              if answers(|sent| + 1).Refused? then Api(answers(|sent| + 1).code) else Network)
  {
    hide SendsInTurn, Setbacks, NextChunk, AsksAgain;
    StatusGoesOut(file, id, start, answers, sent, first, recoveries, offset);
  }

  // A turn that ends with a report: what it spends, and whether that was too much.
  lemma TurnReported(file: Bytes, id: string, start: Offset, answers: nat -> Reply, before: seq<Request>,
      sent: seq<Request>, first: nat, recoveries: nat, offset: nat, next: Offset)
    requires offset < |file| && Underway(file, id, start, answers, before, first, recoveries, Number(offset as real))
    requires recoveries <= 2
    requires if answers(|before|).Reported? then sent == before + [NextChunk(id, file, offset)]
             else AsksAgain(answers(|before|)) && recoveries < 2
                  && sent == before + [NextChunk(id, file, offset)] + [Status(id)]
    requires answers(|sent| - 1).Reported? && answers(|sent| - 1).report.confirmedOffset == next
    ensures var spent := recoveries + (if answers(|before|).Reported? then 0 else 1);
            if next.Number? && next.value <= offset as real then
              && Underway(file, id, start, answers, sent, first, spent + 1, next)
              && (spent >= 2 ==> GivenUp(file, id, start, answers, sent, first, Paused))
            else Underway(file, id, start, answers, sent, first, spent, next)
  {
    hide SendsInTurn, Setbacks, NextChunk, AsksAgain, Position;
    ChunkStartsAt(id, file, offset);
    ChunkGoesOut(file, id, start, answers, before, first, recoveries, offset);
    var chunk := NextChunk(id, file, offset);
    OneMoreRequest(before, answers, first, chunk);
    Positions(before, chunk, Status(id));
    if !answers(|before|).Reported? {
      StatusGoesOut(file, id, start, answers, before, first, recoveries, offset);
      OneMoreRequest(before + [chunk], answers, first, Status(id));
    }
  }

  lemma Positions(before: seq<Request>, chunk: Request, status: Request)
    requires chunk.Chunk? && status.Status?
    ensures Position(before + [chunk], |before|) == chunk.offset
    ensures Position(before + [chunk] + [status], |before| + 1) == chunk.offset
  {
  }

  lemma StatusIsGood(id: string, file: Bytes)
    ensures GoodRequest(file, Status(id))
  {
  }

  lemma ForwardLeavesLess(x: Offset, y: Offset, size: nat)
    requires SafeInteger(x) && 0.0 <= x.value < size as real
    requires y.Number? ==> y.value > x.value
    ensures Left(y, size) < Left(x, size)
  {
  }

  // The report names no position to send from.
  predicate Nowhere(report: Report) {
    && report.state == SafeUploading && report.confirmedOffset.Number?
    && (report.confirmedOffset.value < 0.0 || report.confirmedOffset.value != report.confirmedOffset.value.Floor as real
        || report.confirmedOffset.value.Floor > MAX_SAFE)
  }

  lemma NowhereExactly(report: Report)
    requires report.state == SafeUploading && report.confirmedOffset.Number?
    requires !SafeInteger(report.confirmedOffset) || report.confirmedOffset.value < 0.0
    ensures Nowhere(report)
  {
  }

  predicate Usable(report: Report) {
    report.state == SafeReady || report.state == SafeFinalized
  }

  lemma UsableExactly(report: Report)
    ensures Usable(report) <==> report.state in {SafeReady, SafeFinalized}
  {
  }

  // What the first request asks for: how the upload of this selection stands, or that one be started.
  ghost predicate Opens(uploads: seq<CachedUpload>, file: ClientFile, intentKey: string, request: Request)
    reads uploads
  {
    if exists c <- uploads :: c.file == file && c.intentKey == intentKey then
      exists c <- uploads :: c.file == file && c.intentKey == intentKey && request == Status(c.progress.uploadId)
    else request == Start(|file.bytes|)
  }

  // Just one selection is forgotten, the one in hand; nothing if the file was not known yet.
  ghost predicate ForgetsOne(before: seq<CachedUpload>, after: seq<CachedUpload>, file: ClientFile, intentKey: string) {
    if exists c <- before :: c.file == file && c.intentKey == intentKey then
      exists c <- before ::
        && c.file == file && c.intentKey == intentKey
        && (forall d <- after :: d in before && d != c)
        && (forall d <- before :: d != c ==> d in after)
    else
      (forall d <- after :: d in before) && (forall d <- before :: d in after)
  }

  lemma ForgettingOne(before: seq<CachedUpload>, known: seq<CachedUpload>, after: seq<CachedUpload>, one: CachedUpload)
    requires if one in before then known == before else
               known == before + [one] && forall c <- before :: c.file != one.file || c.intentKey != one.intentKey
    requires (forall d <- after :: d in known && d != one) && (forall d <- known :: d != one ==> d in after)
    ensures ForgetsOne(before, after, one.file, one.intentKey)
  {
  }

  // A report came back for one of these requests.
  ghost predicate CameBack(answers: nat -> Reply, first: nat, end: nat, report: Report) {
    exists k :: first <= k < end && answers(k) == Reported(report)
  }

  lemma ComesBack(answers: nat -> Reply, first: nat, end: nat, k: nat, report: Report)
    requires first <= k < end && answers(k) == Reported(report)
    ensures CameBack(answers, first, end, report)
  {
  }

  lemma CameBackLater(answers: nat -> Reply, first: nat, later: nat, end: nat, report: Report)
    requires first <= later
    ensures CameBack(answers, later, end, report) ==> CameBack(answers, first, end, report)
  {
  }

  lemma CameBackStays(answers: nat -> Reply, first: nat, end: nat, report: Report)
    ensures CameBack(answers, first, end, report) ==> forall later: nat :: end <= later ==>
              CameBack(answers, first, later, report)
  {
  }

  class RetainedUploadClient {
    const answers: nat -> Reply
    var uploads: seq<CachedUpload>
    var sent: seq<Request>
    // Whether the controller of the requests in hand was told to abort; an aborted request is one that broke.
    var aborted: bool

    constructor (answers: nat -> Reply)
      ensures this.answers == answers && uploads == [] && sent == [] && !aborted
    {
      this.answers, this.uploads, this.sent, this.aborted := answers, [], [], false;
    }

    method Send(request: Request) returns (reply: Reply)
      modifies this`sent
      ensures sent == old(sent) + [request]
      ensures reply == answers(|old(sent)|)
    {
      reply := answers(|sent|);
      sent := sent + [request];
    }

    method Find(file: ClientFile, intentKey: string) returns (found: CachedUpload?)
      ensures found != null ==> found in uploads && found.file == file && found.intentKey == intentKey
      ensures found == null ==> forall c :: c in uploads ==> c.file != file || c.intentKey != intentKey
    {
      for i := 0 to |uploads|
        invariant forall k :: 0 <= k < i ==> uploads[k].file != file || uploads[k].intentKey != intentKey
      {
        if uploads[i].file == file && uploads[i].intentKey == intentKey {
          return uploads[i];
        }
      }
      found := null;
    }

    method Forget(cached: CachedUpload)
      modifies this`uploads
      ensures forall c :: c in uploads <==> c in old(uploads) && c != cached
    {
      var kept: seq<CachedUpload> := [];
      for i := 0 to |uploads|
        invariant forall c :: c in kept <==> c in uploads[..i] && c != cached
      {
        if uploads[i] != cached {
          kept := kept + [uploads[i]];
        }
      }
      assert uploads[..|uploads|] == uploads;
      uploads := kept;
    }

    // Resume the selection when it is known, otherwise register it.
    method Open(file: ClientFile, intentKey: string) returns (cached: CachedUpload?, error: ClientError)
      modifies this, this.uploads
      ensures cached != null ==> cached in uploads && cached.file == file && cached.intentKey == intentKey
      ensures cached != null ==> cached in old(uploads) || fresh(cached)
      ensures forall c ::
                c in old(uploads) && c != cached && (cached != null || c.file != file || c.intentKey != intentKey) ==>
                  c in uploads
      ensures forall c :: c in uploads ==> c in old(uploads) || c == cached
      ensures forall c :: c in old(uploads) && c != cached ==> c.progress == old(c.progress)
      ensures forall c :: c in old(uploads) ==> c.submitted == old(c.submitted)
      ensures cached == null && !GivesUp(error) ==> forall c :: c in old(uploads) ==> c in uploads
      ensures cached == null && GivesUp(error) ==> ForgetsOne(old(uploads), uploads, file, intentKey)
      ensures cached == null && answers(|old(sent)|).Refused? ==> error == Api(answers(|old(sent)|).code)
      ensures cached == null && answers(|old(sent)|).Broken? ==> error == Network
      ensures cached == null <==> !answers(|old(sent)|).Reported?
      ensures cached != null && cached !in old(uploads) ==>
                && uploads == old(uploads) + [cached]
                && forall c :: c in old(uploads) ==> c.file != file || c.intentKey != intentKey
      ensures cached in old(uploads) ==> uploads == old(uploads)
      ensures |sent| == |old(sent)| + 1 && sent[..|old(sent)|] == old(sent)
      ensures !sent[|old(sent)|].Chunk? && !sent[|old(sent)|].Delete?
      ensures var asked := sent[|old(sent)|];
              old(Opens(uploads, file, intentKey, asked))
      ensures cached != null ==> answers(|old(sent)|) == Reported(cached.progress)
    {
      error := Network;
      cached := Find(file, intentKey);
      if cached != null {
        var reply := Send(Status(cached.progress.uploadId));
        if !reply.Reported? {
          error := ErrorOf(reply);
          if !Retryable(error) {
            Forget(cached);
          }
          cached := null;
          return;
        }
        cached.progress := reply.report;
      } else {
        var reply := Send(Start(|file.bytes|));
        if !reply.Reported? {
          error := ErrorOf(reply);
          return;
        }
        cached := new CachedUpload(file, intentKey, reply.report);
        uploads := uploads + [cached];
      }
    }

    // One turn: a chunk, and the status when the answer to it asks for another try.
    method SendChunk(cached: CachedUpload, id: string, recoveries: nat, ghost start: Offset, ghost first: nat)
      returns (error: Option<ClientError>, spent: nat)
      requires recoveries <= 2 && SafeInteger(cached.progress.confirmedOffset)
      requires 0.0 <= cached.progress.confirmedOffset.value < |cached.file.bytes| as real
      requires Underway(cached.file.bytes, id, start, answers, sent, first, recoveries, cached.progress.confirmedOffset)
      modifies this`sent, cached`progress
      ensures |sent| > |old(sent)| && sent[..|old(sent)|] == old(sent)
      ensures forall k :: |old(sent)| <= k < |sent| ==> GoodRequest(cached.file.bytes, sent[k]) && !sent[k].Delete?
      ensures cached.progress == old(cached.progress) || CameBack(answers, |old(sent)|, |sent|, cached.progress)
      ensures error == None ==>
                && recoveries <= spent <= 2
                && (spent > recoveries || Left(cached.progress.confirmedOffset, |cached.file.bytes|)
                                          < Left(old(cached.progress).confirmedOffset, |cached.file.bytes|))
                && Underway(cached.file.bytes, id, start, answers, sent, first, spent, cached.progress.confirmedOffset)
      ensures answers(|sent| - 1).Reported? ==> cached.progress == answers(|sent| - 1).report
      ensures error.Some? ==> GivenUp(cached.file.bytes, id, start, answers, sent, first, error.value)
    {
      hide GoodRequest, Left, Retryable, NextChunk, CameBack, Underway, GivenUp, SafeInteger, AsksAgain, ErrorOf;
      error, spent := None, recoveries;
      var bytes := cached.file.bytes;
      var position := cached.progress.confirmedOffset;
      WholePosition(position);
      var offset: nat := position.value.Floor;
      ghost var before := sent;
      NextChunkIsGood(id, bytes, offset);
      StatusIsGood(id, bytes);
      ChunkGoesOut(bytes, id, start, answers, sent, first, recoveries, offset);
      var reply := Send(NextChunk(id, bytes, offset));
      if !reply.Reported? {
        var failure := ErrorOf(reply);
        AgainExactly(reply);
        if !Retryable(failure) || spent >= 2 {
          ChunkGivenUp(bytes, id, start, answers, before, first, recoveries, offset);
          return Some(failure), spent;
        }
        spent := spent + 1;
        StatusGoesOut(bytes, id, start, answers, before, first, recoveries, offset);
        reply := Send(Status(id));
        if !reply.Reported? {
          StatusGivenUp(bytes, id, start, answers, before, first, recoveries, offset);
          AgainExactly(reply);
          return Some(ErrorOf(reply)), spent;
        }
      }
      cached.progress := reply.report;
      ComesBack(answers, |before|, |sent|, |sent| - 1, reply.report);
      var next := cached.progress.confirmedOffset;
      TurnReported(bytes, id, start, answers, before, sent, first, recoveries, offset, next);
      if next.Number? && next.value <= position.value {
        if spent >= 2 {
          return Some(Paused), spent;
        }
        spent := spent + 1;
      } else {
        ForwardLeavesLess(position, next, |bytes|);
      }
    }

    // Send what is left, chunk by chunk. It ends against every server: each turn that does not move
    // the offset forward uses up one of two recoveries.
    method SendChunks(cached: CachedUpload, id: string) returns (error: Option<ClientError>)
      modifies this`sent, cached`progress
      ensures cached.progress == old(cached.progress) || CameBack(answers, |old(sent)|, |sent|, cached.progress)
      ensures |sent| >= |old(sent)| && sent[..|old(sent)|] == old(sent)
      ensures forall k :: |old(sent)| <= k < |sent| ==> GoodRequest(cached.file.bytes, sent[k]) && !sent[k].Delete?
      ensures error == None ==>
        cached.progress.state != SafeUploading || cached.progress.confirmedOffset == NotANumber
        || cached.progress.confirmedOffset.value >= |cached.file.bytes| as real
      ensures SendsInTurn(cached.file.bytes, id, old(cached.progress.confirmedOffset), answers, sent, |old(sent)|)
      ensures |sent| > |old(sent)| && answers(|sent| - 1).Refused? ==> error == Some(Api(answers(|sent| - 1).code))
      ensures |sent| > |old(sent)| && answers(|sent| - 1).Broken? ==> error == Some(Network)
      ensures |sent| > |old(sent)| && sent[|sent| - 1].Chunk? && AsksAgain(answers(|sent| - 1)) ==>
                Setbacks(sent, answers, |old(sent)|, |sent| - 1) >= 2
      ensures error == Some(Paused) ==> Setbacks(sent, answers, |old(sent)|, |sent|) > 2
      ensures |sent| > |old(sent)| && answers(|sent| - 1).Reported? ==> cached.progress == answers(|sent| - 1).report
      ensures |sent| == |old(sent)| ==> cached.progress == old(cached.progress)
      ensures error.Some? && (|sent| > |old(sent)| ==> answers(|sent| - 1).Reported?) ==>
                error.value == Paused || (error.value == InvalidProgress && Nowhere(cached.progress))
    {
      hide GoodRequest, Left, CameBack, Underway, GivenUp, AsksAgain, SendsInTurn, Setbacks, Nowhere;
      ghost var n, start := |old(sent)|, cached.progress.confirmedOffset;
      var size := |cached.file.bytes|;
      var recoveries := 0;
      NothingSent(cached.file.bytes, id, start, answers, sent);
      while cached.progress.state == SafeUploading && cached.progress.confirmedOffset.Number?
            && cached.progress.confirmedOffset.value < size as real
        invariant 0 <= recoveries <= 2
        invariant Underway(cached.file.bytes, id, start, answers, sent, n, recoveries, cached.progress.confirmedOffset)
        invariant cached.progress == old(cached.progress) || CameBack(answers, n, |sent|, cached.progress)
        invariant |sent| >= n && sent[..n] == old(sent)
        invariant if |sent| == n then cached.progress == old(cached.progress)
                  else answers(|sent| - 1) == Reported(cached.progress)
        invariant forall k :: n <= k < |sent| ==> GoodRequest(cached.file.bytes, sent[k]) && !sent[k].Delete?
        decreases 2 - recoveries, Left(cached.progress.confirmedOffset, size)
      {
        var position := cached.progress.confirmedOffset;
        if !SafeInteger(position) || position.value < 0.0 {
          UnderwayEnds(cached.file.bytes, id, start, answers, sent, n, recoveries, position);
          NowhereExactly(cached.progress);
          return Some(InvalidProgress);
        }
        ghost var m := |sent|;
        CameBackStays(answers, n, m, cached.progress);
        var failure, spent := SendChunk(cached, id, recoveries, start, n);
        CameBackLater(answers, n, m, |sent|, cached.progress);
        if failure.Some? {
          GivenUpEnds(cached.file.bytes, id, start, answers, sent, n, failure.value);
          return failure;
        }
        UnderwayEnds(cached.file.bytes, id, start, answers, sent, n, spent, cached.progress.confirmedOffset);
        recoveries := spent;
      }
      UnderwayEnds(cached.file.bytes, id, start, answers, sent, n, recoveries, cached.progress.confirmedOffset);
      error := None;
    }

    // Ask the server to verify; after an answer that is lost or says to retry, ask how the upload stands and, while it
    // is still uploading, once more to verify.
    method Verify(cached: CachedUpload, id: string) returns (error: Option<ClientError>)
      modifies this`sent, cached`progress
      ensures sent == old(sent) + [Request.Finish(id)]
           || sent == old(sent) + [Request.Finish(id), Status(id)]
           || sent == old(sent) + [Request.Finish(id), Status(id), Request.Finish(id)]
      ensures var n := |old(sent)|;
              && (|sent| > n + 1 <==> AsksAgain(answers(n)))
              && (|sent| > n + 2 <==>
                    |sent| > n + 1 && answers(n + 1).Reported? && answers(n + 1).report.state == SafeUploading)
              && (error == None <==> answers(|sent| - 1).Reported?)
              && (error == None ==> cached.progress == answers(|sent| - 1).report)
              && (answers(|sent| - 1).Refused? ==> error == Some(Api(answers(|sent| - 1).code)))
              && (answers(|sent| - 1).Broken? ==> error == Some(Network))
      ensures cached.progress == old(cached.progress) || CameBack(answers, |old(sent)|, |sent|, cached.progress)
    {
      ghost var n := |sent|;
      var reply := Send(Request.Finish(id));
      if !reply.Reported? {
        if !Retryable(ErrorOf(reply)) {
          return Some(ErrorOf(reply));
        }
        reply := Send(Status(id));
        if !reply.Reported? {
          return Some(ErrorOf(reply));
        }
        cached.progress := reply.report;
        ComesBack(answers, n, |sent|, n + 1, reply.report);
        if cached.progress.state == SafeUploading {
          reply := Send(Request.Finish(id));
          if !reply.Reported? {
            return Some(ErrorOf(reply));
          }
        }
      }
      cached.progress := reply.report;
      error := None;
    }

    // Send what is left, have it verified, and see that the upload can be used.
    method Carry(cached: CachedUpload, id: string) returns (error: Option<ClientError>)
      modifies this`sent, cached`progress
      ensures |sent| >= |old(sent)| && sent[..|old(sent)|] == old(sent)
      ensures forall k :: |old(sent)| <= k < |sent| ==> GoodRequest(cached.file.bytes, sent[k]) && !sent[k].Delete?
      ensures cached.progress == old(cached.progress) || CameBack(answers, |old(sent)|, |sent|, cached.progress)
      ensures error == None ==> Usable(cached.progress)
      ensures |sent| == |old(sent)| ==> cached.progress == old(cached.progress)
      ensures |sent| > |old(sent)| && answers(|sent| - 1).Reported? ==> cached.progress == answers(|sent| - 1).report
      ensures |sent| > |old(sent)| && answers(|sent| - 1).Refused? ==> error == Some(Api(answers(|sent| - 1).code))
      ensures |sent| > |old(sent)| && answers(|sent| - 1).Broken? ==> error == Some(Network)
      ensures error.Some? && (|sent| > |old(sent)| ==> answers(|sent| - 1).Reported?) ==>
                || error.value == Paused
                || (error.value == InvalidProgress && Nowhere(cached.progress))
                || (error.value == Api("expired") && !Usable(cached.progress)
                    && (cached.progress.state == SafeUploading ==> |sent| > |old(sent)| && sent[|sent| - 1].Finish?))
    {
      hide Usable, Nowhere, CameBack, AsksAgain, SafeInteger, SendsInTurn, Setbacks;
      ghost var n := |sent|;
      error := SendChunks(cached, id);
      ghost var m := |sent|;
      if error == None && cached.progress.state == SafeUploading {
        CameBackStays(answers, n, m, cached.progress);
        error := Verify(cached, id);
        CameBackStays(answers, n, m, old(cached.progress));
        CameBackLater(answers, n, m, |sent|, cached.progress);
      }
      if error == None && !Usable(cached.progress) {
        error := Some(Api("expired"));
      }
    }

    // `upload`: the id of an upload that is ready or finalized, or the error. An upload the server
    // refuses for good is forgotten; on any other error the selection can be resumed.
    method Upload(file: ClientFile, intentKey: string) returns (r: Result<string, ClientError>)
      modifies this, this.uploads
      ensures r.Ok? ==> exists c :: c in uploads && c.file == file && c.intentKey == intentKey
                          && c.progress.state in {SafeReady, SafeFinalized} && r.value == c.progress.uploadId
      ensures |sent| > |old(sent)| && sent[..|old(sent)|] == old(sent)
      ensures r.Ok? ==> Usably(answers, |old(sent)|, |sent|, r.value)
      ensures forall k :: |old(sent)| <= k < |sent| ==> GoodRequest(file.bytes, sent[k])
      ensures forall c :: c in old(uploads) ==> c.submitted == old(c.submitted)
      ensures answers(|sent| - 1).Refused? ==> r == Err(Api(answers(|sent| - 1).code))
      ensures answers(|sent| - 1).Broken? ==> r == Err(Network)
      ensures r.Err? && answers(|sent| - 1).Reported? ==>
                || r.error == Paused
                || (r.error == InvalidProgress && Nowhere(answers(|sent| - 1).report))
                || (r.error == Api("expired") && answers(|sent| - 1).report.state !in {SafeReady, SafeFinalized}
                    && (answers(|sent| - 1).report.state == SafeUploading ==> sent[|sent| - 1].Finish?))
      ensures var asked := sent[|old(sent)|];
              old(Opens(uploads, file, intentKey, asked))
      ensures r.Ok? || !r.error.Api? || r.error.code in {"provider_unavailable", "state_conflict"} ==>
                forall c :: c in old(uploads) ==> c in uploads
      ensures r.Err? && r.error.Api? && r.error.code !in {"provider_unavailable", "state_conflict"} ==>
                ForgetsOne(old(uploads), uploads, file, intentKey)
      ensures forall c :: c in uploads ==> c in old(uploads) || fresh(c)
      ensures forall k :: |old(sent)| <= k < |sent| ==> !sent[k].Delete?
      ensures forall c :: c in old(uploads) && c.file != file ==> c in uploads && c.progress == old(c.progress)
    {
      hide Usable, Retryable, CameBack, Usably, ErrorOf, SafeInteger, ForgetsOne, Nowhere, Opens;
      var cached, failure := Open(file, intentKey);
      if cached == null {
        return Err(failure);
      }
      ghost var n := |old(sent)|;
      ComesBack(answers, n, |sent|, n, cached.progress);
      CameBackStays(answers, n, |sent|, cached.progress);
      var error := Carry(cached, cached.progress.uploadId);
      CameBackLater(answers, n, n + 1, |sent|, cached.progress);
      UsableExactly(cached.progress);
      if error.Some? {
        GivesUpExactly(error.value);
        ghost var known := uploads;
        if !Retryable(error.value) {
          Forget(cached);
          ForgettingOne(old(uploads), known, uploads, cached);
        }
        return Err(error.value);
      }
      MakesUsable(answers, n, |sent|, cached.progress);
      r := Ok(cached.progress.uploadId);
    }

    // Keep some of the uploads; of the others, delete on the server those never submitted.
    method Keep(kept: set<CachedUpload>)
      modifies this`uploads, this`sent
      ensures uploads == Only(old(uploads), kept)
      ensures sent == old(sent) + Deletes(old(uploads), kept)
    {
      var left: seq<CachedUpload> := [];
      for i := 0 to |uploads|
        invariant uploads == old(uploads)
        invariant left == Only(uploads[..i], kept)
        invariant sent == old(sent) + Deletes(uploads[..i], kept)
      {
        assert uploads[..i + 1][..i] == uploads[..i];
        if uploads[i] in kept {
          left := left + [uploads[i]];
        } else if !uploads[i].submitted {
          sent := sent + [Delete(uploads[i].progress.uploadId)];
        }
      }
      assert uploads[..|uploads|] == uploads;
      uploads := left;
    }

    // `abandonUnused`: keep what the form still holds; without a form, stop what is running and keep nothing.
    method AbandonUnused(files: Option<set<ClientFile>>)
      modifies this`uploads, this`sent, this`aborted
      ensures uploads == Only(old(uploads), set c | c in old(uploads) && files.Some? && c.file in files.value)
      ensures sent == old(sent) + Deletes(old(uploads),
                set c | c in old(uploads) && files.Some? && c.file in files.value)
      ensures aborted == (files == None || old(aborted))
    {
      if files == None { aborted := true; }
      Keep(set c | c in uploads && files.Some? && c.file in files.value);
    }

    method MarkSubmitted()
      modifies this.uploads
      ensures forall c :: c in uploads ==> c.submitted && c.progress == old(c.progress)
    {
      for i := 0 to |uploads|
        invariant forall k :: 0 <= k < i ==> uploads[k].submitted
        invariant forall c :: c in uploads ==> c.progress == old(c.progress)
      {
        uploads[i].submitted := true;
      }
    }

    // The registration of every field of the form.
    method ResolveFields(data: seq<Entry>, registrations: seq<Registration>)
      returns (resolved: map<string, Registration>)
      ensures forall e <- data :: At(resolved, e.field) == Resolved(registrations, e.field)
    {
      hide AddsRow, RowRegistration;
      resolved := map[];
      for i := 0 to |registrations|
        invariant forall f: string :: At(resolved, f) == Named(registrations[..i], f)
      {
        assert registrations[..i + 1][..i] == registrations[..i];
        resolved := resolved[registrations[i].field := registrations[i]];
      }
      assert registrations[..|registrations|] == registrations;
      for i := 0 to |registrations|
        invariant forall e <- data :: At(resolved, e.field) == ResolvedSoFar(registrations, i, e.field)
      {
        var entry := registrations[i];
        ghost var before := resolved;
        assert registrations[..i + 1][..i] == registrations[..i];
        for j := 0 to |data|
          invariant forall f: string :: At(resolved, f) ==
                      if HasField(data[..j], f) && AddsRow(entry, f) then Some(RowRegistration(entry, f))
                      else At(before, f)
        {
          var field := data[j].field;
          FieldsGrow(data, j);
          if AddsRow(entry, field) {
            resolved := resolved[field := RowRegistration(entry, field)];
          }
        }
        assert data[..|data|] == data;
        forall e <- data ensures At(resolved, e.field) == ResolvedSoFar(registrations, i + 1, e.field) {
          assert HasField(data, e.field);
        }
      }
    }

    // One file of the form.
    method UploadAt(data: seq<Entry>, i: nat, intent: UploadIntent.Intent, ghost gone: set<CachedUpload>)
        returns (r: Result<string, ClientError>)
      requires i < |data| && data[i].value.Chosen? && UploadIntent.WritableAll(UploadIntent.Values(intent))
      requires forall c :: c in gone ==> c !in uploads
      modifies this, this.uploads
      ensures r.Ok? ==> Usably(answers, |old(sent)|, |sent|, r.value)
      ensures |sent| > |old(sent)| && sent[..|old(sent)|] == old(sent)
      ensures forall k :: |old(sent)| <= k < |sent| ==> Traced(data, gone, sent[k])
      ensures forall c :: c in uploads ==> c in old(uploads) || fresh(c)
      ensures forall c :: c in old(uploads) ==> c.submitted == old(c.submitted)
    {
      hide GoodRequest, Traced, Usably, Usable, Retryable;
      TracedUpload(data, gone, i);
      r := Upload(data[i].value.file, UploadIntent.Written(intent));
      TracedUpload(data, gone, i);
    }

    // The ids of the uploads of a form's files, in the places of the files.
    method FillForm(data: seq<Entry>, registrations: seq<Registration>, ghost gone: set<CachedUpload>)
        returns (r: Result<seq<Filled>, ClientError>, usedIds: set<string>)
      requires forall c :: c in gone ==> c !in uploads
      modifies this, this.uploads
      ensures r.Ok? ==> Fills(Items(data, registrations), r.value)
      ensures r.Ok? ==> AllUsed(r.value, usedIds) && AllUsable(answers, |old(sent)|, |sent|, usedIds)
      ensures |sent| >= |old(sent)| && sent[..|old(sent)|] == old(sent)
      ensures forall k :: |old(sent)| <= k < |sent| ==> Traced(data, gone, sent[k])
      ensures forall c :: c in uploads ==> c in old(uploads) || fresh(c)
      ensures forall c :: c in old(uploads) ==> c.submitted == old(c.submitted)
    {
      hide *;
      ghost var n, items := |sent|, Items(data, registrations);
      var resolved := ResolveFields(data, registrations);
      var done: seq<Filled> := [];
      var positions: map<string, nat> := map[];
      usedIds := {};
      NothingFilled(resolved, data, items, answers, n);
      for i := 0 to |data|
        invariant |items| == |data| && Fills(items[..i], done)
        invariant Positioned(resolved, positions, data[..i])
        invariant AllUsed(done, usedIds) && AllUsable(answers, n, |sent|, usedIds)
        invariant |sent| >= n && sent[..n] == old(sent)
        invariant forall k :: n <= k < |sent| ==> Traced(data, gone, sent[k])
        invariant forall c :: c in uploads ==> c in old(uploads) || fresh(c)
        invariant forall c :: c in old(uploads) ==> c.submitted == old(c.submitted)
      {
        var entry := data[i];
        assert At(resolved, entry.field) == Resolved(registrations, entry.field) by { assert entry in data; }
        ItemIs(data, registrations, i, At(resolved, entry.field));
        ItemsGrow(items, i, done);
        PositionsGrow(resolved, positions, data, i);
        if entry.field !in resolved || entry.value.Typed? {
          FoundAt(resolved, entry.field);
          UsedStays(done, Filled.Kept(entry), usedIds);
          done := done + [Filled.Kept(entry)];
        } else if |entry.value.file.bytes| > 0 {
          FoundAt(resolved, entry.field);
          var registration := resolved[entry.field];
          var position := PositionOf(positions, entry.field) + 1;
          positions := positions[entry.field := position];
          var intent := UploadIntent.Parse(Asked(data, registration, position));
          if intent == None { return Err(InvalidIntent), usedIds; }
          UploadIntent.ParsedIsWritable(Asked(data, registration, position));
          ghost var m := |sent|;
          assert forall j :: 0 <= j < |uploads| ==> uploads[j] in uploads;
          var uploadId := UploadAt(data, i, intent.value, gone);
          if uploadId.Err? { return Err(uploadId.error), usedIds; }
          UsableGrows(answers, n, m, |sent|, usedIds, uploadId.value);
          UsedGrows(done, IdField(registration, entry.field), usedIds, uploadId.value);
          done := done + [UploadId(IdField(registration, entry.field), uploadId.value)];
          usedIds := usedIds + {uploadId.value};
        } else {
          FoundAt(resolved, entry.field);
        }
      }
      assert items[..|data|] == items;
      r := Ok(done);
    }

    // The first part of `prepare`: what the form no longer holds is given up, the rest uploaded.
    method FillAnew(data: seq<Entry>, registrations: seq<Registration>)
        returns (r: Result<seq<Filled>, ClientError>, usedIds: set<string>, ghost gone: set<CachedUpload>)
      modifies this, this.uploads
      ensures r.Ok? ==> Fills(Items(data, registrations), r.value)
      ensures r.Ok? ==> AllUsed(r.value, usedIds) && AllUsable(answers, |old(sent)|, |sent|, usedIds)
      ensures |sent| >= |old(sent)| && sent[..|old(sent)|] == old(sent)
      ensures forall k :: |old(sent)| <= k < |sent| ==> Traced(data, gone, sent[k])
      ensures forall c :: c in gone ==> c !in uploads
      ensures forall c :: c in uploads ==> c in old(uploads) || fresh(c)
      ensures forall c :: c in old(uploads) ==> c.submitted == old(c.submitted)
    {
      hide GoodRequest, Fills, Traced, DeletedFrom, Deletes, AllUsed, AllUsable, Items;
      gone := set c | c in uploads && c.file !in Files(data);
      var files := Some(Files(data));
      DeletesAreTraced(data, uploads, (set c | c in uploads && files.Some? && c.file in files.value), gone);
      AbandonUnused(files);
      aborted := false;
      ghost var m := |sent|;
      r, usedIds := FillForm(data, registrations, gone);
      if r.Ok? { UsableSince(answers, |old(sent)|, m, |sent|, usedIds); }
    }

    // `prepare`: upload every file registered and put the upload's id in its place; an empty file control is left
    // out. In the end only uploads the form uses are kept. Of those given up on the way, named by `gone`, only
    // unsubmitted ones have been deleted.
    method Prepare(data: seq<Entry>, registrations: seq<Registration>)
        returns (r: Result<seq<Filled>, ClientError>, ghost gone: set<CachedUpload>)
      modifies this, this.uploads
      ensures r.Ok? ==> Fills(Items(data, registrations), r.value)
      ensures r.Ok? ==> forall k :: 0 <= k < |r.value| && r.value[k].UploadId? ==>
                Usably(answers, |old(sent)|, |sent|, r.value[k].id)
      ensures r.Ok? ==> forall c :: c in uploads ==> exists k :: 0 <= k < |r.value| && r.value[k].UploadId?
                                                               && r.value[k].id == c.progress.uploadId
      ensures |sent| >= |old(sent)| && sent[..|old(sent)|] == old(sent)
      ensures forall k :: |old(sent)| <= k < |sent| ==> Traced(data, gone, sent[k])
      ensures forall c :: c in gone ==> c !in uploads
      ensures forall c :: c in old(uploads) ==> c.submitted == old(c.submitted)
    {
      hide GoodRequest, Fills, Traced, DeletedFrom, Deletes, Usably, Items;
      var usedIds;
      r, usedIds, gone := FillAnew(data, registrations);
      if r.Err? { return; }
      ghost var all := gone + set c | c in uploads && c.progress.uploadId !in usedIds;
      TracedMore(data, gone, all);
      DeletesAreTraced(data, uploads, (set c | c in uploads && c.progress.uploadId in usedIds), all);
      gone := all;
      ghost var m := |sent|;
      Keep(set c | c in uploads && c.progress.uploadId in usedIds);
      UsableUntil(answers, |old(sent)|, m, |sent|, usedIds);
    }
  }

  // ---- what the form becomes ----

  function At(m: map<string, Registration>, field: string): Option<Registration> {
    if field in m then Some(m[field]) else None
  }

  predicate HasField(data: seq<Entry>, field: string) {
    exists e <- data :: e.field == field
  }

  lemma FieldsGrow(data: seq<Entry>, j: nat)
    requires j < |data|
    ensures forall f: string :: HasField(data[..j + 1], f) <==> HasField(data[..j], f) || f == data[j].field
  {
    assert data[..j + 1] == data[..j] + [data[j]];
    forall f: string ensures HasField(data[..j + 1], f) <==> HasField(data[..j], f) || f == data[j].field {
      OneMoreField(data[..j], data[j], f);
    }
  }

  lemma OneMoreField(data: seq<Entry>, e: Entry, field: string)
    ensures HasField(data + [e], field) <==> HasField(data, field) || field == e.field
  {
    assert e in data + [e];
    assert forall x <- data :: x in data + [e];
  }

  // The registration of a field when the rows added by the first i registrations are known.
  function ResolvedSoFar(registrations: seq<Registration>, i: nat, field: string): Option<Registration>
    requires i <= |registrations|
  {
    match AddedRow(registrations[..i], field)
    case Some(r) => Some(r)
    case None => Named(registrations, field)
  }

  function PositionOf(positions: map<string, nat>, field: string): nat {
    if field in positions then positions[field] else 0
  }

  // The positions counted are the numbers of files seen, field by field.
  ghost predicate Positioned(resolved: map<string, Registration>, positions: map<string, nat>, data: seq<Entry>) {
    forall f <- resolved :: PositionOf(positions, f) == Count(data, f)
  }

  lemma PositionsGrow(resolved: map<string, Registration>, positions: map<string, nat>, data: seq<Entry>, i: nat)
    requires i < |data| && Positioned(resolved, positions, data[..i])
    ensures var field, next := data[i].field, data[..i + 1];
            if field in resolved && data[i].value.Chosen? && data[i].value.file.bytes != [] then
              && PositionOf(positions, field) + 1 == Count(next, field)
              && Positioned(resolved, positions[field := PositionOf(positions, field) + 1], next)
            else Positioned(resolved, positions, next)
  {
    hide Count;
    forall f <- resolved ensures Count(data[..i + 1], f) == Count(data[..i], f) + if Uploads(data[i], f) then 1 else 0 {
      NextCount(data, f, i);
    }
  }

  lemma FoundAt(m: map<string, Registration>, field: string)
    ensures At(m, field).Some? <==> field in m
    ensures field in m ==> At(m, field) == Some(m[field])
  {
  }

  datatype Filled = Kept(entry: Entry) | UploadId(field: string, id: string)

  function Items(data: seq<Entry>, registrations: seq<Registration>): (items: seq<Item>)
    ensures |items| == |data|
  {
    seq(|data|, i requires 0 <= i < |data| => ItemAt(data, registrations, i))
  }

  function Files(data: seq<Entry>): set<ClientFile> {
    set i | 0 <= i < |data| && data[i].value.Chosen? :: data[i].value.file
  }

  // The filled form follows the form: an id in the place of each file that is uploaded, under its own name.
  predicate Fills(items: seq<Item>, filled: seq<Filled>) {
    if items == [] then filled == []
    else
      var front, last := items[..|items| - 1], items[|items| - 1];
      match last
      case Omitted => Fills(front, filled)
      case Kept(entry) =>
        && filled != [] && filled[|filled| - 1] == Filled.Kept(entry)
        && Fills(front, filled[..|filled| - 1])
      case Sends(idField, _, intent) =>
        && intent.Some? && filled != []
        && filled[|filled| - 1].UploadId? && filled[|filled| - 1].field == idField
        && Fills(front, filled[..|filled| - 1])
  }

  // These are the ids in the form.
  ghost predicate AllUsed(filled: seq<Filled>, ids: set<string>) {
    && (forall k :: 0 <= k < |filled| && filled[k].UploadId? ==> filled[k].id in ids)
    && (forall id <- ids :: exists k :: 0 <= k < |filled| && filled[k].UploadId? && filled[k].id == id)
  }

  lemma UsedStays(filled: seq<Filled>, one: Filled, ids: set<string>)
    requires AllUsed(filled, ids) && one.Kept?
    ensures AllUsed(filled + [one], ids)
  {
    forall id <- ids
      ensures exists k :: 0 <= k < |filled + [one]| && (filled + [one])[k].UploadId? && (filled + [one])[k].id == id
    {
      var k :| 0 <= k < |filled| && filled[k].UploadId? && filled[k].id == id;
      assert (filled + [one])[k] == filled[k];
    }
  }

  lemma UsedGrows(filled: seq<Filled>, field: string, ids: set<string>, id: string)
    requires AllUsed(filled, ids)
    ensures AllUsed(filled + [UploadId(field, id)], ids + {id})
  {
    var more := filled + [UploadId(field, id)];
    assert more[|filled|] == UploadId(field, id);
    forall x <- ids ensures exists k :: 0 <= k < |more| && more[k].UploadId? && more[k].id == x {
      var k :| 0 <= k < |filled| && filled[k].UploadId? && filled[k].id == x;
      assert more[k] == filled[k];
    }
  }

  // A report of a ready or finalized upload with this id came back for one of these requests.
  ghost predicate Usably(answers: nat -> Reply, first: nat, end: nat, id: string) {
    exists report: Report :: CameBack(answers, first, end, report) && Usable(report) && report.uploadId == id
  }

  lemma MakesUsable(answers: nat -> Reply, first: nat, end: nat, report: Report)
    requires CameBack(answers, first, end, report) && Usable(report)
    ensures Usably(answers, first, end, report.uploadId)
  {
  }

  ghost predicate AllUsable(answers: nat -> Reply, first: nat, end: nat, ids: set<string>) {
    forall id <- ids :: Usably(answers, first, end, id)
  }

  lemma UsablyWithin(answers: nat -> Reply, first: nat, from: nat, to: nat, end: nat, id: string)
    requires first <= from <= to <= end && Usably(answers, from, to, id)
    ensures Usably(answers, first, end, id)
  {
    hide CameBack, Usable;
    var report: Report :| CameBack(answers, from, to, report) && Usable(report) && report.uploadId == id;
    CameBackStays(answers, from, to, report);
    CameBackLater(answers, first, from, end, report);
  }

  lemma UsableUntil(answers: nat -> Reply, first: nat, to: nat, end: nat, ids: set<string>)
    requires first <= to <= end && AllUsable(answers, first, to, ids)
    ensures AllUsable(answers, first, end, ids)
  {
    hide Usably;
    forall id <- ids ensures Usably(answers, first, end, id) { UsablyWithin(answers, first, first, to, end, id); }
  }

  lemma UsableSince(answers: nat -> Reply, first: nat, from: nat, end: nat, ids: set<string>)
    requires first <= from <= end && AllUsable(answers, from, end, ids)
    ensures AllUsable(answers, first, end, ids)
  {
    hide Usably;
    forall id <- ids ensures Usably(answers, first, end, id) { UsablyWithin(answers, first, from, end, end, id); }
  }

  lemma UsableGrows(answers: nat -> Reply, first: nat, to: nat, end: nat, ids: set<string>, id: string)
    requires first <= to <= end && AllUsable(answers, first, to, ids) && Usably(answers, to, end, id)
    ensures AllUsable(answers, first, end, ids + {id})
  {
    hide Usably;
    UsableUntil(answers, first, to, end, ids);
    UsablyWithin(answers, first, to, end, end, id);
  }

  ghost predicate OfForm(data: seq<Entry>, request: Request) {
    exists i :: 0 <= i < |data| && data[i].value.Chosen? && GoodRequest(data[i].value.file.bytes, request)
  }

  ghost predicate DeletedFrom(gone: set<CachedUpload>, request: Request)
    reads gone
  {
    request.Delete? && exists c :: c in gone && !c.submitted && c.progress.uploadId == request.id
  }

  // A request that is a chunk of a file of the form, or the delete of an upload given up unsubmitted.
  ghost predicate Traced(data: seq<Entry>, gone: set<CachedUpload>, request: Request)
    reads gone
  {
    (request.Chunk? ==> OfForm(data, request)) && (request.Delete? ==> DeletedFrom(gone, request))
  }

  lemma TracedUpload(data: seq<Entry>, gone: set<CachedUpload>, i: nat)
    requires i < |data| && data[i].value.Chosen?
    ensures forall request: Request :: GoodRequest(data[i].value.file.bytes, request) && !request.Delete? ==>
              Traced(data, gone, request)
  {
    hide GoodRequest;
  }

  lemma TracedMore(data: seq<Entry>, gone: set<CachedUpload>, more: set<CachedUpload>)
    requires gone <= more
    ensures forall request: Request :: Traced(data, gone, request) ==> Traced(data, more, request)
  {
    hide OfForm;
  }

  lemma NothingFilled(resolved: map<string, Registration>, data: seq<Entry>, items: seq<Item>, answers: nat -> Reply,
      n: nat)
    ensures Fills(items[..0], []) && AllUsed([], {}) && AllUsable(answers, n, n, {})
    ensures Positioned(resolved, map[], data[..0])
  {
    assert items[..0] == [] && data[..0] == [];
  }

  lemma ItemIs(data: seq<Entry>, registrations: seq<Registration>, i: nat, registration: Option<Registration>)
    requires i < |data| && registration == Resolved(registrations, data[i].field)
    ensures var item := Items(data, registrations)[i];
            if registration == None || data[i].value.Typed? then item == Item.Kept(data[i])
            else if data[i].value.file.bytes == [] then item == Omitted
            else item == Sends(IdField(registration.value, data[i].field), data[i].value.file,
                   UploadIntent.Parse(Asked(data, registration.value, Count(data[..i + 1], data[i].field))))
  {
    hide Resolved, UploadIntent.Parse, Asked, Count, IdField;
  }

  lemma ItemsGrow(items: seq<Item>, i: nat, done: seq<Filled>)
    requires i < |items| && Fills(items[..i], done)
    ensures items[i].Kept? ==> Fills(items[..i + 1], done + [Filled.Kept(items[i].entry)])
    ensures items[i].Omitted? ==> Fills(items[..i + 1], done)
    ensures items[i].Sends? && items[i].intent.Some? ==>
              forall id :: Fills(items[..i + 1], done + [UploadId(items[i].idField, id)])
  {
    assert items[..i + 1][..i] == items[..i];
    FillsOne(items[..i + 1], done, Filled.Kept(if items[i].Kept? then items[i].entry else Entry("", Typed(""))));
    if items[i].Sends? && items[i].intent.Some? {
      forall id ensures Fills(items[..i + 1], done + [UploadId(items[i].idField, id)]) {
        FillsOne(items[..i + 1], done, UploadId(items[i].idField, id));
      }
    }
  }

  lemma FillsOne(items: seq<Item>, done: seq<Filled>, one: Filled)
    requires items != [] && Fills(items[..|items| - 1], done)
    ensures items[|items| - 1].Omitted? ==> Fills(items, done)
    ensures match items[|items| - 1]
            case Omitted => true
            case Kept(entry) => one == Filled.Kept(entry) ==> Fills(items, done + [one])
            case Sends(idField, _, intent) =>
              intent.Some? && one.UploadId? && one.field == idField ==> Fills(items, done + [one])
  {
    assert (done + [one])[..|done|] == done;
  }

  function Only(uploads: seq<CachedUpload>, kept: set<CachedUpload>): (r: seq<CachedUpload>)
    ensures forall i :: 0 <= i < |r| ==> r[i] in uploads && r[i] in kept
    ensures forall i :: 0 <= i < |uploads| && uploads[i] in kept ==> uploads[i] in r
  {
    if uploads == [] then []
    else
      var last := uploads[|uploads| - 1];
      Only(uploads[..|uploads| - 1], kept) + if last in kept then [last] else []
  }

  function Deletes(uploads: seq<CachedUpload>, kept: set<CachedUpload>): seq<Request>
    reads uploads
  {
    if uploads == [] then []
    else
      var last := uploads[|uploads| - 1];
      Deletes(uploads[..|uploads| - 1], kept)
        + (if last in kept || last.submitted then [] else [Delete(last.progress.uploadId)])
  }

  // Exactly the unsubmitted uploads that are not kept are deleted.
  lemma {:induction false} DeletesExactly(uploads: seq<CachedUpload>, kept: set<CachedUpload>, request: Request)
    ensures request in Deletes(uploads, kept) <==>
              exists c <- uploads :: c !in kept && !c.submitted && request == Delete(c.progress.uploadId)
  {
    if uploads != [] {
      var n := |uploads| - 1;
      DeletesExactly(uploads[..n], kept, request);
      assert uploads == uploads[..n] + [uploads[n]];
    }
  }

  lemma {:induction false} DeletesAreTraced(data: seq<Entry>, uploads: seq<CachedUpload>, kept: set<CachedUpload>,
      dropped: set<CachedUpload>)
    requires forall c :: c in uploads && c !in kept ==> c in dropped
    ensures forall k :: 0 <= k < |Deletes(uploads, kept)| ==> Traced(data, dropped, Deletes(uploads, kept)[k])
  {
    hide OfForm;
    if uploads != [] {
      DeletesAreTraced(data, uploads[..|uploads| - 1], kept, dropped);
    }
  }

  // What the client sends is what the protocol asks of an honest client.
  lemma GoodRequestsAreHonest(file: Bytes, request: Request, caller: Caller, now: int, fate: AppendFate, commits: bool)
    requires GoodRequest(file, request) && request.Chunk?
    ensures Honest(file, Append(caller, now, request.offset, request.bytes, fate, commits))
    ensures ChunkGuard(|file|, request.offset, |request.bytes|)
  {
  }
}

// Browser and server together: what an id returned by the client means when the answers come from a run of the
// protocol.
module UploadDelivery {
  import opened Wrappers
  import opened ResumableStore
  import opened UploadServer
  import UploadRuns
  import opened UploadClient

  // A server that keeps one upload: the world it was started in, what happens to it, and for each request of the
  // client the event that answers it.
  datatype Service = Service(
    platform: Platform, id: string, start: UploadRuns.World, events: seq<UploadRuns.Event>, answeredBy: nat -> nat)

  function After(s: Service, n: nat): UploadRuns.World
    requires n <= |s.events|
  {
    UploadRuns.Run(s.platform, s.start, s.events[..n])
  }

  function Value<T>(r: Result<T, UploadError>): Option<T> {
    match r case Ok(value) => Some(value) case Err(_) => None
  }

  // What a call of the API returns; none when it throws, or is no call whose answer carries progress.
  function Returned(p: Platform, w: UploadRuns.World, e: UploadRuns.Event): Option<SafeProgress> {
    match e
    case Get(caller, now, fate, commits) =>
      Value(GetEffect(p, w.upload, w.cloud, caller, now, fate, commits).result)
    case Append(caller, now, offset, bytes, fate, commits) =>
      Value(AppendEffect(p, w.upload, w.cloud, caller, now, offset, bytes, fate, commits).result)
    case Complete(caller, now, fate, commits) =>
      Value(CompleteEffect(p, w.upload, w.cloud, caller, now, fate, commits).result)
    case _ => None
  }

  function Told(s: Service, progress: SafeProgress): Report {
    Report(Number(progress.confirmedOffset as real), progress.state, s.id)
  }

  // A report about the upload is what starting it returned, or what the event that answers the request returns.
  ghost predicate Answers(s: Service, answers: nat -> UploadClient.Reply) {
    forall k: nat :: answers(k).Reported? && answers(k).report.uploadId == s.id ==>
      || answers(k).report == Told(s, Safe(s.start.upload))
      || (s.answeredBy(k) < |s.events|
          && var progress := Returned(s.platform, After(s, s.answeredBy(k)), s.events[s.answeredBy(k)]);
             progress.Some? && answers(k).report == Told(s, progress.value))
  }

  // Every chunk the server takes for the upload is one the client sent for it.
  ghost predicate TakesSent(s: Service, sent: seq<Request>) {
    forall e :: e in s.events && e.Append? ==> Chunk(s.id, e.offset, e.bytes) in sent
  }

  ghost predicate Serves(s: Service, file: Bytes, answers: nat -> UploadClient.Reply, sent: seq<Request>) {
    && UploadRuns.Started(file, s.start)
    && (forall i :: 0 <= i < |s.events| ==> UploadRuns.Plausible(s.events[i]))
    && Answers(s, answers) && TakesSent(s, sent)
  }

  // The chunks sent for the upload are slices of the file.
  ghost predicate SendsFile(id: string, file: Bytes, sent: seq<Request>) {
    forall k :: 0 <= k < |sent| && sent[k].Chunk? && sent[k].id == id ==> GoodRequest(file, sent[k])
  }

  lemma ReturnsTheRecord(p: Platform, w: UploadRuns.World, e: UploadRuns.Event)
    ensures var progress := Returned(p, w, e);
            progress.Some? ==> progress.value == Safe(UploadRuns.Step(p, w, e).upload)
  {
    hide Denied, Reconciled, Exact, UploadChunk, Recovered, Progressed, AtRead, Arrivals;
  }

  lemma NextAfter(s: Service, n: nat)
    requires n < |s.events|
    ensures After(s, n + 1) == UploadRuns.Step(s.platform, After(s, n), s.events[n])
  {
    hide UploadRuns.Step;
    assert s.events[..n + 1][..n] == s.events[..n];
  }

  lemma HonestEvents(s: Service, file: Bytes, answers: nat -> UploadClient.Reply, sent: seq<Request>)
    requires Serves(s, file, answers, sent) && SendsFile(s.id, file, sent)
    ensures forall i :: 0 <= i < |s.events| ==> UploadRuns.Honest(file, s.events[i])
  {
    hide Answers, UploadRuns.Plausible;
    forall i | 0 <= i < |s.events| ensures UploadRuns.Honest(file, s.events[i]) {
      var e := s.events[i];
      if e.Append? {
        assert e in s.events;
        assert GoodRequest(file, Chunk(s.id, e.offset, e.bytes));
      }
    }
  }

  // The record names a generation that was exactly the file, with its size and hash.
  ghost predicate Delivered(p: Platform, file: Bytes, w: UploadRuns.World) {
    && (w.upload.status == Ready || w.upload.status == Finalized)
    && w.upload.completedSize == Some(|file|) && w.upload.completedSha == Some(p.sha(file))
    && w.upload.generation.Some? && w.upload.generation.value in w.cloud.written
    && w.cloud.written[w.upload.generation.value] == file
    && p.acceptable(w.upload.facts, w.upload.intent, file)
  }

  // A usable report tells of a record that is ready or finalized at that moment.
  lemma UsableReportIsTrue(s: Service, answers: nat -> UploadClient.Reply, k: nat)
    requires Answers(s, answers) && s.start.upload.status == Uploading
    requires answers(k).Reported? && answers(k).report.uploadId == s.id && Usable(answers(k).report)
    ensures var n := s.answeredBy(k);
            n < |s.events| && (After(s, n + 1).upload.status == Ready || After(s, n + 1).upload.status == Finalized)
  {
    hide Returned, After, UploadRuns.Step;
    var n := s.answeredBy(k);
    assert answers(k).report != Told(s, Safe(s.start.upload));
    ReturnsTheRecord(s.platform, After(s, n), s.events[n]);
    NextAfter(s, n);
  }

  lemma ReadyIsDelivered(s: Service, file: Bytes, n: nat)
    requires n <= |s.events| && UploadRuns.Started(file, s.start)
    requires forall i :: 0 <= i < |s.events| ==>
               UploadRuns.Plausible(s.events[i]) && UploadRuns.Honest(file, s.events[i])
    requires After(s, n).upload.status == Ready || After(s, n).upload.status == Finalized
    ensures Delivered(s.platform, file, After(s, n))
  {
    hide UploadRuns.Run, UploadRuns.Plausible, UploadRuns.Honest;
    var events := s.events[..n];
    assert forall i :: 0 <= i < |events| ==> events[i] == s.events[i];
    UploadRuns.UploadedFilesAreExact(s.platform, file, s.start, events);
  }

  // The client returns an id only for a report of a ready or finalized upload that came back since it began, and sends
  // good requests only. When its answers are those of the server, the record named by the id was ready or finalized
  // with exactly the bytes of the file selected, at the moment that answered the request.
  lemma ReturnedIdsAreDelivered(s: Service, file: Bytes, answers: nat -> UploadClient.Reply, sent: seq<Request>,
      first: nat)
    requires first <= |sent| && Serves(s, file, answers, sent) && SendsFile(s.id, file, sent[..first])
    requires forall k :: first <= k < |sent| ==> GoodRequest(file, sent[k])
    requires Usably(answers, first, |sent|, s.id)
    ensures exists n :: 0 <= n <= |s.events| && Delivered(s.platform, file, After(s, n))
  {
    hide Answers, TakesSent, After, Delivered, UploadRuns.Plausible, UploadRuns.Honest, GoodRequest;
    var report: Report :| CameBack(answers, first, |sent|, report) && Usable(report) && report.uploadId == s.id;
    var k :| first <= k < |sent| && answers(k) == Reported(report);
    forall i | 0 <= i < |sent| && sent[i].Chunk? && sent[i].id == s.id ensures GoodRequest(file, sent[i]) {
      if i < first { assert sent[..first][i] == sent[i]; }
    }
    HonestEvents(s, file, answers, sent);
    UsableReportIsTrue(s, answers, k);
    ReadyIsDelivered(s, file, s.answeredBy(k) + 1);
  }
}

// What the provider client makes of a request, by what becomes of it.
module ProviderOutcomes {
  import opened Wrappers
  import opened Calendar
  import opened ResumableStore

  // A chunk has 1 byte to 4 MiB, lies within the file, and is a multiple of 256 KiB unless it ends the file.
  lemma GuardExactly(size: nat, offset: int, length: nat)
    requires size <= 9007199254740991
    ensures ChunkGuard(size, offset, length) <==>
              && 1 <= length <= 4194304 && 0 <= offset && offset + length <= size
              && (offset + length < size ==> length % 262144 == 0)
  {
  }

  // Numbers are written digit by digit, without leading zeros, and a Range header ends with the last byte held.
  lemma RangeSays(n: nat, d: nat, held: nat)
    requires d <= 9
    ensures Decimal(d) == [('0' as int + d) as char]
    ensures n > 0 ==> Decimal(10 * n + d) == Decimal(n) + [('0' as int + d) as char]
    ensures RangeText(held) == if held == 0 then None else Some("bytes=0-" + Decimal(held - 1))
  {
    assert (10 * n + d) / 10 == n && (10 * n + d) % 10 == d;
  }

  // Bytes that arrive: of what the session does not hold yet, as much is kept as it says, and an object is made of the
  // whole file when there is none. What does not follow on what is held, or comes too late, changes nothing.
  lemma ArrivalOutcomes(c: Cloud, size: nat, put: Put, kept: nat)
    requires WellFormed(c, size) && put.offset + |put.bytes| <= size
    ensures var after, end := Receive(c, size, put, kept), put.offset + |put.bytes|;
            if c.phase == Open && put.offset <= |c.held| < end then
              && |after.held| == (if |c.held| + kept < end then |c.held| + kept else end)
              && after.held[..|c.held|] == c.held
              && after.held[|c.held|..] == put.bytes[|c.held| - put.offset..|after.held| - put.offset]
              && (|after.held| < size ==> after == c.(held := after.held))
              && (|after.held| == size && c.stored.Some? ==> after == c.(held := after.held, phase := Gone))
              && (|after.held| == size && c.stored == None ==>
                    && after.phase == Done && after.stored == Some(StoredObject(c.nextGeneration, after.held))
                    && c.nextGeneration !in c.written)
            else after == c
  {
    var news := News(c.held, put);
    if c.phase == Open && put.offset <= |c.held| < put.offset + |put.bytes| && kept < |news| {
      assert news[..kept] == put.bytes[|c.held| - put.offset..|c.held| - put.offset + kept];
    }
  }

  // Asking for the status.
  lemma StatusOutcomes(c: Cloud, size: nat, reply: Reply)
    requires WellFormed(c, size) && size <= MAX_SAFE
    ensures GetStatus(c, size, reply)
         == match reply
            case Silence => Err(ProviderFailure)
            case Session =>
              (match c.phase
               case Open => Ok(Progress(false, |c.held|))
               case Done => Ok(Progress(true, size))
               case Gone => Err(NotFound))
            case Fault(status) =>
              if status in {200, 201} then Ok(Progress(true, size))
              else if status == 308 then Ok(Progress(false, 0))
              else if status in {404, 410, 499} then Err(NotFound) else Err(ProviderFailure)
  {
    hide ReadRange;
    AnswerIsTrue(c, size);
    hide Answer;
    if reply == Session { SessionAnswers(c); }
  }

  lemma SessionAnswers(c: Cloud)
    ensures Answer(c).status == match c.phase case Open => 308 case Done => 200 case Gone => 410
  {
  }

  // Which headers are read as a position: the literal beginning and digits, and no position past the file.
  lemma HeaderOutcomes(header: string, size: nat, next: nat)
    requires size <= MAX_SAFE
    ensures ReadProgress(Response(308, None), size) == Ok(Some(Progress(false, 0)))
    ensures header == "bytes=0-" + Decimal(next) ==>
              ReadProgress(Response(308, Some(header)), size)
              == if next < size then Ok(Some(Progress(false, next + 1))) else Err(ProviderFailure)
  {
    hide Decimal, ReadRange;
    if header == "bytes=0-" + Decimal(next) {
      assert RangeText(next + 1) == Some(header);
      RangeRoundTrip(next + 1);
    }
  }

  // A chunk that the guard turns away is never sent.
  lemma TurnedAway(c: Cloud, size: nat, put: Put, fate: ChunkFate)
    requires !ChunkGuard(size, put.offset, |put.bytes|)
    ensures UploadChunk(c, size, put, fate) == (c, Err(IntegrityFailure))
  {
  }

  // An answer of the session to a chunk.
  lemma AnsweredChunk(c: Cloud, size: nat, put: Put, kept: nat, late: seq<Late>, status: Reply)
    requires WellFormed(c, size) && size <= MAX_SAFE && ChunkGuard(size, put.offset, |put.bytes|)
    ensures var after := Receive(c, size, put, kept);
            UploadChunk(c, size, put, ChunkFate(Now(kept), Session, late, status))
            == (after, match after.phase
                       case Open => Ok(Progress(false, |after.held|))
                       case Done => Ok(Progress(true, size))
                       case Gone => Err(NotFound))
  {
    hide ReadProgress, Receive, GetStatus, Arrivals;
    ReceiveKeeps(c, size, put, kept);
    AnswerIsTrue(Receive(c, size, put, kept), size);
    hide Answer;
    SessionAnswers(Receive(c, size, put, kept));
  }

  // A chunk whose request is never answered, or answered by a failure of the provider: the status is asked for after
  // silence and after a server error, and every other failure is the result itself.
  lemma UnansweredChunk(c: Cloud, size: nat, put: Put, fate: ChunkFate)
    requires WellFormed(c, size) && size <= MAX_SAFE && ChunkGuard(size, put.offset, |put.bytes|)
    requires IsFault(fate.reply)
    ensures var sent := Sent(c, size, put, fate.arrival);
            var later := Arrivals(sent, size, fate.late);
            var asked := GetStatus(later, size, fate.status);
            && (fate.reply == Silence ==>
                  UploadChunk(c, size, put, fate) == (later, if asked.Ok? then asked else Err(ProviderFailure)))
            && (fate.reply.Fault? && fate.reply.status >= 500 ==> UploadChunk(c, size, put, fate) == (later, asked))
            && (fate.reply.Fault? && fate.reply.status in {404, 410, 499} ==>
                  UploadChunk(c, size, put, fate) == (sent, Err(NotFound)))
            && (fate.reply.Fault? && fate.reply.status < 500 && fate.reply.status !in {404, 410, 499} ==>
                  UploadChunk(c, size, put, fate) == (sent, Err(ProviderFailure)))
  {
    hide ReadProgress, Receive, GetStatus, Arrivals, Answer;
    FaultReportsNothing(fate.reply, size);
  }

  // A chunk that does not arrive at once may arrive at any later time, any number of times; nothing arrives that was
  // not sent.
  lemma OnTheWay(c: Cloud, size: nat, put: Put, kept: nat, other: Put)
    requires other != put
    ensures var sent := Sent(c, size, put, Later);
            && sent.(wire := c.wire) == c
            && put in sent.wire && (other in sent.wire <==> other in c.wire)
            && Arrived(sent, size, Late(put, kept)) == Receive(sent, size, put, kept)
            && (other !in c.wire ==> Arrived(sent, size, Late(other, kept)) == sent)
            && Sent(c, size, put, Never) == c
  {
    hide Receive;
  }

  // Reading, deleting and cancelling.
  lemma ObjectOutcomes(c: Cloud, generation: nat, arrives: bool, answered: bool, failure: Option<StorageError>)
    ensures ReadTemporary(c, None) == if c.stored.Some? then Ok(c.stored.value) else Err(NotFound)
    ensures failure.Some? ==> ReadTemporary(c, failure).Err? && ReadTemporary(c, failure).error != NotFound
    ensures DeleteTemporary(c, generation, arrives, answered)
         == (Cloud(c.held, c.phase,
                   if arrives && c.stored.Some? && c.stored.value.generation == generation then None else c.stored,
                   c.nextGeneration, c.written, c.wire),
             if arrives && answered then Ok(()) else Err(ProviderFailure))
    ensures Cancel(c, arrives, answered)
         == (Cloud(c.held, if arrives then Gone else c.phase, c.stored, c.nextGeneration, c.written, c.wire),
             if arrives && answered then Ok(()) else Err(ProviderFailure))
  {
  }
}

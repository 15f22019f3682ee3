// The storage provider's half of a resumable upload: what it holds, what it answers, and how the
// server's provider client reads the answers.
module ResumableStore {
  import opened Wrappers
  import opened Text
  import opened Calendar

  newtype byte = x: int | 0 <= x < 256
  type Bytes = seq<byte>

  const MAX_SAFE := 0x1F_FFFF_FFFF_FFFF
  const CHUNK_MAX := 4 * 1024 * 1024
  const CHUNK_ALIGN := 256 * 1024

  // ---- byte-range text (section 14.1.2 of RFC 9110) ----

  function Decimal(n: nat): (s: string)
    ensures s != "" && Digits(s)
  {
    if n < 10 then [Digit(n)] else Decimal(n / 10) + [Digit(n % 10)]
  }

  function DecimalValue(s: string): nat
    requires Digits(s)
  {
    if s == "" then 0 else 10 * DecimalValue(s[..|s| - 1]) + DigitValue(s[|s| - 1])
  }

  lemma {:induction false} DecimalRoundTrip(n: nat)
    ensures DecimalValue(Decimal(n)) == n
  {
    if n >= 10 {
      DecimalRoundTrip(n / 10);
      assert Decimal(n)[..|Decimal(n)| - 1] == Decimal(n / 10);
    } else {
      assert Decimal(n)[..0] == "";
    }
  }

  const RANGE_PREFIX := "bytes=0-"

  // The Range header for the first `held` bytes; there is none for no bytes.
  function RangeText(held: nat): Option<string> {
    if held == 0 then None else Some(RANGE_PREFIX + Decimal(held - 1))
  }

  // The count of bytes a Range header reports; none when it is not of the form bytes=0-N.
  function ReadRange(header: string): Option<nat> {
    var s := Trim(header);
    if |s| > 8 && s[..8] == RANGE_PREFIX && Digits(s[8..]) then Some(DecimalValue(s[8..]) + 1) else None
  }

  lemma RangeRoundTrip(held: nat)
    requires held > 0
    ensures ReadRange(RangeText(held).value) == Some(held)
  {
    var s := RANGE_PREFIX + Decimal(held - 1);
    DecimalRoundTrip(held - 1);
    assert IsDigit(Decimal(held - 1)[|Decimal(held - 1)| - 1]);
    assert s[0] == 'b' && s[|s| - 1] == Decimal(held - 1)[|Decimal(held - 1)| - 1];
    assert TrimStart(s) == s && TrimEnd(s) == s;
    assert s[..8] == RANGE_PREFIX && s[8..] == Decimal(held - 1);
  }

  // ---- what the provider holds ----

  // A session takes bytes while open; it is done once the object exists and gone once it was
  // cancelled, expired or forgotten.
  datatype Phase = Open | Done | Gone

  datatype StoredObject = StoredObject(generation: nat, bytes: Bytes)

  datatype Put = Put(offset: nat, bytes: Bytes)

  // `held` are the bytes the session has persisted. `written` remembers what every generation of the
  // temporary object was, also after its deletion. `wire` are requests that may still arrive.
  datatype Cloud = Cloud(
    held: Bytes, phase: Phase, stored: Option<StoredObject>, nextGeneration: nat,
    written: map<nat, Bytes>, wire: set<Put>)

  const EMPTY_CLOUD := Cloud([], Open, None, 1, map[], {})

  // The part of a request that the session does not hold yet; a request past the end adds nothing.
  function News(held: Bytes, put: Put): Bytes {
    if put.offset <= |held| < put.offset + |put.bytes| then put.bytes[|held| - put.offset..] else []
  }

  // A request reaches the session, which keeps at most `kept` of the new bytes. With the last byte
  // the object is created, unless one is there already.
  function Receive(c: Cloud, size: nat, put: Put, kept: nat): Cloud {
    if c.phase != Open then c
    else
      var news := News(c.held, put);
      var held := c.held + if kept < |news| then news[..kept] else news;
      if |held| < size then c.(held := held)
      else if c.stored.Some? then c.(held := held, phase := Gone)
      else c.(held := held, phase := Done,
              stored := Some(StoredObject(c.nextGeneration, held)),
              written := c.written[c.nextGeneration := held],
              nextGeneration := c.nextGeneration + 1)
  }

  // A request sent earlier reaches the session now.
  datatype Late = Late(put: Put, kept: nat)

  function Arrived(c: Cloud, size: nat, late: Late): Cloud {
    if late.put in c.wire then Receive(c, size, late.put, late.kept) else c
  }

  // Several do, one after the other.
  function Arrivals(c: Cloud, size: nat, late: seq<Late>): Cloud
    decreases |late|
  {
    if late == [] then c else Arrivals(Arrived(c, size, late[0]), size, late[1..])
  }

  datatype Response = Response(status: int, range: Option<string>)

  // What the session answers about itself.
  function Answer(c: Cloud): Response {
    match c.phase
    case Done => Response(200, None)
    case Open => Response(308, RangeText(|c.held|))
    case Gone => Response(410, None)
  }

  // ---- how the provider client reads the answers ----

  datatype StorageError = ProviderFailure | NotFound | IntegrityFailure

  datatype Progress = Progress(complete: bool, nextOffset: nat)

  // `resumableProgress`: none when the answer reports no progress.
  function ReadProgress(response: Response, size: nat): Result<Option<Progress>, StorageError> {
    if response.status == 200 || response.status == 201 then Ok(Some(Progress(true, size)))
    else if response.status != 308 then Ok(None)
    else
      match response.range
      case None => Ok(Some(Progress(false, 0)))
      case Some("") => Ok(Some(Progress(false, 0)))
      case Some(header) =>
        match ReadRange(header)
        case None => Err(ProviderFailure)
        case Some(next) =>
          if next > MAX_SAFE || next > size then Err(ProviderFailure) else Ok(Some(Progress(false, next)))
  }

  function Failure(status: int): StorageError {
    if status == 404 || status == 410 || status == 499 then NotFound else ProviderFailure
  }

  // What becomes of a request: it is never answered, the provider fails, or the session answers.
  datatype Reply = Silence | Fault(status: int) | Session

  predicate IsFault(reply: Reply) {
    reply.Fault? ==> reply.status != 200 && reply.status != 201 && reply.status != 308
  }

  // `getResumableStatus`
  function GetStatus(c: Cloud, size: nat, reply: Reply): Result<Progress, StorageError> {
    if reply == Silence then Err(ProviderFailure)
    else
      var response := if reply.Fault? then Response(reply.status, None) else Answer(c);
      match ReadProgress(response, size)
      case Err(e) => Err(e)
      case Ok(Some(p)) => Ok(p)
      case Ok(None) => Err(Failure(response.status))
  }

  // When a chunk reaches the session: never, at some later time, or now with so much of it kept.
  datatype Arrival = Never | Later | Now(kept: nat)

  // `late` are the requests that arrive before the session is asked for its status, this one perhaps among them.
  datatype ChunkFate = ChunkFate(arrival: Arrival, reply: Reply, late: seq<Late>, status: Reply)

  predicate ChunkGuard(size: nat, offset: int, length: nat) {
    0 < length <= CHUNK_MAX && 0 <= offset <= MAX_SAFE && offset + length <= size
    && (offset + length == size || length % CHUNK_ALIGN == 0)
  }

  function Sent(c: Cloud, size: nat, put: Put, arrival: Arrival): Cloud {
    match arrival
    case Never => c
    case Later => c.(wire := c.wire + {put})
    case Now(kept) => Receive(c, size, put, kept)
  }

  // `uploadResumableChunk`
  function UploadChunk(c: Cloud, size: nat, put: Put, fate: ChunkFate): (Cloud, Result<Progress, StorageError>) {
    if !ChunkGuard(size, put.offset, |put.bytes|) then (c, Err(IntegrityFailure))
    else
      var after := Sent(c, size, put, fate.arrival);
      var later := Arrivals(after, size, fate.late);
      if fate.reply == Silence || (fate.reply == Session && !fate.arrival.Now?) then
        (later, match GetStatus(later, size, fate.status) case Ok(p) => Ok(p) case Err(_) => Err(ProviderFailure))
      else
        var response := if fate.reply.Fault? then Response(fate.reply.status, None) else Answer(after);
        match ReadProgress(response, size)
        case Err(e) => (after, Err(e))
        case Ok(Some(p)) => (after, Ok(p))
        case Ok(None) =>
          if response.status >= 500 then (later, GetStatus(later, size, fate.status))
          else (after, Err(Failure(response.status)))
  }

  // `cancelResumable`: whether the request arrives, and what comes back.
  function Cancel(c: Cloud, arrives: bool, answered: bool): (Cloud, Result<(), StorageError>) {
    (if arrives then c.(phase := Gone) else c, if arrives && answered then Ok(()) else Err(ProviderFailure))
  }

  // `readTemporary`; a failure is one the provider reports about an object that exists.
  function ReadTemporary(c: Cloud, failure: Option<StorageError>): Result<StoredObject, StorageError> {
    match failure
    case Some(e) => Err(if e == NotFound then ProviderFailure else e)
    case None => match c.stored case Some(o) => Ok(o) case None => Err(NotFound)
  }

  // `deleteTemporary`: only the named generation is deleted; a missing object counts as deleted.
  function DeleteTemporary(c: Cloud, generation: nat, arrives: bool, answered: bool)
      : (Cloud, Result<(), StorageError>) {
    (if arrives && c.stored.Some? && c.stored.value.generation == generation then c.(stored := None) else c,
     if arrives && answered then Ok(()) else Err(ProviderFailure))
  }

  // ---- what the answers mean ----

  ghost predicate WellFormed(c: Cloud, size: nat) {
    && |c.held| <= size
    && (c.phase == Open ==> |c.held| < size)
    && (c.phase == Done ==> |c.held| == size)
    && (c.stored.Some? ==>
          && c.stored.value.generation in c.written
          && c.written[c.stored.value.generation] == c.stored.value.bytes)
    && (forall g :: g in c.written ==> g < c.nextGeneration && |c.written[g]| == size && c.written[g] == c.held)
    && (forall g, h :: g in c.written && h in c.written ==> g == h)
    && (forall put :: put in c.wire ==> put.offset + |put.bytes| <= size)
  }

  // What the provider never takes back.
  ghost predicate MovesOn(c: Cloud, d: Cloud, size: nat) {
    && WellFormed(d, size) && c.held <= d.held
    && (forall g :: g in c.written ==> g in d.written && d.written[g] == c.written[g])
    && (c.phase != Open ==> d.phase != Open && (c.stored == None ==> d.stored == None))
  }

  lemma ReceiveKeeps(c: Cloud, size: nat, put: Put, kept: nat)
    requires WellFormed(c, size) && put.offset + |put.bytes| <= size
    ensures MovesOn(c, Receive(c, size, put, kept), size)
    ensures Receive(c, size, put, kept).wire == c.wire
    ensures c.phase != Open ==> Receive(c, size, put, kept) == c
  {
    if c.phase == Open {
      assert forall g :: g !in c.written;
    }
  }

  lemma ArrivedKeeps(c: Cloud, size: nat, late: Late)
    requires WellFormed(c, size)
    ensures MovesOn(c, Arrived(c, size, late), size) && Arrived(c, size, late).wire == c.wire
    ensures c.phase != Open ==> Arrived(c, size, late) == c
  {
    if late.put in c.wire { ReceiveKeeps(c, size, late.put, late.kept); }
    hide WellFormed;
  }

  // Late requests only extend what is held, and find a session that is not open any more as it was.
  lemma {:induction false} ArrivalsKeep(c: Cloud, size: nat, late: seq<Late>)
    requires WellFormed(c, size)
    ensures MovesOn(c, Arrivals(c, size, late), size) && Arrivals(c, size, late).wire == c.wire
    ensures c.phase != Open ==> Arrivals(c, size, late) == c
    decreases |late|
  {
    hide WellFormed, Arrived;
    if late != [] {
      ArrivedKeeps(c, size, late[0]);
      ArrivalsKeep(Arrived(c, size, late[0]), size, late[1..]);
    }
  }

  // A reported progress is true: the offset is what the session holds, and a completed session holds
  // every byte.
  lemma AnswerIsTrue(c: Cloud, size: nat)
    requires WellFormed(c, size) && size <= MAX_SAFE
    ensures ReadProgress(Answer(c), size) ==
              match c.phase
              case Done => Ok(Some(Progress(true, size)))
              case Open => Ok(Some(Progress(false, |c.held|)))
              case Gone => Ok(None)
  {
    if c.phase == Open && |c.held| > 0 { RangeRoundTrip(|c.held|); }
  }

  ghost predicate TrueProgress(c: Cloud, size: nat, p: Progress) {
    p.nextOffset == |c.held| && (p.complete <==> |c.held| == size)
  }

  lemma StatusIsTrue(c: Cloud, size: nat, reply: Reply)
    requires WellFormed(c, size) && size <= MAX_SAFE && IsFault(reply)
    ensures GetStatus(c, size, reply).Ok? ==> TrueProgress(c, size, GetStatus(c, size, reply).value)
  {
    hide ReadRange;
    AnswerIsTrue(c, size);
  }

  // Whatever is lost on the way, a chunk leaves the session with a longer beginning of the same
  // bytes, and any progress that comes back is true.
  lemma ChunkIsTrue(c: Cloud, size: nat, put: Put, fate: ChunkFate)
    requires WellFormed(c, size) && size <= MAX_SAFE && IsFault(fate.reply) && IsFault(fate.status)
    ensures var (after, r) := UploadChunk(c, size, put, fate);
            && MovesOn(c, after, size)
            && (r.Ok? ==> TrueProgress(after, size, r.value))
  {
    hide ReadRange, ReadProgress, Answer, Receive, Failure, Arrivals;
    if ChunkGuard(size, put.offset, |put.bytes|) {
      if fate.arrival.Now? { ReceiveKeeps(c, size, put, fate.arrival.kept); }
      var sent := Sent(c, size, put, fate.arrival);
      assert MovesOn(c, sent, size);
      ArrivalsKeep(sent, size, fate.late);
      var after := UploadChunk(c, size, put, fate).0;
      AnswerIsTrue(after, size);
      StatusIsTrue(after, size, fate.status);
      FaultReportsNothing(fate.reply, size);
    }
  }

  lemma FaultReportsNothing(reply: Reply, size: nat)
    requires IsFault(reply)
    ensures reply.Fault? ==> ReadProgress(Response(reply.status, None), size) == Ok(None)
  {
  }
}

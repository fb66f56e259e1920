/** blob-service's upload state machine: calls split at every repository and storage
    step, interleaved, against an atomic machine that does each call in one step. */
module BlobUpload {
  import opened Prelude
  import opened BlobStore

  // ------------------------------------------------------ the atomic machine

  /** What the service promises per ID; an ID that is not in the map is absent. */
  datatype Upload =
    | PENDING(size: int, contentType: string, createdAt: Time)
    | COMMITTED(size: int, contentType: string, createdAt: Time, at: Time)

  type Uploads = map<BlobId, Upload>

  datatype Op =
    | Initiate(id: BlobId, size: int, contentType: string, createdAt: Time)
    | Complete(id: BlobId, at: Time)
    | Download(id: BlobId)
    | Info(id: BlobId)

  datatype Answer =
    | UploadTo                       // a presigned URL, or one per part
    | AlreadyExists
    | CommittedAt(at: Time)
    | Refused(error: BlobError)
    | DownloadFrom
    | Found(upload: Upload)

  datatype Atomic = Atomic(uploads: Uploads, answer: Answer)

  function Do(a: Uploads, op: Op): Atomic {
    match op
    case Initiate(id, size, contentType, createdAt) =>
      if id !in a then Atomic(a[id := PENDING(size, contentType, createdAt)], UploadTo)
      else Atomic(a, if a[id].PENDING? then UploadTo else AlreadyExists)
    case Complete(id, at) =>
      if id !in a then Atomic(a, Refused(BlobNotFound))
      else if a[id].COMMITTED? then Atomic(a, Refused(AlreadyCommitted))
      else Atomic(a[id := COMMITTED(a[id].size, a[id].contentType, a[id].createdAt, at)], CommittedAt(at))
    case Download(id) =>
      Atomic(a, if id !in a then Refused(BlobNotFound)
                else if a[id].PENDING? then Refused(BlobPending)
                else DownloadFrom)
    case Info(id) =>
      Atomic(a, if id !in a then Refused(BlobNotFound) else Found(a[id]))
  }

  /** An operation in the order in which operations took effect. */
  datatype Effect = Effect(call: nat, op: Op, answer: Answer)

  function Replay(trace: seq<Effect>): Uploads
    decreases |trace|
  {
    if trace == [] then map[] else Do(Replay(trace[..|trace| - 1]), trace[|trace| - 1].op).uploads
  }

  /** The atomic machine, doing these operations in this order, gives these answers. */
  ghost predicate Legal(trace: seq<Effect>) {
    forall i | 0 <= i < |trace| :: trace[i].answer == Do(Replay(trace[..i]), trace[i].op).answer
  }

  // --------------------------------------------------------- split calls

  datatype Request =
    | InitiateUpload(id: BlobId, size: int, contentType: string)
    | InitiateMultipart(id: BlobId, size: int, contentType: string, partCount: int)
    | CompleteUpload(id: BlobId)
    | CompleteMultipart(id: BlobId)
    | AbortMultipart(id: BlobId)
    | GetDownloadURL(id: BlobId, ttl: Time)
    | GetBlobInfo(id: BlobId)

  /** The statement a call runs next. */
  datatype Phase =
    | Finding
    | Stamping                         // time.Now(), before the write
    | Creating(createdAt: Time)
    | Presigning(op: Op, left: nat)    // storage steps left before the answer
    | CompletingParts
    | Marking(at: Time)
    | PresigningGet(ttl: Time)
    | AbortingParts

  datatype Call = Call(request: Request, phase: Phase)

  datatype Ending =
    | Done(op: Op, answer: Answer)
    | Invalid                          // malformed ID or part count
    | StorageFailed
    | CreateFailed(error: BlobError)
    | Aborted

  datatype Response = Response(request: Request, result: Ending)

  /** `trace` is history: the operations, where they took effect. */
  datatype State = State(now: Time, blobs: Blobs, calls: map<nat, Call>, responses: map<nat, Response>,
                         trace: seq<Effect>)

  const INIT := State(0, map[], map[], map[], [])

  datatype Event =
    | Tick(elapsed: nat)
    | Start(call: nat, request: Request)
    | Advance(call: nat, storageOk: bool)

  predicate Accepted(q: Request) {
    ValidId(q.id) && (q.InitiateMultipart? ==> q.partCount >= 1)
  }

  predicate Initiates(q: Request) {
    q.InitiateUpload? || q.InitiateMultipart?
  }

  predicate Completes(q: Request) {
    q.CompleteUpload? || q.CompleteMultipart?
  }

  function StartStep(s: State, c: nat, q: Request): State {
    if c in s.calls || c in s.responses then s
    else if !Accepted(q) then s.(responses := s.responses[c := Response(q, Invalid)])
    else s.(calls := s.calls[c := Call(q, if q.AbortMultipart? then AbortingParts else Finding)])
  }

  function Respond(s: State, c: nat, result: Ending): State
    requires c in s.calls
  {
    s.(calls := s.calls - {c}, responses := s.responses[c := Response(s.calls[c].request, result)])
  }

  function Goto(s: State, c: nat, phase: Phase): State
    requires c in s.calls
  {
    s.(calls := s.calls[c := s.calls[c].(phase := phase)])
  }

  function TakeEffect(s: State, c: nat, op: Op, answer: Answer): State {
    s.(trace := s.trace + [Effect(c, op, answer)])
  }

  /** Takes effect now and answers at once. */
  function Finish(s: State, c: nat, op: Op, answer: Answer): State
    requires c in s.calls
  {
    Respond(TakeEffect(s, c, op, answer), c, Done(op, answer))
  }

  /** One presigned PUT, or CreateMultipartUpload and one URL per part. */
  function StorageSteps(q: Request): nat {
    if q.InitiateMultipart? && q.partCount >= 0 then 1 + q.partCount else 1
  }

  function InitiateOp(q: Request, createdAt: Time): Op
    requires Initiates(q)
  {
    Initiate(q.id, q.size, q.contentType, createdAt)
  }

  function FindStep(c: Config, s: State, k: nat): State
    requires k in s.calls
  {
    var q := s.calls[k].request;
    var row := FindByID(s.blobs, q.id);
    match q
    case InitiateUpload(_, _, _) => InitiateFound(s, k, q, row)
    case InitiateMultipart(_, _, _, _) => InitiateFound(s, k, q, row)
    case CompleteUpload(id) =>
      if row.None? then Finish(s, k, Complete(id, s.now), Refused(BlobNotFound))
      else if row.value.state.Committed? then Finish(s, k, Complete(id, s.now), Refused(AlreadyCommitted))
      else Goto(s, k, Stamping)
    case CompleteMultipart(id) =>
      if row.None? then Finish(s, k, Complete(id, s.now), Refused(BlobNotFound))
      else if row.value.state.Committed? then Finish(s, k, Complete(id, s.now), Refused(AlreadyCommitted))
      else Goto(s, k, CompletingParts)
    case GetDownloadURL(id, ttl) =>
      if row.None? then Finish(s, k, Download(id), Refused(BlobNotFound))
      else if row.value.state.Pending? then Finish(s, k, Download(id), Refused(BlobPending))
      else Goto(TakeEffect(s, k, Download(id), DownloadFrom), k, PresigningGet(Clamped(c, ttl)))
    case GetBlobInfo(id) =>
      Finish(s, k, Info(id), if row.None? then Refused(BlobNotFound) else Found(View(row.value)))
    case AbortMultipart(_) => s
  }

  function InitiateFound(s: State, k: nat, q: Request, row: Option<Blob>): State
    requires k in s.calls && Initiates(q)
  {
    if row.None? then Goto(s, k, Stamping)
    else if row.value.state.Committed? then Finish(s, k, InitiateOp(q, s.now), AlreadyExists)
    else Goto(TakeEffect(s, k, InitiateOp(q, s.now), UploadTo), k, Presigning(InitiateOp(q, s.now), StorageSteps(q)))
  }

  function CreateStep(s: State, k: nat): State
    requires k in s.calls && s.calls[k].phase.Creating?
  {
    var q := s.calls[k].request;
    if !Initiates(q) then s
    else
      var op := InitiateOp(q, s.calls[k].phase.createdAt);
      match Create(s.blobs, NewBlob(q.id, q.size, q.contentType, s.calls[k].phase.createdAt))
      case Failure(e) => Respond(s, k, CreateFailed(e))
      case Success(blobs) => Goto(TakeEffect(s.(blobs := blobs), k, op, UploadTo), k, Presigning(op, StorageSteps(q)))
  }

  function MarkStep(s: State, k: nat): State
    requires k in s.calls && s.calls[k].phase.Marking?
  {
    var id, at := s.calls[k].request.id, s.calls[k].phase.at;
    match MarkCommitted(s.blobs, id, at)
    case Failure(e) => Finish(s, k, Complete(id, at), Refused(e))
    case Success(blobs) => Finish(s.(blobs := blobs), k, Complete(id, at), CommittedAt(at))
  }

  function AdvanceStep(c: Config, s: State, k: nat, storageOk: bool): State {
    if k !in s.calls then s
    else match s.calls[k].phase
      case Finding => FindStep(c, s, k)
      case Stamping => Goto(s, k, if Initiates(s.calls[k].request) then Creating(s.now) else Marking(s.now))
      case Creating(_) => CreateStep(s, k)
      case Presigning(op, left) =>
        if !storageOk then Respond(s, k, StorageFailed)
        else if left > 1 then Goto(s, k, Presigning(op, left - 1))
        else Respond(s, k, Done(op, UploadTo))
      case CompletingParts => if storageOk then Goto(s, k, Stamping) else Respond(s, k, StorageFailed)
      case Marking(_) => MarkStep(s, k)
      case PresigningGet(_) =>
        Respond(s, k, if storageOk then Done(Download(s.calls[k].request.id), DownloadFrom) else StorageFailed)
      case AbortingParts => Respond(s, k, if storageOk then Aborted else StorageFailed)
  }

  function Step(c: Config, s: State, e: Event): State {
    match e
    case Tick(elapsed) => s.(now := s.now + elapsed)
    case Start(k, request) => StartStep(s, k, request)
    case Advance(k, storageOk) => AdvanceStep(c, s, k, storageOk)
  }

  function Run(c: Config, s: State, events: seq<Event>): State
    decreases |events|
  {
    if events == [] then s else Run(c, Step(c, s, events[0]), events[1..])
  }

  ghost predicate Reachable(c: Config, s: State) {
    exists events :: s == Run(c, INIT, events)
  }

  // ------------------------------------------------------------- refinement

  /** A row as the atomic machine sees it. */
  function View(b: Blob): Upload {
    if b.state.Pending? then PENDING(b.size, b.contentType, b.createdAt)
    else COMMITTED(b.size, b.contentType, b.createdAt, b.committedAt.GetOr(0))
  }

  function Views(blobs: Blobs): Uploads {
    map id | id in blobs :: View(blobs[id])
  }

  predicate RowOk(id: BlobId, b: Blob) {
    b.id == id && b.key == id && ValidId(id) && (b.state.Committed? <==> b.committedAt.Some?) &&
    (b.committedAt.Some? ==> b.createdAt <= b.committedAt.value)
  }

  ghost predicate RowsOk(blobs: Blobs) {
    forall id | id in blobs :: RowOk(id, blobs[id])
  }

  /** The operation is the request's own. */
  predicate OpOf(q: Request, op: Op) {
    match op
    case Initiate(id, size, contentType, _) =>
      Initiates(q) && q.id == id && q.size == size && q.contentType == contentType
    case Complete(id, _) => Completes(q) && q.id == id
    case Download(id) => q.GetDownloadURL? && q.id == id
    case Info(id) => q.GetBlobInfo? && q.id == id
  }

  /** Whether the call took effect already, as the rest of it supposes. */
  ghost predicate CallOk(s: State, k: nat, call: Call) {
    ValidId(call.request.id) &&
    match call.phase
    case Presigning(op, _) => OpOf(call.request, op) && Effect(k, op, UploadTo) in s.trace
    case PresigningGet(_) =>
      call.request.GetDownloadURL? && Effect(k, Download(call.request.id), DownloadFrom) in s.trace
    case Stamping =>
      Initiates(call.request) ||
      (Completes(call.request) && call.request.id in s.blobs && s.blobs[call.request.id].createdAt <= s.now)
    case Creating(createdAt) => createdAt <= s.now && Initiates(call.request)
    case CompletingParts =>
      call.request.CompleteMultipart? && call.request.id in s.blobs && s.blobs[call.request.id].createdAt <= s.now
    case Marking(at) =>
      Completes(call.request) && call.request.id in s.blobs &&
      s.blobs[call.request.id].createdAt <= at <= s.now
    case _ => true
  }

  predicate TookEffect(p: Phase) {
    p.Presigning? || p.PresigningGet?
  }

  ghost predicate CallsOk(s: State) {
    (forall k | k in s.calls :: CallOk(s, k, s.calls[k]) && k !in s.responses) &&
    (forall e | e in s.trace :: if e.call in s.calls then TookEffect(s.calls[e.call].phase) else e.call in s.responses)
  }

  ghost predicate Answered(s: State) {
    forall k | k in s.responses && s.responses[k].result.Done? ::
      OpOf(s.responses[k].request, s.responses[k].result.op) &&
      Effect(k, s.responses[k].result.op, s.responses[k].result.answer) in s.trace
  }

  ghost predicate Once(trace: seq<Effect>) {
    forall i, j | 0 <= i < j < |trace| :: trace[i].call != trace[j].call
  }

  ghost predicate Refines(s: State) {
    Legal(s.trace) && Once(s.trace) && Replay(s.trace) == Views(s.blobs)
  }

  ghost predicate Stored(s: State) {
    RowsOk(s.blobs) && forall id | id in s.blobs :: s.blobs[id].createdAt <= s.now
  }

  ghost predicate Inv(s: State) {
    Refines(s) && Answered(s) && CallsOk(s) && Stored(s)
  }

  // ------------------------------------------------ what one call may change

  /** The columns the first Create fixes for ever. */
  predicate SameIdentity(a: Blob, b: Blob) {
    b.id == a.id && b.size == a.size && b.contentType == a.contentType && b.key == a.key &&
    b.createdAt == a.createdAt &&
    (a.state.Committed? ==> b == a)
  }

  ghost predicate Kept(a: Blobs, b: Blobs) {
    forall id | id in a :: id in b && SameIdentity(a[id], b[id])
  }

  ghost predicate OthersAlone(s: State, t: State, k: nat) {
    forall p | p != k ::
      (p in t.calls <==> p in s.calls) && (p in t.calls ==> t.calls[p] == s.calls[p]) &&
      (p in t.responses <==> p in s.responses) && (p in t.responses ==> t.responses[p] == s.responses[p])
  }

  /** Call k took effect in this step, or it did not. */
  ghost predicate Took(s: State, t: State, k: nat, op: Op, answer: Answer) {
    t.trace == s.trace + [Effect(k, op, answer)] && k in s.calls && !TookEffect(s.calls[k].phase) &&
    Do(Views(s.blobs), op) == Atomic(Views(t.blobs), answer)
  }

  lemma TookKeepsRefines(s: State, t: State, k: nat, op: Op, answer: Answer)
    requires Refines(s) && CallsOk(s) && Took(s, t, k, op, answer)
    ensures Refines(t)
  {
    hide Do, CallOk, Views;
    var n := |s.trace|;
    assert t.trace[..n] == s.trace;
    NewCall(s, t, k, op, answer);
    forall i | 0 <= i <= n ensures t.trace[i].answer == Do(Replay(t.trace[..i]), t.trace[i].op).answer {
      if i < n {
        assert t.trace[..i] == s.trace[..i];
        assert t.trace[i] == s.trace[i];
      }
    }
  }

  lemma NewCall(s: State, t: State, k: nat, op: Op, answer: Answer)
    requires Once(s.trace) && CallsOk(s) && Took(s, t, k, op, answer)
    ensures Once(t.trace)
  {
    hide Do, CallOk, Views;
    forall i | 0 <= i < |s.trace| ensures t.trace[i].call != k {
      assert s.trace[i] in s.trace;
    }
  }

  /** What is left to show of a step of call k: its own entry. */
  ghost predicate OwnEntryOk(s: State, t: State, k: nat)
    requires k in s.calls
  {
    if k in t.calls then
      k !in t.responses && CallOk(t, k, t.calls[k]) &&
      (TookEffect(t.calls[k].phase) || (t.trace == s.trace && !TookEffect(s.calls[k].phase)))
    else k in t.responses && (t.responses[k].result.Done? ==>
      OpOf(t.responses[k].request, t.responses[k].result.op) &&
      Effect(k, t.responses[k].result.op, t.responses[k].result.answer) in t.trace)
  }

  lemma OthersStayOk(s: State, t: State, k: nat, p: nat)
    requires CallsOk(s) && p in s.calls && Kept(s.blobs, t.blobs) && s.now <= t.now && s.trace <= t.trace
    ensures CallOk(t, p, s.calls[p])
  {}

  lemma MoveKeepsCalls(s: State, t: State, k: nat)
    requires CallsOk(s) && Answered(s) && k in s.calls && k !in s.responses
    requires t.now == s.now && Kept(s.blobs, t.blobs) && OthersAlone(s, t, k) && OwnEntryOk(s, t, k)
    requires t.trace == s.trace || (exists op, answer :: t.trace == s.trace + [Effect(k, op, answer)])
    ensures CallsOk(t) && Answered(t)
  {
    hide CallOk, Kept, OpOf;
    forall p | p in t.calls ensures CallOk(t, p, t.calls[p]) && p !in t.responses {
      if p != k {
        OthersStayOk(s, t, k, p);
      }
    }
    assert forall e :: e in s.trace ==> e in t.trace;
    forall e | e in t.trace
      ensures if e.call in t.calls then TookEffect(t.calls[e.call].phase) else e.call in t.responses
    {
      assert e in s.trace || e.call == k;
    }
  }

  lemma InCall(s: State, k: nat)
    requires Inv(s) && k in s.calls
    ensures CallOk(s, k, s.calls[k]) && k !in s.responses
  {}

  /** A step of call k that leaves the rows alone keeps the invariant, if k itself is in order. */
  lemma ReadKeepsInv(s: State, t: State, k: nat)
    requires Inv(s) && k in s.calls && t.now == s.now
    requires t.blobs == s.blobs && OthersAlone(s, t, k) && OwnEntryOk(s, t, k)
    requires t.trace == s.trace || (exists op, answer :: Took(s, t, k, op, answer))
    ensures Inv(t)
  {
    hide Refines, CallsOk, Answered, RowsOk, OthersAlone, OwnEntryOk, Took;
    InCall(s, k);
    if t.trace == s.trace {
      SameRefines(s, t);
    } else {
      var op, answer :| Took(s, t, k, op, answer);
      TookKeepsRefines(s, t, k, op, answer);
      assert t.trace == s.trace + [Effect(k, op, answer)] by { TookTrace(s, t, k, op, answer); }
    }
    MoveKeepsCalls(s, t, k);
  }

  lemma SameRefines(s: State, t: State)
    requires Refines(s) && t.trace == s.trace && t.blobs == s.blobs
    ensures Refines(t)
  {}

  lemma TookTrace(s: State, t: State, k: nat, op: Op, answer: Answer)
    requires Took(s, t, k, op, answer)
    ensures t.trace == s.trace + [Effect(k, op, answer)]
  {}

  /** Finding and answering at once. */
  lemma FinishKeepsInv(s: State, k: nat, op: Op, answer: Answer)
    requires Inv(s) && k in s.calls && !TookEffect(s.calls[k].phase) && OpOf(s.calls[k].request, op)
    requires Do(Views(s.blobs), op) == Atomic(Views(s.blobs), answer)
    ensures Inv(Finish(s, k, op, answer))
  {
    hide Inv, Do;
    var t := Finish(s, k, op, answer);
    assert Effect(k, op, answer) in t.trace;
    assert Took(s, t, k, op, answer);
    ReadKeepsInv(s, t, k);
  }

  /** Finding, taking effect, and going on to presign. */
  lemma TakeKeepsInv(s: State, k: nat, op: Op, answer: Answer, phase: Phase)
    requires Inv(s) && k in s.calls && !TookEffect(s.calls[k].phase) && OpOf(s.calls[k].request, op)
    requires Do(Views(s.blobs), op) == Atomic(Views(s.blobs), answer)
    requires (phase.Presigning? && phase.op == op && answer == UploadTo) ||
             (phase.PresigningGet? && op.Download? && answer == DownloadFrom)
    ensures Inv(Goto(TakeEffect(s, k, op, answer), k, phase))
  {
    hide Inv, Do;
    InCall(s, k);
    var t := Goto(TakeEffect(s, k, op, answer), k, phase);
    assert Effect(k, op, answer) in t.trace;
    assert Took(s, t, k, op, answer);
    ReadKeepsInv(s, t, k);
  }

  /** Going on without having taken effect. */
  lemma GotoKeepsInv(s: State, k: nat, phase: Phase)
    requires Inv(s) && k in s.calls
    requires CallOk(s, k, s.calls[k].(phase := phase)) && (TookEffect(phase) || !TookEffect(s.calls[k].phase))
    ensures Inv(Goto(s, k, phase))
  {
    hide Inv;
    InCall(s, k);
    ReadKeepsInv(s, Goto(s, k, phase), k);
  }

  lemma RespondKeepsInv(s: State, k: nat, result: Ending)
    requires Inv(s) && k in s.calls
    requires result.Done? ==> OpOf(s.calls[k].request, result.op) && Effect(k, result.op, result.answer) in s.trace
    ensures Inv(Respond(s, k, result))
  {
    hide Inv;
    ReadKeepsInv(s, Respond(s, k, result), k);
  }

  lemma InitiateFoundKeepsInv(s: State, k: nat)
    requires Inv(s) && k in s.calls && s.calls[k].phase.Finding?
    requires Initiates(s.calls[k].request)
    ensures Inv(InitiateFound(s, k, s.calls[k].request, FindByID(s.blobs, s.calls[k].request.id)))
  {
    hide Inv;
    InCall(s, k);
    var q := s.calls[k].request;
    var op := InitiateOp(q, s.now);
    if q.id !in s.blobs {
      GotoKeepsInv(s, k, Stamping);
    } else if s.blobs[q.id].state.Committed? {
      FinishKeepsInv(s, k, op, AlreadyExists);
    } else {
      TakeKeepsInv(s, k, op, UploadTo, Presigning(op, StorageSteps(q)));
    }
  }

  lemma CompleteFoundKeepsInv(c: Config, s: State, k: nat)
    requires Inv(s) && k in s.calls && s.calls[k].phase.Finding?
    requires Completes(s.calls[k].request)
    ensures Inv(FindStep(c, s, k))
  {
    hide Inv;
    InCall(s, k);
    var q := s.calls[k].request;
    if q.id !in s.blobs {
      FinishKeepsInv(s, k, Complete(q.id, s.now), Refused(BlobNotFound));
    } else if s.blobs[q.id].state.Committed? {
      FinishKeepsInv(s, k, Complete(q.id, s.now), Refused(AlreadyCommitted));
    } else {
      RowIsOld(s, q.id);
      GotoKeepsInv(s, k, if q.CompleteUpload? then Stamping else CompletingParts);
    }
  }

  lemma RowIsOld(s: State, id: BlobId)
    requires Inv(s) && id in s.blobs
    ensures s.blobs[id].createdAt <= s.now && RowOk(id, s.blobs[id])
  {}

  lemma ReadFoundKeepsInv(c: Config, s: State, k: nat)
    requires Inv(s) && k in s.calls && s.calls[k].phase.Finding?
    requires s.calls[k].request.GetDownloadURL? || s.calls[k].request.GetBlobInfo? || s.calls[k].request.AbortMultipart?
    ensures Inv(FindStep(c, s, k))
  {
    hide Inv;
    InCall(s, k);
    var q := s.calls[k].request;
    match q
    case GetDownloadURL(id, ttl) =>
      if id !in s.blobs {
        FinishKeepsInv(s, k, Download(id), Refused(BlobNotFound));
      } else if s.blobs[id].state.Pending? {
        FinishKeepsInv(s, k, Download(id), Refused(BlobPending));
      } else {
        TakeKeepsInv(s, k, Download(id), DownloadFrom, PresigningGet(Clamped(c, ttl)));
      }
    case GetBlobInfo(id) =>
      FinishKeepsInv(s, k, Info(id), if id !in s.blobs then Refused(BlobNotFound) else Found(View(s.blobs[id])));
    case AbortMultipart(_) =>
  }

  /** A write by call k that takes effect. */
  lemma WriteKeepsInv(s: State, t: State, k: nat, op: Op, answer: Answer)
    requires Inv(s) && k in s.calls && t.now == s.now && OthersAlone(s, t, k) && OwnEntryOk(s, t, k)
    requires Took(s, t, k, op, answer) && Kept(s.blobs, t.blobs) && Stored(t)
    ensures Inv(t)
  {
    hide Refines, CallsOk, Answered, RowsOk, OthersAlone, OwnEntryOk, Took, Kept, Stored;
    InCall(s, k);
    TookKeepsRefines(s, t, k, op, answer);
    assert t.trace == s.trace + [Effect(k, op, answer)] by { TookTrace(s, t, k, op, answer); }
    MoveKeepsCalls(s, t, k);
  }

  lemma InsertedView(blobs: Blobs, b: Blob)
    requires b.state.Pending? && b.id !in blobs
    ensures Views(blobs[b.id := b]) == Views(blobs)[b.id := PENDING(b.size, b.contentType, b.createdAt)]
  {}

  lemma CreateKeepsInv(s: State, k: nat)
    requires Inv(s) && k in s.calls && s.calls[k].phase.Creating?
    ensures Inv(CreateStep(s, k))
  {
    hide Refines, CallsOk, Answered, Views;
    InCall(s, k);
    var q := s.calls[k].request;
    var createdAt := s.calls[k].phase.createdAt;
    var b := NewBlob(q.id, q.size, q.contentType, createdAt);
    var t := CreateStep(s, k);
    if q.id in s.blobs {
      RespondKeepsInv(s, k, CreateFailed(AlreadyCommitted));
    } else {
      InsertedView(s.blobs, b);
      SameKeys(s.blobs);
      assert Effect(k, InitiateOp(q, createdAt), UploadTo) in t.trace;
      WriteKeepsInv(s, t, k, InitiateOp(q, createdAt), UploadTo);
    }
  }

  lemma SameKeys(blobs: Blobs)
    ensures forall id :: (id in Views(blobs) <==> id in blobs) && (id in blobs ==> Views(blobs)[id] == View(blobs[id]))
  {}

  lemma MarkedView(blobs: Blobs, id: BlobId, at: Time)
    requires id in blobs && blobs[id].state.Pending?
    ensures Views(blobs[id := blobs[id].(state := Committed, committedAt := Some(at))]) ==
      Views(blobs)[id := COMMITTED(blobs[id].size, blobs[id].contentType, blobs[id].createdAt, at)]
  {}

  lemma MarkKeepsInv(s: State, k: nat)
    requires Inv(s) && k in s.calls && s.calls[k].phase.Marking?
    ensures Inv(MarkStep(s, k))
  {
    hide Refines, CallsOk, Answered, Views;
    InCall(s, k);
    var id, at := s.calls[k].request.id, s.calls[k].phase.at;
    SameKeys(s.blobs);
    if s.blobs[id].state.Committed? {
      FinishKeepsInv(s, k, Complete(id, at), Refused(AlreadyCommitted));
    } else {
      MarkedView(s.blobs, id, at);
      var t := MarkStep(s, k);
      assert Effect(k, Complete(id, at), CommittedAt(at)) in t.trace;
      WriteKeepsInv(s, t, k, Complete(id, at), CommittedAt(at));
    }
  }

  lemma AdvanceKeepsInv(c: Config, s: State, k: nat, storageOk: bool)
    requires Inv(s)
    ensures Inv(AdvanceStep(c, s, k, storageOk))
  {
    hide Inv, InitiateFound, CreateStep, MarkStep, Goto, Respond;
    if k in s.calls {
      InCall(s, k);
      match s.calls[k].phase
      case Finding =>
        if Initiates(s.calls[k].request) {
          InitiateFoundKeepsInv(s, k);
        } else if Completes(s.calls[k].request) {
          CompleteFoundKeepsInv(c, s, k);
        } else {
          ReadFoundKeepsInv(c, s, k);
        }
      case Stamping => GotoKeepsInv(s, k, if Initiates(s.calls[k].request) then Creating(s.now) else Marking(s.now));
      case Creating(_) => CreateKeepsInv(s, k);
      case Presigning(op, left) =>
        if !storageOk { RespondKeepsInv(s, k, StorageFailed); }
        else if left > 1 { GotoKeepsInv(s, k, Presigning(op, left - 1)); }
        else { RespondKeepsInv(s, k, Done(op, UploadTo)); }
      case CompletingParts =>
        if storageOk { GotoKeepsInv(s, k, Stamping); } else { RespondKeepsInv(s, k, StorageFailed); }
      case Marking(_) => MarkKeepsInv(s, k);
      case PresigningGet(_) =>
        RespondKeepsInv(s, k, if storageOk then Done(Download(s.calls[k].request.id), DownloadFrom) else StorageFailed);
      case AbortingParts => RespondKeepsInv(s, k, if storageOk then Aborted else StorageFailed);
    }
  }

  lemma StartKeepsCalls(s: State, k: nat, q: Request)
    requires CallsOk(s) && k !in s.calls && k !in s.responses && Accepted(q)
    ensures CallsOk(s.(calls := s.calls[k := Call(q, if q.AbortMultipart? then AbortingParts else Finding)]))
  {}

  lemma RefuseKeepsCalls(s: State, k: nat, q: Request)
    requires CallsOk(s) && k !in s.calls
    ensures CallsOk(s.(responses := s.responses[k := Response(q, Invalid)]))
  {}

  lemma StartKeepsInv(s: State, k: nat, q: Request)
    requires Inv(s)
    ensures Inv(StartStep(s, k, q))
  {
    hide Legal, Once, RowsOk, CallsOk, Replay, Views, OpOf;
    if k !in s.calls && k !in s.responses {
      if Accepted(q) {
        StartKeepsCalls(s, k, q);
      } else {
        RefuseKeepsCalls(s, k, q);
      }
    }
  }

  lemma TickKeepsInv(s: State, elapsed: nat)
    requires Inv(s)
    ensures Inv(s.(now := s.now + elapsed))
  {
    hide Legal, Once, RowsOk, Replay, Views, OpOf;
    forall p | p in s.calls ensures CallOk(s.(now := s.now + elapsed), p, s.calls[p]) {
      assert CallOk(s, p, s.calls[p]);
    }
  }

  lemma StepKeepsInv(c: Config, s: State, e: Event)
    requires Inv(s)
    ensures Inv(Step(c, s, e))
  {
    hide Inv, StartStep, AdvanceStep;
    match e
    case Tick(elapsed) => TickKeepsInv(s, elapsed);
    case Start(k, q) => StartKeepsInv(s, k, q);
    case Advance(k, storageOk) => AdvanceKeepsInv(c, s, k, storageOk);
  }

  lemma {:induction false} RunKeepsInv(c: Config, s: State, events: seq<Event>)
    requires Inv(s)
    ensures Inv(Run(c, s, events))
    decreases |events|
  {
    hide Inv, Step;
    if events == [] {
    } else {
      StepKeepsInv(c, s, events[0]);
      RunKeepsInv(c, Step(c, s, events[0]), events[1..]);
    }
  }

  lemma ReachableInv(c: Config, s: State)
    requires Reachable(c, s)
    ensures Inv(s)
  {
    var events :| s == Run(c, INIT, events);
    RunKeepsInv(c, INIT, events);
  }

  // ---------------------------------------------------------- main results

  /** Every interleaved run is one of the atomic machine: the calls took effect one at a
      time, each at most once and by itself, the machine doing the same in that order
      holds what the table holds, and every answer a call gave is the machine's. */
  lemma Refinement(c: Config, s: State)
    requires Reachable(c, s)
    ensures Legal(s.trace) && Once(s.trace) && Replay(s.trace) == Views(s.blobs)
    ensures forall k | k in s.responses && s.responses[k].result.Done? ::
      OpOf(s.responses[k].request, s.responses[k].result.op) &&
      Effect(k, s.responses[k].result.op, s.responses[k].result.answer) in s.trace
  {
    ReachableInv(c, s);
  }

  /** Nothing took effect, or one operation of call k's own request did. */
  ghost predicate AppendsOwn(s: State, t: State, k: nat) {
    t.trace == s.trace ||
    (k in s.calls && exists op, answer :: OpOf(s.calls[k].request, op) && t.trace == s.trace + [Effect(k, op, answer)])
  }

  /** A call takes effect at a step of its own, while it is running. */
  lemma EffectsAreOwn(c: Config, s: State, k: nat, storageOk: bool)
    requires Reachable(c, s)
    ensures AppendsOwn(s, Step(c, s, Advance(k, storageOk)), k)
  {
    hide Inv, Reachable, FindStep, CreateStep, MarkStep, AppendsOwn;
    ReachableInv(c, s);
    var t := AdvanceStep(c, s, k, storageOk);
    assert t.trace == s.trace ==> AppendsOwn(s, t, k) by { SameTrace(s, t, k); }
    if k in s.calls {
      InCall(s, k);
      match s.calls[k].phase
      case Finding => FindEffects(c, s, k);
      case Creating(_) => CreateEffects(s, k);
      case Marking(_) => MarkEffects(s, k);
      case _ =>
    }
  }

  lemma SameTrace(s: State, t: State, k: nat)
    ensures t.trace == s.trace ==> AppendsOwn(s, t, k)
  {}

  lemma FindEffects(c: Config, s: State, k: nat)
    requires k in s.calls
    ensures AppendsOwn(s, FindStep(c, s, k), k)
  {}

  lemma CreateEffects(s: State, k: nat)
    requires k in s.calls && s.calls[k].phase.Creating?
    ensures AppendsOwn(s, CreateStep(s, k), k)
  {}

  lemma MarkEffects(s: State, k: nat)
    requires k in s.calls && s.calls[k].phase.Marking? && CallOk(s, k, s.calls[k])
    ensures AppendsOwn(s, MarkStep(s, k), k)
  {}

  /** b is a, or a committed later. */
  predicate Continues(a: Upload, b: Upload) {
    b.size == a.size && b.contentType == a.contentType && b.createdAt == a.createdAt && (a.COMMITTED? ==> b == a)
  }

  /** In the atomic machine, an upload stays, and stays as it is once it is committed. */
  lemma {:induction false} UploadStays(trace: seq<Effect>, i: nat, j: nat, id: BlobId)
    requires i <= j <= |trace| && id in Replay(trace[..i])
    ensures id in Replay(trace[..j]) && Continues(Replay(trace[..i])[id], Replay(trace[..j])[id])
    decreases j
  {
    if i < j {
      UploadStays(trace, i, j - 1, id);
      assert trace[..j][..j - 1] == trace[..j - 1];
    }
  }

  /** What a successful Complete leaves, in the atomic machine. */
  lemma CommitTakes(trace: seq<Effect>, i: nat)
    requires Legal(trace) && i < |trace| && trace[i].answer.CommittedAt?
    ensures
      var a, b, op := Replay(trace[..i]), Replay(trace[..i + 1]), trace[i].op;
      && op.Complete? && trace[i].answer.at == op.at
      && op.id in a && a[op.id].PENDING? && op.id in b && b[op.id].COMMITTED? && b[op.id].at == op.at
  {
    assert trace[..i + 1][..i] == trace[..i];
  }

  lemma CommitIsUnique(trace: seq<Effect>, i: nat, j: nat)
    requires Legal(trace) && i < |trace| && j < |trace|
    requires trace[i].answer.CommittedAt? && trace[j].answer.CommittedAt?
    requires trace[i].op.Complete? && trace[j].op.Complete? && trace[i].op.id == trace[j].op.id
    ensures i == j
  {
    hide Legal, Replay, Do;
    CommitTakes(trace, i);
    CommitTakes(trace, j);
    if i < j {
      UploadStays(trace, i + 1, j, trace[i].op.id);
    } else if j < i {
      UploadStays(trace, j + 1, i, trace[i].op.id);
    }
  }

  /** Of all Complete calls for an ID, single and multipart, at most one succeeds, and
      what it answered is stored for ever after. */
  lemma ExactlyOnceCommit(c: Config, s: State, events: seq<Event>, j: nat, k: nat)
    requires Reachable(c, s) && k in s.responses && j in s.responses
    requires s.responses[k].result.Done? && s.responses[k].result.answer.CommittedAt?
    requires s.responses[j].result.Done? && s.responses[j].result.answer.CommittedAt?
    requires s.responses[j].request.id == s.responses[k].request.id
    ensures j == k
    ensures
      var b := Run(c, s, events).blobs;
      s.responses[k].request.id in b &&
      b[s.responses[k].request.id].committedAt == Some(s.responses[k].result.answer.at)
  {
    hide Inv, Reachable, Run;
    ReachableInv(c, s);
    CommittedRow(c, s, k);
    CommittedRow(c, s, j);
    SameCall(s, j, k);
    RunKeepsRows(c, s, events);
  }

  lemma EffectOfCommit(s: State, k: nat) returns (i: nat)
    requires Inv(s) && k in s.responses && s.responses[k].result.Done? && s.responses[k].result.answer.CommittedAt?
    ensures i < |s.trace| && s.trace[i].call == k
    ensures s.trace[i].op == Complete(s.responses[k].request.id, s.responses[k].result.answer.at)
    ensures s.trace[i].answer == s.responses[k].result.answer
  {
    hide Replay, CallsOk, Stored, Views;
    var e := Effect(k, s.responses[k].result.op, s.responses[k].result.answer);
    assert e in s.trace;
    i :| 0 <= i < |s.trace| && s.trace[i] == e;
  }

  lemma SameCall(s: State, j: nat, k: nat)
    requires Inv(s) && k in s.responses && j in s.responses
    requires s.responses[k].result.Done? && s.responses[k].result.answer.CommittedAt?
    requires s.responses[j].result.Done? && s.responses[j].result.answer.CommittedAt?
    requires s.responses[j].request.id == s.responses[k].request.id
    ensures j == k
  {
    hide Do, CallsOk, Stored, Answered;
    var a := EffectOfCommit(s, j);
    var b := EffectOfCommit(s, k);
    CommitIsUnique(s.trace, a, b);
  }

  lemma CommittedRow(c: Config, s: State, k: nat)
    requires Inv(s) && k in s.responses && s.responses[k].result.Done? && s.responses[k].result.answer.CommittedAt?
    ensures
      var id := s.responses[k].request.id;
      id in s.blobs && s.blobs[id].state.Committed? && s.blobs[id].committedAt == Some(s.responses[k].result.answer.at)
  {
    hide CallsOk, Answered, Legal, Do, Replay;
    var id := s.responses[k].request.id;
    var i := EffectOfCommit(s, k);
    CommitTakes(s.trace, i);
    UploadStays(s.trace, i + 1, |s.trace|, id);
    assert s.trace[..|s.trace|] == s.trace;
    assert id in s.blobs && View(s.blobs[id]) == Views(s.blobs)[id];
    assert RowOk(id, s.blobs[id]);
  }

  /** The upload an answer speaks of, right after the operation took effect. */
  predicate Tells(upload: Option<Upload>, answer: Answer) {
    match answer
    case DownloadFrom => upload.Some? && upload.value.COMMITTED?
    case AlreadyExists => upload.Some? && upload.value.COMMITTED?
    case CommittedAt(at) => upload.Some? && upload.value.COMMITTED? && upload.value.at == at
    case UploadTo => upload.Some? && upload.value.PENDING?
    case Found(found) => upload == Some(found)
    case Refused(BlobPending) => upload.Some? && upload.value.PENDING?
    case Refused(AlreadyCommitted) => upload.Some? && upload.value.COMMITTED?
    case Refused(_) => upload.None?
  }

  function UploadOf(a: Uploads, id: BlobId): Option<Upload> {
    if id in a then Some(a[id]) else None
  }

  lemma EffectTells(trace: seq<Effect>, i: nat)
    requires Legal(trace) && i < |trace|
    ensures Tells(UploadOf(Replay(trace[..i + 1]), trace[i].op.id), trace[i].answer)
  {
    assert trace[..i + 1][..i] == trace[..i];
  }

  /** Every answer is true of the row, whatever ran in between: information is that of the
      row, an upload URL is for a row that was pending, and a download URL, like "already
      exists" and "already committed", for a committed one. At most a commit came since. */
  lemma AnswersAreTrue(c: Config, s: State, k: nat)
    requires Reachable(c, s) && k in s.responses && s.responses[k].result.Done?
    ensures
      var id := s.responses[k].request.id;
      exists was: Option<Upload> :: Tells(was, s.responses[k].result.answer) &&
        (was.Some? ==> id in s.blobs && Continues(was.value, View(s.blobs[id])))
  {
    hide CallsOk, Stored, Reachable, Legal, Tells, Replay;
    ReachableInv(c, s);
    var id := s.responses[k].request.id;
    var e := Effect(k, s.responses[k].result.op, s.responses[k].result.answer);
    assert e in s.trace;
    var i :| 0 <= i < |s.trace| && s.trace[i] == e;
    EffectTells(s.trace, i);
    if id in Replay(s.trace[..i + 1]) {
      UploadStays(s.trace, i + 1, |s.trace|, id);
      assert s.trace[..|s.trace|] == s.trace;
      assert id in Views(s.blobs);
    }
  }

  /** A Complete that answers "already committed" does so for a committed row only. */
  lemma AlreadyCommittedIsTrue(c: Config, s: State, k: nat)
    requires Reachable(c, s) && k in s.responses && s.responses[k].result.Done?
    requires s.responses[k].result.answer == Refused(AlreadyCommitted)
    ensures s.responses[k].request.id in s.blobs && s.blobs[s.responses[k].request.id].state.Committed?
  {
    hide Reachable;
    AnswersAreTrue(c, s, k);
  }

  /** Nobody is sent to download a blob that is not committed. */
  lemma DownloadsAreCommitted(c: Config, s: State, k: nat)
    requires Reachable(c, s) && k in s.responses && s.responses[k].result.Done?
    requires s.responses[k].result.answer in {DownloadFrom, AlreadyExists}
    ensures s.responses[k].request.id in s.blobs && s.blobs[s.responses[k].request.id].state.Committed?
  {
    hide Reachable;
    AnswersAreTrue(c, s, k);
  }

  /** The first Create fixes size, type, key and creation time; the key is the ID; and
      committed_at is set exactly when the row is COMMITTED, never before created_at. */
  lemma IdentityIsFixed(c: Config, s: State, events: seq<Event>, id: BlobId)
    requires Reachable(c, s) && id in s.blobs
    ensures
      var b := Run(c, s, events).blobs;
      id in b && SameIdentity(s.blobs[id], b[id]) && b[id].id == b[id].key == id &&
      (b[id].state.Committed? <==> b[id].committedAt.Some?) &&
      (b[id].committedAt.Some? ==> b[id].createdAt <= b[id].committedAt.value)
  {
    hide Inv, Reachable, Run;
    ReachableInv(c, s);
    RunKeepsRows(c, s, events);
    RunKeepsInv(c, s, events);
    RowIsOld(Run(c, s, events), id);
  }

  lemma StepKeepsRows(c: Config, s: State, e: Event)
    requires Inv(s)
    ensures Kept(s.blobs, Step(c, s, e).blobs)
  {
    hide Refines, Answered, Stored;
    if e.Advance? && e.call in s.calls {
      InCall(s, e.call);
    }
  }

  lemma {:induction false} RunKeepsRows(c: Config, s: State, events: seq<Event>)
    requires Inv(s)
    ensures Kept(s.blobs, Run(c, s, events).blobs)
    decreases |events|
  {
    hide Inv, Step;
    if events == [] {
    } else {
      StepKeepsRows(c, s, events[0]);
      StepKeepsInv(c, s, events[0]);
      RunKeepsRows(c, Step(c, s, events[0]), events[1..]);
    }
  }

  // ------------------------------------------------------------ URL lifetime

  /** A download about to be presigned asks for the clamped lifetime. */
  ghost predicate UrlsClamped(c: Config, calls: map<nat, Call>) {
    forall k | k in calls && calls[k].phase.PresigningGet? ::
      calls[k].request.GetDownloadURL? && calls[k].phase.ttl == Clamped(c, calls[k].request.ttl)
  }

  lemma FindKeepsUrls(c: Config, s: State, k: nat)
    requires UrlsClamped(c, s.calls) && k in s.calls
    ensures UrlsClamped(c, FindStep(c, s, k).calls)
  {
    hide View;
  }

  lemma CreateKeepsUrls(c: Config, s: State, k: nat)
    requires UrlsClamped(c, s.calls) && k in s.calls && s.calls[k].phase.Creating?
    ensures UrlsClamped(c, CreateStep(s, k).calls)
  {}

  lemma MarkKeepsUrls(c: Config, s: State, k: nat)
    requires UrlsClamped(c, s.calls) && k in s.calls && s.calls[k].phase.Marking?
    ensures UrlsClamped(c, MarkStep(s, k).calls)
  {}

  lemma StepKeepsUrls(c: Config, s: State, e: Event)
    requires UrlsClamped(c, s.calls)
    ensures UrlsClamped(c, Step(c, s, e).calls)
  {
    hide FindStep, CreateStep, MarkStep, Clamped;
    if e.Advance? && e.call in s.calls {
      match s.calls[e.call].phase
      case Finding => FindKeepsUrls(c, s, e.call);
      case Creating(_) => CreateKeepsUrls(c, s, e.call);
      case Marking(_) => MarkKeepsUrls(c, s, e.call);
      case _ =>
    }
  }

  lemma {:induction false} RunKeepsUrls(c: Config, s: State, events: seq<Event>)
    requires UrlsClamped(c, s.calls)
    ensures UrlsClamped(c, Run(c, s, events).calls)
    decreases |events|
  {
    hide Step, UrlsClamped;
    if events == [] {
    } else {
      StepKeepsUrls(c, s, events[0]);
      RunKeepsUrls(c, Step(c, s, events[0]), events[1..]);
    }
  }

  /** On every run, a download URL is presigned for the time asked for, if that is
      positive and within the configured maximum, and for the maximum otherwise. */
  lemma DownloadLifetime(c: Config, s: State, k: nat)
    requires Reachable(c, s) && k in s.calls && s.calls[k].phase.PresigningGet?
    ensures s.calls[k].request.GetDownloadURL?
    ensures
      var wanted, ttl := s.calls[k].request.ttl, s.calls[k].phase.ttl;
      && (0 < wanted <= c.presignGetMaxTTL ==> ttl == wanted)
      && (ttl != wanted ==> ttl == c.presignGetMaxTTL) && ttl <= c.presignGetMaxTTL
      && (c.presignGetMaxTTL > 0 ==> ttl > 0)
  {
    hide Run;
    var events :| s == Run(c, INIT, events);
    RunKeepsUrls(c, INIT, events);
  }
}

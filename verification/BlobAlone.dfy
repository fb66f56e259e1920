/** An upload call that nobody disturbs: its statements, run one after the other, amount to
    what the call is for. */
module BlobAlone {
  import opened Prelude
  import opened BlobStore
  import opened BlobUpload

  /** Call k goes on until it has answered; n bounds its statements. */
  function Alone(c: Config, s: State, k: nat, storageOk: bool, n: nat): State
    decreases n
  {
    if n == 0 || k !in s.calls then s else Alone(c, AdvanceStep(c, s, k, storageOk), k, storageOk, n - 1)
  }

  lemma {:induction false} AlonePresigns(c: Config, s: State, k: nat, storageOk: bool, n: nat)
    requires k in s.calls && s.calls[k].phase.Presigning? && n >= 1 && n >= s.calls[k].phase.left
    ensures
      var result := if storageOk then Done(s.calls[k].phase.op, UploadTo) else StorageFailed;
      Alone(c, s, k, storageOk, n) == Respond(s, k, result)
    decreases n
  {
    hide FindStep, CreateStep, MarkStep;
    var t := AdvanceStep(c, s, k, storageOk);
    if k in t.calls {
      AlonePresigns(c, t, k, storageOk, n - 1);
      var result := if storageOk then Done(s.calls[k].phase.op, UploadTo) else StorageFailed;
      assert t.calls - {k} == s.calls - {k};
    }
  }

  /** What a call makes of the rows if nobody disturbs it. */
  datatype Effort = Effort(blobs: Blobs, result: Ending)

  function ByItself(s: State, q: Request, storageOk: bool): Effort {
    var stored := q.id in s.blobs;
    var committed := stored && s.blobs[q.id].state.Committed?;
    if !Accepted(q) then Effort(s.blobs, Invalid)
    else match q
      case AbortMultipart(_) => Effort(s.blobs, if storageOk then Aborted else StorageFailed)
      case GetBlobInfo(id) =>
        Effort(s.blobs, Done(Info(id), if stored then Found(View(s.blobs[id])) else Refused(BlobNotFound)))
      case GetDownloadURL(id, _) =>
        Effort(s.blobs, if !stored then Done(Download(id), Refused(BlobNotFound))
                        else if !committed then Done(Download(id), Refused(BlobPending))
                        else if storageOk then Done(Download(id), DownloadFrom) else StorageFailed)
      case CompleteUpload(id) => CompletedAlone(s, id, true)
      case CompleteMultipart(id) => CompletedAlone(s, id, storageOk)
      case _ =>
        var op := InitiateOp(q, s.now);
        if committed then Effort(s.blobs, Done(op, AlreadyExists))
        else Effort(if stored then s.blobs else s.blobs[q.id := NewBlob(q.id, q.size, q.contentType, s.now)],
                    if storageOk then Done(op, UploadTo) else StorageFailed)
  }

  function CompletedAlone(s: State, id: BlobId, assembled: bool): Effort {
    if id !in s.blobs then Effort(s.blobs, Done(Complete(id, s.now), Refused(BlobNotFound)))
    else if s.blobs[id].state.Committed? then Effort(s.blobs, Done(Complete(id, s.now), Refused(AlreadyCommitted)))
    else if !assembled then Effort(s.blobs, StorageFailed)
    else Effort(s.blobs[id := s.blobs[id].(state := Committed, committedAt := Some(s.now))],
                Done(Complete(id, s.now), CommittedAt(s.now)))
  }

  /** Call k is over, and nothing else happened to the state s it started in. */
  predicate Ended(s: State, t: State, k: nat, q: Request, did: Effort) {
    t.blobs == did.blobs && t.responses == s.responses[k := Response(q, did.result)] && t.calls == s.calls &&
    t.now == s.now
  }

  function Running(s: State, k: nat, q: Request, phase: Phase): State {
    s.(calls := s.calls[k := Call(q, phase)])
  }

  lemma AloneGoesOn(c: Config, s: State, k: nat, storageOk: bool, n: nat)
    requires k in s.calls && n > 0
    ensures Alone(c, s, k, storageOk, n) == Alone(c, AdvanceStep(c, s, k, storageOk), k, storageOk, n - 1)
  {}

  lemma AloneEnds(c: Config, s: State, t: State, k: nat, q: Request, storageOk: bool, n: nat, did: Effort)
    requires k !in s.calls && k in t.calls && t.calls[k].request == q
    requires t.calls - {k} == s.calls && t.responses == s.responses && t.blobs == did.blobs && t.now == s.now
    requires n > 0 && AdvanceStep(c, t, k, storageOk) in
      {Respond(t, k, did.result), Respond(t.(trace := AdvanceStep(c, t, k, storageOk).trace), k, did.result)}
    ensures Ended(s, Alone(c, t, k, storageOk, n), k, q, did)
  {
    hide AdvanceStep;
  }

  lemma PresignAlone(c: Config, s: State, t: State, k: nat, q: Request, storageOk: bool, n: nat)
    requires Initiates(q) && n >= StorageSteps(q) && k !in s.calls
    requires k in t.calls && t.calls[k] == Call(q, Presigning(InitiateOp(q, s.now), StorageSteps(q)))
    requires t.calls - {k} == s.calls && t.responses == s.responses && t.now == s.now
    ensures
      var result := if storageOk then Done(InitiateOp(q, s.now), UploadTo) else StorageFailed;
      Ended(s, Alone(c, t, k, storageOk, n), k, q, Effort(t.blobs, result))
  {
    AlonePresigns(c, t, k, storageOk, n);
  }

  lemma InitiateAlone(c: Config, s: State, k: nat, q: Request, storageOk: bool)
    requires k !in s.calls && Initiates(q) && Accepted(q)
    ensures Ended(s, Alone(c, Running(s, k, q, Finding), k, storageOk, StorageSteps(q) + 4), k, q,
                  ByItself(s, q, storageOk))
  {
    hide Alone, CreateStep, MarkStep, Ended, ValidId;
    var n := StorageSteps(q) + 4;
    var t := Running(s, k, q, Finding);
    var u := AdvanceStep(c, t, k, storageOk);
    assert t.calls - {k} == s.calls;
    AloneGoesOn(c, t, k, storageOk, n);
    if q.id !in s.blobs {
      assert u.calls - {k} == s.calls;
      CreateAlone(c, s, u, k, q, storageOk, n - 1);
    } else if s.blobs[q.id].state.Committed? {
      AloneEnds(c, s, t, k, q, storageOk, n, ByItself(s, q, storageOk));
    } else {
      assert u.calls - {k} == s.calls;
      PresignAlone(c, s, u, k, q, storageOk, n - 1);
    }
  }

  lemma CreateAlone(c: Config, s: State, t: State, k: nat, q: Request, storageOk: bool, n: nat)
    requires k !in s.calls && t == s.(calls := t.calls) && k in t.calls && t.calls[k] == Call(q, Stamping)
    requires t.calls - {k} == s.calls && Initiates(q) && Accepted(q) && q.id !in s.blobs && n >= StorageSteps(q) + 2
    ensures Ended(s, Alone(c, t, k, storageOk, n), k, q, ByItself(s, q, storageOk))
  {
    hide Alone, FindStep, MarkStep, Ended, ValidId;
    var u := AdvanceStep(c, t, k, storageOk);
    var v := AdvanceStep(c, u, k, storageOk);
    AloneGoesOn(c, t, k, storageOk, n);
    AloneGoesOn(c, u, k, storageOk, n - 1);
    assert u.calls - {k} == s.calls;
    assert v.calls - {k} == s.calls;
    PresignAlone(c, s, v, k, q, storageOk, n - 2);
  }

  lemma CompleteAlone(c: Config, s: State, k: nat, q: Request, storageOk: bool)
    requires k !in s.calls && Completes(q) && Accepted(q)
    ensures Ended(s, Alone(c, Running(s, k, q, Finding), k, storageOk, 5), k, q, ByItself(s, q, storageOk))
  {
    hide Alone, CreateStep, MarkStep, Ended, ValidId;
    var t := Running(s, k, q, Finding);
    assert t.calls - {k} == s.calls;
    AloneGoesOn(c, t, k, storageOk, 5);
    if q.id !in s.blobs || s.blobs[q.id].state.Committed? {
      AloneEnds(c, s, t, k, q, storageOk, 5, ByItself(s, q, storageOk));
    } else {
      var u := AdvanceStep(c, t, k, storageOk);
      assert u.calls - {k} == s.calls;
      if q.CompleteUpload? {
        MarkAlone(c, s, u, k, q, storageOk, 4);
      } else if !storageOk {
        AloneEnds(c, s, u, k, q, storageOk, 4, ByItself(s, q, storageOk));
      } else {
        var v := AdvanceStep(c, u, k, storageOk);
        AloneGoesOn(c, u, k, storageOk, 4);
        assert v.calls - {k} == s.calls;
        MarkAlone(c, s, v, k, q, storageOk, 3);
      }
    }
  }

  lemma MarkAlone(c: Config, s: State, t: State, k: nat, q: Request, storageOk: bool, n: nat)
    requires k !in s.calls && t == s.(calls := t.calls) && k in t.calls && t.calls[k] == Call(q, Stamping)
    requires t.calls - {k} == s.calls && Completes(q) && Accepted(q) && n >= 2
    requires q.id in s.blobs && s.blobs[q.id].state.Pending? && (q.CompleteMultipart? ==> storageOk)
    ensures Ended(s, Alone(c, t, k, storageOk, n), k, q, ByItself(s, q, storageOk))
  {
    hide FindStep, CreateStep, ValidId;
    var u := AdvanceStep(c, t, k, storageOk);
    var v := AdvanceStep(c, u, k, storageOk);
    AloneGoesOn(c, t, k, storageOk, n);
    AloneGoesOn(c, u, k, storageOk, n - 1);
    assert v.calls == u.calls - {k} == s.calls;
  }

  lemma ReadAlone(c: Config, s: State, k: nat, q: Request, storageOk: bool)
    requires k !in s.calls && Accepted(q) && (q.GetDownloadURL? || q.GetBlobInfo?)
    ensures Ended(s, Alone(c, Running(s, k, q, Finding), k, storageOk, 5), k, q, ByItself(s, q, storageOk))
  {
    hide Alone, CreateStep, MarkStep, Ended, ValidId, View;
    var t := Running(s, k, q, Finding);
    assert t.calls - {k} == s.calls;
    AloneGoesOn(c, t, k, storageOk, 5);
    if q.GetDownloadURL? && q.id in s.blobs && s.blobs[q.id].state.Committed? {
      var u := AdvanceStep(c, t, k, storageOk);
      assert u.calls - {k} == s.calls;
      AloneEnds(c, s, u, k, q, storageOk, 4, ByItself(s, q, storageOk));
    } else {
      AloneEnds(c, s, t, k, q, storageOk, 5, ByItself(s, q, storageOk));
    }
  }

  /** A call that runs by itself ends, in at most as many statements as it has, and does
      what it is for; in particular a multipart upload is committed only once storage has
      assembled the parts. */
  lemma CallAlone(c: Config, s: State, k: nat, q: Request, storageOk: bool)
    requires k !in s.calls && k !in s.responses
    ensures Ended(s, Alone(c, StartStep(s, k, q), k, storageOk, StorageSteps(q) + 4), k, q, ByItself(s, q, storageOk))
  {
    hide Alone, FindStep, CreateStep, MarkStep, Ended, ByItself, ValidId;
    if !Accepted(q) {
      RefusedAlone(c, s, k, q, storageOk);
    } else {
      match q
      case AbortMultipart(_) => AbortAlone(c, s, k, q, storageOk);
      case GetDownloadURL(_, _) => ReadAlone(c, s, k, q, storageOk);
      case GetBlobInfo(_) => ReadAlone(c, s, k, q, storageOk);
      case CompleteUpload(_) => CompleteAlone(c, s, k, q, storageOk);
      case CompleteMultipart(_) => CompleteAlone(c, s, k, q, storageOk);
      case _ => InitiateAlone(c, s, k, q, storageOk);
    }
  }

  lemma RefusedAlone(c: Config, s: State, k: nat, q: Request, storageOk: bool)
    requires k !in s.calls && k !in s.responses && !Accepted(q)
    ensures Ended(s, Alone(c, StartStep(s, k, q), k, storageOk, StorageSteps(q) + 4), k, q, ByItself(s, q, storageOk))
  {}

  lemma AbortAlone(c: Config, s: State, k: nat, q: Request, storageOk: bool)
    requires k !in s.calls && q.AbortMultipart? && Accepted(q)
    ensures Ended(s, Alone(c, Running(s, k, q, AbortingParts), k, storageOk, 5), k, q, ByItself(s, q, storageOk))
  {
    hide FindStep, CreateStep, MarkStep, ValidId;
    var t := Running(s, k, q, AbortingParts);
    assert t.calls - {k} == s.calls;
  }
}

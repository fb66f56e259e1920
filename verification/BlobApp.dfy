/** blob-service's use cases as they are written, one at a time: against the table they
    do what the atomic machine does, unless storage fails them. */
module BlobApp {
  import opened Prelude
  import opened BlobStore
  import opened BlobUpload

  /** *domain.Blob */
  class BlobRef {
    var blob: Blob

    constructor (blob: Blob)
      ensures this.blob == blob
    {
      this.blob := blob;
    }

    /** On the object, what MarkCommitted is on its row. */
    method Commit(at: Time) returns (r: Outcome<()>)
      modifies this
      ensures
        match MarkCommitted(map[old(blob.id) := old(blob)], old(blob.id), at)
        case Success(rows) => r.Success? && rows == map[old(blob.id) := blob]
        case Failure(e) => r == Failure(e) && blob == old(blob)
      ensures
        if old(blob).state.Committed? then r == Failure(AlreadyCommitted) && blob == old(blob)
        else r == Success(()) && blob == old(blob).(state := Committed, committedAt := Some(at))
    {
      if blob.state.Committed? {
        return Failure(AlreadyCommitted);
      }
      blob := blob.(state := Committed);
      blob := blob.(committedAt := Some(at));
      return Success(());
    }
  }

  predicate IsPending(blobs: Blobs, id: BlobId) {
    id in blobs && blobs[id].state.Pending?
  }

  predicate IsCommitted(blobs: Blobs, id: BlobId) {
    id in blobs && blobs[id].state.Committed?
  }

  function Marked(blobs: Blobs, id: BlobId, at: Time): (marked: Blobs)
    requires id in blobs
    ensures marked.Keys == blobs.Keys && marked - {id} == blobs - {id}
    ensures marked[id].state.Committed? && marked[id].committedAt == Some(at)
    ensures marked[id].(state := Pending, committedAt := None) == blobs[id].(state := Pending, committedAt := None)
  {
    blobs[id := blobs[id].(state := Committed, committedAt := Some(at))]
  }

  /** The rows once an upload of id was initiated. */
  predicate Initiated(a: Blobs, b: Blobs, id: BlobId, size: int, contentType: string, now: Time) {
    if id in a then b == a else b == a[id := Blob(id, size, contentType, id, Pending, now, None)]
  }

  class BlobRepo {
    var blobs: Blobs

    constructor ()
      ensures blobs == map[]
    {
      blobs := map[];
    }

    method CreateRow(b: Blob) returns (r: Outcome<()>)
      modifies this
      ensures r.Success? <==> Create(old(blobs), b).Success?
      ensures if r.Success? then Create(old(blobs), b) == Success(blobs)
              else r.error == AlreadyCommitted && blobs == old(blobs)
      ensures if b.id in old(blobs) then r == Failure(AlreadyCommitted) && blobs == old(blobs)
              else r == Success(()) && blobs == old(blobs)[b.id := b]
    {
      if b.id in blobs {
        return Failure(AlreadyCommitted);
      }
      blobs := blobs[b.id := b];
      return Success(());
    }

    method MarkRow(id: BlobId, at: Time) returns (r: Outcome<()>)
      modifies this
      ensures r.Success? <==> MarkCommitted(old(blobs), id, at).Success?
      ensures if r.Success? then MarkCommitted(old(blobs), id, at) == Success(blobs)
              else r.error == AlreadyCommitted && blobs == old(blobs)
      ensures if IsPending(old(blobs), id) then r == Success(()) && blobs == Marked(old(blobs), id, at)
              else r == Failure(AlreadyCommitted) && blobs == old(blobs)
    {
      var n := 0;
      if id in blobs && blobs[id].state.Pending? {
        blobs := blobs[id := blobs[id].(state := Committed, committedAt := Some(at))];
        n := 1;
      }
      return if n == 0 then Failure(AlreadyCommitted) else Success(());
    }
  }

  datatype PartUploadURL = PartUploadURL(partNumber: int, url: string)

  /** What storage presigns for a part, if it answers. */
  type Presigner = int -> Option<string>

  class App {
    const repo: BlobRepo
    const cfg: Config

    constructor (repo: BlobRepo, cfg: Config)
      ensures this.repo == repo && this.cfg == cfg
    {
      this.repo, this.cfg := repo, cfg;
    }

    /** The part of both initiations that finds or creates the row; it answers whether
        the upload exists already. Undisturbed, the create cannot fail. */
    method FindOrCreate(id: BlobId, size: int, contentType: string, now: Time) returns (committed: Outcome<bool>)
      requires ValidId(id)
      modifies repo
      ensures
        var did := Do(Views(old(repo.blobs)), Initiate(id, size, contentType, now));
        Views(repo.blobs) == did.uploads && committed == Success(did.answer == AlreadyExists) &&
        (did.answer == AlreadyExists || did.answer == UploadTo)
      ensures committed == Success(IsCommitted(old(repo.blobs), id))
      ensures Initiated(old(repo.blobs), repo.blobs, id, size, contentType, now)
    {
      SameKeys(repo.blobs);
      var existing := FindByID(repo.blobs, id);
      if existing.Some? && existing.value.state.Committed? {
        return Success(true);
      }
      committed := Success(false);
      if existing.None? {
        var b := NewBlob(id, size, contentType, now);
        InsertedView(repo.blobs, b);
        var created := repo.CreateRow(b);
        committed := match created case Failure(e) => Failure(e) case Success(_) => Success(false);
      }
    }

    method InitiateUpload(id: BlobId, size: int, contentType: string, now: Time, storageOk: bool) returns (r: Ending)
      modifies repo
      ensures
        var did := Do(Views(old(repo.blobs)), Initiate(id, size, contentType, now));
        if !ValidId(id) then r == Invalid && repo.blobs == old(repo.blobs)
        else Views(repo.blobs) == did.uploads && r == if did.answer == UploadTo && !storageOk then StorageFailed
                                                      else Done(Initiate(id, size, contentType, now), did.answer)
      ensures ValidId(id) ==> Initiated(old(repo.blobs), repo.blobs, id, size, contentType, now)
      ensures r == if !ValidId(id) then Invalid
                   else if IsCommitted(old(repo.blobs), id)
                   then Done(Initiate(id, size, contentType, now), AlreadyExists)
                   else if storageOk then Done(Initiate(id, size, contentType, now), UploadTo)
                   else StorageFailed
    {
      if !ValidId(id) {
        return Invalid;
      }
      var op := Initiate(id, size, contentType, now);
      var committed := FindOrCreate(id, size, contentType, now);
      return match committed
        case Failure(e) => CreateFailed(e)
        case Success(true) => Done(op, AlreadyExists)
        case Success(false) => if storageOk then Done(op, UploadTo) else StorageFailed;
    }

    /** One URL per part, numbered from 1, or none at all. */
    method InitiateMultipartUpload(id: BlobId, size: int, contentType: string, partCount: int, now: Time,
                                   storageOk: bool, presign: Presigner)
      returns (r: Ending, parts: seq<PartUploadURL>)
      modifies repo
      ensures
        var did := Do(Views(old(repo.blobs)), Initiate(id, size, contentType, now));
        var answered := storageOk && forall n | 1 <= n <= partCount :: presign(n).Some?;
        if !ValidId(id) || partCount < 1 then r == Invalid && repo.blobs == old(repo.blobs)
        else Views(repo.blobs) == did.uploads && r == if did.answer == UploadTo && !answered then StorageFailed
                                                      else Done(Initiate(id, size, contentType, now), did.answer)
      ensures ValidId(id) && partCount >= 1 ==>
        Initiated(old(repo.blobs), repo.blobs, id, size, contentType, now) &&
        (r == Done(Initiate(id, size, contentType, now), AlreadyExists) <==> IsCommitted(old(repo.blobs), id)) &&
        (r == Done(Initiate(id, size, contentType, now), UploadTo) <==>
          !IsCommitted(old(repo.blobs), id) && storageOk && forall n | 1 <= n <= partCount :: presign(n).Some?)
      ensures r.Done? && r.answer == UploadTo ==>
        |parts| == partCount &&
        forall i | 0 <= i < partCount :: presign(i + 1) == Some(parts[i].url) && parts[i].partNumber == i + 1
      ensures !(r.Done? && r.answer == UploadTo) ==> parts == []
    {
      hide ValidId, Views, Do;
      parts := [];
      if !ValidId(id) || partCount < 1 {
        return Invalid, [];
      }
      var op := Initiate(id, size, contentType, now);
      var committed := FindOrCreate(id, size, contentType, now);
      if committed != Success(false) {
        return match committed case Failure(e) => CreateFailed(e) case Success(_) => Done(op, AlreadyExists), [];
      }
      if !storageOk {
        return StorageFailed, [];
      }
      ghost var stored := repo.blobs;
      var urls := new PartUploadURL[partCount](_ => PartUploadURL(0, ""));
      for i := 0 to partCount
        invariant repo.blobs == stored
        invariant forall n | 1 <= n <= i :: presign(n).Some?
        invariant forall j | 0 <= j < i :: presign(j + 1) == Some(urls[j].url) && urls[j].partNumber == j + 1
      {
        var partNum := i + 1;
        var url := presign(partNum);
        if url.None? {
          assert presign(partNum).None?;
          return StorageFailed, [];
        }
        urls[i] := PartUploadURL(partNum, url.value);
      }
      return Done(op, UploadTo), urls[..];
    }

    method CompleteUpload(id: BlobId, now: Time) returns (r: Ending)
      modifies repo
      ensures
        var did := Do(Views(old(repo.blobs)), Complete(id, now));
        if !ValidId(id) then r == Invalid && repo.blobs == old(repo.blobs)
        else Views(repo.blobs) == did.uploads && r == Done(Complete(id, now), did.answer)
      ensures repo.blobs == if ValidId(id) && IsPending(old(repo.blobs), id) then Marked(old(repo.blobs), id, now)
                            else old(repo.blobs)
      ensures r == if !ValidId(id) then Invalid
                   else if id !in old(repo.blobs) then Done(Complete(id, now), Refused(BlobNotFound))
                   else if IsCommitted(old(repo.blobs), id) then Done(Complete(id, now), Refused(AlreadyCommitted))
                   else Done(Complete(id, now), CommittedAt(now))
    {
      if !ValidId(id) {
        return Invalid;
      }
      SameKeys(repo.blobs);
      var blob := FindByID(repo.blobs, id);
      if blob.None? {
        return Done(Complete(id, now), Refused(BlobNotFound));
      }
      if blob.value.state.Committed? {
        return Done(Complete(id, now), Refused(AlreadyCommitted));
      }
      MarkedView(repo.blobs, id, now);
      var marked := repo.MarkRow(id, now);
      return Done(Complete(id, now), match marked case Failure(e) => Refused(e) case Success(_) => CommittedAt(now));
    }

    /** Storage assembles the parts before the row is marked. */
    method CompleteMultipartUpload(id: BlobId, now: Time, storageOk: bool) returns (r: Ending)
      modifies repo
      ensures
        var did := Do(Views(old(repo.blobs)), Complete(id, now));
        if !ValidId(id) then r == Invalid && repo.blobs == old(repo.blobs)
        else if did.answer.CommittedAt? && !storageOk then r == StorageFailed && repo.blobs == old(repo.blobs)
        else Views(repo.blobs) == did.uploads && r == Done(Complete(id, now), did.answer)
      ensures repo.blobs == if ValidId(id) && IsPending(old(repo.blobs), id) && storageOk
                            then Marked(old(repo.blobs), id, now)
                            else old(repo.blobs)
      ensures r == if !ValidId(id) then Invalid
                   else if id !in old(repo.blobs) then Done(Complete(id, now), Refused(BlobNotFound))
                   else if IsCommitted(old(repo.blobs), id) then Done(Complete(id, now), Refused(AlreadyCommitted))
                   else if storageOk then Done(Complete(id, now), CommittedAt(now))
                   else StorageFailed
    {
      if !ValidId(id) {
        return Invalid;
      }
      SameKeys(repo.blobs);
      var blob := FindByID(repo.blobs, id);
      if blob.None? {
        return Done(Complete(id, now), Refused(BlobNotFound));
      }
      if blob.value.state.Committed? {
        return Done(Complete(id, now), Refused(AlreadyCommitted));
      }
      if !storageOk {
        return StorageFailed;
      }
      MarkedView(repo.blobs, id, now);
      var marked := repo.MarkRow(id, now);
      return Done(Complete(id, now), match marked case Failure(e) => Refused(e) case Success(_) => CommittedAt(now));
    }

    /** The URL lasts as long as asked for, within the configured maximum. */
    method GetDownloadURL(id: BlobId, wanted: Time, storageOk: bool) returns (r: Ending, ttl: Time)
      ensures
        var did := Do(Views(repo.blobs), Download(id));
        r == if !ValidId(id) then Invalid
             else if did.answer == DownloadFrom && !storageOk then StorageFailed else Done(Download(id), did.answer)
      ensures r == Done(Download(id), DownloadFrom) <==> ValidId(id) && IsCommitted(repo.blobs, id) && storageOk
      ensures r == Done(Download(id), Refused(BlobPending)) <==> ValidId(id) && IsPending(repo.blobs, id)
      ensures r == Done(Download(id), Refused(BlobNotFound)) <==> ValidId(id) && id !in repo.blobs
      ensures r == StorageFailed <==> ValidId(id) && IsCommitted(repo.blobs, id) && !storageOk
      ensures 0 < wanted <= cfg.presignGetMaxTTL ==> ttl == wanted
      ensures !(0 < wanted <= cfg.presignGetMaxTTL) ==> ttl == cfg.presignGetMaxTTL
    {
      ttl := wanted;
      if ttl <= 0 || ttl > cfg.presignGetMaxTTL {
        ttl := cfg.presignGetMaxTTL;
      }
      if !ValidId(id) {
        return Invalid, ttl;
      }
      SameKeys(repo.blobs);
      var blob := FindByID(repo.blobs, id);
      if blob.None? {
        return Done(Download(id), Refused(BlobNotFound)), ttl;
      }
      if blob.value.state.Pending? {
        return Done(Download(id), Refused(BlobPending)), ttl;
      }
      return if storageOk then Done(Download(id), DownloadFrom) else StorageFailed, ttl;
    }

    method GetBlobInfo(id: BlobId) returns (r: Ending, blob: Option<Blob>)
      ensures
        r == if !ValidId(id) then Invalid else Done(Info(id), Do(Views(repo.blobs), Info(id)).answer)
      ensures blob == if ValidId(id) && id in repo.blobs then Some(repo.blobs[id]) else None
      ensures r == Done(Info(id), Refused(BlobNotFound)) <==> ValidId(id) && id !in repo.blobs
    {
      if !ValidId(id) {
        return Invalid, None;
      }
      SameKeys(repo.blobs);
      blob := FindByID(repo.blobs, id);
      r := Done(Info(id), match blob case None => Refused(BlobNotFound) case Some(row) => Found(View(row)));
    }
  }
}

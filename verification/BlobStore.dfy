/** blob-service's repository: the blobs table and the statements on it. */
module BlobStore {
  import opened Prelude

  type BlobId = string
  type Time = int

  datatype BlobError = InvalidBlobID | BlobNotFound | AlreadyCommitted | BlobPending

  datatype Outcome<+T> = Success(value: T) | Failure(error: BlobError)

  datatype UploadState = Pending | Committed

  datatype Blob = Blob(
    id: BlobId, size: int, contentType: string, key: string, state: UploadState, createdAt: Time,
    committedAt: Option<Time>)

  type Blobs = map<BlobId, Blob>

  datatype Config = Config(presignGetMaxTTL: Time)

  /** ^[0-9a-f]{64}$ */
  predicate ValidId(id: BlobId) {
    |id| == 64 && forall ch | ch in id :: '0' <= ch <= '9' || 'a' <= ch <= 'f'
  }

  function NewBlob(id: BlobId, size: int, contentType: string, now: Time): Blob {
    Blob(id, size, contentType, id, Pending, now, None)
  }

  /** GetDownloadURL's ttl: the longest when none, or too long a one, is asked for. */
  function Clamped(c: Config, ttl: Time): Time {
    if ttl <= 0 || ttl > c.presignGetMaxTTL then c.presignGetMaxTTL else ttl
  }

  function FindByID(blobs: Blobs, id: BlobId): Option<Blob> {
    if id in blobs then Some(blobs[id]) else None
  }

  /** A duplicate key is reported as AlreadyCommitted, whatever the row's state. */
  function Create(blobs: Blobs, b: Blob): Outcome<Blobs> {
    if b.id in blobs then Failure(AlreadyCommitted) else Success(blobs[b.id := b])
  }

  /** The guarded update: no row in state PENDING, no effect. */
  function MarkCommitted(blobs: Blobs, id: BlobId, at: Time): Outcome<Blobs> {
    if id in blobs && blobs[id].state.Pending?
    then Success(blobs[id := blobs[id].(state := Committed, committedAt := Some(at))])
    else Failure(AlreadyCommitted)
  }
}

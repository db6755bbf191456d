/** A receipt's processing lifecycle: queued, leased to one attempt at a time, finished once. */
module Receipts {
  import opened Wrappers
  import opened CaptureDraft

  datatype ReceiptState = Queued | Processing | Recognized | RecognitionFailed

  datatype Receipt = Receipt(
    id: Id,
    owner: Id,
    state: ReceiptState,
    attempt: Option<Id>,
    leaseExpiresAt: Option<Instant>,
    imageRemovedAt: Option<Instant>,
    fileId: Option<string>,
    noticeSentAt: Option<Instant>,
    createdAt: Instant,
    modifiedAt: Instant)

  function Receive(id: Id, owner: Id, fileId: string, now: Instant): Receipt {
    Receipt(id, owner, Queued, None, None, None, Some(fileId), None, now, now)
  }

  predicate Finished(r: Receipt) {
    r.state.Recognized? || r.state.RecognitionFailed?
  }

  predicate IsClaimable(r: Receipt, now: Instant) {
    && r.imageRemovedAt.None?
    && (r.state.Queued? || (r.state.Processing? && r.leaseExpiresAt.Some? && r.leaseExpiresAt.value <= now))
  }

  /** Start a new attempt; an expired lease may be taken over. */
  function Claim(r: Receipt, attempt: Id, now: Instant, lease: int): Result<Receipt> {
    if IsClaimable(r, now) && lease > 0
    then Accepted(r.(state := Processing, attempt := Some(attempt), leaseExpiresAt := Some(now + lease), modifiedAt := now))
    else Rejected
  }

  predicate IsCurrent(r: Receipt, attempt: Id) {
    r.state.Processing? && r.attempt == Some(attempt)
  }

  /** End an attempt; only the current one may. */
  function Finish(r: Receipt, attempt: Id, recognized: bool, now: Instant): Result<Receipt> {
    if IsCurrent(r, attempt)
    then Accepted(r.(state := if recognized then Recognized else RecognitionFailed, leaseExpiresAt := None, modifiedAt := now))
    else Rejected
  }

  /** Forget the image and the file it came from; the row stays. */
  function RemoveImage(r: Receipt, now: Instant): Receipt {
    if r.imageRemovedAt.Some? then r else r.(imageRemovedAt := Some(now), fileId := None, modifiedAt := now)
  }

  /** The table's own constraints on state, attempt and lease. */
  predicate ReceiptRowOk(r: Receipt) {
    && (r.state.Queued? <==> r.attempt.None?)
    && (r.state.Processing? <==> r.leaseExpiresAt.Some?)
  }
}

/** What the bot is waiting for from one user, and about which draft. */
module Conversations {
  import opened Wrappers
  import opened CaptureDraft

  datatype Awaiting = Nothing | Amount | Currency | Merchant | Category | Date

  datatype Conversation = Conversation(
    active: Option<Id>,
    awaiting: Awaiting,
    currencyIsDefault: bool,
    pending: Option<string>,
    updatedAt: Instant)
  {
    /** Without a draft there is nothing to wait for and no photo to keep. */
    predicate Valid() {
      active.None? ==> awaiting.Nothing? && pending.None?
    }

    function WithPending(fileId: Option<string>, now: Instant): Conversation {
      this.(pending := fileId, updatedAt := now)
    }

    function WaitingFor(next: Awaiting, now: Instant): Conversation {
      this.(awaiting := next, updatedAt := now)
    }

    /** Any pending photo is dropped. */
    function WithDraft(draft: Id, next: Awaiting, isDefault: bool, now: Instant): Conversation {
      Conversation(Some(draft), next, isDefault, None, now)
    }
  }

  function Idle(now: Instant): Conversation {
    Conversation(None, Nothing, false, None, now)
  }
}

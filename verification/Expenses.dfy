/** A confirmed expense. It is created from a draft and afterwards only edited, deleted, restored. */
module Expenses {
  import opened Wrappers
  import opened Amounts
  import opened CaptureDraft

  datatype Expense = Expense(
    id: Id,
    owner: Id,
    money: Money,
    date: Day,
    merchant: Option<string>,
    category: string,
    note: Option<string>,
    source: CaptureSource,
    draftId: Id,
    receiptId: Option<Id>,
    createdAt: Instant,
    modifiedAt: Instant,
    deletedAt: Option<Instant>)

  predicate IsActive(e: Expense) {
    e.deletedAt.None?
  }

  function ValueOf<T>(f: Field<T>): Option<T> {
    if f.Set? then Some(f.value) else None
  }

  /** The draft's values as a new expense; money must be strictly positive. */
  function FromDraft(d: Draft, id: Id, now: Instant): Result<Expense>
    requires d.amount.Set? && d.date.Set?
  {
    var category := if d.category.Set? then d.category.value else UNCATEGORIZED_KEY;
    if d.amount.value.minorUnits > 0 && StableKey(category)
    then Accepted(Expense(id, d.owner, d.amount.value, d.date.value, ValueOf(d.merchant), category, d.note,
                          d.source, d.id, d.receiptId, now, now, None))
    else Rejected
  }

  function EditMoney(e: Expense, money: Money, now: Instant): Result<Expense> {
    if money.minorUnits > 0 then Accepted(e.(money := money, modifiedAt := now)) else Rejected
  }

  function EditMerchant(e: Expense, merchant: Option<string>, now: Instant): Expense {
    e.(merchant := merchant, modifiedAt := now)
  }

  function EditCategory(e: Expense, key: string, now: Instant): Result<Expense> {
    if StableKey(key) then Accepted(e.(category := key, modifiedAt := now)) else Rejected
  }

  function EditNote(e: Expense, note: Option<string>, now: Instant): Expense {
    e.(note := note, modifiedAt := now)
  }

  function EditDate(e: Expense, date: Day, now: Instant): Expense {
    e.(date := date, modifiedAt := now)
  }

  function Delete(e: Expense, now: Instant): Expense {
    if e.deletedAt.Some? then e else e.(deletedAt := Some(now), modifiedAt := now)
  }

  function Restore(e: Expense, now: Instant): Expense {
    if e.deletedAt.None? then e else e.(deletedAt := None, modifiedAt := now)
  }

  /** The columns no edit, deletion or restoration touches. */
  predicate SameOrigin(a: Expense, b: Expense) {
    a.id == b.id && a.owner == b.owner && a.source == b.source && a.draftId == b.draftId && a.receiptId == b.receiptId && a.createdAt == b.createdAt
  }
}

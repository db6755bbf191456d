/**
 Corrections, deletions and restorations of a confirmed expense, and the record each one leaves.
 The records replay forward to the current row and back to the values that were confirmed.
 */
module ExpenseAudit {
  import opened Wrappers
  import opened Amounts
  import opened CaptureDraft
  import opened Expenses

  // --- what a record stores ---

  /** Money is two fields, so that correcting the currency does not restate the amount. */
  datatype ExpenseField = AmountMinorUnits | CurrencyCode | TransactionDate | Merchant | CategoryKey | Note

  datatype FieldValue = Null | Number(n: nat) | Code(currency: Currency) | On(day: Day) | Text(text: string)

  function FieldValueOf(e: Expense, field: ExpenseField): FieldValue {
    match field
    case AmountMinorUnits => Number(e.money.minorUnits)
    case CurrencyCode => Code(e.money.currency)
    case TransactionDate => On(e.date)
    case Merchant => if e.merchant.Some? then Text(e.merchant.value) else Null
    case CategoryKey => Text(e.category)
    case Note => if e.note.Some? then Text(e.note.value) else Null
  }

  datatype FieldChange = FieldChange(field: ExpenseField, was: FieldValue, becomes: FieldValue)

  datatype ChangeType = Edited | Deleted | Restored

  datatype ChangeRecord = ChangeRecord(expense: Id, actor: Id, occurredAt: Instant, changeType: ChangeType, changes: seq<FieldChange>)

  const FIELDS: seq<ExpenseField> := [AmountMinorUnits, CurrencyCode, TransactionDate, Merchant, CategoryKey, Note]

  /** The fields, in order, whose values differ. */
  function Changes(before: Expense, after: Expense, fields: seq<ExpenseField>): seq<FieldChange> {
    if fields == [] then []
    else
      (if FieldValueOf(before, fields[0]) != FieldValueOf(after, fields[0])
       then [FieldChange(fields[0], FieldValueOf(before, fields[0]), FieldValueOf(after, fields[0]))] else [])
      + Changes(before, after, fields[1..])
  }

  // --- requests ---

  /** None is a field the caller did not supply; Some(None) clears an optional one. */
  datatype ExpenseEdit = ExpenseEdit(
    money: Option<Money>,
    date: Option<Day>,
    merchant: Option<Option<string>>,
    category: Option<string>,
    note: Option<Option<string>>)

  /** What an edit is checked against: whether the caller exists, the last acceptable day, the active categories. */
  datatype Policy = Policy(userExists: bool, lastDay: Day, categories: set<string>)

  datatype Outcome = NotFound | EditRejected | Done(expense: Expense)

  datatype Request =
    | Edit(expense: Id, caller: Id, edit: ExpenseEdit, policy: Policy, now: Instant)
    | Delete(expense: Id, caller: Id, now: Instant)
    | Restore(expense: Id, caller: Id, now: Instant)

  datatype Applied = Refused(outcome: Outcome) | Proceed(expense: Expense)

  function ApplyDate(e: Expense, edit: ExpenseEdit, policy: Policy, now: Instant): Applied {
    if edit.date.None? then Proceed(e)
    else if edit.date.value != e.date && !policy.userExists then Refused(NotFound)
    else if edit.date.value != e.date && edit.date.value > policy.lastDay then Refused(EditRejected)
    else Proceed(EditDate(e, edit.date.value, now))
  }

  function ApplyCategory(e: Expense, edit: ExpenseEdit, policy: Policy, now: Instant): Applied {
    if edit.category.None? then Proceed(e)
    else if edit.category.value != e.category && edit.category.value !in policy.categories then Refused(EditRejected)
    else
      var r := EditCategory(e, edit.category.value, now);
      if r.Accepted? then Proceed(r.value) else Refused(EditRejected)
  }

  function ApplyMoney(e: Expense, edit: ExpenseEdit, now: Instant): Applied {
    if edit.money.None? then Proceed(e)
    else
      var r := EditMoney(e, edit.money.value, now);
      if r.Accepted? then Proceed(r.value) else Refused(EditRejected)
  }

  /** The supplied fields, in the order they are applied: money, date, merchant, category, note. */
  function Apply(e: Expense, edit: ExpenseEdit, policy: Policy, now: Instant): Applied {
    var a := ApplyMoney(e, edit, now);
    if a.Refused? then a else
      var b := ApplyDate(a.expense, edit, policy, now);
      if b.Refused? then b else
        var c := if edit.merchant.Some? then EditMerchant(b.expense, edit.merchant.value, now) else b.expense;
        var d := ApplyCategory(c, edit, policy, now);
        if d.Refused? then d else
          Proceed(if edit.note.Some? then EditNote(d.expense, edit.note.value, now) else d.expense)
  }

  datatype Ledger = Ledger(expenses: map<Id, Expense>, records: seq<ChangeRecord>)

  predicate Owned(s: Ledger, id: Id, caller: Id) {
    id in s.expenses && s.expenses[id].owner == caller
  }

  function Record(s: Ledger, after: Expense, record: ChangeRecord): Ledger {
    Ledger(s.expenses[after.id := after], s.records + [record])
  }

  /** The tables after a request, and its answer. */
  function Perform(s: Ledger, r: Request): (Ledger, Outcome) {
    if !Owned(s, r.expense, r.caller) then (s, NotFound)
    else
      var before := s.expenses[r.expense];
      match r
      case Edit(id, caller, edit, policy, now) =>
        if !IsActive(before) then (s, NotFound)
        else
          var applied := Apply(before, edit, policy, now);
          if applied.Refused? then (s, applied.outcome)
          else
            var changes := Changes(before, applied.expense, FIELDS);
            if changes == [] then (s, Done(before))
            else (Record(s, applied.expense, ChangeRecord(id, caller, now, Edited, changes)), Done(applied.expense))
      case Delete(id, caller, now) =>
        if !IsActive(before) then (s, Done(before))
        else (Record(s, Expenses.Delete(before, now), ChangeRecord(id, caller, now, Deleted, [])), Done(Expenses.Delete(before, now)))
      case Restore(id, caller, now) =>
        if IsActive(before) then (s, Done(before))
        else (Record(s, Expenses.Restore(before, now), ChangeRecord(id, caller, now, Restored, [])), Done(Expenses.Restore(before, now)))
  }

  // --- replaying records ---

  /** What the records speak about: the editable fields, and whether the expense is active. */
  datatype View = View(values: map<ExpenseField, FieldValue>, active: bool)

  function FieldValues(e: Expense): map<ExpenseField, FieldValue> {
    map f: ExpenseField :: FieldValueOf(e, f)
  }

  function ViewOf(e: Expense): View {
    View(FieldValues(e), IsActive(e))
  }

  function Overwrite(values: map<ExpenseField, FieldValue>, changes: seq<FieldChange>, forward: bool): map<ExpenseField, FieldValue> {
    if changes == [] then values
    else Overwrite(values, changes[1..], forward)[changes[0].field := if forward then changes[0].becomes else changes[0].was]
  }

  function Redo(v: View, r: ChangeRecord): View {
    match r.changeType
    case Edited => v.(values := Overwrite(v.values, r.changes, true))
    case Deleted => v.(active := false)
    case Restored => v.(active := true)
  }

  function Undo(v: View, r: ChangeRecord): View {
    match r.changeType
    case Edited => v.(values := Overwrite(v.values, r.changes, false))
    case Deleted => v.(active := true)
    case Restored => v.(active := false)
  }

  ghost predicate DistinctFields(changes: seq<FieldChange>) {
    forall i, j | 0 <= i < j < |changes| :: changes[i].field != changes[j].field
  }

  /** A record fits a state: it changes what it says was there, and only an active expense is edited or deleted. */
  ghost predicate Fits(v: View, r: ChangeRecord) {
    match r.changeType
    case Edited =>
      && v.active && r.changes != [] && DistinctFields(r.changes)
      && forall c | c in r.changes :: c.field in v.values && v.values[c.field] == c.was && c.was != c.becomes
    case Deleted => v.active && r.changes == []
    case Restored => !v.active && r.changes == []
  }

  function Replay(v: View, records: seq<ChangeRecord>): View {
    if records == [] then v else Redo(Replay(v, records[..|records| - 1]), records[|records| - 1])
  }

  function Rewind(v: View, records: seq<ChangeRecord>): View
    decreases |records|
  {
    if records == [] then v else Rewind(Undo(v, records[|records| - 1]), records[..|records| - 1])
  }

  ghost predicate AllFit(v: View, records: seq<ChangeRecord>) {
    records == [] || (AllFit(v, records[..|records| - 1]) && Fits(Replay(v, records[..|records| - 1]), records[|records| - 1]))
  }

  lemma {:induction false} OverwrittenValue(values: map<ExpenseField, FieldValue>, changes: seq<FieldChange>, forward: bool, f: ExpenseField)
    requires DistinctFields(changes)
    ensures forall c | c in changes && c.field == f ::
              f in Overwrite(values, changes, forward) && Overwrite(values, changes, forward)[f] == if forward then c.becomes else c.was
    ensures (forall c | c in changes :: c.field != f) ==>
              (f in Overwrite(values, changes, forward) <==> f in values)
              && (f in values ==> Overwrite(values, changes, forward)[f] == values[f])
  {
    if changes != [] {
      OverwrittenValue(values, changes[1..], forward, f);
      assert forall c | c in changes[1..] :: c in changes;
      assert changes[0] in changes;
      assert forall c | c in changes :: c == changes[0] || c in changes[1..];
      if changes[0].field == f {
        assert forall i | 0 < i < |changes| :: changes[i].field != f;
      }
    }
  }

  /** Undoing a record that fits gives back the state it replaced. */
  lemma UndoRedo(v: View, r: ChangeRecord)
    requires Fits(v, r)
    ensures Undo(Redo(v, r), r) == v
  {
    if r.changeType.Edited? {
      var there := Overwrite(v.values, r.changes, true);
      var back := Overwrite(there, r.changes, false);
      forall f: ExpenseField ensures (f in back <==> f in v.values) && (f in v.values ==> back[f] == v.values[f]) {
        OverwrittenValue(v.values, r.changes, true, f);
        OverwrittenValue(there, r.changes, false, f);
        if c :| c in r.changes && c.field == f {
        }
      }
      assert back == v.values;
    }
  }

  /** Folding a fitting log back undoes folding it forward. */
  lemma {:induction false} RewindReplay(v: View, records: seq<ChangeRecord>)
    requires AllFit(v, records)
    ensures Rewind(Replay(v, records), records) == v
  {
    if records != [] {
      var n := |records| - 1;
      UndoRedo(Replay(v, records[..n]), records[n]);
      RewindReplay(v, records[..n]);
    }
  }

  // --- every run of requests ---

  lemma {:induction false} ChangesAre(before: Expense, after: Expense, fields: seq<ExpenseField>, c: FieldChange)
    ensures c in Changes(before, after, fields) <==>
              c.field in fields && c.was == FieldValueOf(before, c.field) && c.becomes == FieldValueOf(after, c.field) && c.was != c.becomes
  {
    if fields != [] {
      ChangesAre(before, after, fields[1..], c);
      assert c.field in fields <==> c.field == fields[0] || c.field in fields[1..];
    }
  }

  lemma {:induction false} ChangesAreDistinct(before: Expense, after: Expense, fields: seq<ExpenseField>)
    requires forall i, j | 0 <= i < j < |fields| :: fields[i] != fields[j]
    ensures DistinctFields(Changes(before, after, fields))
  {
    if fields != [] {
      var rest := Changes(before, after, fields[1..]);
      ChangesAreDistinct(before, after, fields[1..]);
      forall c | c in rest ensures c.field != fields[0] {
        ChangesAre(before, after, fields[1..], c);
      }
      assert forall i | 0 <= i < |rest| :: rest[i] in rest;
    }
  }

  lemma AllFieldsListed(f: ExpenseField)
    ensures f in FIELDS && forall i, j | 0 <= i < j < |FIELDS| :: FIELDS[i] != FIELDS[j]
  {
    match f
    case AmountMinorUnits => assert FIELDS[0] == f;
    case CurrencyCode => assert FIELDS[1] == f;
    case TransactionDate => assert FIELDS[2] == f;
    case Merchant => assert FIELDS[3] == f;
    case CategoryKey => assert FIELDS[4] == f;
    case Note => assert FIELDS[5] == f;
  }

  /** An edit's record fits the row it replaced and leads to the row it wrote; it is empty exactly when nothing changed. */
  lemma EditRecordFits(before: Expense, after: Expense, r: ChangeRecord)
    requires IsActive(before) && IsActive(after) && r.changeType.Edited? && r.changes == Changes(before, after, FIELDS)
    ensures r.changes == [] <==> FieldValues(before) == FieldValues(after)
    ensures r.changes != [] ==> Fits(ViewOf(before), r) && Redo(ViewOf(before), r) == ViewOf(after)
  {
    AllFieldsListed(Note);
    ChangesAreDistinct(before, after, FIELDS);
    var redone := Overwrite(FieldValues(before), r.changes, true);
    forall f: ExpenseField ensures f in redone && redone[f] == FieldValueOf(after, f)
      ensures r.changes == [] ==> FieldValueOf(before, f) == FieldValueOf(after, f)
    {
      var c := FieldChange(f, FieldValueOf(before, f), FieldValueOf(after, f));
      AllFieldsListed(f);
      ChangesAre(before, after, FIELDS, c);
      OverwrittenValue(FieldValues(before), r.changes, true, f);
      forall x | x in r.changes ensures x.field == f ==> x == c {
        ChangesAre(before, after, FIELDS, x);
      }
    }
    forall c | c in r.changes ensures FieldValueOf(before, c.field) == c.was && c.was != c.becomes {
      ChangesAre(before, after, FIELDS, c);
    }
    assert redone == FieldValues(after);
    if r.changes != [] {
      assert r.changes[0] in r.changes;
      assert FieldValues(before)[r.changes[0].field] != FieldValues(after)[r.changes[0].field];
    }
  }

  /** An edit is accepted on a date and category when each value it supplies is acceptable by itself. */
  predicate Acceptable(date: Day, category: string, edit: ExpenseEdit, policy: Policy) {
    && (edit.money.Some? ==> edit.money.value.minorUnits > 0)
    && (edit.date.Some? && edit.date.value != date ==> policy.userExists && edit.date.value <= policy.lastDay)
    && (edit.category.Some? ==> StableKey(edit.category.value) && (edit.category.value == category || edit.category.value in policy.categories))
  }

  /** The fields are checked one by one, independently, and each supplied one is set. */
  lemma ApplySetsSupplied(e: Expense, edit: ExpenseEdit, policy: Policy, now: Instant)
    ensures Apply(e, edit, policy, now).Proceed? <==> Acceptable(e.date, e.category, edit, policy)
    ensures Apply(e, edit, policy, now).Proceed? ==>
              var after := Apply(e, edit, policy, now).expense;
              && SameOrigin(e, after) && after.deletedAt == e.deletedAt
              && after.money == edit.money.GetOr(e.money) && after.date == edit.date.GetOr(e.date)
              && after.merchant == edit.merchant.GetOr(e.merchant) && after.category == edit.category.GetOr(e.category)
              && after.note == edit.note.GetOr(e.note)
  {
    MoneyIsSet(e, edit, now);
    var a := ApplyMoney(e, edit, now);
    if a.Proceed? {
      DateIsSet(a.expense, edit, policy, now);
      var b := ApplyDate(a.expense, edit, policy, now);
      if b.Proceed? {
        CategoryIsSet(if edit.merchant.Some? then EditMerchant(b.expense, edit.merchant.value, now) else b.expense, edit, policy, now);
      }
    }
  }

  lemma MoneyIsSet(e: Expense, edit: ExpenseEdit, now: Instant)
    ensures var a := ApplyMoney(e, edit, now);
            && (a.Proceed? <==> (edit.money.Some? ==> edit.money.value.minorUnits > 0))
            && (a.Proceed? ==> a.expense == e.(money := edit.money.GetOr(e.money), modifiedAt := a.expense.modifiedAt))
  {
  }

  lemma DateIsSet(e: Expense, edit: ExpenseEdit, policy: Policy, now: Instant)
    ensures var a := ApplyDate(e, edit, policy, now);
            && (a.Proceed? <==> (edit.date.Some? && edit.date.value != e.date ==> policy.userExists && edit.date.value <= policy.lastDay))
            && (a.Proceed? ==> a.expense == e.(date := edit.date.GetOr(e.date), modifiedAt := a.expense.modifiedAt))
  {
  }

  lemma CategoryIsSet(e: Expense, edit: ExpenseEdit, policy: Policy, now: Instant)
    ensures var a := ApplyCategory(e, edit, policy, now);
            && (a.Proceed? <==> (edit.category.Some? ==>
                  StableKey(edit.category.value) && (edit.category.value == e.category || edit.category.value in policy.categories)))
            && (a.Proceed? ==> a.expense == e.(category := edit.category.GetOr(e.category), modifiedAt := a.expense.modifiedAt))
  {
  }

  lemma ApplyKeepsOrigin(e: Expense, edit: ExpenseEdit, policy: Policy, now: Instant)
    requires Apply(e, edit, policy, now).Proceed?
    ensures var after := Apply(e, edit, policy, now).expense; SameOrigin(e, after) && after.deletedAt == e.deletedAt
  {
  }

  function RecordsOf(records: seq<ChangeRecord>, id: Id): seq<ChangeRecord> {
    if records == [] then []
    else
      var last := records[|records| - 1];
      RecordsOf(records[..|records| - 1], id) + if last.expense == id then [last] else []
  }

  lemma RecordAppended(records: seq<ChangeRecord>, r: ChangeRecord, id: Id)
    ensures RecordsOf(records + [r], id) == RecordsOf(records, id) + if r.expense == id then [r] else []
  {
    assert (records + [r])[..|records|] == records;
  }

  /** The log of an expense tells its whole story since it was `first`. */
  ghost predicate Tells(s: Ledger, id: Id, first: Expense) {
    && id in s.expenses && s.expenses[id].id == id && SameOrigin(first, s.expenses[id])
    && AllFit(ViewOf(first), RecordsOf(s.records, id))
    && Replay(ViewOf(first), RecordsOf(s.records, id)) == ViewOf(s.expenses[id])
  }

  ghost predicate Identified(s: Ledger) {
    forall k | k in s.expenses :: s.expenses[k].id == k
  }

  lemma AppendFits(v: View, log: seq<ChangeRecord>, r: ChangeRecord)
    requires AllFit(v, log) && Fits(Replay(v, log), r)
    ensures AllFit(v, log + [r]) && Replay(v, log + [r]) == Redo(Replay(v, log), r)
  {
    assert (log + [r])[..|log|] == log;
  }

  lemma RecordTells(s: Ledger, id: Id, first: Expense, after: Expense, r: ChangeRecord)
    requires Tells(s, id, first) && Identified(s) && r.expense == after.id
    requires after.id in s.expenses && SameOrigin(s.expenses[after.id], after)
    requires Fits(ViewOf(s.expenses[after.id]), r) && Redo(ViewOf(s.expenses[after.id]), r) == ViewOf(after)
    ensures Tells(Record(s, after, r), id, first) && Identified(Record(s, after, r))
  {
    var log := RecordsOf(s.records, id);
    RecordAppended(s.records, r, id);
    if r.expense == id {
      AppendFits(ViewOf(first), log, r);
    } else {
      assert log + [] == log;
    }
  }

  lemma EditTells(s: Ledger, e: Id, caller: Id, edit: ExpenseEdit, policy: Policy, now: Instant, id: Id, first: Expense)
    requires Tells(s, id, first) && Identified(s) && Owned(s, e, caller) && IsActive(s.expenses[e])
    ensures var t := Perform(s, Edit(e, caller, edit, policy, now)).0; Tells(t, id, first) && Identified(t)
  {
    var before := s.expenses[e];
    var applied := Apply(before, edit, policy, now);
    if applied.Proceed? {
      var record := ChangeRecord(e, caller, now, Edited, Changes(before, applied.expense, FIELDS));
      ApplyKeepsOrigin(before, edit, policy, now);
      EditRecordFits(before, applied.expense, record);
      if record.changes != [] {
        RecordTells(s, id, first, applied.expense, record);
      }
    }
  }

  lemma SwitchTells(s: Ledger, e: Id, caller: Id, deleted: bool, now: Instant, id: Id, first: Expense)
    requires Tells(s, id, first) && Identified(s) && Owned(s, e, caller)
    ensures var t := Perform(s, if deleted then Delete(e, caller, now) else Restore(e, caller, now)).0; Tells(t, id, first) && Identified(t)
  {
    var before := s.expenses[e];
    var after := if deleted then Expenses.Delete(before, now) else Expenses.Restore(before, now);
    if IsActive(before) == deleted {
      var record := ChangeRecord(e, caller, now, if deleted then Deleted else Restored, []);
      assert FieldValues(before) == FieldValues(after);
      RecordTells(s, id, first, after, record);
    }
  }

  /** A request either leaves the tables alone or writes one row and one record that tells how it changed. */
  lemma RequestTells(s: Ledger, r: Request, id: Id, first: Expense)
    requires Tells(s, id, first) && Identified(s)
    ensures Tells(Perform(s, r).0, id, first) && Identified(Perform(s, r).0)
  {
    if Owned(s, r.expense, r.caller) {
      match r
      case Edit(e, caller, edit, policy, now) =>
        if IsActive(s.expenses[e]) {
          EditTells(s, e, caller, edit, policy, now, id, first);
        }
      case Delete(e, caller, now) => SwitchTells(s, e, caller, true, now, id, first);
      case Restore(e, caller, now) => SwitchTells(s, e, caller, false, now, id, first);
    }
  }

  /** A refusal or an edit without effect writes nothing; anything else writes one record about one row that really changed. */
  lemma WritesExactlyWhatChanged(s: Ledger, r: Request)
    requires Identified(s)
    ensures var (t, outcome) := Perform(s, r);
            && (!outcome.Done? ==> t == s)
            && (t != s ==>
                  && r.expense in s.expenses && t.expenses == s.expenses[r.expense := t.expenses[r.expense]]
                  && |t.records| == |s.records| + 1 && t.records[..|s.records|] == s.records
                  && t.records[|s.records|].expense == r.expense && t.records[|s.records|].actor == r.caller
                  && outcome == Done(t.expenses[r.expense]) && ViewOf(t.expenses[r.expense]) != ViewOf(s.expenses[r.expense]))
  {
    if Owned(s, r.expense, r.caller) && r.Edit? && IsActive(s.expenses[r.expense]) {
      var before := s.expenses[r.expense];
      var applied := Apply(before, r.edit, r.policy, r.now);
      if applied.Proceed? {
        ApplyKeepsOrigin(before, r.edit, r.policy, r.now);
        EditRecordFits(before, applied.expense, ChangeRecord(r.expense, r.caller, r.now, Edited, Changes(before, applied.expense, FIELDS)));
      }
    }
  }

  function PerformAll(s: Ledger, requests: seq<Request>): Ledger {
    if requests == [] then s
    else Perform(PerformAll(s, requests[..|requests| - 1]), requests[|requests| - 1]).0
  }

  /** Every record is about a stored expense and made by its owner. */
  ghost predicate OwnersRecord(s: Ledger) {
    forall r | r in s.records :: r.expense in s.expenses && s.expenses[r.expense].owner == r.actor
  }

  lemma RequestKeepsOwnersRecord(s: Ledger, r: Request)
    requires Identified(s) && OwnersRecord(s)
    ensures Identified(Perform(s, r).0) && OwnersRecord(Perform(s, r).0)
  {
    if r.Edit? && Owned(s, r.expense, r.caller) && Apply(s.expenses[r.expense], r.edit, r.policy, r.now).Proceed? {
      ApplyKeepsOrigin(s.expenses[r.expense], r.edit, r.policy, r.now);
    }
  }

  /** Whoever asks for what, only an expense's owner is ever recorded as having changed it. */
  lemma {:induction false} OnlyOwnersAreRecorded(s: Ledger, requests: seq<Request>)
    requires Identified(s) && OwnersRecord(s)
    ensures Identified(PerformAll(s, requests)) && OwnersRecord(PerformAll(s, requests))
  {
    if requests != [] {
      OnlyOwnersAreRecorded(s, requests[..|requests| - 1]);
      RequestKeepsOwnersRecord(PerformAll(s, requests[..|requests| - 1]), requests[|requests| - 1]);
    }
  }

  lemma {:induction false} RequestsTell(s: Ledger, requests: seq<Request>, id: Id, first: Expense)
    requires Tells(s, id, first) && Identified(s)
    ensures Tells(PerformAll(s, requests), id, first) && Identified(PerformAll(s, requests))
  {
    if requests != [] {
      RequestsTell(s, requests[..|requests| - 1], id, first);
      RequestTells(PerformAll(s, requests[..|requests| - 1]), requests[|requests| - 1], id, first);
    }
  }

  /** The values a confirmed draft had; an unset category counts as uncategorized. */
  function DraftValues(d: Draft): map<ExpenseField, FieldValue>
    requires d.amount.Set? && d.date.Set?
  {
    map[AmountMinorUnits := Number(d.amount.value.minorUnits), CurrencyCode := Code(d.amount.value.currency),
        TransactionDate := On(d.date.value),
        Merchant := if d.merchant.Set? then Text(d.merchant.value) else Null,
        CategoryKey := Text(if d.category.Set? then d.category.value else UNCATEGORIZED_KEY),
        Note := if d.note.Some? then Text(d.note.value) else Null]
  }

  lemma CreatedFromDraft(d: Draft, id: Id, now: Instant)
    requires d.amount.Set? && d.date.Set? && FromDraft(d, id, now).Accepted?
    ensures ViewOf(FromDraft(d, id, now).value) == View(DraftValues(d), true)
  {
    var e := FromDraft(d, id, now).value;
    forall f: ExpenseField ensures f in DraftValues(d) && DraftValues(d)[f] == FieldValueOf(e, f) {
      match f
      case AmountMinorUnits =>
      case CurrencyCode =>
      case TransactionDate =>
      case Merchant =>
      case CategoryKey =>
      case Note =>
    }
    assert FieldValues(e) == DraftValues(d);
  }

  /**
   * Whatever requests follow the confirmation, accepted, refused or without effect: the expense's
   * records folded forward from the confirmed draft's values give the current row, and folded back
   * from the current row they give exactly the confirmed draft's values.
   */
  lemma RecordsReplay(s: Ledger, d: Draft, id: Id, now: Instant, requests: seq<Request>)
    requires d.amount.Set? && d.date.Set? && FromDraft(d, id, now).Accepted?
    requires Identified(s) && id in s.expenses && s.expenses[id] == FromDraft(d, id, now).value && RecordsOf(s.records, id) == []
    ensures var t := PerformAll(s, requests);
            && id in t.expenses && SameOrigin(s.expenses[id], t.expenses[id])
            && AllFit(View(DraftValues(d), true), RecordsOf(t.records, id))
            && Replay(View(DraftValues(d), true), RecordsOf(t.records, id)) == ViewOf(t.expenses[id])
            && Rewind(ViewOf(t.expenses[id]), RecordsOf(t.records, id)) == View(DraftValues(d), true)
  {
    CreatedFromDraft(d, id, now);
    RequestsTell(s, requests, id, s.expenses[id]);
    RewindReplay(View(DraftValues(d), true), RecordsOf(PerformAll(s, requests).records, id));
  }

  // --- deletion spans ---

  lemma {:induction false} ActivityLasts(v: View, records: seq<ChangeRecord>, n: nat)
    requires AllFit(v, records) && n <= |records|
    requires forall k | n <= k < |records| :: records[k].changeType.Edited?
    ensures AllFit(v, records[..n]) && Replay(v, records).active == Replay(v, records[..n]).active
  {
    if n < |records| {
      var m := |records| - 1;
      ActivityLasts(v, records[..m], n);
      assert records[..m][..n] == records[..n];
    } else {
      assert records[..n] == records;
    }
  }

  lemma {:induction false} PrefixFits(v: View, records: seq<ChangeRecord>, n: nat)
    requires AllFit(v, records) && n <= |records|
    ensures AllFit(v, records[..n])
    ensures n < |records| ==> Fits(Replay(v, records[..n]), records[n])
  {
    if n < |records| {
      var m := |records| - 1;
      if n < m {
        PrefixFits(v, records[..m], n);
        assert records[..m][..n] == records[..n];
      }
    } else {
      assert records[..n] == records;
    }
  }

  /** Records between two that both delete, or both restore, undo the first; nothing is edited while deleted. */
  lemma DeletionsAlternate(v: View, records: seq<ChangeRecord>, i: nat, j: nat)
    requires AllFit(v, records) && i < j < |records|
    ensures records[i].changeType.Deleted? && !records[j].changeType.Restored? ==> exists k :: i < k < j && records[k].changeType.Restored?
    ensures records[i].changeType.Restored? && records[j].changeType.Restored? ==> exists k :: i < k < j && records[k].changeType.Deleted?
  {
    PrefixFits(v, records, i);
    PrefixFits(v, records, i + 1);
    PrefixFits(v, records, j);
    assert records[..i + 1][..i] == records[..i];
    if forall k | i < k < j :: records[k].changeType.Edited? {
      ActivityLasts(v, records[..j], i + 1);
      assert records[..j][..i + 1] == records[..i + 1];
    } else {
      LastSwitch(v, records, i, j);
    }
  }

  lemma {:induction false} LastSwitch(v: View, records: seq<ChangeRecord>, i: nat, j: nat)
    requires AllFit(v, records) && i < j < |records|
    requires exists k :: i < k < j && !records[k].changeType.Edited?
    ensures records[i].changeType.Deleted? ==> exists k :: i < k < j && records[k].changeType.Restored?
    ensures records[i].changeType.Restored? ==> exists k :: i < k < j && records[k].changeType.Deleted?
    decreases j
  {
    var k :| i < k < j && !records[k].changeType.Edited?;
    if k > i + 1 && (exists m :: i < m < k && !records[m].changeType.Edited?) {
      LastSwitch(v, records, i, k);
    } else {
      PrefixFits(v, records, i);
      PrefixFits(v, records, i + 1);
      PrefixFits(v, records, k);
      assert records[..i + 1][..i] == records[..i];
      ActivityLasts(v, records[..k], i + 1);
      assert records[..k][..i + 1] == records[..i + 1];
    }
  }

  // --- the use cases ---

  class ExpenseStore {
    var expenses: map<Id, Expense>
    var records: seq<ChangeRecord>

    function Tables(): Ledger
      reads this
    {
      Ledger(expenses, records)
    }

    /** The supplied fields are applied one after another; the first refusal ends it. */
    method ApplyEdit(e: Expense, edit: ExpenseEdit, policy: Policy, now: Instant) returns (applied: Applied)
      ensures applied == Apply(e, edit, policy, now)
    {
      var expense := e;
      if edit.money.Some? {
        var edited := EditMoney(expense, edit.money.value, now);
        if edited.Rejected? {
          return Refused(EditRejected);
        }
        expense := edited.value;
      }
      if edit.date.Some? {
        if edit.date.value != expense.date {
          if !policy.userExists {
            return Refused(NotFound);
          }
          if edit.date.value > policy.lastDay {
            return Refused(EditRejected);
          }
        }
        expense := EditDate(expense, edit.date.value, now);
      }
      if edit.merchant.Some? {
        expense := EditMerchant(expense, edit.merchant.value, now);
      }
      if edit.category.Some? {
        if edit.category.value != expense.category && edit.category.value !in policy.categories {
          return Refused(EditRejected);
        }
        var edited := EditCategory(expense, edit.category.value, now);
        if edited.Rejected? {
          return Refused(EditRejected);
        }
        expense := edited.value;
      }
      if edit.note.Some? {
        expense := EditNote(expense, edit.note.value, now);
      }
      return Proceed(expense);
    }

    /** Lock the caller's active expense, apply, record what changed, write both. */
    method EditExpense(id: Id, caller: Id, edit: ExpenseEdit, policy: Policy, now: Instant) returns (outcome: Outcome)
      requires Identified(Tables())
      modifies this
      ensures (Tables(), outcome) == Perform(old(Tables()), Edit(id, caller, edit, policy, now))
    {
      if id !in expenses || expenses[id].owner != caller || !IsActive(expenses[id]) {
        return NotFound;
      }
      var before := expenses[id];
      var applied := ApplyEdit(before, edit, policy, now);
      if applied.Refused? {
        return applied.outcome;
      }
      var changes := Changes(before, applied.expense, FIELDS);
      if changes == [] {
        return Done(before);
      }
      ApplyKeepsOrigin(before, edit, policy, now);
      records := records + [ChangeRecord(id, caller, now, Edited, changes)];
      expenses := expenses[id := applied.expense];
      return Done(applied.expense);
    }

    /** Deleting a deleted expense, or restoring an active one, succeeds and writes nothing. */
    method SetDeleted(id: Id, caller: Id, deleted: bool, now: Instant) returns (outcome: Outcome)
      requires Identified(Tables())
      modifies this
      ensures (Tables(), outcome) == Perform(old(Tables()), if deleted then Delete(id, caller, now) else Restore(id, caller, now))
    {
      if id !in expenses || expenses[id].owner != caller {
        return NotFound;
      }
      var expense := expenses[id];
      if IsActive(expense) != deleted {
        return Done(expense);
      }
      var changed := if deleted then Expenses.Delete(expense, now) else Expenses.Restore(expense, now);
      records := records + [ChangeRecord(id, caller, now, if deleted then Deleted else Restored, [])];
      expenses := expenses[id := changed];
      return Done(changed);
    }
  }
}

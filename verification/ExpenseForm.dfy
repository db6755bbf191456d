/**
 The expense edit form. It carries the values it was rendered with, and only what the user changed
 becomes part of the edit, so a form opened before another change never overwrites that change.
 */
module ExpenseForm {
  import opened Wrappers
  import opened Amounts
  import opened CaptureDraft
  import opened Expenses
  import A = ExpenseAudit

  const MAX_NOTE_LENGTH := 2000

  /** Every field as text, exactly as shown or submitted. */
  datatype Form = Form(amount: string, currency: string, date: string, merchant: string, category: string, note: string)

  datatype FormField = AmountField | CurrencyField | DateField | MerchantField | CategoryField | NoteField

  /** The number typed, in the currency chosen, and positive. */
  predicate IsTyped(r: Readers, f: Form, m: Money) {
    && r.currency(f.currency) == Some(m.currency) && m.minorUnits > 0 && Representable(m)
    && r.number(r.strip(f.amount)).Some? && SameNumber(r.number(r.strip(f.amount)).value, Major(m))
  }

  datatype ReadMoney = Blame(field: FormField) | Read(money: Money)

  /**
   * A positive amount within range and the currency's decimal places, or the field to blame. A text
   * that is not a number, or is a negative one, reads as no decimal.
   */
  function MoneyOf(currency: Option<Currency>, amount: Option<Decimal>): (m: ReadMoney)
    ensures m.Read? ==> currency == Some(m.money.currency) && m.money.minorUnits > 0 && Representable(m.money)
    ensures m.Blame? ==> m.field == if currency.None? then CurrencyField else AmountField
  {
    if currency.None? then Blame(CurrencyField)
    else if amount.None? then Blame(AmountField)
    else
      var money := ToMoney(amount.value, currency.value);
      if money.Rejected? || money.value.minorUnits == 0 then Blame(AmountField) else Read(money.value)
  }

  /** Reading an accepted amount never changes the number that was typed. */
  lemma MoneyReadsTheNumber(currency: Option<Currency>, amount: Option<Decimal>)
    requires MoneyOf(currency, amount).Read?
    ensures amount.Some? && SameNumber(amount.value, Major(MoneyOf(currency, amount).money))
  {
    ToMoneyKeepsTheNumber(amount.value, currency.value);
  }

  /** How texts are read: currencies, numbers as the locale writes them, dates, names and trimming all stay abstract. */
  datatype Readers = Readers(
    currency: string -> Option<Currency>,
    number: string -> Option<Decimal>,
    day: string -> Option<Day>,
    acceptable: Day -> bool,
    merchantName: string -> Option<string>,
    strip: string -> string,
    categories: set<string>)

  /** What a form's amount and currency stand for. */
  function FormMoney(r: Readers, f: Form): ReadMoney {
    MoneyOf(r.currency(f.currency), r.number(r.strip(f.amount)))
  }

  datatype Validated = Validated(edit: A.ExpenseEdit, errors: set<FormField>)

  const NO_EDIT := A.ExpenseEdit(None, None, None, None, None)

  // --- which fields the user changed; amount and currency count as one ---

  predicate MoneyChanged(submitted: Form, original: Form) {
    submitted.amount != original.amount || submitted.currency != original.currency
  }

  predicate DateChanged(submitted: Form, original: Form) {
    submitted.date != original.date
  }

  predicate MerchantChanged(r: Readers, submitted: Form, original: Form) {
    r.strip(submitted.merchant) != r.strip(original.merchant)
  }

  predicate CategoryChanged(submitted: Form, original: Form) {
    submitted.category != original.category
  }

  predicate NoteChanged(r: Readers, submitted: Form, original: Form) {
    r.strip(submitted.note) != r.strip(original.note)
  }

  /** The value a changed merchant text stands for; the outer None is an error. */
  function MerchantOf(r: Readers, text: string): Option<Option<string>> {
    if r.strip(text) == "" then Some(None)
    else if r.merchantName(text).Some? then Some(r.merchantName(text))
    else None
  }

  function NoteOf(r: Readers, text: string): Option<Option<string>> {
    var note := r.strip(text);
    if |note| > MAX_NOTE_LENGTH then None else Some(if note == "" then None else Some(note))
  }

  // --- what each changed field reads as; None when it did not change or does not read well ---

  function MoneyEdit(r: Readers, submitted: Form, original: Form): Option<Money> {
    if MoneyChanged(submitted, original) && FormMoney(r, submitted).Read?
    then Some(FormMoney(r, submitted).money) else None
  }

  function DateEdit(r: Readers, submitted: Form, original: Form): Option<Day> {
    if DateChanged(submitted, original) && r.day(submitted.date).Some? && r.acceptable(r.day(submitted.date).value)
    then r.day(submitted.date) else None
  }

  function MerchantEdit(r: Readers, submitted: Form, original: Form): Option<Option<string>> {
    if MerchantChanged(r, submitted, original) then MerchantOf(r, submitted.merchant) else None
  }

  function CategoryEdit(r: Readers, submitted: Form, original: Form): Option<string> {
    if CategoryChanged(submitted, original) && submitted.category in r.categories then Some(submitted.category) else None
  }

  function NoteEdit(r: Readers, submitted: Form, original: Form): Option<Option<string>> {
    if NoteChanged(r, submitted, original) then NoteOf(r, submitted.note) else None
  }

  function MoneyErrors(r: Readers, submitted: Form, original: Form): set<FormField> {
    if MoneyChanged(submitted, original) && FormMoney(r, submitted).Blame?
    then {FormMoney(r, submitted).field} else {}
  }

  /** A changed field without a value is blamed. */
  function Errors<T>(field: FormField, changed: bool, value: Option<T>): set<FormField> {
    if changed && value.None? then {field} else {}
  }

  /** The edit holds exactly the changed fields that read well, and the others that changed are blamed. */
  ghost predicate IsValidated(r: Readers, submitted: Form, original: Form, v: Validated) {
    && v.edit == A.ExpenseEdit(MoneyEdit(r, submitted, original), DateEdit(r, submitted, original), MerchantEdit(r, submitted, original),
                               CategoryEdit(r, submitted, original), NoteEdit(r, submitted, original))
    && v.errors == MoneyErrors(r, submitted, original)
                   + Errors(DateField, DateChanged(submitted, original), DateEdit(r, submitted, original))
                   + Errors(MerchantField, MerchantChanged(r, submitted, original), MerchantEdit(r, submitted, original))
                   + Errors(CategoryField, CategoryChanged(submitted, original), CategoryEdit(r, submitted, original))
                   + Errors(NoteField, NoteChanged(r, submitted, original), NoteEdit(r, submitted, original))
  }

  method CheckMoney(r: Readers, submitted: Form, original: Form, v: Validated) returns (w: Validated)
    requires v.edit.money.None?
    ensures w == Validated(v.edit.(money := MoneyEdit(r, submitted, original)), v.errors + MoneyErrors(r, submitted, original))
  {
    w := v;
    if submitted.amount != original.amount || submitted.currency != original.currency {
      var money := FormMoney(r, submitted);
      if money.Read? {
        w := w.(edit := v.edit.(money := Some(money.money)));
      } else {
        w := w.(errors := v.errors + {money.field});
      }
    }
  }

  method CheckDate(r: Readers, submitted: Form, original: Form, v: Validated) returns (w: Validated)
    requires v.edit.date.None?
    ensures w == Validated(v.edit.(date := DateEdit(r, submitted, original)),
                           v.errors + Errors(DateField, DateChanged(submitted, original), DateEdit(r, submitted, original)))
  {
    w := v;
    if submitted.date != original.date {
      var day := r.day(submitted.date);
      if day.Some? && r.acceptable(day.value) {
        w := w.(edit := v.edit.(date := day));
      } else {
        w := w.(errors := v.errors + {DateField});
      }
    }
  }

  method CheckMerchant(r: Readers, submitted: Form, original: Form, v: Validated) returns (w: Validated)
    requires v.edit.merchant.None?
    ensures w == Validated(v.edit.(merchant := MerchantEdit(r, submitted, original)),
                           v.errors + Errors(MerchantField, MerchantChanged(r, submitted, original), MerchantEdit(r, submitted, original)))
  {
    w := v;
    if r.strip(submitted.merchant) != r.strip(original.merchant) {
      if r.strip(submitted.merchant) == "" {
        w := w.(edit := v.edit.(merchant := Some(None)));
      } else {
        var name := r.merchantName(submitted.merchant);
        if name.Some? {
          w := w.(edit := v.edit.(merchant := Some(name)));
        } else {
          w := w.(errors := v.errors + {MerchantField});
        }
      }
    }
  }

  method CheckCategory(r: Readers, submitted: Form, original: Form, v: Validated) returns (w: Validated)
    requires v.edit.category.None?
    ensures w == Validated(v.edit.(category := CategoryEdit(r, submitted, original)),
                           v.errors + Errors(CategoryField, CategoryChanged(submitted, original), CategoryEdit(r, submitted, original)))
  {
    w := v;
    if submitted.category != original.category {
      if submitted.category in r.categories {
        w := w.(edit := v.edit.(category := Some(submitted.category)));
      } else {
        w := w.(errors := v.errors + {CategoryField});
      }
    }
  }

  method CheckNote(r: Readers, submitted: Form, original: Form, v: Validated) returns (w: Validated)
    requires v.edit.note.None?
    ensures w == Validated(v.edit.(note := NoteEdit(r, submitted, original)),
                           v.errors + Errors(NoteField, NoteChanged(r, submitted, original), NoteEdit(r, submitted, original)))
  {
    w := v;
    if r.strip(submitted.note) != r.strip(original.note) {
      var note := r.strip(submitted.note);
      if |note| > MAX_NOTE_LENGTH {
        w := w.(errors := v.errors + {NoteField});
      } else {
        w := w.(edit := v.edit.(note := Some(if note == "" then None else Some(note))));
      }
    }
  }

  /** Build the edit from changed fields only, blaming each one that does not read well. */
  method ValidateEdit(r: Readers, submitted: Form, original: Form) returns (v: Validated)
    ensures IsValidated(r, submitted, original, v)
  {
    v := Validated(NO_EDIT, {});
    v := CheckMoney(r, submitted, original, v);
    v := CheckDate(r, submitted, original, v);
    v := CheckMerchant(r, submitted, original, v);
    v := CheckCategory(r, submitted, original, v);
    v := CheckNote(r, submitted, original, v);
  }

  /** A form the web accepts: what it holds is exactly what was changed. */
  ghost predicate AcceptedForm(r: Readers, submitted: Form, original: Form, v: Validated) {
    IsValidated(r, submitted, original, v) && v.errors == {}
  }

  lemma AcceptedFormSupplies(r: Readers, submitted: Form, original: Form, v: Validated)
    requires AcceptedForm(r, submitted, original, v)
    ensures v.edit.money.Some? <==> MoneyChanged(submitted, original)
    ensures v.edit.date.Some? <==> DateChanged(submitted, original)
    ensures v.edit.merchant.Some? <==> MerchantChanged(r, submitted, original)
    ensures v.edit.category.Some? <==> CategoryChanged(submitted, original)
    ensures v.edit.note.Some? <==> NoteChanged(r, submitted, original)
  {
    assert MoneyErrors(r, submitted, original) <= v.errors;
    assert Errors(DateField, DateChanged(submitted, original), v.edit.date) <= v.errors;
    assert Errors(MerchantField, MerchantChanged(r, submitted, original), v.edit.merchant) <= v.errors;
    assert Errors(CategoryField, CategoryChanged(submitted, original), v.edit.category) <= v.errors;
    assert Errors(NoteField, NoteChanged(r, submitted, original), v.edit.note) <= v.errors;
  }

  /**
   * Applied to any later state of the expense, an accepted form changes only what the user changed:
   * every other field keeps the value it has by then, and each changed one gets what the user entered.
   */
  lemma FormChangesOnlyWhatTheUserChanged(r: Readers, submitted: Form, original: Form, v: Validated,
      later: Expense, policy: A.Policy, now: Instant)
    requires AcceptedForm(r, submitted, original, v) && A.Apply(later, v.edit, policy, now).Proceed?
    ensures var after := A.Apply(later, v.edit, policy, now).expense;
            && SameOrigin(later, after) && after.deletedAt == later.deletedAt
            && after.money == (if MoneyChanged(submitted, original) then FormMoney(r, submitted).money else later.money)
            && (MoneyChanged(submitted, original) ==> IsTyped(r, submitted, after.money))
            && after.date == (if DateChanged(submitted, original) then r.day(submitted.date).value else later.date)
            && after.merchant == (if MerchantChanged(r, submitted, original) then MerchantOf(r, submitted.merchant).value else later.merchant)
            && after.category == (if CategoryChanged(submitted, original) then submitted.category else later.category)
            && after.note == (if NoteChanged(r, submitted, original) then NoteOf(r, submitted.note).value else later.note)
  {
    AcceptedFormSupplies(r, submitted, original, v);
    A.ApplySetsSupplied(later, v.edit, policy, now);
    if MoneyChanged(submitted, original) {
      MoneyReadsTheNumber(r.currency(submitted.currency), r.number(r.strip(submitted.amount)));
    }
  }

  // --- two forms rendered from the same state ---

  /** No field is supplied by both edits. */
  predicate Disjoint(a: A.ExpenseEdit, b: A.ExpenseEdit) {
    && (a.money.None? || b.money.None?) && (a.date.None? || b.date.None?) && (a.merchant.None? || b.merchant.None?)
    && (a.category.None? || b.category.None?) && (a.note.None? || b.note.None?)
  }

  predicate SameValues(x: Expense, y: Expense) {
    SameOrigin(x, y) && x.deletedAt == y.deletedAt
    && x.money == y.money && x.date == y.date && x.merchant == y.merchant && x.category == y.category && x.note == y.note
  }

  /** Disjoint edits commute: accepted in one order means accepted in the other, with the same values. */
  lemma DisjointEditsCommute(e: Expense, a: A.ExpenseEdit, pa: A.Policy, ta: Instant, b: A.ExpenseEdit, pb: A.Policy, tb: Instant)
    requires Disjoint(a, b) && A.Apply(e, a, pa, ta).Proceed? && A.Apply(e, b, pb, tb).Proceed?
    ensures var ab := A.Apply(A.Apply(e, a, pa, ta).expense, b, pb, tb);
            var ba := A.Apply(A.Apply(e, b, pb, tb).expense, a, pa, ta);
            ab.Proceed? && ba.Proceed? && SameValues(ab.expense, ba.expense)
  {
    var x, y := A.Apply(e, a, pa, ta).expense, A.Apply(e, b, pb, tb).expense;
    A.ApplySetsSupplied(e, a, pa, ta);
    A.ApplySetsSupplied(e, b, pb, tb);
    A.ApplySetsSupplied(x, b, pb, tb);
    A.ApplySetsSupplied(y, a, pa, ta);
    OverridesCommute(e, x, y, a, b, pa, pb, A.Apply(x, b, pb, tb), A.Apply(y, a, pa, ta));
  }

  ghost predicate Overridden(e: Expense, edit: A.ExpenseEdit, after: Expense) {
    && SameOrigin(e, after) && after.deletedAt == e.deletedAt
    && after.money == edit.money.GetOr(e.money) && after.date == edit.date.GetOr(e.date)
    && after.merchant == edit.merchant.GetOr(e.merchant) && after.category == edit.category.GetOr(e.category)
    && after.note == edit.note.GetOr(e.note)
  }

  lemma OverridesCommute(e: Expense, x: Expense, y: Expense, a: A.ExpenseEdit, b: A.ExpenseEdit, pa: A.Policy, pb: A.Policy, ab: A.Applied, ba: A.Applied)
    requires Disjoint(a, b) && Overridden(e, a, x) && Overridden(e, b, y)
    requires A.Acceptable(e.date, e.category, a, pa) && A.Acceptable(e.date, e.category, b, pb)
    requires (ab.Proceed? <==> A.Acceptable(x.date, x.category, b, pb)) && (ab.Proceed? ==> Overridden(x, b, ab.expense))
    requires (ba.Proceed? <==> A.Acceptable(y.date, y.category, a, pa)) && (ba.Proceed? ==> Overridden(y, a, ba.expense))
    ensures ab.Proceed? && ba.Proceed? && SameValues(ab.expense, ba.expense)
  {
  }

  /** No field was changed in both forms, amount and currency being one. */
  predicate DisjointChanges(r: Readers, a: Form, b: Form, original: Form) {
    && !(MoneyChanged(a, original) && MoneyChanged(b, original))
    && !(DateChanged(a, original) && DateChanged(b, original))
    && !(MerchantChanged(r, a, original) && MerchantChanged(r, b, original))
    && !(CategoryChanged(a, original) && CategoryChanged(b, original))
    && !(NoteChanged(r, a, original) && NoteChanged(r, b, original))
  }

  /** The tables after submitting a form's edit. */
  function Submit(s: A.Ledger, id: Id, caller: Id, edit: A.ExpenseEdit, policy: A.Policy, now: Instant): A.Ledger {
    A.Perform(s, A.Edit(id, caller, edit, policy, now)).0
  }

  lemma SubmittedValues(s: A.Ledger, id: Id, caller: Id, edit: A.ExpenseEdit, policy: A.Policy, now: Instant)
    requires A.Identified(s) && A.Owned(s, id, caller) && IsActive(s.expenses[id]) && A.Apply(s.expenses[id], edit, policy, now).Proceed?
    ensures var t := Submit(s, id, caller, edit, policy, now);
            A.Identified(t) && A.Owned(t, id, caller) && SameValues(t.expenses[id], A.Apply(s.expenses[id], edit, policy, now).expense)
  {
    var before, after := s.expenses[id], A.Apply(s.expenses[id], edit, policy, now).expense;
    A.ApplyKeepsOrigin(before, edit, policy, now);
    if A.Changes(before, after, A.FIELDS) == [] {
      A.EditRecordFits(before, after, A.ChangeRecord(id, caller, now, A.Edited, []));
      SameFieldsSameValues(before, after);
    }
  }

  lemma SameFieldsSameValues(x: Expense, y: Expense)
    requires A.FieldValues(x) == A.FieldValues(y) && SameOrigin(x, y) && x.deletedAt == y.deletedAt
    ensures SameValues(x, y)
  {
    assert forall f: A.ExpenseField :: A.FieldValues(x)[f] == A.FieldValueOf(x, f) && A.FieldValues(y)[f] == A.FieldValueOf(y, f);
    assert A.FieldValueOf(x, A.AmountMinorUnits) == A.FieldValueOf(y, A.AmountMinorUnits);
    assert A.FieldValueOf(x, A.CurrencyCode) == A.FieldValueOf(y, A.CurrencyCode);
    assert A.FieldValueOf(x, A.TransactionDate) == A.FieldValueOf(y, A.TransactionDate);
    assert A.FieldValueOf(x, A.Merchant) == A.FieldValueOf(y, A.Merchant);
    assert A.FieldValueOf(x, A.CategoryKey) == A.FieldValueOf(y, A.CategoryKey);
    assert A.FieldValueOf(x, A.Note) == A.FieldValueOf(y, A.Note);
  }

  lemma SameValuesSameOutcome(x: Expense, y: Expense, edit: A.ExpenseEdit, policy: A.Policy, now: Instant)
    requires SameValues(x, y)
    ensures A.Apply(x, edit, policy, now).Proceed? <==> A.Apply(y, edit, policy, now).Proceed?
    ensures A.Apply(x, edit, policy, now).Proceed? ==> SameValues(A.Apply(x, edit, policy, now).expense, A.Apply(y, edit, policy, now).expense)
  {
  }

  /** One form saved after the other, on whatever the expense has become since both were rendered. */
  lemma SavedInTurn(s: A.Ledger, id: Id, caller: Id, a: A.ExpenseEdit, pa: A.Policy, ta: Instant, b: A.ExpenseEdit, pb: A.Policy, tb: Instant)
    requires A.Identified(s) && A.Owned(s, id, caller) && IsActive(s.expenses[id])
    requires A.Apply(s.expenses[id], a, pa, ta).Proceed? && A.Apply(A.Apply(s.expenses[id], a, pa, ta).expense, b, pb, tb).Proceed?
    ensures var t := Submit(Submit(s, id, caller, a, pa, ta), id, caller, b, pb, tb);
            id in t.expenses && SameValues(t.expenses[id], A.Apply(A.Apply(s.expenses[id], a, pa, ta).expense, b, pb, tb).expense)
  {
    SubmittedValues(s, id, caller, a, pa, ta);
    var middle := Submit(s, id, caller, a, pa, ta);
    SameValuesSameOutcome(middle.expenses[id], A.Apply(s.expenses[id], a, pa, ta).expense, b, pb, tb);
    SubmittedValues(middle, id, caller, b, pb, tb);
  }

  /**
   * Two accepted forms rendered from the same state that change disjoint fields can be saved in
   * either order, on any later state, with the same final values.
   */
  lemma DisjointFormsMerge(r: Readers, original: Form, a: Form, va: Validated, b: Form, vb: Validated,
      s: A.Ledger, id: Id, caller: Id, pa: A.Policy, ta: Instant, pb: A.Policy, tb: Instant)
    requires AcceptedForm(r, a, original, va) && AcceptedForm(r, b, original, vb) && DisjointChanges(r, a, b, original)
    requires A.Identified(s) && A.Owned(s, id, caller) && IsActive(s.expenses[id])
    requires A.Apply(s.expenses[id], va.edit, pa, ta).Proceed? && A.Apply(s.expenses[id], vb.edit, pb, tb).Proceed?
    ensures var ab := Submit(Submit(s, id, caller, va.edit, pa, ta), id, caller, vb.edit, pb, tb);
            var ba := Submit(Submit(s, id, caller, vb.edit, pb, tb), id, caller, va.edit, pa, ta);
            id in ab.expenses && id in ba.expenses && SameValues(ab.expenses[id], ba.expenses[id])
  {
    AcceptedFormSupplies(r, a, original, va);
    AcceptedFormSupplies(r, b, original, vb);
    DisjointEditsCommute(s.expenses[id], va.edit, pa, ta, vb.edit, pb, tb);
    SavedInTurn(s, id, caller, va.edit, pa, ta, vb.edit, pb, tb);
    SavedInTurn(s, id, caller, vb.edit, pb, tb, va.edit, pa, ta);
  }
}

/**
 Account deletion: an ordered list of statements under foreign keys. RESTRICT references are checked
 after every statement, CASCADE and SET NULL act within it, and any failure undoes everything.
 */
module AccountDeletion {
  import opened Wrappers
  import opened CaptureDraft
  import opened Conversations
  import opened Receipts
  import opened Expenses

  datatype Identity = Identity(user: Id, email: string)

  datatype LinkChallenge = LinkChallenge(user: Id, session: Id)

  datatype ChangeRow = ChangeRow(expense: Id, actor: Id)

  /** An audit record; `user` is cleared when the account goes. */
  datatype Audit = Audit(user: Option<Id>, event: string)

  datatype Database = Database(
    users: set<Id>,
    identities: map<Id, Identity>,
    loginChallenges: map<Id, string>,     // to the address each was sent to
    sessions: map<Id, Id>,                // to the user
    linkChallenges: map<Id, LinkChallenge>,
    connections: map<Id, Id>,             // to the user
    audits: map<Id, Audit>,
    tombstones: map<Id, Instant>,
    conversations: map<Id, Conversation>, // by user
    drafts: map<Id, Draft>,
    expenses: map<Id, Expense>,
    changes: map<Id, ChangeRow>,
    receipts: map<Id, Receipt>,
    images: set<Id>,                      // by receipt
    results: map<Id, RecognitionResult>)

  // --- foreign keys ---

  predicate AccessReferred(d: Database) {
    && (forall k | k in d.identities :: d.identities[k].user in d.users)
    && (forall k | k in d.sessions :: d.sessions[k] in d.users)
    && (forall k | k in d.linkChallenges :: d.linkChallenges[k].user in d.users)
    && (forall k | k in d.connections :: d.connections[k] in d.users)
    && (forall k | k in d.conversations :: k in d.users)
  }

  predicate CapturesReferred(d: Database) {
    && (forall k | k in d.drafts :: d.drafts[k].owner in d.users)
    && (forall k | k in d.expenses :: d.expenses[k].owner in d.users)
    && (forall k | k in d.changes :: d.changes[k].actor in d.users)
    && (forall k | k in d.receipts :: d.receipts[k].owner in d.users)
    && (forall k | k in d.results :: d.results[k].owner in d.users)
  }

  /** Every owner, actor or account a row refers to exists: ten RESTRICT references to users. */
  predicate UsersReferred(d: Database) {
    AccessReferred(d) && CapturesReferred(d)
  }

  /** RESTRICT references among conversations, drafts and expenses. */
  predicate DraftsReferred(d: Database) {
    && (forall k | k in d.conversations && d.conversations[k].active.Some? :: d.conversations[k].active.value in d.drafts)
    && (forall k | k in d.drafts && d.drafts[k].expenseId.Some? :: d.drafts[k].expenseId.value in d.expenses)
    && (forall k | k in d.expenses :: d.expenses[k].draftId in d.drafts)
  }

  /** RESTRICT references to receipts. */
  predicate ReceiptsReferred(d: Database) {
    && (forall k | k in d.drafts && d.drafts[k].receiptId.Some? :: d.drafts[k].receiptId.value in d.receipts)
    && (forall k | k in d.expenses && d.expenses[k].receiptId.Some? :: d.expenses[k].receiptId.value in d.receipts)
  }

  predicate RestrictHolds(d: Database) {
    UsersReferred(d) && DraftsReferred(d) && ReceiptsReferred(d)
  }

  /** CASCADE and SET NULL references resolve as well. */
  ghost predicate Intact(d: Database) {
    && RestrictHolds(d)
    && (forall k | k in d.changes :: d.changes[k].expense in d.expenses)
    && (forall k | k in d.images :: k in d.receipts)
    && (forall k | k in d.results :: d.results[k].receiptId in d.receipts)
    && (forall k | k in d.linkChallenges :: d.linkChallenges[k].session in d.sessions && d.sessions[d.linkChallenges[k].session] == d.linkChallenges[k].user)
    && (forall k | k in d.drafts && d.drafts[k].resultId.Some? :: d.drafts[k].resultId.value in d.results)
    && (forall k | k in d.audits && d.audits[k].user.Some? :: d.audits[k].user.value in d.users)
  }

  // --- the statements ---

  datatype Statement =
    | DeleteConversation | DeleteChanges | DeleteDraftsAndExpenses | DeleteResults | DeleteReceipts
    | DeleteLinkChallenges | DeleteConnections | DeleteSessions | DeleteLoginChallenges | DeleteIdentity
    | ClearAudit | DeleteUser

  const DELETE_OWNED_ROWS: seq<Statement> := [
    DeleteConversation, DeleteChanges, DeleteDraftsAndExpenses, DeleteResults, DeleteReceipts,
    DeleteLinkChallenges, DeleteConnections, DeleteSessions, DeleteLoginChallenges, DeleteIdentity,
    ClearAudit, DeleteUser]

  function DraftsOf(m: map<Id, Draft>, u: Id): set<Id> {
    set k | k in m && m[k].owner == u
  }

  function ExpensesOf(m: map<Id, Expense>, u: Id): set<Id> {
    set k | k in m && m[k].owner == u
  }

  function ReceiptsOf(m: map<Id, Receipt>, u: Id): set<Id> {
    set k | k in m && m[k].owner == u
  }

  function ResultsOf(m: map<Id, RecognitionResult>, u: Id): set<Id> {
    set k | k in m && m[k].owner == u
  }

  function ResultsFor(m: map<Id, RecognitionResult>, receipts: set<Id>): set<Id> {
    set k | k in m && m[k].receiptId in receipts
  }

  function ChangesBy(m: map<Id, ChangeRow>, u: Id): set<Id> {
    set k | k in m && m[k].actor == u
  }

  function ChangesTo(m: map<Id, ChangeRow>, expenses: set<Id>): set<Id> {
    set k | k in m && m[k].expense in expenses
  }

  function ChallengesOf(m: map<Id, LinkChallenge>, u: Id): set<Id> {
    set k | k in m && m[k].user == u
  }

  function ChallengesIn(m: map<Id, LinkChallenge>, sessions: set<Id>): set<Id> {
    set k | k in m && m[k].session in sessions
  }

  /** Rows whose only content here is their user. */
  function RowsOf(m: map<Id, Id>, u: Id): set<Id> {
    set k | k in m && m[k] == u
  }

  function IdentitiesOf(m: map<Id, Identity>, u: Id): set<Id> {
    set k | k in m && m[k].user == u
  }

  function EmailsOf(m: map<Id, Identity>, u: Id): set<string> {
    set k | k in m && m[k].user == u :: m[k].email
  }

  function LoginChallengesTo(m: map<Id, string>, emails: set<string>): set<Id> {
    set k | k in m && m[k] in emails
  }

  function ClearResult(x: Draft, gone: set<Id>): Draft {
    if x.resultId.Some? && x.resultId.value in gone then x.(resultId := None) else x
  }

  /** SET NULL on the drafts that point to a deleted result. */
  function ClearResults(m: map<Id, Draft>, gone: set<Id>): map<Id, Draft> {
    map k | k in m :: ClearResult(m[k], gone)
  }

  function ClearUser(a: Audit, u: Id): Audit {
    if a.user == Some(u) then a.(user := None) else a
  }

  function ClearUsers(m: map<Id, Audit>, u: Id): map<Id, Audit> {
    map k | k in m :: ClearUser(m[k], u)
  }

  /** One statement with its cascades. */
  function Execute(s: Statement, u: Id, d: Database): Database {
    match s
    case DeleteConversation => d.(conversations := d.conversations - {u})
    case DeleteChanges => d.(changes := d.changes - (ChangesBy(d.changes, u) + ChangesTo(d.changes, ExpensesOf(d.expenses, u))))
    case DeleteDraftsAndExpenses =>
      d.(expenses := d.expenses - ExpensesOf(d.expenses, u),
         drafts := d.drafts - DraftsOf(d.drafts, u),
         changes := d.changes - ChangesTo(d.changes, ExpensesOf(d.expenses, u)))
    case DeleteResults =>
      var gone := ResultsOf(d.results, u);
      d.(results := d.results - gone, drafts := ClearResults(d.drafts, gone))
    case DeleteReceipts =>
      var receipts := ReceiptsOf(d.receipts, u);
      var gone := ResultsFor(d.results, receipts);
      d.(receipts := d.receipts - receipts, images := d.images - receipts,
         results := d.results - gone, drafts := ClearResults(d.drafts, gone))
    case DeleteLinkChallenges => d.(linkChallenges := d.linkChallenges - ChallengesOf(d.linkChallenges, u))
    case DeleteConnections => d.(connections := d.connections - RowsOf(d.connections, u))
    case DeleteSessions =>
      var gone := RowsOf(d.sessions, u);
      d.(sessions := d.sessions - gone, linkChallenges := d.linkChallenges - ChallengesIn(d.linkChallenges, gone))
    case DeleteLoginChallenges =>
      d.(loginChallenges := d.loginChallenges - LoginChallengesTo(d.loginChallenges, EmailsOf(d.identities, u)))
    case DeleteIdentity => d.(identities := d.identities - IdentitiesOf(d.identities, u))
    case ClearAudit => d.(audits := ClearUsers(d.audits, u))
    case DeleteUser => d.(users := d.users - {u}, audits := ClearUsers(d.audits, u))
  }

  // --- what is left after the first `i` statements ---

  function ChangesLeft(d: Database, u: Id): map<Id, ChangeRow> {
    d.changes - (ChangesBy(d.changes, u) + ChangesTo(d.changes, ExpensesOf(d.expenses, u)))
  }

  /** Results gone through their owner, then through their receipt. */
  function ResultsLeft(d: Database, u: Id, i: nat): map<Id, RecognitionResult> {
    var own := if i >= 4 then d.results - ResultsOf(d.results, u) else d.results;
    if i >= 5 then own - ResultsFor(own, ReceiptsOf(d.receipts, u)) else own
  }

  function DraftsLeft(d: Database, u: Id, i: nat): map<Id, Draft> {
    var others := if i >= 3 then d.drafts - DraftsOf(d.drafts, u) else d.drafts;
    var cleared := if i >= 4 then ClearResults(others, ResultsOf(d.results, u)) else others;
    if i >= 5 then ClearResults(cleared, ResultsFor(ResultsLeft(d, u, 4), ReceiptsOf(d.receipts, u))) else cleared
  }

  function Left(d: Database, u: Id, i: nat): Database {
    Database(
      if i >= 12 then d.users - {u} else d.users,
      if i >= 10 then d.identities - IdentitiesOf(d.identities, u) else d.identities,
      if i >= 9 then d.loginChallenges - LoginChallengesTo(d.loginChallenges, EmailsOf(d.identities, u)) else d.loginChallenges,
      if i >= 8 then d.sessions - RowsOf(d.sessions, u) else d.sessions,
      if i >= 6 then d.linkChallenges - ChallengesOf(d.linkChallenges, u) else d.linkChallenges,
      if i >= 7 then d.connections - RowsOf(d.connections, u) else d.connections,
      if i >= 11 then ClearUsers(d.audits, u) else d.audits,
      d.tombstones,
      if i >= 1 then d.conversations - {u} else d.conversations,
      DraftsLeft(d, u, i),
      if i >= 3 then d.expenses - ExpensesOf(d.expenses, u) else d.expenses,
      if i >= 2 then ChangesLeft(d, u) else d.changes,
      if i >= 5 then d.receipts - ReceiptsOf(d.receipts, u) else d.receipts,
      if i >= 5 then d.images - ReceiptsOf(d.receipts, u) else d.images,
      ResultsLeft(d, u, i))
  }

  lemma NoCascadeToChanges(d: Database, u: Id)
    ensures ChangesLeft(d, u) - ChangesTo(ChangesLeft(d, u), ExpensesOf(d.expenses, u)) == ChangesLeft(d, u)
  {
  }

  lemma NoCascadeToChallenges(d: Database, u: Id, left: map<Id, LinkChallenge>)
    requires Intact(d) && left == d.linkChallenges - ChallengesOf(d.linkChallenges, u)
    ensures left - ChallengesIn(left, RowsOf(d.sessions, u)) == left
  {
  }

  lemma ClearedOnce(m: map<Id, Audit>, u: Id)
    ensures ClearUsers(ClearUsers(m, u), u) == ClearUsers(m, u)
  {
  }

  lemma CaptureStatements(d: Database, u: Id, i: nat)
    requires i <= 2
    ensures Execute(DELETE_OWNED_ROWS[i], u, Left(d, u, i)) == Left(d, u, i + 1)
  {
    NoCascadeToChanges(d, u);
  }

  lemma ReceiptStatements(d: Database, u: Id, i: nat)
    requires 3 <= i <= 4
    ensures Execute(DELETE_OWNED_ROWS[i], u, Left(d, u, i)) == Left(d, u, i + 1)
  {
  }

  lemma LinkChallengesStatement(d: Database, u: Id)
    ensures Execute(DeleteLinkChallenges, u, Left(d, u, 5)) == Left(d, u, 6)
  {
  }

  lemma ConnectionsStatement(d: Database, u: Id)
    ensures Execute(DeleteConnections, u, Left(d, u, 6)) == Left(d, u, 7)
  {
  }

  lemma SessionStatement(d: Database, u: Id, left: map<Id, LinkChallenge>)
    requires left == d.linkChallenges - ChallengesOf(d.linkChallenges, u)
    requires left - ChallengesIn(left, RowsOf(d.sessions, u)) == left
    ensures Execute(DeleteSessions, u, Left(d, u, 7)) == Left(d, u, 8)
  {
  }

  lemma LoginChallengesStatement(d: Database, u: Id)
    ensures Execute(DeleteLoginChallenges, u, Left(d, u, 8)) == Left(d, u, 9)
  {
  }

  lemma IdentityStatement(d: Database, u: Id)
    ensures Execute(DeleteIdentity, u, Left(d, u, 9)) == Left(d, u, 10)
  {
  }

  lemma UserStatements(d: Database, u: Id, i: nat)
    requires 10 <= i <= 11
    ensures Execute(DELETE_OWNED_ROWS[i], u, Left(d, u, i)) == Left(d, u, i + 1)
  {
    ClearedOnce(d.audits, u);
  }

  /** Statement by statement: what each one removes, and that its cascades find nothing more. */
  lemma StatementLeaves(d: Database, u: Id, i: nat)
    requires i < |DELETE_OWNED_ROWS| && Intact(d)
    ensures Execute(DELETE_OWNED_ROWS[i], u, Left(d, u, i)) == Left(d, u, i + 1)
  {
    if i <= 2 {
      CaptureStatements(d, u, i);
    } else if i <= 4 {
      ReceiptStatements(d, u, i);
    } else if i <= 9 {
      NoCascadeToChallenges(d, u, d.linkChallenges - ChallengesOf(d.linkChallenges, u));
      AccessStatements(d, u, i);
    } else {
      UserStatements(d, u, i);
    }
  }

  lemma AccessStatements(d: Database, u: Id, i: nat)
    requires 5 <= i <= 9
    requires var left := d.linkChallenges - ChallengesOf(d.linkChallenges, u); left - ChallengesIn(left, RowsOf(d.sessions, u)) == left
    ensures Execute(DELETE_OWNED_ROWS[i], u, Left(d, u, i)) == Left(d, u, i + 1)
  {
    if i == 5 {
      LinkChallengesStatement(d, u);
    } else if i == 6 {
      ConnectionsStatement(d, u);
    } else if i == 7 {
      SessionStatement(d, u, d.linkChallenges - ChallengesOf(d.linkChallenges, u));
    } else if i == 8 {
      LoginChallengesStatement(d, u);
    } else {
      IdentityStatement(d, u);
    }
  }

  // --- when the foreign keys allow it ---

  /** Nobody else's conversation, draft or expense refers to the user's drafts or expenses. */
  ghost predicate DraftsFree(d: Database, u: Id) {
    && (forall k | k in d.conversations && k != u && d.conversations[k].active.Some? :: d.conversations[k].active.value !in DraftsOf(d.drafts, u))
    && (forall k | k in d.drafts && d.drafts[k].owner != u && d.drafts[k].expenseId.Some? :: d.drafts[k].expenseId.value !in ExpensesOf(d.expenses, u))
    && (forall k | k in d.expenses && d.expenses[k].owner != u :: d.expenses[k].draftId !in DraftsOf(d.drafts, u))
  }

  /** Nobody else's draft or expense refers to the user's receipts. */
  ghost predicate ReceiptsFree(d: Database, u: Id) {
    && (forall k | k in d.drafts && d.drafts[k].owner != u && d.drafts[k].receiptId.Some? :: d.drafts[k].receiptId.value !in ReceiptsOf(d.receipts, u))
    && (forall k | k in d.expenses && d.expenses[k].owner != u && d.expenses[k].receiptId.Some? :: d.expenses[k].receiptId.value !in ReceiptsOf(d.receipts, u))
  }

  /** Up to a cleared result, the drafts left are those of others. */
  lemma DraftsLeftAre(d: Database, u: Id, i: nat, k: Id)
    ensures k in DraftsLeft(d, u, i) <==> k in d.drafts && (i >= 3 ==> d.drafts[k].owner != u)
    ensures k in DraftsLeft(d, u, i) ==> DraftsLeft(d, u, i)[k] == d.drafts[k].(resultId := DraftsLeft(d, u, i)[k].resultId)
  {
  }

  lemma AccessOwnersStay(d: Database, u: Id, x: Database, gone: bool)
    requires AccessReferred(d) && x.users == if gone then d.users - {u} else d.users
    requires forall k | k in x.identities :: k in d.identities && x.identities[k] == d.identities[k] && (gone ==> x.identities[k].user != u)
    requires forall k | k in x.sessions :: k in d.sessions && x.sessions[k] == d.sessions[k] && (gone ==> x.sessions[k] != u)
    requires forall k | k in x.linkChallenges :: k in d.linkChallenges && x.linkChallenges[k] == d.linkChallenges[k] && (gone ==> x.linkChallenges[k].user != u)
    requires forall k | k in x.connections :: k in d.connections && x.connections[k] == d.connections[k] && (gone ==> x.connections[k] != u)
    requires forall k | k in x.conversations :: k in d.conversations && (gone ==> k != u)
    ensures AccessReferred(x)
  {
  }

  lemma CaptureOwnersStay(d: Database, u: Id, x: Database, gone: bool)
    requires CapturesReferred(d) && x.users == if gone then d.users - {u} else d.users
    requires forall k | k in x.drafts :: k in d.drafts && x.drafts[k].owner == d.drafts[k].owner && (gone ==> x.drafts[k].owner != u)
    requires forall k | k in x.expenses :: k in d.expenses && x.expenses[k] == d.expenses[k] && (gone ==> x.expenses[k].owner != u)
    requires forall k | k in x.changes :: k in d.changes && x.changes[k] == d.changes[k] && (gone ==> x.changes[k].actor != u)
    requires forall k | k in x.receipts :: k in d.receipts && x.receipts[k] == d.receipts[k] && (gone ==> x.receipts[k].owner != u)
    requires forall k | k in x.results :: k in d.results && x.results[k] == d.results[k] && (gone ==> x.results[k].owner != u)
    ensures CapturesReferred(x)
  {
  }

  lemma UsersStay(d: Database, u: Id, i: nat)
    requires i <= 12 && UsersReferred(d)
    ensures UsersReferred(Left(d, u, i))
  {
    forall k | k in DraftsLeft(d, u, i)
      ensures k in d.drafts && DraftsLeft(d, u, i)[k].owner == d.drafts[k].owner && (i == 12 ==> d.drafts[k].owner != u)
    {
      DraftsLeftAre(d, u, i, k);
    }
    AccessOwnersStay(d, u, Left(d, u, i), i == 12);
    CaptureOwnersStay(d, u, Left(d, u, i), i == 12);
  }

  lemma DraftsStay(d: Database, u: Id, i: nat)
    requires i <= 12 && DraftsReferred(d)
    ensures DraftsReferred(Left(d, u, i)) <==> (i >= 3 ==> DraftsFree(d, u))
  {
    forall k {
      DraftsLeftAre(d, u, i, k);
    }
    var x := Left(d, u, i);
    if i >= 3 && DraftsReferred(x) {
      forall k | k in d.conversations && k != u && d.conversations[k].active.Some? ensures d.conversations[k].active.value !in DraftsOf(d.drafts, u) {
        assert k in x.conversations;
      }
      forall k | k in d.drafts && d.drafts[k].owner != u && d.drafts[k].expenseId.Some? ensures d.drafts[k].expenseId.value !in ExpensesOf(d.expenses, u) {
        assert k in x.drafts;
      }
      forall k | k in d.expenses && d.expenses[k].owner != u ensures d.expenses[k].draftId !in DraftsOf(d.drafts, u) {
        assert k in x.expenses;
      }
    }
  }

  lemma ReceiptsStay(d: Database, u: Id, i: nat)
    requires i <= 12 && ReceiptsReferred(d)
    ensures ReceiptsReferred(Left(d, u, i)) <==> (i >= 5 ==> ReceiptsFree(d, u))
  {
    forall k {
      DraftsLeftAre(d, u, i, k);
    }
    var x := Left(d, u, i);
    if i >= 5 && ReceiptsReferred(x) {
      forall k | k in d.drafts && d.drafts[k].owner != u && d.drafts[k].receiptId.Some? ensures d.drafts[k].receiptId.value !in ReceiptsOf(d.receipts, u) {
        assert k in x.drafts;
      }
      forall k | k in d.expenses && d.expenses[k].owner != u && d.expenses[k].receiptId.Some? ensures d.expenses[k].receiptId.value !in ReceiptsOf(d.receipts, u) {
        assert k in x.expenses;
      }
    }
  }

  ghost predicate Free(d: Database, u: Id) {
    DraftsFree(d, u) && ReceiptsFree(d, u)
  }

  /** The statements' checks fail exactly once somebody else's row still refers to what just went. */
  lemma ChecksHold(d: Database, u: Id, i: nat)
    requires i <= 12 && Intact(d)
    ensures RestrictHolds(Left(d, u, i)) <==> (i >= 3 ==> DraftsFree(d, u)) && (i >= 5 ==> ReceiptsFree(d, u))
  {
    UsersStay(d, u, i);
    DraftsStay(d, u, i);
    ReceiptsStay(d, u, i);
  }

  lemma NextStatement(d: Database, u: Id, i: nat)
    requires i < |DELETE_OWNED_ROWS| && Intact(d)
    ensures Execute(DELETE_OWNED_ROWS[i], u, Left(d, u, i)) == Left(d, u, i + 1)
    ensures RestrictHolds(Left(d, u, i + 1)) <==> (i + 1 >= 3 ==> DraftsFree(d, u)) && (i + 1 >= 5 ==> ReceiptsFree(d, u))
  {
    StatementLeaves(d, u, i);
    ChecksHold(d, u, i + 1);
  }

  /** The account is gone; a tombstone and an anonymous audit record are added. */
  function Deleted(d: Database, u: Id, now: Instant, auditId: Id): Database {
    var left := Left(d, u, |DELETE_OWNED_ROWS|);
    left.(tombstones := left.tombstones[u := now], audits := left.audits[auditId := Audit(None, "account_deleted")])
  }

  class Repository {
    var db: Database

    constructor (db: Database)
      ensures this.db == db
    {
      this.db := db;
    }

    /** Everything or nothing; Accepted(false) when there is no such user. */
    method DeleteAccount(u: Id, now: Instant, auditId: Id) returns (outcome: Result<bool>)
      requires Intact(db)
      modifies this
      ensures u !in old(db.users) ==> outcome == Accepted(false) && db == old(db)
      ensures u in old(db.users) ==> (outcome == Accepted(true) <==> Free(old(db), u))
      ensures outcome == Accepted(true) ==> db == Deleted(old(db), u, now, auditId)
      ensures outcome.Rejected? ==> db == old(db)
    {
      if u !in db.users {
        return Accepted(false);
      }
      var before := db;
      for i := 0 to |DELETE_OWNED_ROWS|
        invariant db == Left(before, u, i)
        invariant (i >= 3 ==> DraftsFree(before, u)) && (i >= 5 ==> ReceiptsFree(before, u))
      {
        NextStatement(before, u, i);
        db := Execute(DELETE_OWNED_ROWS[i], u, db);
        if !RestrictHolds(db) {
          db := before;
          return Rejected;
        }
      }
      db := db.(tombstones := db.tombstones[u := now]);
      db := db.(audits := db.audits[auditId := Audit(None, "account_deleted")]);
      return Accepted(true);
    }
  }

  // --- what deletion leaves behind ---

  /** No row refers to the user. */
  ghost predicate NoTrace(d: Database, u: Id) {
    && u !in d.users && u !in d.conversations
    && IdentitiesOf(d.identities, u) == {} && RowsOf(d.sessions, u) == {} && RowsOf(d.connections, u) == {}
    && ChallengesOf(d.linkChallenges, u) == {}
    && DraftsOf(d.drafts, u) == {} && ExpensesOf(d.expenses, u) == {} && ChangesBy(d.changes, u) == {}
    && ReceiptsOf(d.receipts, u) == {} && ResultsOf(d.results, u) == {}
    && forall k | k in d.audits :: d.audits[k].user != Some(u)
  }

  lemma AccessIsGone(d: Database, u: Id, i: nat)
    requires i == 12
    ensures var x := Left(d, u, i);
            && u !in x.users && u !in x.conversations
            && IdentitiesOf(x.identities, u) == {} && RowsOf(x.sessions, u) == {} && RowsOf(x.connections, u) == {}
            && ChallengesOf(x.linkChallenges, u) == {}
            && LoginChallengesTo(x.loginChallenges, EmailsOf(d.identities, u)) == {}
            && forall k | k in x.audits :: x.audits[k].user != Some(u)
  {
  }

  lemma CaptureIsGone(d: Database, u: Id, i: nat)
    requires i == 12
    ensures var x := Left(d, u, i);
            && DraftsOf(x.drafts, u) == {} && ExpensesOf(x.expenses, u) == {} && ChangesBy(x.changes, u) == {}
            && ChangesTo(x.changes, ExpensesOf(d.expenses, u)) == {}
  {
    forall k ensures k !in DraftsOf(DraftsLeft(d, u, i), u) {
      DraftsLeftAre(d, u, i, k);
    }
  }

  lemma ReceiptsAreGone(d: Database, u: Id, i: nat)
    requires i == 12
    ensures var x := Left(d, u, i);
            && ReceiptsOf(x.receipts, u) == {} && ResultsOf(x.results, u) == {}
            && x.images !! ReceiptsOf(d.receipts, u)
            && ResultsFor(x.results, ReceiptsOf(d.receipts, u)) == {}
  {
  }

  /** After deletion no row refers to the user, nor to anything that was the user's; only the tombstone knows the id. */
  lemma DeletionLeavesNoTrace(d: Database, u: Id, now: Instant, auditId: Id)
    ensures var x := Deleted(d, u, now, auditId);
            && NoTrace(x, u) && x.tombstones == d.tombstones[u := now]
            && x.images !! ReceiptsOf(d.receipts, u)
            && ChangesTo(x.changes, ExpensesOf(d.expenses, u)) == {}
            && ResultsFor(x.results, ReceiptsOf(d.receipts, u)) == {}
            && LoginChallengesTo(x.loginChallenges, EmailsOf(d.identities, u)) == {}
  {
    AccessIsGone(d, u, 12);
    CaptureIsGone(d, u, 12);
    ReceiptsAreGone(d, u, 12);
  }

  /** Rows that refer to one another have one owner; a change record's actor owns the expense. */
  ghost predicate OwnersAgree(d: Database) {
    && (forall k | k in d.conversations && d.conversations[k].active.Some? && d.conversations[k].active.value in d.drafts ::
          d.drafts[d.conversations[k].active.value].owner == k)
    && (forall k | k in d.drafts && d.drafts[k].expenseId.Some? && d.drafts[k].expenseId.value in d.expenses ::
          d.expenses[d.drafts[k].expenseId.value].owner == d.drafts[k].owner)
    && (forall k | k in d.expenses && d.expenses[k].draftId in d.drafts :: d.drafts[d.expenses[k].draftId].owner == d.expenses[k].owner)
    && (forall k | k in d.drafts && d.drafts[k].receiptId.Some? && d.drafts[k].receiptId.value in d.receipts ::
          d.receipts[d.drafts[k].receiptId.value].owner == d.drafts[k].owner)
    && (forall k | k in d.expenses && d.expenses[k].receiptId.Some? && d.expenses[k].receiptId.value in d.receipts ::
          d.receipts[d.expenses[k].receiptId.value].owner == d.expenses[k].owner)
  }

  ghost predicate ChangesAgree(d: Database) {
    forall k | k in d.changes && d.changes[k].expense in d.expenses :: d.expenses[d.changes[k].expense].owner == d.changes[k].actor
  }

  ghost predicate ResultsAgree(d: Database) {
    && (forall k | k in d.results && d.results[k].receiptId in d.receipts :: d.receipts[d.results[k].receiptId].owner == d.results[k].owner)
    && (forall k | k in d.drafts && d.drafts[k].resultId.Some? && d.drafts[k].resultId.value in d.results ::
          d.results[d.drafts[k].resultId.value].owner == d.drafts[k].owner)
  }

  ghost predicate RecordsAgree(d: Database) {
    ChangesAgree(d) && ResultsAgree(d)
  }

  /** With owners in agreement every deletion succeeds. */
  lemma AgreementFrees(d: Database, u: Id)
    requires OwnersAgree(d)
    ensures Free(d, u)
  {
  }

  lemma NothingToClear(m: map<Id, Draft>, gone: set<Id>)
    requires forall k | k in m && m[k].resultId.Some? :: m[k].resultId.value !in gone
    ensures ClearResults(m, gone) == m
  {
    assert ClearResults(m, gone).Keys == m.Keys;
  }

  lemma NoOthersCleared(d: Database, u: Id)
    requires ResultsAgree(d)
    ensures ResultsFor(ResultsLeft(d, u, 4), ReceiptsOf(d.receipts, u)) == {}
    ensures forall k | k in d.drafts && d.drafts[k].owner != u && d.drafts[k].resultId.Some? :: d.drafts[k].resultId.value !in ResultsOf(d.results, u)
  {
  }

  /** No two identities have one address. */
  ghost predicate AddressesUnique(d: Database) {
    forall a, b | a in d.identities && b in d.identities && d.identities[a].email == d.identities[b].email :: a == b
  }

  /** Nobody else loses a login challenge, nor does an address that is nobody's. */
  lemma OthersKeepTheirLogins(d: Database, u: Id, now: Instant, auditId: Id)
    requires AddressesUnique(d)
    ensures var x := Deleted(d, u, now, auditId);
            && (forall k | k in d.identities && d.identities[k].user != u ::
                  LoginChallengesTo(x.loginChallenges, {d.identities[k].email}) == LoginChallengesTo(d.loginChallenges, {d.identities[k].email}))
            && (forall k | k in d.loginChallenges && d.loginChallenges[k] !in EmailsOf(d.identities, u) ::
                  k in x.loginChallenges && x.loginChallenges[k] == d.loginChallenges[k])
            && x.loginChallenges.Keys <= d.loginChallenges.Keys
  {
    var x := Deleted(d, u, now, auditId);
    assert x.loginChallenges == d.loginChallenges - LoginChallengesTo(d.loginChallenges, EmailsOf(d.identities, u));
  }

  /** Of the capture tables deletion leaves exactly everyone else's rows, unchanged. */
  lemma OthersKeepTheirCaptures(d: Database, u: Id, now: Instant, auditId: Id)
    requires ResultsAgree(d)
    ensures var x := Deleted(d, u, now, auditId);
            && x.conversations == d.conversations - {u}
            && x.drafts == d.drafts - DraftsOf(d.drafts, u) && x.expenses == d.expenses - ExpensesOf(d.expenses, u)
            && x.receipts == d.receipts - ReceiptsOf(d.receipts, u) && x.results == d.results - ResultsOf(d.results, u)
            && x.images == d.images - ReceiptsOf(d.receipts, u)
  {
    NoOthersCleared(d, u);
    var others := d.drafts - DraftsOf(d.drafts, u);
    NothingToClear(others, ResultsOf(d.results, u));
    NothingToClear(others, {});
    assert ResultsLeft(d, u, 5) == ResultsLeft(d, u, 4);
  }

  lemma OthersKeepTheirChanges(d: Database, u: Id, now: Instant, auditId: Id)
    requires ChangesAgree(d)
    ensures Deleted(d, u, now, auditId).changes == d.changes - ChangesBy(d.changes, u)
  {
    assert ChangesTo(d.changes, ExpensesOf(d.expenses, u)) <= ChangesBy(d.changes, u);
    assert ChangesBy(d.changes, u) + ChangesTo(d.changes, ExpensesOf(d.expenses, u)) == ChangesBy(d.changes, u);
  }

  /** And so of all tables: what remains is exactly everyone else's rows, unchanged. */
  lemma OthersAreUntouched(d: Database, u: Id, now: Instant, auditId: Id)
    requires RecordsAgree(d)
    ensures var x := Deleted(d, u, now, auditId);
            && x.users == d.users - {u} && x.conversations == d.conversations - {u}
            && x.drafts == d.drafts - DraftsOf(d.drafts, u) && x.expenses == d.expenses - ExpensesOf(d.expenses, u)
            && x.changes == d.changes - ChangesBy(d.changes, u)
            && x.receipts == d.receipts - ReceiptsOf(d.receipts, u) && x.results == d.results - ResultsOf(d.results, u)
            && x.images == d.images - ReceiptsOf(d.receipts, u)
            && x.identities == d.identities - IdentitiesOf(d.identities, u) && x.sessions == d.sessions - RowsOf(d.sessions, u)
            && x.connections == d.connections - RowsOf(d.connections, u)
            && x.linkChallenges == d.linkChallenges - ChallengesOf(d.linkChallenges, u)
            && x.loginChallenges == d.loginChallenges - LoginChallengesTo(d.loginChallenges, EmailsOf(d.identities, u))
            && (forall k | k in d.audits && k != auditId :: k in x.audits && x.audits[k] == ClearUser(d.audits[k], u))
  {
    OthersKeepTheirCaptures(d, u, now, auditId);
    OthersKeepTheirChanges(d, u, now, auditId);
  }
}

/** The cleanup that deletes again accounts revived by a restored backup, then prunes old tombstones. */
module AccountRetention {
  import opened Wrappers
  import opened CaptureDraft
  import opened AccountDeletion

  const DELETED_ACCOUNT_RETENTION: int := 35 * 24 * 60 * 60 * 1_000_000

  /** The database as it may always be found: references resolve, owners agree and addresses are unique. */
  ghost predicate Consistent(d: Database) {
    Intact(d) && OwnersAgree(d) && RecordsAgree(d) && AddressesUnique(d)
  }

  /** Users that exist although a tombstone says they were deleted. */
  function Revived(d: Database): set<Id> {
    d.users * d.tombstones.Keys
  }

  lemma RestrictStays(d: Database, u: Id, now: Instant, auditId: Id)
    requires Intact(d) && OwnersAgree(d)
    ensures RestrictHolds(Deleted(d, u, now, auditId))
  {
    AgreementFrees(d, u);
    ChecksHold(d, u, 12);
  }

  lemma AgreementStays(d: Database, u: Id, now: Instant, auditId: Id)
    requires OwnersAgree(d) && RecordsAgree(d)
    ensures OwnersAgree(Deleted(d, u, now, auditId)) && RecordsAgree(Deleted(d, u, now, auditId))
  {
    OthersAreUntouched(d, u, now, auditId);
  }

  lemma CascadesStay(d: Database, u: Id, now: Instant, auditId: Id)
    requires Intact(d) && RecordsAgree(d)
    ensures var x := Deleted(d, u, now, auditId);
            && (forall k | k in x.changes :: x.changes[k].expense in x.expenses)
            && (forall k | k in x.images :: k in x.receipts)
            && (forall k | k in x.results :: x.results[k].receiptId in x.receipts)
            && (forall k | k in x.drafts && x.drafts[k].resultId.Some? :: x.drafts[k].resultId.value in x.results)
  {
    OthersAreUntouched(d, u, now, auditId);
  }

  lemma AccessStays(d: Database, u: Id, now: Instant, auditId: Id)
    requires Intact(d) && RecordsAgree(d)
    ensures var x := Deleted(d, u, now, auditId);
            && (forall k | k in x.linkChallenges :: x.linkChallenges[k].session in x.sessions && x.sessions[x.linkChallenges[k].session] == x.linkChallenges[k].user)
            && (forall k | k in x.audits && x.audits[k].user.Some? :: x.audits[k].user.value in x.users)
  {
    OthersAreUntouched(d, u, now, auditId);
  }

  lemma AddressesStay(d: Database, u: Id, now: Instant, auditId: Id)
    requires RecordsAgree(d) && AddressesUnique(d)
    ensures AddressesUnique(Deleted(d, u, now, auditId))
  {
    OthersAreUntouched(d, u, now, auditId);
  }

  /** A deletion leaves the database consistent. */
  lemma DeletionKeepsConsistency(d: Database, u: Id, now: Instant, auditId: Id)
    requires Consistent(d)
    ensures Consistent(Deleted(d, u, now, auditId))
  {
    RestrictStays(d, u, now, auditId);
    AgreementStays(d, u, now, auditId);
    CascadesStay(d, u, now, auditId);
    AccessStays(d, u, now, auditId);
    AddressesStay(d, u, now, auditId);
  }

  /** Deleted first, then the smaller id. */
  predicate Sooner(m: map<Id, Instant>, a: Id, b: Id)
    requires a in m && b in m
  {
    m[a] < m[b] || (m[a] == m[b] && a < b)
  }

  method Soonest(m: map<Id, Instant>, ids: set<Id>) returns (first: Id)
    requires ids != {} && ids <= m.Keys
    ensures first in ids && forall k | k in ids && k != first :: Sooner(m, first, k)
  {
    first :| first in ids;
    var rest := ids - {first};
    while rest != {}
      invariant first in ids && rest <= ids && first !in rest
      invariant forall k | k in ids && k !in rest && k != first :: Sooner(m, first, k)
      decreases rest
    {
      var k :| k in rest;
      rest := rest - {k};
      if Sooner(m, k, first) {
        first := k;
      }
    }
  }

  function Smaller(a: nat, b: nat): nat {
    if a < b then a else b
  }

  /** ORDER BY deleted_at, id LIMIT batch. */
  ghost predicate AreSoonest(m: map<Id, Instant>, ids: set<Id>, batch: nat, list: seq<Id>) {
    && ids <= m.Keys && (forall k | k in list :: k in ids)
    && (forall i, j | 0 <= i < j < |list| :: Sooner(m, list[i], list[j]))
    && (forall k, r | k in list && r in ids && r !in list :: Sooner(m, k, r))
    && |list| == Smaller(|ids|, batch)
  }

  method FirstOnes(m: map<Id, Instant>, ids: set<Id>, batch: nat) returns (list: seq<Id>)
    requires ids <= m.Keys
    ensures AreSoonest(m, ids, batch, list)
  {
    list := [];
    var left := ids;
    while left != {} && |list| < batch
      invariant left <= ids && |list| + |left| == |ids| && |list| <= batch
      invariant forall k :: k in ids <==> k in list || k in left
      invariant forall i, j | 0 <= i < j < |list| :: Sooner(m, list[i], list[j])
      invariant forall k | k in list :: k !in left && forall r | r in left :: Sooner(m, k, r)
      decreases left
    {
      var k := Soonest(m, left);
      list := list + [k];
      left := left - {k};
    }
  }

  lemma SameRestrict(d: Database, x: Database)
    requires RestrictHolds(d) && x == d.(tombstones := x.tombstones)
    ensures RestrictHolds(x)
  {
  }

  lemma SameIntact(d: Database, x: Database)
    requires Intact(d) && RestrictHolds(x) && x == d.(tombstones := x.tombstones)
    ensures Intact(x)
  {
  }

  lemma SameAgreement(d: Database, x: Database)
    requires OwnersAgree(d) && RecordsAgree(d) && x == d.(tombstones := x.tombstones)
    ensures OwnersAgree(x) && RecordsAgree(x)
  {
  }

  /** Nothing refers to a tombstone. */
  lemma TombstonesReferToNothing(d: Database, x: Database)
    requires Consistent(d) && x == d.(tombstones := x.tombstones)
    ensures Consistent(x)
  {
    SameRestrict(d, x);
    SameIntact(d, x);
    SameAgreement(d, x);
  }

  function Elements(list: seq<Id>): set<Id> {
    set k | k in list
  }

  /** Tombstones stay, those of the accounts deleted again with a new time. */
  ghost predicate TombstonesKept(d: Database, x: Database, again: set<Id>, now: Instant) {
    x.tombstones.Keys == d.tombstones.Keys && forall u | u in d.tombstones :: x.tombstones[u] == if u in again then now else d.tombstones[u]
  }

  /** The revived accounts in `again` have been deleted again, and nobody else. */
  ghost predicate DeletedAgain(d: Database, x: Database, again: set<Id>, now: Instant) {
    x.users == d.users - again && TombstonesKept(d, x, again, now)
  }

  lemma OneMoreDeleted(d: Database, x: Database, again: set<Id>, u: Id, now: Instant, auditId: Id)
    requires DeletedAgain(d, x, again, now) && u in Revived(d)
    ensures DeletedAgain(d, Deleted(x, u, now, auditId), again + {u}, now)
  {
  }

  lemma ElementsAppend(list: seq<Id>, u: Id)
    ensures Elements(list + [u]) == Elements(list) + {u}
  {
  }

  /** The accounts in `list` deleted one after another. */
  function DeletedAll(d: Database, list: seq<Id>, now: Instant, auditIds: seq<Id>): Database
    requires |list| <= |auditIds|
  {
    if list == [] then d
    else
      var n := |list| - 1;
      Deleted(DeletedAll(d, list[..n], now, auditIds), list[n], now, auditIds[n])
  }

  ghost predicate ListsRevived(d: Database, list: seq<Id>) {
    (forall i, j | 0 <= i < j < |list| :: list[i] != list[j]) && forall u | u in list :: u in Revived(d)
  }

  lemma ListsPrefix(d: Database, list: seq<Id>, n: nat)
    requires n <= |list| && ListsRevived(d, list)
    ensures ListsRevived(d, list[..n])
    ensures n < |list| ==> list[n] in Revived(d) && list[n] !in Elements(list[..n])
  {
  }

  lemma {:induction false} AllDeletedAgain(d: Database, list: seq<Id>, now: Instant, auditIds: seq<Id>)
    requires |list| <= |auditIds| && ListsRevived(d, list)
    ensures DeletedAgain(d, DeletedAll(d, list, now, auditIds), Elements(list), now)
  {
    if list != [] {
      var n := |list| - 1;
      ListsPrefix(d, list, n);
      AllDeletedAgain(d, list[..n], now, auditIds);
      assert list == list[..n] + [list[n]];
      ElementsAppend(list[..n], list[n]);
      OneMoreDeleted(d, DeletedAll(d, list[..n], now, auditIds), Elements(list[..n]), list[n], now, auditIds[n]);
    }
  }

  lemma {:induction false} AllConsistent(d: Database, list: seq<Id>, now: Instant, auditIds: seq<Id>)
    requires |list| <= |auditIds| && Consistent(d)
    ensures Consistent(DeletedAll(d, list, now, auditIds))
  {
    if list != [] {
      var n := |list| - 1;
      AllConsistent(d, list[..n], now, auditIds);
      DeletionKeepsConsistency(DeletedAll(d, list[..n], now, auditIds), list[n], now, auditIds[n]);
    }
  }

  lemma DeletedNext(d: Database, list: seq<Id>, i: nat, now: Instant, auditIds: seq<Id>)
    requires i < |list| <= |auditIds|
    ensures DeletedAll(d, list[..i + 1], now, auditIds) == Deleted(DeletedAll(d, list[..i], now, auditIds), list[i], now, auditIds[i])
  {
    assert list[..i + 1][..i] == list[..i];
  }

  lemma NextIsThere(d: Database, list: seq<Id>, i: nat, now: Instant, auditIds: seq<Id>)
    requires i < |list| <= |auditIds| && ListsRevived(d, list)
    ensures list[i] in DeletedAll(d, list[..i], now, auditIds).users
  {
    ListsPrefix(d, list, i);
    AllDeletedAgain(d, list[..i], now, auditIds);
  }

  lemma ConsistentIsFree(x: Database, u: Id)
    requires Consistent(x)
    ensures Intact(x) && Free(x, u)
  {
    AgreementFrees(x, u);
  }

  /** Each deletion in turn finds its user and nothing in its way. */
  lemma NextCanGo(d: Database, list: seq<Id>, i: nat, now: Instant, auditIds: seq<Id>, x: Database)
    requires i < |list| <= |auditIds| && Consistent(d) && x == DeletedAll(d, list[..i], now, auditIds)
    ensures Intact(x) && Free(x, list[i])
  {
    AllConsistent(d, list[..i], now, auditIds);
    ConsistentIsFree(x, list[i]);
  }

  /** Tombstones past the cutoff whose user does not exist, except those another transaction has locked. */
  function Prunable(d: Database, cutoff: Instant, locked: set<Id>): set<Id> {
    set u | u in d.tombstones && d.tombstones[u] <= cutoff && u !in d.users && u !in locked
  }

  /** The oldest prunable tombstones, listed in `gone`, are gone, as many as the batch allows, and nothing else is. */
  ghost predicate Pruned(d: Database, x: Database, gone: seq<Id>, cutoff: Instant, batch: nat, locked: set<Id>) {
    AreSoonest(d.tombstones, Prunable(d, cutoff, locked), batch, gone) && x == d.(tombstones := d.tombstones - Elements(gone))
  }

  /** One run of the cleanup: its batch size, its time, the ids of its audit records and what others have locked. */
  datatype Cleaning = Cleaning(batch: nat, now: Instant, auditIds: seq<Id>, locked: set<Id>)

  /** What one run does: the accounts revived longest ago, in `list`, are deleted again, then old tombstones are pruned. */
  ghost predicate Cleaned(d: Database, x: Database, list: seq<Id>, gone: seq<Id>, batch: nat, now: Instant, auditIds: seq<Id>, locked: set<Id>) {
    && AreSoonest(d.tombstones, Revived(d), batch, list) && |list| <= |auditIds|
    && Pruned(DeletedAll(d, list, now, auditIds), x, gone, now - DELETED_ACCOUNT_RETENTION, batch, locked)
  }

  ghost predicate WasCleaned(d: Database, x: Database, c: Cleaning) {
    exists list, gone :: Cleaned(d, x, list, gone, c.batch, c.now, c.auditIds, c.locked)
  }

  lemma SoonestAreRevived(d: Database, list: seq<Id>, batch: nat)
    requires AreSoonest(d.tombstones, Revived(d), batch, list)
    ensures ListsRevived(d, list)
  {
  }

  lemma RunCleans(d: Database, middle: Database, x: Database, list: seq<Id>, gone: seq<Id>,
      batch: nat, now: Instant, auditIds: seq<Id>, locked: set<Id>)
    requires Consistent(d) && |list| <= |auditIds| && AreSoonest(d.tombstones, Revived(d), batch, list)
    requires middle == DeletedAll(d, list, now, auditIds) && Pruned(middle, x, gone, now - DELETED_ACCOUNT_RETENTION, batch, locked)
    ensures Consistent(x)
    ensures Cleaned(d, x, list, gone, batch, now, auditIds, locked)
  {
    AllConsistent(d, list, now, auditIds);
    TombstonesReferToNothing(middle, x);
  }

  class Cleanup {
    const repository: Repository

    constructor (repository: Repository)
      ensures this.repository == repository
    {
      this.repository := repository;
    }

    /** Delete the listed accounts one after another, counting the deletions. */
    method DeleteAgain(list: seq<Id>, now: Instant, auditIds: seq<Id>) returns (restored: nat)
      requires |list| <= |auditIds| && Consistent(repository.db) && ListsRevived(repository.db, list)
      modifies repository
      ensures restored == |list| && repository.db == DeletedAll(old(repository.db), list, now, auditIds)
    {
      ghost var start := repository.db;
      restored := 0;
      for i := 0 to |list|
        invariant restored == i && repository.db == DeletedAll(start, list[..i], now, auditIds)
      {
        DeletedNext(start, list, i, now, auditIds);
        NextIsThere(start, list, i, now, auditIds);
        NextCanGo(start, list, i, now, auditIds, repository.db);
        var deleted := repository.DeleteAccount(list[i], now, auditIds[i]);
        restored := restored + if deleted == Accepted(true) then 1 else 0;
      }
      assert list[..|list|] == list;
    }

    /** Prune old tombstones without a user, oldest first. */
    method PruneTombstones(cutoff: Instant, batch: nat, locked: set<Id>) returns (count: nat, ghost gone: seq<Id>)
      modifies repository
      ensures Pruned(old(repository.db), repository.db, gone, cutoff, batch, locked)
      ensures count == Smaller(|Prunable(old(repository.db), cutoff, locked)|, batch)
    {
      var d := repository.db;
      var list := FirstOnes(d.tombstones, Prunable(d, cutoff, locked), batch);
      repository.db := d.(tombstones := d.tombstones - Elements(list));
      count, gone := |list|, list;
    }

    /** Delete again the accounts revived longest ago, at most `batch` of them. */
    method DeleteRevived(batch: nat, now: Instant, auditIds: seq<Id>) returns (restored: nat, ghost list: seq<Id>)
      requires batch <= |auditIds| && Consistent(repository.db)
      modifies repository
      ensures restored == |list| && |list| <= |auditIds| && AreSoonest(old(repository.db).tombstones, Revived(old(repository.db)), batch, list)
      ensures repository.db == DeletedAll(old(repository.db), list, now, auditIds)
    {
      var first := FirstOnes(repository.db.tombstones, Revived(repository.db), batch);
      SoonestAreRevived(repository.db, first, batch);
      restored := DeleteAgain(first, now, auditIds);
      list := first;
    }

    /**
     One run: delete again the accounts revived longest ago, at most `batch` of them, then prune.
     `auditIds` are fresh ids for the anonymous audit records.
     */
    method Execute(batch: nat, now: Instant, auditIds: seq<Id>, locked: set<Id>)
      returns (restored: nat, ghost list: seq<Id>, ghost gone: seq<Id>)
      requires 0 < batch <= |auditIds| && Consistent(repository.db)
      modifies repository
      ensures Consistent(repository.db) && restored == Smaller(|Revived(old(repository.db))|, batch)
      ensures Cleaned(old(repository.db), repository.db, list, gone, batch, now, auditIds, locked)
    {
      ghost var start := repository.db;
      restored, list := DeleteRevived(batch, now, auditIds);
      ghost var middle := repository.db;
      var count;
      count, gone := PruneTombstones(now - DELETED_ACCOUNT_RETENTION, batch, locked);
      RunCleans(start, middle, repository.db, list, gone, batch, now, auditIds, locked);
    }
  }

  // --- run after run ---

  lemma DistinctElements(list: seq<Id>)
    requires forall i, j | 0 <= i < j < |list| :: list[i] != list[j]
    ensures |Elements(list)| == |list|
  {
    if list != [] {
      var n := |list| - 1;
      DistinctElements(list[..n]);
      assert list == list[..n] + [list[n]];
      ElementsAppend(list[..n], list[n]);
    }
  }

  lemma PruningKeeps(d: Database, x: Database, gone: seq<Id>, cutoff: Instant, batch: nat, locked: set<Id>)
    requires Pruned(d, x, gone, cutoff, batch, locked)
    ensures x.users == d.users && Revived(x) == Revived(d)
    ensures d.users * d.tombstones.Keys <= x.tombstones.Keys <= d.tombstones.Keys
  {
  }

  lemma FewerRevived(d: Database, x: Database, list: seq<Id>, batch: nat, now: Instant)
    requires AreSoonest(d.tombstones, Revived(d), batch, list) && DeletedAgain(d, x, Elements(list), now)
    ensures Revived(x) == Revived(d) - Elements(list)
    ensures |Revived(x)| == |Revived(d)| - Smaller(|Revived(d)|, batch)
  {
    DistinctElements(list);
    assert Elements(list) <= Revived(d);
    assert |Revived(d) - Elements(list)| == |Revived(d)| - |Elements(list)|;
  }

  /** What runs keep and reduce: revived accounts by so many, other users and tombstones of existing users not at all. */
  ghost predicate Reduced(d: Database, x: Database, fewer: nat) {
    && |Revived(x)| == |Revived(d)| - Smaller(|Revived(d)|, fewer)
    && d.users - Revived(d) <= x.users <= d.users && Revived(x) <= Revived(d)
    && x.users * d.tombstones.Keys <= x.tombstones.Keys <= d.tombstones.Keys
  }

  lemma CleaningReduces(d: Database, x: Database, list: seq<Id>, gone: seq<Id>, batch: nat, now: Instant, auditIds: seq<Id>, locked: set<Id>)
    requires Cleaned(d, x, list, gone, batch, now, auditIds, locked)
    ensures Reduced(d, x, batch)
  {
    var middle := DeletedAll(d, list, now, auditIds);
    SoonestAreRevived(d, list, batch);
    AllDeletedAgain(d, list, now, auditIds);
    FewerRevived(d, middle, list, batch, now);
    PruningKeeps(middle, x, gone, now - DELETED_ACCOUNT_RETENTION, batch, locked);
  }

  lemma ReducedTwice(d: Database, x: Database, y: Database, fewer: nat, more: nat)
    requires Reduced(d, x, fewer) && Reduced(x, y, more)
    ensures Reduced(d, y, fewer + more)
  {
  }

  /** Runs one after another, with no restore in between. */
  ghost predicate AreCleanings(states: seq<Database>, cleanings: seq<Cleaning>) {
    |states| == |cleanings| + 1 && forall i | 0 <= i < |cleanings| :: WasCleaned(states[i], states[i + 1], cleanings[i])
  }

  function BatchesSum(cleanings: seq<Cleaning>): nat {
    if cleanings == [] then 0 else BatchesSum(cleanings[..|cleanings| - 1]) + cleanings[|cleanings| - 1].batch
  }

  lemma CleansAtReduces(d: Database, x: Database, c: Cleaning)
    requires WasCleaned(d, x, c)
    ensures Reduced(d, x, c.batch)
  {
    var list, gone :| Cleaned(d, x, list, gone, c.batch, c.now, c.auditIds, c.locked);
    CleaningReduces(d, x, list, gone, c.batch, c.now, c.auditIds, c.locked);
  }

  lemma {:induction false} CleaningsReduce(states: seq<Database>, cleanings: seq<Cleaning>)
    requires AreCleanings(states, cleanings)
    ensures Reduced(states[0], states[|cleanings|], BatchesSum(cleanings))
  {
    if cleanings != [] {
      var n := |cleanings| - 1;
      CleaningsReduce(states[..|cleanings|], cleanings[..n]);
      CleansAtReduces(states[n], states[n + 1], cleanings[n]);
      ReducedTwice(states[0], states[n], states[n + 1], BatchesSum(cleanings[..n]), cleanings[n].batch);
    }
  }

  /**
   Run after run exactly the batches' sum of revived accounts is gone, or all of them when there are
   fewer; so enough runs leave none. No tombstone is ever pruned while its user exists.
   */
  lemma CleanupFinishes(states: seq<Database>, cleanings: seq<Cleaning>)
    requires AreCleanings(states, cleanings)
    ensures var first, last := states[0], states[|cleanings|];
      && |Revived(last)| == |Revived(first)| - Smaller(|Revived(first)|, BatchesSum(cleanings))
      && (BatchesSum(cleanings) >= |Revived(first)| <==> Revived(last) == {})
      && first.users - Revived(first) <= last.users <= first.users
      && last.users * first.tombstones.Keys <= last.tombstones.Keys
  {
    CleaningsReduce(states, cleanings);
  }

  lemma {:induction false} NonEmptyBatches(cleanings: seq<Cleaning>)
    requires forall c | c in cleanings :: c.batch > 0
    ensures BatchesSum(cleanings) >= |cleanings|
  {
    if cleanings != [] {
      NonEmptyBatches(cleanings[..|cleanings| - 1]);
    }
  }

  /** As many runs as there are revived accounts always suffice, since a batch is never empty. */
  lemma CleanupReachesZero(states: seq<Database>, cleanings: seq<Cleaning>)
    requires AreCleanings(states, cleanings) && |cleanings| >= |Revived(states[0])|
    requires forall c | c in cleanings :: c.batch > 0
    ensures Revived(states[|cleanings|]) == {}
  {
    NonEmptyBatches(cleanings);
    CleanupFinishes(states, cleanings);
  }
}

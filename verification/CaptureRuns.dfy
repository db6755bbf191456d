/** Runs of the capture protocol, their moments, and what holds from one moment to a later one. */
module CaptureRuns {
  import opened CaptureDraft
  import opened Receipts
  import opened Expenses
  import opened CaptureFlowProofs
  import opened CaptureSystem
  import opened CaptureInvariants
  import opened CaptureSteps

  /** Where a run begins: with empty tables, or when an earlier run ends with the deletion of an account. */
  datatype Origin = Empty | Deletion(earlier: Run, user: Id)

  /** A run: the states it visits and the steps between them. */
  datatype Run = Run(origin: Origin, states: seq<Tables>, steps: seq<Step>)

  ghost predicate IsRun(run: Run) {
    && |run.states| == |run.steps| + 1
    && (match run.origin
        case Empty => run.states[0] == EMPTY
        case Deletion(earlier, user) => IsRun(earlier) && run.states[0] == WithoutAccount(earlier.states[|earlier.steps|], user))
    && forall i | 0 <= i < |run.steps| :: Happens(run, i)
  }

  /** Step `i` can be taken and leads to the next state. */
  ghost predicate Happens(run: Run, i: nat)
    requires |run.states| == |run.steps| + 1 && i < |run.steps|
  {
    Enabled(run.states[i], run.steps[i]) && run.states[i + 1] == Next(run.states[i], run.steps[i])
  }

  lemma SameStepHappens(run: Run, longer: Run, i: nat)
    requires |run.states| == |run.steps| + 1 && |longer.states| == |longer.steps| + 1 && i < |run.steps| && i < |longer.steps|
    requires longer.states[i] == run.states[i] && longer.states[i + 1] == run.states[i + 1] && longer.steps[i] == run.steps[i]
    requires Happens(run, i)
    ensures Happens(longer, i)
  {
  }

  lemma RunGoesOn(run: Run, a: Step, t: Tables) returns (longer: Run)
    requires IsRun(run) && t == run.states[|run.steps|] && Enabled(t, a)
    ensures longer == Run(run.origin, run.states + [Next(t, a)], run.steps + [a]) && IsRun(longer)
  {
    longer := Run(run.origin, run.states + [Next(t, a)], run.steps + [a]);
    forall i | 0 <= i < |longer.steps| ensures Happens(longer, i) {
      if i < |run.steps| {
        assert Happens(run, i);
        SameStepHappens(run, longer, i);
      }
    }
  }

  /** A run takes the next of planned steps. */
  lemma TakesStep(run: Run, steps: seq<Step>, n: nat, t: Tables) returns (longer: Run)
    requires IsRun(run) && n < |steps| && run.steps == steps[..n] && t == run.states[n] && Enabled(t, steps[n])
    ensures IsRun(longer) && longer.steps == steps[..n + 1] && longer.states == run.states + [Next(t, steps[n])]
  {
    longer := RunGoesOn(run, steps[n], t);
  }

  // --- deleting an account ---

  lemma DeletionKeepsDrafts(t: Tables, user: Id)
    requires Core(t)
    ensures var t' := WithoutAccount(t, user); DraftsOk(t') && ReceiptLinksOk(t') && ReceiptsOk(t') && RemovedOk(t') && ResultsOk(t')
  {
  }

  lemma DeletionKeepsExpenses(t: Tables, user: Id)
    requires Core(t)
    ensures ExpensesOk(WithoutAccount(t, user)) && ConversationsOk(WithoutAccount(t, user))
  {
    var t' := WithoutAccount(t, user);
    forall d | d in t'.drafts && t'.drafts[d].state.Confirmed?
      ensures t'.drafts[d].expenseId.Some? && t'.drafts[d].expenseId.value in t'.expenses && Linked(t'.drafts[d], t'.expenses[t'.drafts[d].expenseId.value])
    {
      assert t.drafts[d].expenseId.value in t.expenses;
    }
    forall e | e in t'.expenses
      ensures t'.expenses[e].id == e && t'.expenses[e].draftId in t'.drafts && Linked(t'.drafts[t'.expenses[e].draftId], t'.expenses[e])
    {
      assert t.expenses[e].draftId in t.drafts;
    }
    forall u | u in t'.conversations ensures ConversationOk(t', u, t'.conversations[u]) {
      assert ConversationOk(t, u, t.conversations[u]);
    }
  }

  /** Deleting an account leaves tables that the protocol goes on with as with any others. */
  lemma DeletionKeepsCore(t: Tables, user: Id)
    requires Core(t)
    ensures Core(WithoutAccount(t, user))
    ensures AllComplete(t) ==> AllComplete(WithoutAccount(t, user))
  {
    var t' := WithoutAccount(t, user);
    DeletionKeepsDrafts(t, user);
    DeletionKeepsExpenses(t, user);
  }

  lemma {:induction false} CoreAlways(run: Run, n: nat)
    requires IsRun(run) && n <= |run.steps|
    ensures Core(run.states[n])
  {
    if n > 0 {
      CoreAlways(run, n - 1);
      assert Happens(run, n - 1);
      StepIsSound(run.states[n - 1], run.steps[n - 1]);
    } else if run.origin.Deletion? {
      var earlier := run.origin.earlier;
      CoreAlways(earlier, |earlier.steps|);
      DeletionKeepsCore(earlier.states[|earlier.steps|], run.origin.user);
    }
  }

  lemma EveryStepIsSound(run: Run, i: nat)
    requires IsRun(run) && i < |run.steps|
    ensures Core(run.states[i]) && Sound(run.states[i], run.states[i + 1])
  {
    CoreAlways(run, i);
    assert Happens(run, i);
    StepIsSound(run.states[i], run.steps[i]);
  }

  // --- what holds between any two moments ---

  ghost predicate DraftsLater(t: Tables, t': Tables) {
    forall d | d in t.drafts :: d in t'.drafts && Evolves(t.drafts[d], t'.drafts[d])
  }

  ghost predicate ReceiptsLater(t: Tables, t': Tables) {
    forall r | r in t.receipts :: r in t'.receipts && ReceiptEvolves(t.receipts[r], t'.receipts[r])
  }

  ghost predicate ExpensesLater(t: Tables, t': Tables) {
    forall e | e in t.expenses :: e in t'.expenses && SameOrigin(t.expenses[e], t'.expenses[e])
  }

  /** A receipt that is finished gets no more results. */
  ghost predicate ResultsLater(t: Tables, t': Tables) {
    forall k | k in t'.results && t'.results[k].receiptId in t.receipts && Finished(t.receipts[t'.results[k].receiptId]) ::
      k in t.results && t.results[k] == t'.results[k]
  }

  ghost predicate Later(t: Tables, t': Tables) {
    DraftsLater(t, t') && ReceiptsLater(t, t') && ExpensesLater(t, t') && ResultsLater(t, t')
  }

  lemma SoundIsLater(t: Tables, t': Tables)
    requires Sound(t, t')
    ensures Later(t, t')
  {
  }

  lemma LaterTwice(a: Tables, b: Tables, c: Tables)
    requires Later(a, b) && Later(b, c)
    ensures Later(a, c)
  {
    forall d | d in a.drafts ensures d in c.drafts && Evolves(a.drafts[d], c.drafts[d]) {
      assert Evolves(a.drafts[d], b.drafts[d]) && Evolves(b.drafts[d], c.drafts[d]);
    }
    forall r | r in a.receipts ensures r in c.receipts && ReceiptEvolves(a.receipts[r], c.receipts[r]) {
      assert ReceiptEvolves(a.receipts[r], b.receipts[r]) && ReceiptEvolves(b.receipts[r], c.receipts[r]);
    }
    forall e | e in a.expenses ensures e in c.expenses && SameOrigin(a.expenses[e], c.expenses[e]) {
      assert SameOrigin(a.expenses[e], b.expenses[e]) && SameOrigin(b.expenses[e], c.expenses[e]);
    }
  }

  lemma LaterThanItself(t: Tables)
    requires Core(t)
    ensures Later(t, t)
  {
    NothingIsSound(t);
    SoundIsLater(t, t);
  }

  lemma StepIsLater(run: Run, i: nat)
    requires IsRun(run) && i < |run.steps|
    ensures Later(run.states[i], run.states[i + 1])
  {
    EveryStepIsSound(run, i);
    SoundIsLater(run.states[i], run.states[i + 1]);
  }

  lemma {:induction false} LaterAlongChain(states: seq<Tables>, i: nat, j: nat)
    requires i <= j < |states| && Later(states[i], states[i])
    requires forall k | i <= k < j :: Later(states[k], states[k + 1])
    ensures Later(states[i], states[j])
    decreases j
  {
    if i < j {
      LaterAlongChain(states, i, j - 1);
      LaterTwice(states[i], states[j - 1], states[j]);
    }
  }

  lemma LaterAlways(run: Run, i: nat, j: nat)
    requires IsRun(run) && i <= j <= |run.steps|
    ensures Later(run.states[i], run.states[j])
  {
    CoreAlways(run, i);
    LaterThanItself(run.states[i]);
    forall k | i <= k < j ensures Later(run.states[k], run.states[k + 1]) {
      StepIsLater(run, k);
    }
    LaterAlongChain(run.states, i, j);
  }

  // --- moments, and account deletions between them ---

  /** The state before step `n` of a run, or its last one. */
  datatype Moment = Moment(run: Run, n: nat)

  ghost predicate IsMoment(m: Moment) {
    IsRun(m.run) && m.n <= |m.run.steps|
  }

  ghost function At(m: Moment): Tables
    requires IsMoment(m)
  {
    m.run.states[m.n]
  }

  /** A moment at which a step is taken. */
  ghost predicate IsTaken(m: Moment) {
    IsMoment(m) && m.n < |m.run.steps|
  }

  ghost function Taken(m: Moment): Step
    requires IsTaken(m)
  {
    m.run.steps[m.n]
  }

  function After(m: Moment): Moment {
    m.(n := m.n + 1)
  }

  /** The moment at which the run's beginning was: the end of the run before. */
  ghost function End(run: Run): Moment {
    Moment(run, |run.steps|)
  }

  /** `m` comes no later than `m'`, account deletions in between or not. */
  ghost predicate UpTo(m: Moment, m': Moment)
    decreases m'.run
  {
    if m.run == m'.run then m.n <= m'.n else m'.run.origin.Deletion? && UpTo(m, End(m'.run.origin.earlier))
  }

  /** How many account deletions lie before a run. */
  ghost function Depth(run: Run): nat {
    if run.origin.Empty? then 0 else 1 + Depth(run.origin.earlier)
  }

  lemma {:induction false} NotDeeper(m: Moment, m': Moment)
    requires UpTo(m, m')
    ensures Depth(m.run) <= Depth(m'.run)
    decreases m'.run
  {
    if m.run != m'.run {
      NotDeeper(m, End(m'.run.origin.earlier));
    }
  }

  /** No deletion between the two is that of `user`. */
  ghost predicate AccountLasts(m: Moment, m': Moment, user: Id)
    decreases m'.run
  {
    m.run == m'.run || (m'.run.origin.Deletion? && m'.run.origin.user != user && AccountLasts(m, End(m'.run.origin.earlier), user))
  }

  /** Two moments in order, in between which the user's account was not deleted. */
  ghost predicate Follows(m: Moment, m': Moment, user: Id) {
    IsMoment(m) && IsMoment(m') && UpTo(m, m') && AccountLasts(m, m', user)
  }

  // --- one user's rows ---

  ghost predicate DraftsLaterFor(t: Tables, t': Tables, u: Id) {
    forall d | d in t.drafts && t.drafts[d].owner == u :: d in t'.drafts && Evolves(t.drafts[d], t'.drafts[d])
  }

  ghost predicate ReceiptsLaterFor(t: Tables, t': Tables, u: Id) {
    forall r | r in t.receipts && t.receipts[r].owner == u :: r in t'.receipts && ReceiptEvolves(t.receipts[r], t'.receipts[r])
  }

  ghost predicate ExpensesLaterFor(t: Tables, t': Tables, u: Id) {
    forall e | e in t.expenses && t.expenses[e].owner == u :: e in t'.expenses && SameOrigin(t.expenses[e], t'.expenses[e])
  }

  ghost predicate ResultsLaterFor(t: Tables, t': Tables, u: Id) {
    forall k | k in t'.results && t'.results[k].receiptId in t.receipts
        && t.receipts[t'.results[k].receiptId].owner == u && Finished(t.receipts[t'.results[k].receiptId]) ::
      k in t.results && t.results[k] == t'.results[k]
  }

  ghost predicate LaterFor(t: Tables, t': Tables, u: Id) {
    DraftsLaterFor(t, t', u) && ReceiptsLaterFor(t, t', u) && ExpensesLaterFor(t, t', u) && ResultsLaterFor(t, t', u)
  }

  lemma LaterIsLaterFor(t: Tables, t': Tables, u: Id)
    requires Later(t, t')
    ensures LaterFor(t, t', u)
  {
  }

  lemma DeletionIsLaterFor(t: Tables, user: Id, u: Id)
    requires Core(t) && u != user
    ensures LaterFor(t, WithoutAccount(t, user), u)
  {
    LaterThanItself(t);
    forall d | d in t.drafts ensures Evolves(t.drafts[d], t.drafts[d]) {}
    forall r | r in t.receipts ensures ReceiptEvolves(t.receipts[r], t.receipts[r]) {}
  }

  lemma LaterForTwice(a: Tables, b: Tables, c: Tables, u: Id)
    requires LaterFor(a, b, u) && LaterFor(b, c, u)
    ensures LaterFor(a, c, u)
  {
    forall d | d in a.drafts && a.drafts[d].owner == u ensures d in c.drafts && Evolves(a.drafts[d], c.drafts[d]) {
      assert Evolves(a.drafts[d], b.drafts[d]) && Evolves(b.drafts[d], c.drafts[d]);
    }
    ReceiptsLaterTwice(a, b, c, u);
    forall e | e in a.expenses && a.expenses[e].owner == u ensures e in c.expenses && SameOrigin(a.expenses[e], c.expenses[e]) {
      assert SameOrigin(a.expenses[e], b.expenses[e]) && SameOrigin(b.expenses[e], c.expenses[e]);
    }
  }

  lemma ReceiptsLaterTwice(a: Tables, b: Tables, c: Tables, u: Id)
    requires ReceiptsLaterFor(a, b, u) && ReceiptsLaterFor(b, c, u) && ResultsLaterFor(a, b, u) && ResultsLaterFor(b, c, u)
    ensures ReceiptsLaterFor(a, c, u) && ResultsLaterFor(a, c, u)
  {
    forall r | r in a.receipts && a.receipts[r].owner == u ensures r in c.receipts && ReceiptEvolves(a.receipts[r], c.receipts[r]) {
      assert ReceiptEvolves(a.receipts[r], b.receipts[r]) && ReceiptEvolves(b.receipts[r], c.receipts[r]);
    }
  }

  /** From any moment to a later one, a user's rows only move on, whoever else's account was deleted in between. */
  lemma {:induction false} MovesOn(m: Moment, m': Moment, u: Id)
    requires Follows(m, m', u)
    ensures LaterFor(At(m), At(m'), u)
    decreases m'.run
  {
    if m.run == m'.run {
      LaterAlways(m.run, m.n, m'.n);
      LaterIsLaterFor(At(m), At(m'), u);
    } else {
      var run := m'.run;
      var end := End(run.origin.earlier);
      MovesOn(m, end, u);
      CoreAlways(end.run, end.n);
      DeletionIsLaterFor(At(end), run.origin.user, u);
      LaterForTwice(At(m), At(end), run.states[0], u);
      LaterAlways(run, 0, m'.n);
      LaterIsLaterFor(run.states[0], At(m'), u);
      LaterForTwice(At(m), run.states[0], At(m'), u);
    }
  }
}

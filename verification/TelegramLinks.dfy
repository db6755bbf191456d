/**
 Linking a Telegram account: a web session issues a challenge, a Telegram account claims it, and the
 same session confirms it. Every write is one conditional statement or runs under a row lock, with two
 partial unique indexes behind it; so each is one step, in any interleaving with the others.
 */
module TelegramLinks {
  import opened Wrappers

  type Id = nat
  type Instant = int

  const CHALLENGE_LIFETIME: int := 5 * 60 * 1_000_000

  datatype Session = Session(user: Id, expiresAt: Instant, revokedAt: Option<Instant>)

  datatype Claim = Claim(telegram: int, at: Instant)

  datatype Challenge = Challenge(
    token: nat, user: Id, session: Id, issuedAt: Instant, expiresAt: Instant,
    claim: Option<Claim>, confirmedAt: Option<Instant>)

  datatype Connection = Connection(user: Id, telegram: int, linkedAt: Instant, unlinkedAt: Option<Instant>)

  /** Where a connection came from; kept for good, while challenges and unlinked connections are pruned. */
  datatype Origin = Origin(challenge: Id, session: Id, at: Instant)

  datatype State = State(
    active: set<Id>,                 // active users
    sessions: map<Id, Session>,
    challenges: map<Id, Challenge>,
    connections: map<Id, Connection>,
    conversations: set<Id>,          // users the bot keeps a conversation of
    issued: map<Id, Challenge>,      // every challenge as it was issued
    claims: map<Id, Claim>,          // every claim, by challenge
    origins: map<Id, Origin>,        // every connection ever made
    made: map<Id, Connection>)       // each as it was made

  const NOTHING := State({}, map[], map[], map[], {}, map[], map[], map[], map[])

  predicate Linked(c: Connection) {
    c.unlinkedAt.None?
  }

  predicate UserIsLinked(s: State, user: Id) {
    exists c :: c in s.connections && s.connections[c].user == user && Linked(s.connections[c])
  }

  predicate TelegramIsLinked(s: State, telegram: int) {
    exists c :: c in s.connections && s.connections[c].telegram == telegram && Linked(s.connections[c])
  }

  // --- the steps ---

  /** Column checks, the unique token and the key that ties the session to the user. */
  predicate MayIssue(s: State, id: Id, token: nat, user: Id, session: Id, issuedAt: Instant, expiresAt: Instant) {
    && id !in s.issued
    && (forall k | k in s.challenges :: s.challenges[k].token != token)
    && session in s.sessions && s.sessions[session].user == user
    && issuedAt < expiresAt <= issuedAt + CHALLENGE_LIFETIME
  }

  function Issue(s: State, id: Id, token: nat, user: Id, session: Id, issuedAt: Instant, expiresAt: Instant): State {
    if MayIssue(s, id, token, user, session, issuedAt, expiresAt) then
      var c := Challenge(token, user, session, issuedAt, expiresAt, None, None);
      s.(challenges := s.challenges[id := c], issued := s.issued[id := c])
    else s
  }

  /** The conditional update's WHERE clause, and the check that a claim does not precede its challenge. */
  predicate MayClaim(s: State, c: Challenge, telegram: int, now: Instant) {
    && c.claim.None? && c.confirmedAt.None? && c.expiresAt > now && c.user in s.active
    && !TelegramIsLinked(s, telegram) && now >= c.issuedAt
  }

  /** The row is found by its token. */
  function ClaimChallenge(s: State, id: Id, token: nat, telegram: int, now: Instant): State {
    if id in s.challenges && s.challenges[id].token == token && MayClaim(s, s.challenges[id], telegram, now) then
      s.(challenges := s.challenges[id := s.challenges[id].(claim := Some(Claim(telegram, now)))],
         claims := s.claims[id := Claim(telegram, now)])
    else s
  }

  predicate SessionIsValid(s: State, session: Id, user: Id, now: Instant) {
    && session in s.sessions && s.sessions[session].user == user
    && s.sessions[session].revokedAt.None? && s.sessions[session].expiresAt > now && user in s.active
  }

  /** The locked challenge, the session's checks, both unique indexes, and the check on the confirmation time. */
  predicate MayConfirm(s: State, id: Id, session: Id, now: Instant) {
    && id in s.challenges
    && var c := s.challenges[id];
    && c.session == session && c.claim.Some? && c.confirmedAt.None? && c.expiresAt > now
    && SessionIsValid(s, session, c.user, now)
    && !UserIsLinked(s, c.user) && !TelegramIsLinked(s, c.claim.value.telegram)
    && now >= c.claim.value.at
  }

  function Confirm(s: State, id: Id, session: Id, connection: Id, now: Instant): State {
    if MayConfirm(s, id, session, now) then
      var c := s.challenges[id];
      var link := Connection(c.user, c.claim.value.telegram, now, None);
      s.(connections := s.connections[connection := link],
         challenges := s.challenges[id := c.(confirmedAt := Some(now))],
         origins := s.origins[connection := Origin(id, session, now)],
         made := s.made[connection := link])
    else s
  }

  /** The user's linked connection is unlinked; a time before it was linked fails its check. */
  predicate MayUnlink(s: State, c: Id, user: Id, now: Instant) {
    c in s.connections && s.connections[c].user == user && Linked(s.connections[c]) && now >= s.connections[c].linkedAt
  }

  /** The bot forgets the user's conversation at once. */
  function Unlink(s: State, c: Id, user: Id, now: Instant): State {
    if MayUnlink(s, c, user, now)
    then s.(connections := s.connections[c := s.connections[c].(unlinkedAt := Some(now))], conversations := s.conversations - {user}) else s
  }

  function Revoke(s: State, session: Id, now: Instant): State {
    if session in s.sessions && s.sessions[session].revokedAt.None?
    then s.(sessions := s.sessions[session := s.sessions[session].(revokedAt := Some(now))]) else s
  }

  /** Deleting sessions takes their challenges along. */
  function DeleteSessions(s: State, gone: set<Id>): State {
    s.(sessions := s.sessions - gone,
       challenges := s.challenges - set k | k in s.challenges && s.challenges[k].session in gone)
  }

  /** Only unlinked connections are ever pruned. */
  function PruneConnections(s: State, batch: set<Id>): State {
    s.(connections := s.connections - set c | c in batch && c in s.connections && !Linked(s.connections[c]))
  }

  /** Account deletion: the user's challenges, connections, linked or not, sessions and the account itself. */
  function DeleteUser(s: State, user: Id): State {
    var sessions := set k | k in s.sessions && s.sessions[k].user == user;
    s.(active := s.active - {user}, sessions := s.sessions - sessions, conversations := s.conversations - {user},
       challenges := s.challenges - (set k | k in s.challenges && (s.challenges[k].user == user || s.challenges[k].session in sessions)),
       connections := s.connections - set c | c in s.connections && s.connections[c].user == user)
  }

  datatype Step =
    | NewSession(id: Id, user: Id, expiresAt: Instant)
    | SetActive(user: Id, isActive: bool)
    | IssueStep(id: Id, token: nat, user: Id, session: Id, issuedAt: Instant, expiresAt: Instant)
    | ClaimStep(id: Id, token: nat, telegram: int, now: Instant)
    | ConfirmStep(id: Id, session: Id, connection: Id, now: Instant)
    | UnlinkStep(connection: Id, user: Id, now: Instant)
    | RevokeStep(session: Id, now: Instant)
    | DeleteSessionsStep(gone: set<Id>)
    | PruneChallengesStep(gone: set<Id>)
    | PruneConnectionsStep(batch: set<Id>)
    | DeleteUserStep(user: Id)
    | ConverseStep(user: Id)

  /** Generated ids are new. */
  predicate Enabled(s: State, a: Step) {
    match a
    case NewSession(id, _, _) => id !in s.sessions
    case ConfirmStep(_, _, connection, _) => connection !in s.origins
    case _ => true
  }

  function Next(s: State, a: Step): State {
    match a
    case NewSession(id, user, expiresAt) => s.(sessions := s.sessions[id := Session(user, expiresAt, None)])
    case SetActive(user, isActive) => s.(active := if isActive then s.active + {user} else s.active - {user})
    case IssueStep(id, token, user, session, issuedAt, expiresAt) => Issue(s, id, token, user, session, issuedAt, expiresAt)
    case ClaimStep(id, token, telegram, now) => ClaimChallenge(s, id, token, telegram, now)
    case ConfirmStep(id, session, connection, now) => Confirm(s, id, session, connection, now)
    case UnlinkStep(connection, user, now) => Unlink(s, connection, user, now)
    case RevokeStep(session, now) => Revoke(s, session, now)
    case DeleteSessionsStep(gone) => DeleteSessions(s, gone)
    case PruneChallengesStep(gone) => s.(challenges := s.challenges - gone)
    case PruneConnectionsStep(batch) => PruneConnections(s, batch)
    case DeleteUserStep(user) => DeleteUser(s, user)
    case ConverseStep(user) => s.(conversations := s.conversations + {user})
  }

  // --- invariants ---

  /** The two partial unique indexes. */
  ghost predicate OneLinkEach(s: State) {
    forall a, b | a in s.connections && b in s.connections && a != b && Linked(s.connections[a]) && Linked(s.connections[b]) ::
      s.connections[a].user != s.connections[b].user && s.connections[a].telegram != s.connections[b].telegram
  }

  /** A challenge row is what was issued, plus its one claim. */
  ghost predicate ChallengesOk(s: State) {
    && (forall k | k in s.issued :: s.issued[k].issuedAt < s.issued[k].expiresAt <= s.issued[k].issuedAt + CHALLENGE_LIFETIME)
    && (forall k | k in s.challenges ::
          && k in s.issued && s.challenges[k] == s.issued[k].(claim := s.challenges[k].claim, confirmedAt := s.challenges[k].confirmedAt)
          && (s.challenges[k].claim.Some? <==> k in s.claims)
          && (k in s.claims ==> s.challenges[k].claim == Some(s.claims[k])))
    && (forall k | k in s.claims :: k in s.issued && s.issued[k].issuedAt <= s.claims[k].at < s.issued[k].expiresAt)
  }

  /** The connection came from this challenge: its user's, claimed by its account, confirmed in time by the session that issued it. */
  ghost predicate CameFrom(s: State, made: Connection, o: Origin) {
    && o.challenge in s.issued && o.challenge in s.claims
    && s.issued[o.challenge].user == made.user && s.issued[o.challenge].session == o.session
    && s.claims[o.challenge].telegram == made.telegram
    && made.linkedAt == o.at && s.claims[o.challenge].at <= o.at < s.issued[o.challenge].expiresAt
  }

  ghost predicate OriginsOk(s: State) {
    && s.made.Keys == s.origins.Keys
    && (forall c | c in s.origins :: CameFrom(s, s.made[c], s.origins[c]))
    && (forall a, b | a in s.origins && b in s.origins && s.origins[a].challenge == s.origins[b].challenge :: a == b)
    && (forall c | c in s.origins && s.origins[c].challenge in s.challenges :: s.challenges[s.origins[c].challenge].confirmedAt.Some?)
    && (forall c | c in s.connections :: c in s.made && s.connections[c] == s.made[c].(unlinkedAt := s.connections[c].unlinkedAt))
  }

  ghost predicate Inv(s: State) {
    OneLinkEach(s) && ChallengesOk(s) && OriginsOk(s)
  }

  lemma ConfirmKeepsLinks(s: State, id: Id, session: Id, connection: Id, now: Instant)
    requires OneLinkEach(s) && MayConfirm(s, id, session, now)
    ensures OneLinkEach(Confirm(s, id, session, connection, now))
  {
    forall a | a in s.connections && Linked(s.connections[a])
      ensures s.connections[a].user != s.challenges[id].user && s.connections[a].telegram != s.challenges[id].claim.value.telegram
    {
    }
  }

  lemma ConfirmKeepsChallenges(s: State, id: Id, session: Id, connection: Id, now: Instant)
    requires ChallengesOk(s) && MayConfirm(s, id, session, now)
    ensures ChallengesOk(Confirm(s, id, session, connection, now))
  {
  }

  lemma ConfirmedCameFrom(s: State, id: Id, session: Id, now: Instant)
    requires ChallengesOk(s) && MayConfirm(s, id, session, now)
    ensures var c := s.challenges[id]; CameFrom(s, Connection(c.user, c.claim.value.telegram, now, None), Origin(id, session, now))
  {
  }

  /** More history does not undo where a connection came from. */
  lemma CameFromStays(s: State, t: State, made: Connection, o: Origin)
    requires CameFrom(s, made, o) && t.issued == s.issued && t.claims == s.claims
    ensures CameFrom(t, made, o)
  {
  }

  lemma NoEarlierOrigin(s: State, id: Id, session: Id, now: Instant)
    requires OriginsOk(s) && MayConfirm(s, id, session, now)
    ensures forall c | c in s.origins :: s.origins[c].challenge != id
  {
  }

  /** A further origin, of a challenge that had none. */
  lemma OriginsGrow(s: State, t: State, connection: Id, link: Connection, o: Origin)
    requires OriginsOk(s) && connection !in s.origins && CameFrom(s, link, o) && forall c | c in s.origins :: s.origins[c].challenge != o.challenge
    requires t.issued == s.issued && t.claims == s.claims && t.origins == s.origins[connection := o] && t.made == s.made[connection := link]
    ensures forall c | c in t.origins :: c in t.made && CameFrom(t, t.made[c], t.origins[c])
    ensures forall a, b | a in t.origins && b in t.origins && t.origins[a].challenge == t.origins[b].challenge :: a == b
  {
    forall c | c in t.origins ensures CameFrom(t, t.made[c], t.origins[c]) {
      CameFromStays(s, t, t.made[c], t.origins[c]);
    }
  }

  lemma ConfirmKeepsOrigins(s: State, id: Id, session: Id, connection: Id, now: Instant)
    requires ChallengesOk(s) && OriginsOk(s) && MayConfirm(s, id, session, now) && connection !in s.origins
    ensures OriginsOk(Confirm(s, id, session, connection, now))
  {
    var c := s.challenges[id];
    ConfirmedCameFrom(s, id, session, now);
    NoEarlierOrigin(s, id, session, now);
    OriginsGrow(s, Confirm(s, id, session, connection, now), connection, Connection(c.user, c.claim.value.telegram, now, None), Origin(id, session, now));
  }

  lemma ConfirmKeeps(s: State, id: Id, session: Id, connection: Id, now: Instant)
    requires Inv(s) && connection !in s.origins
    ensures Inv(Confirm(s, id, session, connection, now))
  {
    if MayConfirm(s, id, session, now) {
      ConfirmKeepsLinks(s, id, session, connection, now);
      ConfirmKeepsChallenges(s, id, session, connection, now);
      ConfirmKeepsOrigins(s, id, session, connection, now);
    }
  }

  lemma IssueKeeps(s: State, id: Id, token: nat, user: Id, session: Id, issuedAt: Instant, expiresAt: Instant)
    requires Inv(s)
    ensures Inv(Issue(s, id, token, user, session, issuedAt, expiresAt))
  {
    var t := Issue(s, id, token, user, session, issuedAt, expiresAt);
    if MayIssue(s, id, token, user, session, issuedAt, expiresAt) {
      assert id !in s.claims;
      assert ChallengesOk(t);
      forall c | c in t.origins ensures CameFrom(t, t.made[c], t.origins[c]) {
        assert CameFrom(s, s.made[c], s.origins[c]);
      }
    }
  }

  lemma ClaimKeeps(s: State, id: Id, token: nat, telegram: int, now: Instant)
    requires Inv(s)
    ensures Inv(ClaimChallenge(s, id, token, telegram, now))
  {
    var t := ClaimChallenge(s, id, token, telegram, now);
    if t != s {
      assert id !in s.claims;
      assert ChallengesOk(t);
      forall c | c in t.origins ensures CameFrom(t, t.made[c], t.origins[c]) {
        assert CameFrom(s, s.made[c], s.origins[c]);
      }
    }
  }

  /** Steps that make no connection and no claim: they leave the history alone, and rows as they were or gone. */
  lemma OthersKeep(s: State, t: State)
    requires Inv(s) && t.issued == s.issued && t.claims == s.claims && t.origins == s.origins && t.made == s.made
    requires forall k | k in t.challenges :: k in s.challenges && t.challenges[k] == s.challenges[k]
    requires forall c | c in t.connections :: c in s.connections && t.connections[c] == s.connections[c].(unlinkedAt := t.connections[c].unlinkedAt)
    requires forall c | c in t.connections && Linked(t.connections[c]) :: Linked(s.connections[c])
    ensures Inv(t)
  {
    assert OneLinkEach(t);
    assert ChallengesOk(t);
    forall c | c in t.origins ensures CameFrom(t, t.made[c], t.origins[c]) {
      assert CameFrom(s, s.made[c], s.origins[c]);
    }
  }

  lemma SessionStepKeeps(s: State, a: Step)
    requires Inv(s) && (a.NewSession? || a.SetActive? || a.RevokeStep? || a.DeleteSessionsStep? || a.ConverseStep?)
    ensures Inv(Next(s, a))
  {
    OthersKeep(s, Next(s, a));
  }

  lemma ConnectionStepKeeps(s: State, a: Step)
    requires Inv(s) && (a.UnlinkStep? || a.PruneChallengesStep? || a.PruneConnectionsStep? || a.DeleteUserStep?)
    ensures Inv(Next(s, a))
  {
    OthersKeep(s, Next(s, a));
  }

  /** Issue, claim, confirm, unlink, revocation, retention, account deletion and conversing each keep the invariants. */
  lemma StepKeeps(s: State, a: Step)
    requires Inv(s) && Enabled(s, a)
    ensures Inv(Next(s, a))
  {
    match a
    case IssueStep(id, token, user, session, issuedAt, expiresAt) => IssueKeeps(s, id, token, user, session, issuedAt, expiresAt);
    case ClaimStep(id, token, telegram, now) => ClaimKeeps(s, id, token, telegram, now);
    case ConfirmStep(id, session, connection, now) => ConfirmKeeps(s, id, session, connection, now);
    case UnlinkStep(_, _, _) => ConnectionStepKeeps(s, a);
    case PruneChallengesStep(_) => ConnectionStepKeeps(s, a);
    case PruneConnectionsStep(_) => ConnectionStepKeeps(s, a);
    case DeleteUserStep(_) => ConnectionStepKeeps(s, a);
    case _ => SessionStepKeeps(s, a);
  }

  // --- every interleaving ---

  ghost predicate IsRun(states: seq<State>, steps: seq<Step>) {
    && |states| == |steps| + 1 && states[0] == NOTHING
    && forall i | 0 <= i < |steps| :: Enabled(states[i], steps[i]) && states[i + 1] == Next(states[i], steps[i])
  }

  lemma {:induction false} AlwaysInv(states: seq<State>, steps: seq<Step>, n: nat)
    requires IsRun(states, steps) && n <= |steps|
    ensures Inv(states[n])
  {
    if n > 0 {
      AlwaysInv(states, steps, n - 1);
      StepKeeps(states[n - 1], steps[n - 1]);
    }
  }

  /** At any time each user and each Telegram account has at most one linked connection. */
  lemma AtMostOneLink(states: seq<State>, steps: seq<Step>, n: nat, a: Id, b: Id)
    requires IsRun(states, steps) && n <= |steps|
    requires var c := states[n].connections;
             a in c && b in c && Linked(c[a]) && Linked(c[b]) && (c[a].user == c[b].user || c[a].telegram == c[b].telegram)
    ensures a == b
  {
    AlwaysInv(states, steps, n);
  }

  /**
   * Every connection there ever is comes from exactly one challenge: issued for its user, claimed by
   * its Telegram account, and confirmed by the session that issued it, less than five minutes after
   * it was issued. No other connection comes from that challenge.
   */
  lemma EveryLinkHasItsOwnCeremony(states: seq<State>, steps: seq<Step>, n: nat, c: Id)
    requires IsRun(states, steps) && n <= |steps| && c in states[n].connections
    ensures var s := states[n];
            && c in s.origins && c in s.made && s.connections[c] == s.made[c].(unlinkedAt := s.connections[c].unlinkedAt)
            && CameFrom(s, s.made[c], s.origins[c])
            && s.made[c].linkedAt < s.issued[s.origins[c].challenge].issuedAt + CHALLENGE_LIFETIME
            && forall b | b in s.origins && s.origins[b].challenge == s.origins[c].challenge :: b == c
  {
    AlwaysInv(states, steps, n);
    assert CameFrom(states[n], states[n].made[c], states[n].origins[c]);
  }

  /** A connection appears by a confirmation only, at a moment when the session is the caller's own, valid and unrevoked. */
  lemma LinksAppearByConfirmation(s: State, a: Step, c: Id)
    requires Inv(s) && Enabled(s, a) && c !in s.connections && c in Next(s, a).connections
    ensures a.ConfirmStep? && a.connection == c && MayConfirm(s, a.id, a.session, a.now)
    ensures SessionIsValid(s, a.session, Next(s, a).connections[c].user, a.now)
    ensures Next(s, a).origins[c] == Origin(a.id, a.session, a.now)
  {
  }

  lemma UnlinkingEndsTheLink(s: State, c: Id, user: Id, now: Instant)
    requires OneLinkEach(s) && MayUnlink(s, c, user, now)
    ensures !UserIsLinked(Unlink(s, c, user, now), user) && user !in Unlink(s, c, user, now).conversations
  {
  }

  lemma DeletionEndsTheLink(s: State, user: Id)
    ensures !UserIsLinked(DeleteUser(s, user), user) && user !in DeleteUser(s, user).conversations
  {
  }

  lemma OthersEndNoLink(s: State, a: Step, c: Id)
    requires c in s.connections && Linked(s.connections[c]) && !a.UnlinkStep? && !a.DeleteUserStep?
    requires a.ConfirmStep? ==> a.connection != c
    ensures c in Next(s, a).connections && Linked(Next(s, a).connections[c])
  {
  }

  lemma UnlinkingWasIt(s: State, t: State, a: Step, c: Id)
    requires a.UnlinkStep? && t == Unlink(s, a.connection, a.user, a.now) && c in s.connections && Linked(s.connections[c])
    requires !(c in t.connections && Linked(t.connections[c]))
    ensures a.connection == c && MayUnlink(s, c, a.user, a.now)
  {
  }

  /** Only the user's own unlinking and account deletion end a link, and they leave nothing of it to the bot. */
  lemma LinksEndByUnlinkOrDeletion(s: State, a: Step, c: Id)
    requires Inv(s) && Enabled(s, a) && c in s.connections && Linked(s.connections[c])
    requires !(c in Next(s, a).connections && Linked(Next(s, a).connections[c]))
    ensures var user := s.connections[c].user;
            && ((a.UnlinkStep? && a.connection == c && a.user == user) || a == DeleteUserStep(user))
            && user !in Next(s, a).conversations && !UserIsLinked(Next(s, a), user)
  {
    if a.UnlinkStep? {
      UnlinkingWasIt(s, Next(s, a), a, c);
      UnlinkingEndsTheLink(s, c, a.user, a.now);
    } else if a.DeleteUserStep? {
      DeletionEndsTheLink(s, a.user);
    } else {
      OthersEndNoLink(s, a, c);
    }
  }

  /** A confirmed challenge makes no second connection, and a claimed one is never claimed again. */
  lemma ChallengesServeOnce(s: State, a: Step, k: Id)
    requires Inv(s) && Enabled(s, a)
    ensures k in s.claims ==> k in Next(s, a).claims && Next(s, a).claims[k] == s.claims[k]
    ensures k in s.challenges && s.challenges[k].confirmedAt.Some? && k in Next(s, a).challenges ==> Next(s, a).challenges[k] == s.challenges[k]
  {
    if k in s.claims {
      ClaimsStay(s, a, k);
    }
    if k in s.challenges && s.challenges[k].confirmedAt.Some? {
      ConfirmedStays(s, a, k);
    }
  }

  lemma ConfirmedStays(s: State, a: Step, k: Id)
    requires ChallengesOk(s) && k in s.challenges && s.challenges[k].confirmedAt.Some?
    ensures k in Next(s, a).challenges ==> Next(s, a).challenges[k] == s.challenges[k]
  {
  }

  lemma ClaimsStay(s: State, a: Step, k: Id)
    requires ChallengesOk(s) && k in s.claims
    ensures k in Next(s, a).claims && Next(s, a).claims[k] == s.claims[k]
  {
  }

  // --- the repository ---

  /** The tables, with what has ever been issued, claimed and made. */
  class LinkRepository {
    var active: set<Id>
    var sessions: map<Id, Session>
    var challenges: map<Id, Challenge>
    var connections: map<Id, Connection>
    var conversations: set<Id>
    ghost var issued: map<Id, Challenge>
    ghost var claims: map<Id, Claim>
    ghost var origins: map<Id, Origin>
    ghost var made: map<Id, Connection>

    ghost function Rows(): State
      reads this
    {
      State(active, sessions, challenges, connections, conversations, issued, claims, origins, made)
    }

    /** Insert a challenge; false when a constraint refuses it. */
    method CreateChallenge(id: Id, token: nat, user: Id, session: Id, issuedAt: Instant, expiresAt: Instant) returns (ok: bool)
      requires Inv(Rows()) && id !in issued
      modifies this
      ensures ok == MayIssue(old(Rows()), id, token, user, session, issuedAt, expiresAt)
      ensures Rows() == Issue(old(Rows()), id, token, user, session, issuedAt, expiresAt)
    {
      ok := !(exists k :: k in challenges && challenges[k].token == token)
            && session in sessions && sessions[session].user == user && issuedAt < expiresAt <= issuedAt + CHALLENGE_LIFETIME;
      if ok {
        var challenge := Challenge(token, user, session, issuedAt, expiresAt, None, None);
        challenges := challenges[id := challenge];
        issued := issued[id := challenge];
      }
    }

    /** One conditional update: claim the challenge with this token, if it is open and the account free. */
    method ClaimByToken(token: nat, telegram: int, now: Instant) returns (claimed: Option<Id>)
      modifies this
      ensures claimed.Some? ==> claimed.value in old(challenges) && Rows() == ClaimChallenge(old(Rows()), claimed.value, token, telegram, now)
                                && Rows() != old(Rows())
      ensures claimed.None? ==> Rows() == old(Rows()) && forall id :: ClaimChallenge(Rows(), id, token, telegram, now) == Rows()
    {
      var alreadyConnected := exists c :: c in connections && connections[c].telegram == telegram && Linked(connections[c]);
      var open := set k | k in challenges && challenges[k].token == token && challenges[k].claim.None? && challenges[k].confirmedAt.None?
                          && challenges[k].expiresAt > now && challenges[k].user in active && now >= challenges[k].issuedAt && !alreadyConnected;
      if open == {} {
        assert forall k | k in challenges && challenges[k].token == token :: MayClaim(Rows(), challenges[k], telegram, now) ==> k in open;
        return None;
      }
      var id :| id in open;
      challenges := challenges[id := challenges[id].(claim := Some(Claim(telegram, now)))];
      claims := claims[id := Claim(telegram, now)];
      return Some(id);
    }

    /** Lock the challenge, check the session, insert the connection, then mark the challenge; a conflict undoes both. */
    method ConfirmChallenge(id: Id, session: Id, connection: Id, now: Instant) returns (link: Option<Connection>)
      requires Inv(Rows()) && connection !in origins && connection !in connections
      modifies this
      ensures Rows() == Confirm(old(Rows()), id, session, connection, now)
      ensures link.Some? <==> MayConfirm(old(Rows()), id, session, now)
      ensures link.Some? ==> connection in connections && connections[connection] == link.value
    {
      if id !in challenges {
        return None;
      }
      var challenge := challenges[id];
      if challenge.session != session || challenge.claim.None? || challenge.confirmedAt.Some? || challenge.expiresAt <= now {
        return None;
      }
      if !SessionIsValid(StoredRows(), session, challenge.user, now) {
        return None;
      }
      var before := connections;
      var inserted := Connection(challenge.user, challenge.claim.value.telegram, now, None);
      var unique := InsertConnection(connection, inserted);
      if !unique {
        return None;
      }
      if now < challenge.claim.value.at {
        connections := before;
        return None;
      }
      challenges := challenges[id := challenge.(confirmedAt := Some(now))];
      origins := origins[connection := Origin(id, session, now)];
      made := made[connection := inserted];
      return Some(inserted);
    }

    /** Insert a linked connection, unless one of the two unique indexes refuses it. */
    method InsertConnection(connection: Id, inserted: Connection) returns (unique: bool)
      modifies `connections
      ensures unique <==> !UserIsLinked(old(Rows()), inserted.user) && !TelegramIsLinked(old(Rows()), inserted.telegram)
      ensures connections == if unique then old(connections)[connection := inserted] else old(connections)
    {
      unique := !(exists c :: c in connections && Linked(connections[c])
                              && (connections[c].user == inserted.user || connections[c].telegram == inserted.telegram));
      if unique {
        connections := connections[connection := inserted];
      }
    }

    /** The stored tables alone. */
    function StoredRows(): State
      reads this
    {
      State(active, sessions, challenges, connections, conversations, map[], map[], map[], map[])
    }

    /** Unlink the user's connection and forget the conversation, if there is one; a time before it was linked fails its check and changes nothing. */
    method UnlinkUser(user: Id, now: Instant) returns (unlinked: Option<Id>, failed: bool)
      requires Inv(Rows())
      modifies this
      ensures unlinked.Some? ==> Rows() == Unlink(old(Rows()), unlinked.value, user, now) && MayUnlink(old(Rows()), unlinked.value, user, now)
      ensures unlinked.None? ==> Rows() == old(Rows())
      ensures failed <==> exists c :: c in old(connections) && old(connections)[c].user == user && Linked(old(connections)[c]) && now < old(connections)[c].linkedAt
      ensures failed || !UserIsLinked(Rows(), user)
    {
      var linked := set c | c in connections && connections[c].user == user && Linked(connections[c]);
      if linked == {} {
        assert forall c | c in connections && connections[c].user == user && Linked(connections[c]) :: c in linked;
        return None, false;
      }
      var c :| c in linked;
      ghost var s := Rows();
      assert OneLinkEach(s);
      if now < connections[c].linkedAt {
        return None, true;
      }
      connections := connections[c := connections[c].(unlinkedAt := Some(now))];
      conversations := conversations - {user};
      return Some(c), false;
    }
  }
}

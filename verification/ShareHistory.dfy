/** Every run of invitations, redemptions and revocations: what the tables say is what happened. */
module ShareHistory {
  import opened Basics
  import opened ShareAuth

  ghost function DbAt(ops: seq<Op>, n: nat): Db
    requires n <= |ops|
  {
    if n == 0 then EMPTY else Step(DbAt(ops, n - 1), ops[n - 1]).db
  }

  ghost predicate Succeeds(ops: seq<Op>, i: nat)
    requires i < |ops|
  {
    Step(DbAt(ops, i), ops[i]).ok
  }

  /** Link tokens are new, and so are session tokens. */
  ghost predicate FreshTokens(ops: seq<Op>)
  {
    && (forall i, j :: 0 <= i < j < |ops| && ops[i].Invite? && ops[j].Invite? ==> ops[i].token != ops[j].token)
    && forall i, j :: 0 <= i < j < |ops| && ops[i].Redeem? && ops[j].Redeem? ==> ops[i].session != ops[j].session
  }

  /** The `i`-th operation issues a link to grant `g`. */
  ghost predicate Issues(ops: seq<Op>, i: nat, g: nat)
    requires i < |ops|
  {
    && ops[i].Invite? && Succeeds(ops, i)
    && FindGrant(DbAt(ops, i).grants, ops[i].email, ops[i].resource) == g
  }

  /** The `i`-th operation opens a session of grant `g`. */
  ghost predicate Opens(ops: seq<Op>, i: nat, g: nat)
    requires i < |ops|
  {
    && ops[i].Redeem? && Succeeds(ops, i)
    && ops[i].token in DbAt(ops, i).links && DbAt(ops, i).links[ops[i].token].grant == g
  }

  ghost predicate Revokes(ops: seq<Op>, i: nat, g: nat)
    requires i < |ops|
  {
    ops[i].Revoke? && ops[i].grant == g
  }

  ghost predicate RevokedBetween(ops: seq<Op>, i: nat, n: nat, g: nat)
    requires n <= |ops|
  {
    exists j :: i < j < n && Revokes(ops, j, g)
  }

  // One step.

  /** Grants are never removed, and only an invitation or a revocation changes whether one is in force. */
  lemma GrantStep(db: Db, op: Op, g: nat)
    ensures var after := Step(db, op).db.grants;
            && |db.grants| <= |after|
            && (g < |db.grants| ==>
                  && after[g].email == db.grants[g].email && after[g].resource == db.grants[g].resource
                  && (op.Revoke? && op.grant == g ==> after[g].revokedAt.Some?)
                  && (op.Invite? && Step(db, op).ok && FindGrant(db.grants, op.email, op.resource) == g ==> after[g].revokedAt.None?)
                  && (!(op.Revoke? && op.grant == g) && !(op.Invite? && Step(db, op).ok && FindGrant(db.grants, op.email, op.resource) == g)
                      ==> after[g] == db.grants[g]))
            && (op.Invite? && Step(db, op).ok ==>
                  var h := FindGrant(db.grants, op.email, op.resource);
                  h < |after| && after[h].revokedAt.None? && after[h].resource == op.resource && after[h].email == op.email)
  {
    if op.Invite? {
      GrantedFinds(db.grants, op.email, op.resource, op.now);
    }
  }

  /** Where a link in the tables comes from. */
  lemma LinkOrigin(db: Db, op: Op, t: Token)
    requires t in Step(db, op).db.links
    ensures var link := Step(db, op).db.links[t];
            || (op.Invite? && Step(db, op).ok && op.token == t
                && link == Link(FindGrant(db.grants, op.email, op.resource), op.now + LINK_TTL, None))
            || (t in db.links && op.Redeem? && Step(db, op).ok && op.token == t && link == db.links[t].(redeemedAt := Some(op.now)))
            || (t in db.links && link == db.links[t] && !(op.Redeem? && Step(db, op).ok && op.token == t)
                && (link.redeemedAt.None? && op.Invite? && Step(db, op).ok ==>
                      FindGrant(db.grants, op.email, op.resource) != link.grant))
  {
  }

  // Links.

  /** The link issued by the `i`-th operation has not been replaced or redeemed before the `n`-th. */
  ghost predicate Pending(ops: seq<Op>, n: nat, t: Token, i: nat, g: nat)
    requires n <= |ops|
  {
    && i < n && Issues(ops, i, g) && ops[i].token == t
    && forall j :: i < j < n ==> !Issues(ops, j, g) && !(ops[j].Redeem? && ops[j].token == t && Succeeds(ops, j))
  }

  lemma {:induction false} PendingStays(ops: seq<Op>, n: nat, t: Token, i: nat, g: nat)
    requires FreshTokens(ops) && n <= |ops| && Pending(ops, n, t, i, g)
    ensures t in DbAt(ops, n).links && DbAt(ops, n).links[t] == Link(g, ops[i].now + LINK_TTL, None)
    decreases n
  {
    if i < n - 1 {
      PendingStays(ops, n - 1, t, i, g);
    }
  }

  lemma IssuesIs(ops: seq<Op>, n: nat, g: nat)
    requires n < |ops|
    ensures Issues(ops, n, g) <==>
            && ops[n].Invite? && Step(DbAt(ops, n), ops[n]).ok
            && FindGrant(DbAt(ops, n).grants, ops[n].email, ops[n].resource) == g
  {
  }

  lemma JustIssued(ops: seq<Op>, i: nat, t: Token, g: nat)
    requires i < |ops| && Issues(ops, i, g) && ops[i].token == t
    ensures Pending(ops, i + 1, t, i, g)
  {
  }

  lemma PendingLater(ops: seq<Op>, n: nat, t: Token, i: nat, g: nat)
    requires n < |ops| && Pending(ops, n, t, i, g) && !Issues(ops, n, g)
    requires !(ops[n].Redeem? && ops[n].token == t && Succeeds(ops, n))
    ensures Pending(ops, n + 1, t, i, g)
  {
    hide Issues, Succeeds;
  }

  lemma {:induction false} PendingIssued(ops: seq<Op>, n: nat, t: Token) returns (i: nat)
    requires n <= |ops| && t in DbAt(ops, n).links && DbAt(ops, n).links[t].redeemedAt.None?
    ensures i < n && Pending(ops, n, t, i, DbAt(ops, n).links[t].grant) && DbAt(ops, n).links[t].expiresAt == ops[i].now + LINK_TTL
    decreases n
  {
    assert n > 0;
    hide DbAt, Step, FindGrant, Pending;
    NextDb(ops, n - 1);
    var g := DbAt(ops, n).links[t].grant;
    var db, op := DbAt(ops, n - 1), ops[n - 1];
    LinkOrigin(db, op, t);
    IssuesIs(ops, n - 1, g);
    if op.Invite? && Step(db, op).ok && op.token == t {
      i := n - 1;
      JustIssued(ops, i, t, g);
    } else {
      i := PendingIssued(ops, n - 1, t);
      PendingLater(ops, n - 1, t, i, g);
    }
  }

  lemma NextDb(ops: seq<Op>, n: nat)
    requires n < |ops|
    ensures DbAt(ops, n + 1) == Step(DbAt(ops, n), ops[n]).db
  {
    hide Step;
  }

  lemma {:induction false} GrantRemains(ops: seq<Op>, m: nat, n: nat, g: nat)
    requires m <= n <= |ops| && g < |DbAt(ops, m).grants|
    ensures g < |DbAt(ops, n).grants|
    ensures DbAt(ops, n).grants[g].resource == DbAt(ops, m).grants[g].resource
    decreases n
  {
    hide Step, DbAt;
    if m < n {
      GrantRemains(ops, m, n - 1, g);
      NextDb(ops, n - 1);
      GrantStep(DbAt(ops, n - 1), ops[n - 1], g);
    }
  }

  /** A grant in force stays so until it is revoked. */
  lemma {:induction false} InForceStays(ops: seq<Op>, m: nat, n: nat, g: nat)
    requires m <= n <= |ops| && g < |DbAt(ops, m).grants| && DbAt(ops, m).grants[g].revokedAt.None?
    requires forall j :: m <= j < n ==> !Revokes(ops, j, g)
    ensures g < |DbAt(ops, n).grants| && DbAt(ops, n).grants[g].revokedAt.None?
    decreases n
  {
    hide Step, DbAt;
    if m < n {
      InForceStays(ops, m, n - 1, g);
      NextDb(ops, n - 1);
      GrantStep(DbAt(ops, n - 1), ops[n - 1], g);
      assert !Revokes(ops, n - 1, g);
    }
  }

  /** A revoked grant stays revoked until it is renewed. */
  lemma {:induction false} RevokedStays(ops: seq<Op>, m: nat, n: nat, g: nat)
    requires m <= n <= |ops| && g < |DbAt(ops, m).grants| && DbAt(ops, m).grants[g].revokedAt.Some?
    requires forall j :: m <= j < n ==> !Issues(ops, j, g)
    ensures g < |DbAt(ops, n).grants| && DbAt(ops, n).grants[g].revokedAt.Some?
    decreases n
  {
    hide Step, DbAt;
    if m < n {
      RevokedStays(ops, m, n - 1, g);
      NextDb(ops, n - 1);
      GrantStep(DbAt(ops, n - 1), ops[n - 1], g);
      assert !Issues(ops, n - 1, g);
    }
  }

  /** Once revoked and not renewed since, a grant is not in force. */
  lemma RevokedIsNotInForce(ops: seq<Op>, j: nat, n: nat, g: nat)
    requires j < n <= |ops| && g < |DbAt(ops, j).grants| && Revokes(ops, j, g)
    requires forall m :: j < m < n ==> !Issues(ops, m, g)
    ensures g < |DbAt(ops, n).grants| && DbAt(ops, n).grants[g].revokedAt.Some?
  {
    hide Step, DbAt;
    NextDb(ops, j);
    GrantStep(DbAt(ops, j), ops[j], g);
    RevokedStays(ops, j + 1, n, g);
  }

  /** The grant an invitation names is in force afterwards. */
  lemma IssuedIsInForce(ops: seq<Op>, i: nat, g: nat)
    requires i < |ops| && Issues(ops, i, g)
    ensures g < |DbAt(ops, i + 1).grants| && DbAt(ops, i + 1).grants[g].revokedAt.None?
    ensures DbAt(ops, i + 1).grants[g].resource == ops[i].resource && DbAt(ops, i + 1).grants[g].email == ops[i].email
  {
    hide Step, DbAt;
    NextDb(ops, i);
    GrantStep(DbAt(ops, i), ops[i], g);
  }

  lemma OpensIff(ops: seq<Op>, n: nat, g: nat)
    requires n < |ops| && ops[n].Redeem?
    ensures Opens(ops, n, g) <==>
              var db, t := DbAt(ops, n), ops[n].token;
              ops[n].session !in db.sessions && Redeemable(db, t, ops[n].now) && db.links[t].grant == g
  {
  }

  /** Whether the grant of a pending link is in force: whether it has not been revoked since the link was issued. */
  lemma PendingInForce(ops: seq<Op>, n: nat, t: Token, i: nat, g: nat)
    requires n <= |ops| && Pending(ops, n, t, i, g)
    ensures g < |DbAt(ops, n).grants| && (DbAt(ops, n).grants[g].revokedAt.None? <==> !RevokedBetween(ops, i, n, g))
  {
    hide DbAt, Issues;
    IssuedIsInForce(ops, i, g);
    GrantRemains(ops, i + 1, n, g);
    if RevokedBetween(ops, i, n, g) {
      var j :| i < j < n && Revokes(ops, j, g);
      GrantRemains(ops, i + 1, j, g);
      RevokedIsNotInForce(ops, j, n, g);
    } else {
      InForceStays(ops, i + 1, n, g);
    }
  }

  /** A link opens a session exactly when it is its grant's latest, unused and in time, and the grant has not been
      revoked since it was issued. */
  lemma RedeemsIff(ops: seq<Op>, n: nat, g: nat)
    requires FreshTokens(ops) && n < |ops| && ops[n].Redeem?
    ensures Opens(ops, n, g) <==>
              && ops[n].session !in DbAt(ops, n).sessions
              && exists i: nat :: i < n && Pending(ops, n, ops[n].token, i, g) && ops[n].now <= ops[i].now + LINK_TTL && !RevokedBetween(ops, i, n, g)
  {
    hide DbAt, Opens, Pending, RevokedBetween, FreshTokens;
    var t := ops[n].token;
    OpensIff(ops, n, g);
    if Opens(ops, n, g) {
      var i := PendingIssued(ops, n, t);
      PendingInForce(ops, n, t, i, g);
    }
    if i: nat :| i < n && Pending(ops, n, t, i, g) && ops[n].now <= ops[i].now + LINK_TTL && !RevokedBetween(ops, i, n, g) {
      PendingStays(ops, n, t, i, g);
      PendingInForce(ops, n, t, i, g);
    }
  }

  /** A link is redeemed once. */
  lemma RedeemedOnce(ops: seq<Op>, i: nat, j: nat)
    requires FreshTokens(ops) && i < j < |ops|
    requires ops[i].Redeem? && ops[j].Redeem? && Succeeds(ops, i) && Succeeds(ops, j)
    ensures ops[i].token != ops[j].token
  {
    if ops[i].token == ops[j].token {
      var t := ops[i].token;
      var issued := PendingIssued(ops, j, t);
      var earlier := PendingIssued(ops, i, t);
    }
  }

  // Sessions.

  /** A session records its opening, and is revoked exactly when its grant has been since. */
  lemma RevokedLater(ops: seq<Op>, i: nat, n: nat, g: nat)
    requires i < n < |ops|
    ensures RevokedBetween(ops, i, n + 1, g) <==> RevokedBetween(ops, i, n, g) || Revokes(ops, n, g)
  {
    hide Revokes;
  }

  lemma RevokesIs(ops: seq<Op>, n: nat, g: nat)
    requires n < |ops|
    ensures Revokes(ops, n, g) <==> ops[n].Revoke? && ops[n].grant == g
  {
  }

  /** One transaction keeps a session; only revoking its grant marks it. */
  lemma SessionKept(db: Db, op: Op, s: Token, g: nat)
    requires s in db.sessions && db.sessions[s].grant == g
    ensures var after := Step(db, op).db;
            && s in after.sessions && after.sessions[s].grant == g && after.sessions[s].expiresAt == db.sessions[s].expiresAt
            && (after.sessions[s].revokedAt.Some? <==>
                db.sessions[s].revokedAt.Some? || (op.Revoke? && op.grant == g))
  {
    hide Granted, Superseded, FindGrant, ValidResource;
  }

  lemma {:induction false} SessionStays(ops: seq<Op>, i: nat, n: nat, g: nat)
    requires i < n <= |ops| && Opens(ops, i, g)
    ensures var s := ops[i].session;
            && s in DbAt(ops, n).sessions
            && DbAt(ops, n).sessions[s].grant == g && DbAt(ops, n).sessions[s].expiresAt == ops[i].now + SESSION_TTL
            && (DbAt(ops, n).sessions[s].revokedAt.Some? <==> RevokedBetween(ops, i, n, g))
    decreases n
  {
    if i < n - 1 {
      hide DbAt, Opens, RevokedBetween, Revokes;
      NextDb(ops, n - 1);
      SessionStays(ops, i, n - 1, g);
      RevokedLater(ops, i, n - 1, g);
      SessionKept(DbAt(ops, n - 1), ops[n - 1], ops[i].session, g);
      assert ops[n - 1].Revoke? && ops[n - 1].grant == g <==> Revokes(ops, n - 1, g) by {
        RevokesIs(ops, n - 1, g);
      }
    }
  }

  lemma {:induction false} SessionOpened(ops: seq<Op>, n: nat, s: Token) returns (i: nat)
    requires n <= |ops| && s in DbAt(ops, n).sessions
    ensures i < n && ops[i].Redeem? && ops[i].session == s && Opens(ops, i, DbAt(ops, n).sessions[s].grant)
    decreases n
  {
    if s in DbAt(ops, n - 1).sessions {
      i := SessionOpened(ops, n - 1, s);
    } else {
      i := n - 1;
    }
  }

  /** The grant of an opened session, not revoked since, is in force. */
  lemma OpenStaysInForce(ops: seq<Op>, i: nat, g: nat)
    requires i < |ops| && Opens(ops, i, g) && !RevokedBetween(ops, i, |ops|, g)
    ensures g < |DbAt(ops, |ops|).grants| && DbAt(ops, |ops|).grants[g].revokedAt.None?
    ensures g < |DbAt(ops, i).grants| && DbAt(ops, |ops|).grants[g].resource == DbAt(ops, i).grants[g].resource
    ensures ops[i].session in DbAt(ops, |ops|).sessions
    ensures var row := DbAt(ops, |ops|).sessions[ops[i].session];
            row.grant == g && row.expiresAt == ops[i].now + SESSION_TTL && row.revokedAt.None?
  {
    OpensIff(ops, i, g);
    hide DbAt, Opens, RevokedBetween;
    SessionStays(ops, i, |ops|, g);
    GrantRemains(ops, i, |ops|, g);
    InForceStays(ops, i, |ops|, g);
  }

  /** A session opens a resource exactly when a redemption for it opened the session within the time allowed, and its
      grant has not been revoked since, whatever invitations came later. */
  lemma AuthorizedIff(ops: seq<Op>, s: Token, now: nat, r: string)
    requires FreshTokens(ops)
    ensures SessionResource(DbAt(ops, |ops|), s, now) == Some(r) <==>
              exists i: nat, g: nat ::
                && i < |ops| && Opens(ops, i, g) && ops[i].session == s && now <= ops[i].now + SESSION_TTL
                && !RevokedBetween(ops, i, |ops|, g)
                && g < |DbAt(ops, i).grants| && DbAt(ops, i).grants[g].resource == r
  {
    hide DbAt, RevokedBetween, FreshTokens, Succeeds;
    var n := |ops|;
    if SessionResource(DbAt(ops, n), s, now) == Some(r) {
      var i := SessionOpened(ops, n, s);
      var g := DbAt(ops, n).sessions[s].grant;
      SessionStays(ops, i, n, g);
      OpenStaysInForce(ops, i, g);
    }
    if i: nat, g: nat :|
      && i < |ops| && Opens(ops, i, g) && ops[i].session == s && now <= ops[i].now + SESSION_TTL
      && !RevokedBetween(ops, i, |ops|, g) && g < |DbAt(ops, i).grants| && DbAt(ops, i).grants[g].resource == r
    {
      OpenStaysInForce(ops, i, g);
    }
  }

  // Counts.

  ghost predicate OnePending(db: Db)
  {
    forall t, u :: (t in db.links && u in db.links && db.links[t].grant == db.links[u].grant
                    && db.links[t].redeemedAt.None? && db.links[u].redeemedAt.None?) ==> t == u
  }

  function RedeemedLinks(db: Db, g: nat): set<Token>
  {
    set t | t in db.links && db.links[t].grant == g && db.links[t].redeemedAt.Some?
  }

  function SessionsOf(db: Db, g: nat): set<Token>
  {
    set s | s in db.sessions && db.sessions[s].grant == g
  }

  /** A grant has one unredeemed link at most, and as many sessions as redeemed links. */
  lemma {:induction false} LinksMatchSessions(ops: seq<Op>, n: nat, g: nat)
    requires n <= |ops|
    ensures OnePending(DbAt(ops, n))
    ensures |RedeemedLinks(DbAt(ops, n), g)| == |SessionsOf(DbAt(ops, n), g)|
  {
    if n > 0 {
      LinksMatchSessions(ops, n - 1, g);
      CountStep(DbAt(ops, n - 1), ops[n - 1], g);
    }
  }

  lemma CountStep(db: Db, op: Op, g: nat)
    requires OnePending(db) && |RedeemedLinks(db, g)| == |SessionsOf(db, g)|
    ensures OnePending(Step(db, op).db)
    ensures |RedeemedLinks(Step(db, op).db, g)| == |SessionsOf(Step(db, op).db, g)|
  {
    hide OnePending, Step, RedeemedLinks, SessionsOf;
    OnePendingStep(db, op);
    LinksStep(db, op, g);
    SessionsStep(db, op, g);
  }

  /** The step opens a session of `g`. */
  ghost predicate RedeemedNow(db: Db, op: Op, g: nat)
  {
    op.Redeem? && Step(db, op).ok && op.token in db.links && db.links[op.token].grant == g
  }

  lemma LinkMember(db: Db, op: Op, g: nat, t: Token)
    ensures t in RedeemedLinks(Step(db, op).db, g) <==> t in RedeemedLinks(db, g) || (RedeemedNow(db, op, g) && t == op.token)
    ensures RedeemedNow(db, op, g) ==> op.token !in RedeemedLinks(db, g)
  {
  }

  lemma LinksStep(db: Db, op: Op, g: nat)
    ensures |RedeemedLinks(Step(db, op).db, g)| == |RedeemedLinks(db, g)| + if RedeemedNow(db, op, g) then 1 else 0
  {
    hide Step, RedeemedLinks;
    var before, after := RedeemedLinks(db, g), RedeemedLinks(Step(db, op).db, g);
    forall t ensures t in after <==> t in before || (RedeemedNow(db, op, g) && t == op.token) {
      LinkMember(db, op, g, t);
    }
    if RedeemedNow(db, op, g) {
      LinkMember(db, op, g, op.token);
      assert after == before + {op.token};
    } else {
      assert after == before;
    }
  }

  lemma SessionMember(db: Db, op: Op, g: nat, s: Token)
    ensures s in SessionsOf(Step(db, op).db, g) <==> s in SessionsOf(db, g) || (RedeemedNow(db, op, g) && s == op.session)
    ensures RedeemedNow(db, op, g) ==> op.session !in SessionsOf(db, g)
  {
  }

  lemma SessionsStep(db: Db, op: Op, g: nat)
    ensures |SessionsOf(Step(db, op).db, g)| == |SessionsOf(db, g)| + if RedeemedNow(db, op, g) then 1 else 0
  {
    hide Step, SessionsOf;
    var before, after := SessionsOf(db, g), SessionsOf(Step(db, op).db, g);
    forall s ensures s in after <==> s in before || (RedeemedNow(db, op, g) && s == op.session) {
      SessionMember(db, op, g, s);
    }
    if RedeemedNow(db, op, g) {
      SessionMember(db, op, g, op.session);
      assert after == before + {op.session};
    } else {
      assert after == before;
    }
  }

  lemma OnePendingStep(db: Db, op: Op)
    requires OnePending(db)
    ensures OnePending(Step(db, op).db)
  {
  }

  // What the store answers.

  /** A link in the tables was asked for by some invitation. */
  lemma {:induction false} LinkWasInvited(ops: seq<Op>, n: nat, t: Token)
    requires n <= |ops| && t in DbAt(ops, n).links
    ensures exists i :: 0 <= i < n && ops[i].Invite? && ops[i].token == t
  {
    if n > 0 {
      LinkOrigin(DbAt(ops, n - 1), ops[n - 1], t);
      if t in DbAt(ops, n - 1).links {
        LinkWasInvited(ops, n - 1, t);
      }
    }
  }

  /** An invitation is accepted exactly when it names an address and a valid resource. */
  lemma InvitesIff(ops: seq<Op>, n: nat)
    requires FreshTokens(ops) && n < |ops| && ops[n].Invite?
    ensures Succeeds(ops, n) <==> '@' in ops[n].email && ValidResource(ops[n].resource)
  {
    var t := ops[n].token;
    if t in DbAt(ops, n).links {
      LinkWasInvited(ops, n, t);
    }
    hide DbAt, ValidResource, FindGrant;
  }

  /** No two grants are for one address and one resource. */
  ghost predicate OneGrantEach(grants: seq<Grant>)
  {
    forall g, h :: 0 <= g < h < |grants| ==> grants[g].email != grants[h].email || grants[g].resource != grants[h].resource
  }

  lemma GrantedApart(grants: seq<Grant>, email: string, resource: string, now: nat)
    requires OneGrantEach(grants)
    ensures OneGrantEach(Granted(grants, email, resource, now))
  {
  }

  lemma StepKeepsApart(db: Db, op: Op)
    requires OneGrantEach(db.grants)
    ensures OneGrantEach(Step(db, op).db.grants)
  {
    match op
    case Invite(email, resource, _, now) =>
      hide OneGrantEach, Granted, Superseded, Invitable;
      GrantedApart(db.grants, email, resource, now);
    case _ =>
  }

  lemma {:induction false} GrantsAreApart(ops: seq<Op>, n: nat)
    requires n <= |ops|
    ensures OneGrantEach(DbAt(ops, n).grants)
  {
    if n > 0 {
      hide OneGrantEach, Step;
      GrantsAreApart(ops, n - 1);
      StepKeepsApart(DbAt(ops, n - 1), ops[n - 1]);
    } else {
      assert DbAt(ops, 0).grants == [];
    }
  }

  lemma {:induction false} EmailRemains(ops: seq<Op>, m: nat, n: nat, g: nat)
    requires m <= n <= |ops| && g < |DbAt(ops, m).grants|
    ensures g < |DbAt(ops, n).grants| && DbAt(ops, n).grants[g].email == DbAt(ops, m).grants[g].email
    decreases n
  {
    hide Step, DbAt;
    if m < n {
      EmailRemains(ops, m, n - 1, g);
      NextDb(ops, n - 1);
      GrantStep(DbAt(ops, n - 1), ops[n - 1], g);
    }
  }

  /** Two invitations are to one grant exactly when they name the same address and resource. */
  lemma SameGrantIff(ops: seq<Op>, i: nat, j: nat, g: nat, h: nat)
    requires i < j < |ops| && Issues(ops, i, g) && Issues(ops, j, h)
    ensures g == h <==> ops[i].email == ops[j].email && ops[i].resource == ops[j].resource
  {
    hide DbAt, Issues;
    IssuedIsInForce(ops, i, g);
    IssuedIsInForce(ops, j, h);
    GrantRemains(ops, i + 1, j + 1, g);
    EmailRemains(ops, i + 1, j + 1, g);
    GrantsAreApart(ops, j + 1);
  }

  /** The grant was issued and has not been revoked since. */
  ghost predicate InForce(ops: seq<Op>, n: nat, g: nat)
    requires n <= |ops|
  {
    exists i: nat :: i < n && Issues(ops, i, g) && !RevokedBetween(ops, i, n, g)
  }

  lemma {:induction false} WasIssued(ops: seq<Op>, n: nat, g: nat)
    requires n <= |ops| && g < |DbAt(ops, n).grants| && DbAt(ops, n).grants[g].revokedAt.None?
    ensures InForce(ops, n, g)
  {
    if n > 0 {
      hide Issues, Revokes;
      var db, op := DbAt(ops, n - 1), ops[n - 1];
      IssuesIs(ops, n - 1, g);
      if Issues(ops, n - 1, g) {
        assert !RevokedBetween(ops, n - 1, n, g);
      } else if g >= |db.grants| {
        NewGrant(db, op, g);
      } else {
        GrantStep(db, op, g);
        WasIssued(ops, n - 1, g);
        var i: nat :| i < n - 1 && Issues(ops, i, g) && !RevokedBetween(ops, i, n - 1, g);
        RevokesIs(ops, n - 1, g);
        RevokedLater(ops, i, n - 1, g);
      }
    }
  }

  lemma NewGrant(db: Db, op: Op, g: nat)
    requires g < |Step(db, op).db.grants| && g >= |db.grants|
    ensures op.Invite? && Step(db, op).ok && FindGrant(db.grants, op.email, op.resource) == g
  {
  }

  /** A revocation is answered as a change exactly when the grant was in force. */
  lemma RevokesIff(ops: seq<Op>, n: nat)
    requires n < |ops| && ops[n].Revoke?
    ensures Succeeds(ops, n) <==> InForce(ops, n, ops[n].grant)
  {
    var g := ops[n].grant;
    hide DbAt, RevokedBetween, Issues;
    if Succeeds(ops, n) {
      WasIssued(ops, n, g);
    }
    if i: nat :| i < n && Issues(ops, i, g) && !RevokedBetween(ops, i, n, g) {
      IssuedStaysInForce(ops, i, n, g);
    }
  }

  lemma IssuedStaysInForce(ops: seq<Op>, i: nat, n: nat, g: nat)
    requires i < n <= |ops| && Issues(ops, i, g) && !RevokedBetween(ops, i, n, g)
    ensures g < |DbAt(ops, n).grants| && DbAt(ops, n).grants[g].revokedAt.None?
  {
    hide DbAt, Issues;
    IssuedIsInForce(ops, i, g);
    InForceStays(ops, i + 1, n, g);
  }
}

/** Private shares: grants to recipients, single-use links to them, and the sessions the links open. */
module ShareAuth {
  import opened Basics

  /** Tokens stand for their digests. */
  type Token = nat

  const LINK_TTL := 900
  const SESSION_TTL := 28800

  datatype Grant = Grant(email: string, resource: string, createdAt: nat, revokedAt: Option<nat>)

  datatype Link = Link(grant: nat, expiresAt: nat, redeemedAt: Option<nat>)

  datatype Session = Session(grant: nat, expiresAt: nat, revokedAt: Option<nat>)

  /** The tables. A grant's id is its place. */
  datatype Db = Db(grants: seq<Grant>, links: map<Token, Link>, sessions: map<Token, Session>)

  const EMPTY := Db([], map[], map[])

  // Resources.

  predicate Alphanumeric(s: string)
  {
    s != [] && forall c :: c in s ==> 'a' <= c <= 'z' || '0' <= c <= '9'
  }

  /** Alphanumeric parts with single hyphens between them. */
  ghost predicate Slug(s: string)
  {
    Alphanumeric(s) || exists i :: 0 < i < |s| && s[i] == '-' && Alphanumeric(s[..i]) && Slug(s[i + 1..])
  }

  const ARTIFACTS := "/artifacts/"

  function ResourceOf(a: string, b: string): string
  {
    ARTIFACTS + a + "/" + b + "/"
  }

  ghost predicate ValidResource(r: string)
  {
    exists a, b :: Slug(a) && Slug(b) && r == ResourceOf(a, b)
  }

  /** A resource covers its own path, with or without the final slash, and everything below it. */
  predicate Covers(r: string, path: string)
  {
    r <= path || (r != [] && path == r[..|r| - 1])
  }

  lemma {:induction false} SlugHasNoSlash(s: string)
    requires Slug(s)
    ensures '/' !in s && s != []
    decreases |s|
  {
    if !Alphanumeric(s) {
      var i :| 0 < i < |s| && s[i] == '-' && Alphanumeric(s[..i]) && Slug(s[i + 1..]);
      SlugHasNoSlash(s[i + 1..]);
      hide Slug;
      assert '/' !in s[..i] by {
        hide Slug;
      }
      hide Alphanumeric;
      forall j | 0 <= j < |s| ensures s[j] != '/' {
        assert j < i ==> s[j] == s[..i][j];
        assert j > i ==> s[j] == s[i + 1..][j - i - 1];
      }
    }
  }

  /** The part of `s` before its first slash. */
  function Head(s: string): string
  {
    if s == [] || s[0] == '/' then [] else [s[0]] + Head(s[1..])
  }

  lemma {:induction false} HeadOfPart(a: string, rest: string)
    requires '/' !in a && (rest == [] || rest[0] == '/')
    ensures Head(a + rest) == a
  {
    if a == [] {
      assert a + rest == rest;
    } else {
      assert (a + rest)[1..] == a[1..] + rest;
      HeadOfPart(a[1..], rest);
    }
  }

  /** What a covered path has after its resource. */
  lemma Below(a: string, b: string, path: string) returns (below: string)
    requires Covers(ResourceOf(a, b), path)
    ensures path == ARTIFACTS + (a + ("/" + b + below)) && (below == [] || below[0] == '/')
  {
    var r := ResourceOf(a, b);
    below := if r <= path then path[|r| - 1..] else [];
    assert r[..|r| - 1] == ARTIFACTS + (a + ("/" + b));
    assert path == r[..|r| - 1] + below;
  }

  lemma CoveredParts(a: string, b: string, path: string)
    requires '/' !in a && '/' !in b && Covers(ResourceOf(a, b), path)
    ensures ARTIFACTS <= path
    ensures var rest := path[|ARTIFACTS|..];
            Head(rest) == a && |a| < |rest| && Head(rest[|a| + 1..]) == b
  {
    var below := Below(a, b, path);
    hide Covers, Head;
    var rest := path[|ARTIFACTS|..];
    assert rest == a + ("/" + b + below);
    HeadOfPart(a, "/" + b + below);
    assert rest[|a| + 1..] == b + below;
    HeadOfPart(b, below);
  }

  /** A resource covers the path that spells its two parts, and what a slash sets off below it. */
  lemma CoversIff(a: string, b: string, path: string)
    ensures Covers(ResourceOf(a, b), path) <==>
            exists below :: path == ARTIFACTS + (a + ("/" + b + below)) && (below == [] || below[0] == '/')
  {
    if Covers(ResourceOf(a, b), path) {
      var below := Below(a, b, path);
    }
    if below :| path == ARTIFACTS + (a + ("/" + b + below)) && (below == [] || below[0] == '/') {
      var r := ResourceOf(a, b);
      assert r[..|r| - 1] == ARTIFACTS + (a + ("/" + b));
      assert path == r[..|r| - 1] + below;
      if below != [] {
        assert path[..|r|] == r;
      }
    }
  }

  /** No path is covered by two valid resources. */
  lemma OneResourcePerPath(r: string, q: string, path: string)
    requires ValidResource(r) && ValidResource(q) && Covers(r, path) && Covers(q, path)
    ensures r == q
  {
    var a, b :| Slug(a) && Slug(b) && r == ResourceOf(a, b);
    var c, d :| Slug(c) && Slug(d) && q == ResourceOf(c, d);
    SlugHasNoSlash(a);
    SlugHasNoSlash(b);
    SlugHasNoSlash(c);
    SlugHasNoSlash(d);
    CoveredParts(a, b, path);
    CoveredParts(c, d, path);
  }

  // The transactions.

  datatype Op =
    | Invite(email: string, resource: string, token: Token, now: nat)
    | Redeem(token: Token, session: Token, now: nat)
    | Revoke(grant: nat, now: nat)

  /** `ok`: a link was issued, a session was opened, or a grant in force was revoked. */
  datatype Outcome = Outcome(db: Db, ok: bool)

  function FindGrant(grants: seq<Grant>, email: string, resource: string): (g: nat)
    ensures g <= |grants|
    ensures g < |grants| ==> grants[g].email == email && grants[g].resource == resource
    ensures forall h :: 0 <= h < g ==> grants[h].email != email || grants[h].resource != resource
  {
    if grants == [] || (grants[0].email == email && grants[0].resource == resource) then 0
    else 1 + FindGrant(grants[1..], email, resource)
  }

  ghost predicate Invitable(email: string, resource: string)
  {
    '@' in email && ValidResource(resource)
  }

  /** The links that stay when grant `g` gets a new one. */
  function Superseded(links: map<Token, Link>, g: nat): map<Token, Link>
  {
    map t | t in links && !(links[t].grant == g && links[t].redeemedAt.None?) :: links[t]
  }

  function Granted(grants: seq<Grant>, email: string, resource: string, now: nat): seq<Grant>
  {
    var g := FindGrant(grants, email, resource);
    if g < |grants| then grants[g := grants[g].(revokedAt := None)]
    else grants + [Grant(email, resource, now, None)]
  }

  ghost function Step(db: Db, op: Op): Outcome
  {
    match op
    case Invite(email, resource, token, now) =>
      var g := FindGrant(db.grants, email, resource);
      var links := Superseded(db.links, g);
      if !Invitable(email, resource) || token in links then Outcome(db, false)
      else
        Outcome(Db(Granted(db.grants, email, resource, now), links[token := Link(g, now + LINK_TTL, None)], db.sessions), true)
    case Redeem(token, session, now) =>
      if !Redeemable(db, token, now) || session in db.sessions then Outcome(db, false)
      else
        var link := db.links[token];
        Outcome(db.(links := db.links[token := link.(redeemedAt := Some(now))],
                    sessions := db.sessions[session := Session(link.grant, now + SESSION_TTL, None)]), true)
    case Revoke(grant, now) =>
      var sessions := map s | s in db.sessions ::
        if db.sessions[s].grant == grant then db.sessions[s].(revokedAt := Some(now)) else db.sessions[s];
      if grant < |db.grants| && db.grants[grant].revokedAt.None? then
        Outcome(db.(grants := db.grants[grant := db.grants[grant].(revokedAt := Some(now))], sessions := sessions), true)
      else Outcome(db.(sessions := sessions), false)
  }

  predicate Redeemable(db: Db, token: Token, now: nat)
  {
    && token in db.links && db.links[token].redeemedAt.None? && now <= db.links[token].expiresAt
    && db.links[token].grant < |db.grants| && db.grants[db.links[token].grant].revokedAt.None?
  }

  /** The resource a session opens at `now`. */
  function SessionResource(db: Db, session: Token, now: nat): Option<string>
  {
    if session in db.sessions && now <= db.sessions[session].expiresAt && db.sessions[session].revokedAt.None?
       && db.sessions[session].grant < |db.grants| && db.grants[db.sessions[session].grant].revokedAt.None?
    then Some(db.grants[db.sessions[session].grant].resource) else None
  }

  datatype Alias = Alias(prefix: string, target: string)

  /** A path under an alias stands for the alias's target. */
  function Unaliased(aliases: seq<Alias>, path: string): string
  {
    if aliases == [] then path
    else if aliases[0].prefix <= path then aliases[0].target
    else Unaliased(aliases[1..], path)
  }

  /** The first alias that a path starts with decides what it stands for; without one it stands for itself. */
  lemma {:induction false} FirstAliasDecides(aliases: seq<Alias>, path: string)
    ensures (forall i :: 0 <= i < |aliases| ==> !(aliases[i].prefix <= path)) ==> Unaliased(aliases, path) == path
    ensures forall i :: 0 <= i < |aliases| && aliases[i].prefix <= path
                        && (forall j :: 0 <= j < i ==> !(aliases[j].prefix <= path)) ==>
              Unaliased(aliases, path) == aliases[i].target
  {
    if aliases != [] {
      FirstAliasDecides(aliases[1..], path);
      forall i | 0 < i < |aliases| && aliases[i].prefix <= path
                 && (forall j :: 0 <= j < i ==> !(aliases[j].prefix <= path))
        ensures Unaliased(aliases, path) == aliases[i].target
      {
        assert aliases[1..][i - 1] == aliases[i];
        assert forall j :: 0 <= j < i - 1 ==> aliases[1..][j] == aliases[j + 1];
        assert !(aliases[0].prefix <= path);
      }
    }
  }

  predicate Authorized(db: Db, assets: set<string>, aliases: seq<Alias>, session: Token, path: string, now: nat)
  {
    path in assets
    || (SessionResource(db, session, now).Some? && Covers(SessionResource(db, session, now).value, Unaliased(aliases, path)))
  }

  class Store {
    const assets: set<string>
    const aliases: seq<Alias>
    var grants: seq<Grant>
    var links: map<Token, Link>
    var sessions: map<Token, Session>

    constructor (assets: set<string>, aliases: seq<Alias>)
      ensures View() == EMPTY && this.assets == assets && this.aliases == aliases
    {
      this.assets, this.aliases := assets, aliases;
      grants, links, sessions := [], map[], map[];
    }

    function View(): Db
      reads this
    {
      Db(grants, links, sessions)
    }

    /** Grant or renew access and issue its one open link; `valid` says whether the arguments are acceptable. */
    method Invite(email: string, resource: string, token: Token, now: nat, valid: bool) returns (grant: Option<nat>)
      requires valid <==> Invitable(email, resource)
      modifies this
      ensures Outcome(View(), grant.Some?) == Step(old(View()), Op.Invite(email, resource, token, now))
      ensures grant.Some? ==> grant.value == FindGrant(grants, email, resource) < |grants|
    {
      if !valid {
        return None;
      }
      var g := FindGrant(grants, email, resource);
      var kept := Superseded(links, g);
      if token in kept {
        return None;
      }
      GrantedFinds(grants, email, resource, now);
      if g < |grants| {
        grants := grants[g := grants[g].(revokedAt := None)];
      } else {
        grants := grants + [Grant(email, resource, now, None)];
      }
      links := kept[token := Link(g, now + LINK_TTL, None)];
      grant := Some(g);
    }

    method Redeem(token: Token, session: Token, now: nat) returns (resource: Option<string>)
      modifies this
      ensures Outcome(View(), resource.Some?) == Step(old(View()), Op.Redeem(token, session, now))
      ensures resource.Some? ==> SessionResource(View(), session, now) == resource
    {
      if !Redeemable(View(), token, now) || session in sessions {
        return None;
      }
      var row := links[token];
      links := links[token := row.(redeemedAt := Some(now))];
      sessions := sessions[session := Session(row.grant, now + SESSION_TTL, None)];
      resource := Some(grants[row.grant].resource);
    }

    method Revoke(grant: nat, now: nat) returns (changed: bool)
      modifies this
      ensures Outcome(View(), changed) == Step(old(View()), Op.Revoke(grant, now))
    {
      changed := grant < |grants| && grants[grant].revokedAt.None?;
      if changed {
        grants := grants[grant := grants[grant].(revokedAt := Some(now))];
      }
      sessions := map s | s in sessions ::
        if sessions[s].grant == grant then sessions[s].(revokedAt := Some(now)) else sessions[s];
    }

    method IsAuthorized(session: Token, path: string, now: nat) returns (allowed: bool)
      ensures allowed == Authorized(View(), assets, aliases, session, path, now)
    {
      if path in assets {
        return true;
      }
      var target := path;
      for i := 0 to |aliases|
        invariant target == path
        invariant Unaliased(aliases[i..], path) == Unaliased(aliases, path)
      {
        assert aliases[i..][1..] == aliases[i + 1..];
        if aliases[i].prefix <= path {
          target := aliases[i].target;
          break;
        }
      }
      assert target == Unaliased(aliases, path);
      var row := SessionResource(View(), session, now);
      allowed := row.Some? && Covers(row.value, target);
    }
  }

  lemma GrantedFinds(grants: seq<Grant>, email: string, resource: string, now: nat)
    ensures var after := Granted(grants, email, resource, now);
            FindGrant(after, email, resource) == FindGrant(grants, email, resource) < |after|
  {
  }
}

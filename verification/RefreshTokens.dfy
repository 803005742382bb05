/**
 Refresh-token rotation with reuse detection (the scheme of section 4.14.2 of RFC 9700). A token is
 its tokenId; times are milliseconds.
 */
module RefreshTokens {
  import opened Wrappers

  type TokenId = nat
  type FamilyId = nat
  type UserId = nat

  const WEEK := 7 * 24 * 3_600_000

  /** One RefreshToken row. */
  datatype Row = Row(user: UserId, family: FamilyId, revoked: bool, expiresAt: int, replacedBy: Option<TokenId>)

  /** Everything ever issued in one family, oldest first; the database does not keep this. */
  datatype Chain = Chain(owner: UserId, tokens: seq<TokenId>)

  datatype Store = Store(rows: map<TokenId, Row>, chains: map<FamilyId, Chain>)

  // ---------- the operations ----------

  function Login(s: Store, user: UserId, family: FamilyId, token: TokenId, now: int): Store {
    Store(s.rows[token := Row(user, family, false, now + WEEK, None)], s.chains[family := Chain(user, [token])])
  }

  function RevokeFamily(rows: map<TokenId, Row>, family: FamilyId): map<TokenId, Row> {
    map t | t in rows :: if rows[t].family == family then rows[t].(revoked := true) else rows[t]
  }

  function RevokeUser(rows: map<TokenId, Row>, user: UserId): map<TokenId, Row> {
    map t | t in rows :: if rows[t].user == user then rows[t].(revoked := true) else rows[t]
  }

  function DropExpired(rows: map<TokenId, Row>, now: int): map<TokenId, Row> {
    map t | t in rows && rows[t].expiresAt >= now :: rows[t]
  }

  predicate Acceptable(s: Store, token: TokenId, jwtValid: bool, now: int) {
    jwtValid && token in s.rows && !s.rows[token].revoked && s.rows[token].expiresAt >= now
  }

  function Rotate(s: Store, token: TokenId, next: TokenId, now: int): Store
    requires token in s.rows
  {
    var row := s.rows[token];
    var rows := s.rows[token := row.(revoked := true, replacedBy := Some(next))]
                      [next := Row(row.user, row.family, false, now + WEEK, None)];
    Store(rows, if row.family in s.chains
                then s.chains[row.family := s.chains[row.family].(tokens := s.chains[row.family].tokens + [next])]
                else s.chains)
  }

  /** refreshAccessToken; `jwtValid` is the outcome of the signature and exp check of the presented token. */
  function Refresh(s: Store, token: TokenId, next: TokenId, jwtValid: bool, now: int): Store {
    if !jwtValid || token !in s.rows then s
    else if s.rows[token].revoked then s.(rows := RevokeFamily(s.rows, s.rows[token].family))
    else if s.rows[token].expiresAt < now then s
    else Rotate(s, token, next, now)
  }

  datatype Event =
    | ELogin(user: UserId, family: FamilyId, token: TokenId)
    | ERefresh(token: TokenId, next: TokenId, jwtValid: bool)
    | ERevoke(token: TokenId)
    | ELogout(user: UserId)
    | ECleanup

  /** An event and the time it happens at. */
  datatype Timed = Timed(event: Event, now: int)

  function Step(s: Store, e: Timed): Store {
    match e.event
    case ELogin(u, f, t) => Login(s, u, f, t, e.now)
    case ERefresh(t, next, jwtValid) => Refresh(s, t, next, jwtValid, e.now)
    case ERevoke(t) => if t in s.rows then s.(rows := s.rows[t := s.rows[t].(revoked := true)]) else s
    case ELogout(u) => s.(rows := RevokeUser(s.rows, u))
    case ECleanup => s.(rows := DropExpired(s.rows, e.now))
  }

  function Run(s: Store, es: seq<Timed>): Store
    decreases |es|
  {
    if es == [] then s else Run(Step(s, es[0]), es[1..])
  }

  // ---------- what a run may assume: unused UUIDs and a clock that does not run backwards ----------

  ghost predicate Unused(s: Store, t: TokenId) {
    t !in s.rows && forall f :: f in s.chains ==> t !in s.chains[f].tokens
  }

  ghost predicate Fresh(s: Store, e: Event) {
    match e
    case ELogin(_, f, t) => f !in s.chains && Unused(s, t)
    case ERefresh(_, next, _) => Unused(s, next)
    case _ => true
  }

  ghost predicate Orderly(s: Store, es: seq<Timed>, clock: int)
    decreases |es|
  {
    es == [] || (clock <= es[0].now && Fresh(s, es[0].event) && Orderly(Step(s, es[0]), es[1..], es[0].now))
  }

  // ---------- the invariant ----------

  ghost predicate InChain(s: Store, f: FamilyId, i: int) {
    f in s.chains && 0 <= i < |s.chains[f].tokens|
  }

  /**
   The i-th token of family f: if its row is still there, so is its successor's, to which it points,
   and it is revoked and expires no later; the last token points nowhere.
   */
  ghost predicate LinkOk(s: Store, f: FamilyId, i: int)
    requires InChain(s, f, i)
  {
    var c := s.chains[f].tokens;
    c[i] in s.rows ==>
      var row := s.rows[c[i]];
      && row.family == f && row.user == s.chains[f].owner
      && if i == |c| - 1 then row.replacedBy == None
         else && row.revoked && row.replacedBy == Some(c[i + 1])
              && c[i + 1] in s.rows && row.expiresAt <= s.rows[c[i + 1]].expiresAt
  }

  ghost predicate Inv(s: Store, clock: int) {
    && (forall f, i :: InChain(s, f, i) ==> LinkOk(s, f, i))
    && (forall f, g, i, j :: InChain(s, f, i) && InChain(s, g, j) && s.chains[f].tokens[i] == s.chains[g].tokens[j]
          ==> f == g && i == j)
    && (forall t :: t in s.rows ==> Placed(s, t))
    && (forall t :: t in s.rows ==> s.rows[t].expiresAt <= clock + WEEK)
  }

  ghost predicate Placed(s: Store, t: TokenId)
    requires t in s.rows
  {
    s.rows[t].family in s.chains && t in s.chains[s.rows[t].family].tokens
  }

  lemma EmptyOk(clock: int)
    ensures Inv(Store(map[], map[]), clock)
  {
  }

  lemma LaterClock(s: Store, clock: int, now: int)
    requires Inv(s, clock) && clock <= now
    ensures Inv(s, now)
  {
  }

  /** An unrevoked token is the last one of its family's chain. */
  lemma LiveIsLast(s: Store, clock: int, t: TokenId)
    requires Inv(s, clock) && t in s.rows && !s.rows[t].revoked
    ensures var f := s.rows[t].family;
      f in s.chains && |s.chains[f].tokens| > 0 && s.chains[f].tokens[|s.chains[f].tokens| - 1] == t
  {
    assert Placed(s, t);
    var f := s.rows[t].family;
    var i :| 0 <= i < |s.chains[f].tokens| && s.chains[f].tokens[i] == t;
    assert InChain(s, f, i);
    assert LinkOk(s, f, i);
  }

  // ---------- every step keeps it ----------

  lemma LoginKeeps(s: Store, u: UserId, f: FamilyId, t: TokenId, now: int)
    requires Inv(s, now) && Fresh(s, ELogin(u, f, t))
    ensures Inv(Login(s, u, f, t, now), now)
  {
    var v := Login(s, u, f, t, now);
    forall g, i | InChain(v, g, i)
      ensures LinkOk(v, g, i)
    {
      if g != f {
        assert InChain(s, g, i) && LinkOk(s, g, i);
        assert s.chains[g].tokens[i] != t;
        if i + 1 < |s.chains[g].tokens| {
          assert s.chains[g].tokens[i + 1] != t;
        }
      }
    }
    forall x | x in v.rows
      ensures Placed(v, x)
    {
      if x != t {
        assert Placed(s, x);
      }
    }
    forall g, h, i, j | InChain(v, g, i) && InChain(v, h, j) && v.chains[g].tokens[i] == v.chains[h].tokens[j]
      ensures g == h && i == j
    {
      assert g != f ==> InChain(s, g, i) && s.chains[g].tokens[i] in s.chains[g].tokens;
      assert h != f ==> InChain(s, h, j) && s.chains[h].tokens[j] in s.chains[h].tokens;
    }
  }

  lemma RotateLinks(s: Store, t: TokenId, next: TokenId, now: int, g: FamilyId, i: int)
    requires Inv(s, now) && t in s.rows && !s.rows[t].revoked && Unused(s, next)
    requires InChain(Rotate(s, t, next, now), g, i)
    ensures LinkOk(Rotate(s, t, next, now), g, i)
  {
    LiveIsLast(s, now, t);
    var f := s.rows[t].family;
    var n := |s.chains[f].tokens|;
    assert InChain(s, f, n - 1) && LinkOk(s, f, n - 1);
    if g != f || i < n {
      assert InChain(s, g, i) && LinkOk(s, g, i);
      assert s.chains[g].tokens[i] in s.chains[g].tokens;
      if i + 1 < |s.chains[g].tokens| {
        assert InChain(s, g, i + 1) && s.chains[g].tokens[i + 1] in s.chains[g].tokens;
      }
    }
  }

  lemma RotateDistinct(s: Store, t: TokenId, next: TokenId, now: int, g: FamilyId, i: int, h: FamilyId, j: int)
    requires Inv(s, now) && t in s.rows && !s.rows[t].revoked && Unused(s, next)
    requires var v := Rotate(s, t, next, now);
      InChain(v, g, i) && InChain(v, h, j) && v.chains[g].tokens[i] == v.chains[h].tokens[j]
    ensures g == h && i == j
  {
    LiveIsLast(s, now, t);
    var f := s.rows[t].family;
    var n := |s.chains[f].tokens|;
    assert g != f || i < n ==> InChain(s, g, i) && s.chains[g].tokens[i] in s.chains[g].tokens;
    assert h != f || j < n ==> InChain(s, h, j) && s.chains[h].tokens[j] in s.chains[h].tokens;
  }

  lemma RotatePlaced(s: Store, t: TokenId, next: TokenId, now: int, x: TokenId)
    requires Inv(s, now) && t in s.rows && !s.rows[t].revoked && Unused(s, next)
    requires x in Rotate(s, t, next, now).rows
    ensures Placed(Rotate(s, t, next, now), x)
  {
  }

  lemma RotateKeeps(s: Store, t: TokenId, next: TokenId, now: int)
    requires Inv(s, now) && t in s.rows && !s.rows[t].revoked && Unused(s, next)
    ensures Inv(Rotate(s, t, next, now), now)
  {
    hide LinkOk, Placed;
    var v := Rotate(s, t, next, now);
    forall g, i | InChain(v, g, i)
      ensures LinkOk(v, g, i)
    {
      RotateLinks(s, t, next, now, g, i);
    }
    forall x | x in v.rows
      ensures Placed(v, x)
    {
      RotatePlaced(s, t, next, now, x);
    }
    forall g, h, i, j | InChain(v, g, i) && InChain(v, h, j) && v.chains[g].tokens[i] == v.chains[h].tokens[j]
      ensures g == h && i == j
    {
      RotateDistinct(s, t, next, now, g, i, h, j);
    }
  }

  /** `v` is `s` with some rows revoked. */
  ghost predicate OnlyRevokes(s: Store, v: Store) {
    && v.chains == s.chains && v.rows.Keys == s.rows.Keys
    && (forall t :: t in s.rows ==> v.rows[t] == s.rows[t] || v.rows[t] == s.rows[t].(revoked := true))
  }

  lemma RevokingLinks(s: Store, v: Store, f: FamilyId, i: int)
    requires OnlyRevokes(s, v) && InChain(s, f, i) && LinkOk(s, f, i)
    ensures LinkOk(v, f, i)
  {
  }

  /** Revoking rows, whichever, cannot break a chain. */
  lemma RevokingKeeps(s: Store, v: Store, clock: int)
    requires Inv(s, clock) && OnlyRevokes(s, v)
    ensures Inv(v, clock)
  {
    hide LinkOk;
    forall f, i | InChain(v, f, i)
      ensures LinkOk(v, f, i)
    {
      assert InChain(s, f, i);
      RevokingLinks(s, v, f, i);
    }
    forall t | t in v.rows
      ensures Placed(v, t)
    {
      assert Placed(s, t);
    }
    assert forall f, i :: InChain(v, f, i) ==> InChain(s, f, i);
  }

  lemma CleanupKeeps(s: Store, now: int)
    requires Inv(s, now)
    ensures Inv(s.(rows := DropExpired(s.rows, now)), now)
  {
    var v := s.(rows := DropExpired(s.rows, now));
    forall f, i | InChain(v, f, i)
      ensures LinkOk(v, f, i)
    {
      assert InChain(s, f, i) && LinkOk(s, f, i);
    }
    forall t | t in v.rows
      ensures Placed(v, t)
    {
      assert Placed(s, t);
    }
    assert forall f, i :: InChain(v, f, i) ==> InChain(s, f, i);
  }

  lemma StepKeeps(s: Store, e: Timed, clock: int)
    requires Inv(s, clock) && clock <= e.now && Fresh(s, e.event)
    ensures Inv(Step(s, e), e.now)
  {
    hide Inv;
    LaterClock(s, clock, e.now);
    match e.event
    case ELogin(u, f, t) => LoginKeeps(s, u, f, t, e.now);
    case ERefresh(t, next, jwtValid) =>
      if Acceptable(s, t, jwtValid, e.now) {
        RotateKeeps(s, t, next, e.now);
      } else {
        RevokingKeeps(s, Step(s, e), e.now);
      }
    case ERevoke(_) => RevokingKeeps(s, Step(s, e), e.now);
    case ELogout(_) => RevokingKeeps(s, Step(s, e), e.now);
    case ECleanup => CleanupKeeps(s, e.now);
  }

  function LastTime(es: seq<Timed>, clock: int): int {
    if es == [] then clock else es[|es| - 1].now
  }

  lemma {:induction false} RunKeeps(s: Store, es: seq<Timed>, clock: int)
    requires Inv(s, clock) && Orderly(s, es, clock)
    ensures Inv(Run(s, es), LastTime(es, clock))
    decreases |es|
  {
    if es != [] {
      StepKeeps(s, es[0], clock);
      RunKeeps(Step(s, es[0]), es[1..], es[0].now);
    }
  }

  // ---------- what the invariant means ----------

  /** At most one token of a family can be live, and it is the one issued last. */
  lemma OneLiveToken(s: Store, es: seq<Timed>, clock: int, t: TokenId, u: TokenId)
    requires Orderly(Store(map[], map[]), es, clock) && s == Run(Store(map[], map[]), es)
    requires t in s.rows && u in s.rows && s.rows[t].family == s.rows[u].family
    requires !s.rows[t].revoked && !s.rows[u].revoked
    ensures t == u
  {
    EmptyOk(clock);
    RunKeeps(Store(map[], map[]), es, clock);
    LiveIsLast(s, LastTime(es, clock), t);
    LiveIsLast(s, LastTime(es, clock), u);
  }

  /** No replacedBy link dangles: it leads to a stored token of the same family and user. */
  lemma NoDanglingLink(s: Store, es: seq<Timed>, clock: int, t: TokenId)
    requires Orderly(Store(map[], map[]), es, clock) && s == Run(Store(map[], map[]), es)
    requires t in s.rows && s.rows[t].replacedBy.Some?
    ensures var u := s.rows[t].replacedBy.value;
      u in s.rows && s.rows[u].family == s.rows[t].family && s.rows[u].user == s.rows[t].user
  {
    EmptyOk(clock);
    RunKeeps(Store(map[], map[]), es, clock);
    assert Placed(s, t);
    var f := s.rows[t].family;
    var i :| 0 <= i < |s.chains[f].tokens| && s.chains[f].tokens[i] == t;
    assert InChain(s, f, i) && LinkOk(s, f, i);
    assert i + 1 < |s.chains[f].tokens|;
    assert InChain(s, f, i + 1) && LinkOk(s, f, i + 1);
  }

  /** Cleanup leaves a suffix: if a token is stored, so is every one issued after it in its family. */
  lemma {:induction false} SuffixRemains(s: Store, clock: int, f: FamilyId, i: int, j: int)
    requires Inv(s, clock) && InChain(s, f, i) && InChain(s, f, j) && i <= j
    requires s.chains[f].tokens[i] in s.rows
    ensures s.chains[f].tokens[j] in s.rows
    ensures s.rows[s.chains[f].tokens[i]].expiresAt <= s.rows[s.chains[f].tokens[j]].expiresAt
    decreases j - i
  {
    if i < j {
      assert LinkOk(s, f, i);
      assert InChain(s, f, i + 1);
      SuffixRemains(s, clock, f, i + 1, j);
    }
  }

  // ---------- reuse detection and logout ----------

  /** No stored token of the family is live. */
  ghost predicate Dead(s: Store, f: FamilyId) {
    f in s.chains && forall t :: t in s.rows && s.rows[t].family == f ==> s.rows[t].revoked
  }

  /** Presenting a revoked token kills its family. */
  lemma ReuseKills(s: Store, clock: int, t: TokenId, next: TokenId, now: int)
    requires Inv(s, clock) && t in s.rows && s.rows[t].revoked
    ensures Dead(Step(s, Timed(ERefresh(t, next, true), now)), s.rows[t].family)
  {
  }

  /** In particular, replaying any token that was already exchanged, as long as its row has not expired away. */
  lemma ReplayKills(s: Store, clock: int, f: FamilyId, i: int, next: TokenId, now: int)
    requires Inv(s, clock) && InChain(s, f, i) && i < |s.chains[f].tokens| - 1 && s.chains[f].tokens[i] in s.rows
    ensures Dead(Step(s, Timed(ERefresh(s.chains[f].tokens[i], next, true), now)), f)
  {
  }

  /** Logout kills every family of the user. */
  lemma LogoutKills(s: Store, clock: int, u: UserId, f: FamilyId, now: int)
    requires Inv(s, clock) && f in s.chains && s.chains[f].owner == u
    ensures Dead(Step(s, Timed(ELogout(u), now)), f)
  {
    forall t | t in s.rows && s.rows[t].family == f
      ensures s.rows[t].user == u
    {
      assert Placed(s, t);
      var i :| 0 <= i < |s.chains[f].tokens| && s.chains[f].tokens[i] == t;
      assert InChain(s, f, i) && LinkOk(s, f, i);
    }
  }

  /** A token of the family is exchanged by this event. */
  ghost predicate AcceptsFrom(s: Store, e: Timed, f: FamilyId) {
    e.event.ERefresh? && Acceptable(s, e.event.token, e.event.jwtValid, e.now) && s.rows[e.event.token].family == f
  }

  ghost predicate NeverAccepts(s: Store, es: seq<Timed>, f: FamilyId)
    decreases |es|
  {
    es == [] || (!AcceptsFrom(s, es[0], f) && NeverAccepts(Step(s, es[0]), es[1..], f))
  }

  /**
   Once a family is dead, no later event of any run accepts a token of it or issues a new one in it:
   its chain stays what it was.
   */
  lemma {:induction false} DeadForGood(s: Store, es: seq<Timed>, clock: int, f: FamilyId)
    requires Inv(s, clock) && Orderly(s, es, clock) && Dead(s, f)
    ensures NeverAccepts(s, es, f)
    ensures Dead(Run(s, es), f) && Run(s, es).chains[f] == s.chains[f]
    decreases |es|
  {
    if es != [] {
      DeadStep(s, es[0], clock, f);
      StepKeeps(s, es[0], clock);
      DeadForGood(Step(s, es[0]), es[1..], es[0].now, f);
    }
  }

  lemma DeadStep(s: Store, e: Timed, clock: int, f: FamilyId)
    requires Inv(s, clock) && Fresh(s, e.event) && Dead(s, f)
    ensures !AcceptsFrom(s, e, f)
    ensures Dead(Step(s, e), f) && Step(s, e).chains[f] == s.chains[f]
  {
  }

  // ---------- how long a token can be used ----------

  /** A login's token is accepted for seven days to the millisecond; without a valid signature it never is. */
  lemma LoginIssues(s: Store, u: UserId, f: FamilyId, t: TokenId, now: int, later: int, jwtValid: bool)
    ensures Acceptable(Step(s, Timed(ELogin(u, f, t), now)), t, jwtValid, later) <==> jwtValid && later <= now + 604_800_000
    ensures var v := Step(s, Timed(ELogin(u, f, t), now)); v.rows[t].user == u && v.rows[t].family == f
  {
  }

  /** So is the token an accepted refresh issues: the seven days start anew, for the same user in the same family. */
  lemma RefreshIssues(s: Store, t: TokenId, next: TokenId, now: int, later: int, jwtValid: bool)
    requires t != next && t in s.rows && !s.rows[t].revoked && now <= s.rows[t].expiresAt
    ensures var v := Step(s, Timed(ERefresh(t, next, true), now));
      && (Acceptable(v, next, jwtValid, later) <==> jwtValid && later <= now + 604_800_000)
      && v.rows[next].user == s.rows[t].user && v.rows[next].family == s.rows[t].family
      && v.rows[t] == s.rows[t].(revoked := true, replacedBy := Some(next))
      && (forall x :: x in s.rows && x != t && x != next ==> x in v.rows && v.rows[x] == s.rows[x])
  {
  }

  /** A refresh is refused without effect for a bad signature, an unknown token, or a live one that has expired. */
  lemma RefusedRefreshChangesNothing(s: Store, t: TokenId, next: TokenId, jwtValid: bool, now: int)
    requires !jwtValid || t !in s.rows || (!s.rows[t].revoked && s.rows[t].expiresAt < now)
    ensures Step(s, Timed(ERefresh(t, next, jwtValid), now)) == s && !Acceptable(s, t, jwtValid, now)
  {
  }

  /** The event exchanges or revokes the token, presents a revoked token of its family, or logs its user out. */
  predicate Ends(s: Store, e: Timed, t: TokenId) {
    t in s.rows &&
    match e.event
    case ERefresh(x, _, jwtValid) =>
      && jwtValid && x in s.rows
      && ((x == t && e.now <= s.rows[x].expiresAt) || (s.rows[x].revoked && s.rows[x].family == s.rows[t].family))
    case ERevoke(x) => x == t
    case ELogout(u) => u == s.rows[t].user
    case _ => false
  }

  /** While nothing ends it, a live token keeps its row until a cleanup after its expiry. */
  lemma LiveStep(s: Store, e: Timed, clock: int, t: TokenId)
    requires Inv(s, clock) && Fresh(s, e.event) && t in s.rows && !s.rows[t].revoked
    ensures !Ends(s, e, t) ==>
      if e.event.ECleanup? && s.rows[t].expiresAt < e.now then t !in Step(s, e).rows
      else t in Step(s, e).rows && Step(s, e).rows[t] == s.rows[t]
    ensures Ends(s, e, t) && e.now <= s.rows[t].expiresAt ==> Spent(Step(s, e), t)
  {
    assert Placed(s, t);
    LiveIsLast(s, clock, t);
    if Ends(s, e, t) && e.now <= s.rows[t].expiresAt {
      var f := s.rows[t].family;
      var v := Step(s, e);
      var i :| 0 <= i < |s.chains[f].tokens| && s.chains[f].tokens[i] == t;
      assert f in v.chains && s.chains[f].tokens <= v.chains[f].tokens && v.chains[f].tokens[i] == t;
    }
  }

  ghost predicate NeverEnds(s: Store, es: seq<Timed>, t: TokenId)
    decreases |es|
  {
    es == [] || (!Ends(s, es[0], t) && NeverEnds(Step(s, es[0]), es[1..], t))
  }

  /**
   A token that is live now is accepted after any orderly run, up to its expiry, if and only if no event of
   the run exchanged or revoked it, presented a revoked token of its family or logged its user out.
   */
  lemma {:induction false} UsableIff(s: Store, es: seq<Timed>, clock: int, t: TokenId, later: int)
    requires Inv(s, clock) && Orderly(s, es, clock) && t in s.rows && !s.rows[t].revoked
    requires LastTime(es, clock) <= later <= s.rows[t].expiresAt
    ensures Acceptable(Run(s, es), t, true, later) <==> NeverEnds(s, es, t)
    decreases |es|
  {
    if es != [] {
      TimesRise(es, s, clock);
      LiveStep(s, es[0], clock, t);
      StepKeeps(s, es[0], clock);
      if Ends(s, es[0], t) {
        SpentForGood(Step(s, es[0]), es[1..], es[0].now, t);
      } else {
        UsableIff(Step(s, es[0]), es[1..], es[0].now, t, later);
      }
    }
  }

  lemma {:induction false} TimesRise(es: seq<Timed>, s: Store, clock: int)
    requires Orderly(s, es, clock)
    ensures clock <= LastTime(es, clock) && (es != [] ==> es[0].now <= LastTime(es, clock))
    decreases |es|
  {
    if es != [] {
      TimesRise(es[1..], Step(s, es[0]), es[0].now);
    }
  }

  lemma {:induction false} SpentForGood(s: Store, es: seq<Timed>, clock: int, t: TokenId)
    requires Orderly(s, es, clock) && Spent(s, t)
    ensures Spent(Run(s, es), t)
    decreases |es|
  {
    if es != [] {
      SpentStays(s, es[0], t);
      SpentForGood(Step(s, es[0]), es[1..], es[0].now, t);
    }
  }

  /** Issued at some time, and expiring then if it is still stored. */
  ghost predicate ExpiresAt(s: Store, t: TokenId, time: int) {
    (exists f :: f in s.chains && t in s.chains[f].tokens) && (t in s.rows ==> s.rows[t].expiresAt == time)
  }

  lemma ExpiryStep(s: Store, e: Timed, t: TokenId, time: int)
    requires Fresh(s, e.event) && ExpiresAt(s, t, time)
    ensures ExpiresAt(Step(s, e), t, time)
  {
    var f :| f in s.chains && t in s.chains[f].tokens;
    var v := Step(s, e);
    assert f in v.chains && s.chains[f].tokens <= v.chains[f].tokens;
    var i :| 0 <= i < |s.chains[f].tokens| && s.chains[f].tokens[i] == t;
    assert v.chains[f].tokens[i] == t;
  }

  lemma {:induction false} ExpiryIsFixed(s: Store, es: seq<Timed>, clock: int, t: TokenId, time: int)
    requires Orderly(s, es, clock) && ExpiresAt(s, t, time)
    ensures ExpiresAt(Run(s, es), t, time)
    decreases |es|
  {
    if es != [] {
      ExpiryStep(s, es[0], t, time);
      ExpiryIsFixed(Step(s, es[0]), es[1..], es[0].now, t, time);
    }
  }

  /** Over any orderly run from now on, a live token is accepted until its expiry, as long as nothing ends it, and never after. */
  lemma UsableUntilExpiry(s: Store, es: seq<Timed>, clock: int, t: TokenId, later: int)
    requires Inv(s, clock) && Orderly(s, es, clock) && t in s.rows && !s.rows[t].revoked && LastTime(es, clock) <= later
    ensures Acceptable(Run(s, es), t, true, later) <==> later <= s.rows[t].expiresAt && NeverEnds(s, es, t)
  {
    if later <= s.rows[t].expiresAt {
      UsableIff(s, es, clock, t, later);
    } else {
      assert Placed(s, t);
      assert s.rows[t].family in s.chains;
      ExpiryIsFixed(s, es, clock, t, s.rows[t].expiresAt);
    }
  }

  /** A login's token can be used for exactly seven days of any run in which nothing ends it. */
  lemma SevenDaysFromLogin(s: Store, u: UserId, f: FamilyId, t: TokenId, now: int, es: seq<Timed>, later: int)
    requires Inv(s, now) && Fresh(s, ELogin(u, f, t))
    requires var v := Step(s, Timed(ELogin(u, f, t), now)); Orderly(v, es, now) && LastTime(es, now) <= later
    ensures var v := Step(s, Timed(ELogin(u, f, t), now));
      Acceptable(Run(v, es), t, true, later) <==> later <= now + 604_800_000 && NeverEnds(v, es, t)
  {
    var e := Timed(ELogin(u, f, t), now);
    StepKeeps(s, e, now);
    UsableUntilExpiry(Step(s, e), es, now, t, later);
  }

  /** And so can the token that a refresh issues, whatever the age of the one it replaces. */
  lemma SevenDaysFromRefresh(s: Store, t: TokenId, next: TokenId, now: int, es: seq<Timed>, later: int)
    requires Inv(s, now) && Fresh(s, ERefresh(t, next, true)) && Acceptable(s, t, true, now)
    requires var v := Step(s, Timed(ERefresh(t, next, true), now)); Orderly(v, es, now) && LastTime(es, now) <= later
    ensures var v := Step(s, Timed(ERefresh(t, next, true), now));
      Acceptable(Run(v, es), next, true, later) <==> later <= now + 604_800_000 && NeverEnds(v, es, next)
  {
    var e := Timed(ERefresh(t, next, true), now);
    StepKeeps(s, e, now);
    UsableUntilExpiry(Step(s, e), es, now, next, later);
  }

  // ---------- single use ----------

  /** Issued at some time, and no longer acceptable. */
  ghost predicate Spent(s: Store, t: TokenId) {
    (exists f :: f in s.chains && t in s.chains[f].tokens) && (t in s.rows ==> s.rows[t].revoked)
  }

  ghost predicate Exchanges(s: Store, e: Timed, t: TokenId) {
    e.event.ERefresh? && e.event.token == t && Acceptable(s, t, e.event.jwtValid, e.now)
  }

  ghost function TimesExchanged(s: Store, es: seq<Timed>, t: TokenId): nat
    decreases |es|
  {
    if es == [] then 0 else (if Exchanges(s, es[0], t) then 1 else 0) + TimesExchanged(Step(s, es[0]), es[1..], t)
  }

  lemma SpentStays(s: Store, e: Timed, t: TokenId)
    requires Fresh(s, e.event) && Spent(s, t)
    ensures Spent(Step(s, e), t) && !Exchanges(s, e, t)
  {
    var v := Step(s, e);
    var f :| f in s.chains && t in s.chains[f].tokens;
    assert f in v.chains && s.chains[f].tokens <= v.chains[f].tokens;
    var i :| 0 <= i < |s.chains[f].tokens| && s.chains[f].tokens[i] == t;
    assert v.chains[f].tokens[i] == t;
  }

  lemma ExchangeSpends(s: Store, e: Timed, clock: int, t: TokenId)
    requires Inv(s, clock) && Fresh(s, e.event) && Exchanges(s, e, t)
    ensures Spent(Step(s, e), t)
  {
    LiveIsLast(s, clock, t);
    var f := s.rows[t].family;
    var n := |s.chains[f].tokens|;
    assert s.chains[f].tokens[n - 1] in s.chains[f].tokens;
    assert Step(s, e).chains[f].tokens[n - 1] == t;
  }

  /** No run exchanges the same refresh token twice. */
  lemma {:induction false} ExchangedAtMostOnce(s: Store, es: seq<Timed>, clock: int, t: TokenId)
    requires Inv(s, clock) && Orderly(s, es, clock)
    ensures TimesExchanged(s, es, t) <= 1
    ensures Spent(s, t) ==> TimesExchanged(s, es, t) == 0
    decreases |es|
  {
    if es != [] {
      if Spent(s, t) {
        SpentStays(s, es[0], t);
      } else if Exchanges(s, es[0], t) {
        ExchangeSpends(s, es[0], clock, t);
      }
      StepKeeps(s, es[0], clock);
      ExchangedAtMostOnce(Step(s, es[0]), es[1..], es[0].now, t);
    }
  }

  // ---------- the service ----------

  class TokenTable {
    var rows: map<TokenId, Row>
    ghost var chains: map<FamilyId, Chain>

    constructor ()
      ensures Contents() == Store(map[], map[])
    {
      rows, chains := map[], map[];
    }

    ghost function Contents(): Store
      reads this
    {
      Store(rows, chains)
    }

    /** `token` and `family` are the random UUIDs of this call. */
    method GenerateTokenPair(user: UserId, family: FamilyId, token: TokenId, now: int)
      modifies this
      ensures Contents() == Step(old(Contents()), Timed(ELogin(user, family, token), now))
    {
      rows := rows[token := Row(user, family, false, now + WEEK, None)];
      chains := chains[family := Chain(user, [token])];
    }

    method RefreshAccessToken(token: TokenId, next: TokenId, jwtValid: bool, now: int) returns (r: Result<TokenId>)
      modifies this
      ensures Contents() == Step(old(Contents()), Timed(ERefresh(token, next, jwtValid), now))
      ensures r == if Acceptable(old(Contents()), token, jwtValid, now) then Ok(next) else Err(Unauthorized)
    {
      if !jwtValid {
        return Err(Unauthorized);
      }
      if token !in rows {
        return Err(Unauthorized);
      }
      var stored := rows[token];
      if stored.revoked {
        RevokeTokenFamily(stored.family);
        return Err(Unauthorized);
      }
      if stored.expiresAt < now {
        return Err(Unauthorized);
      }
      rows := rows[token := stored.(revoked := true, replacedBy := Some(next))];
      rows := rows[next := Row(stored.user, stored.family, false, now + WEEK, None)];
      if stored.family in chains {
        chains := chains[stored.family := chains[stored.family].(tokens := chains[stored.family].tokens + [next])];
      }
      return Ok(next);
    }

    method RevokeTokenFamily(family: FamilyId)
      modifies this`rows
      ensures rows == RevokeFamily(old(rows), family)
    {
      rows := map t | t in rows ::
        if rows[t].family == family && !rows[t].revoked then rows[t].(revoked := true) else rows[t];
    }

    method RevokeRefreshToken(token: TokenId)
      modifies this`rows
      ensures Contents() == Step(old(Contents()), Timed(ERevoke(token), 0))
    {
      if token in rows {
        rows := rows[token := rows[token].(revoked := true)];
      }
    }

    method Logout(user: UserId)
      modifies this`rows
      ensures Contents() == Step(old(Contents()), Timed(ELogout(user), 0))
    {
      rows := map t | t in rows ::
        if rows[t].user == user && !rows[t].revoked then rows[t].(revoked := true) else rows[t];
    }

    method CleanupExpiredTokens(now: int) returns (count: nat)
      modifies this`rows
      ensures Contents() == Step(old(Contents()), Timed(ECleanup, now))
      ensures count == |set t | t in old(rows) && t !in rows|
    {
      var expired := set t | t in rows && rows[t].expiresAt < now;
      count := |expired|;
      rows := map t | t in rows && rows[t].expiresAt >= now :: rows[t];
      assert expired == set t | t in old(rows) && t !in rows;
    }
  }
}

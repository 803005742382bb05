/** One-time passwords: cooldown, expiry and lock, and the bound they put on wrong guesses. */
module Otp {
  import opened Wrappers

  type OtpId = nat

  /** The user and the purpose a code is for. */
  datatype Owner = Owner(user: nat, purpose: string)

  /** Times are in milliseconds. */
  datatype Code = Code(owner: Owner, secret: string, createdAt: int, expiresAt: int,
                       verifiedAt: Option<int>, failures: nat, lockedUntil: Option<int>)

  /** New rows get the next id, which stands for a random UUID. */
  datatype Table = Table(rows: map<OtpId, Code>, nextId: OtpId)

  const EXPIRY := 600_000
  const COOLDOWN := 60_000
  const LOCK_TIME := 1_800_000
  const MAX_FAILURES := 5

  // ---------- the operations ----------

  predicate Matches(c: Code, owner: Owner, unverified: bool) {
    c.owner == owner && (unverified ==> c.verifiedAt == None)
  }

  /** The first row in descending order of creation, among the ids below `n`. */
  function MostRecent(rows: map<OtpId, Code>, n: OtpId, owner: Owner, unverified: bool): (r: Option<OtpId>)
    ensures r.Some? ==> r.value < n && r.value in rows && Matches(rows[r.value], owner, unverified)
    ensures r.Some? ==>
      forall id :: id in rows && id < n && Matches(rows[id], owner, unverified) ==> rows[id].createdAt <= rows[r.value].createdAt
    ensures r.None? ==> forall id :: id in rows && id < n ==> !Matches(rows[id], owner, unverified)
  {
    if n == 0 then None
    else
      var best := MostRecent(rows, n - 1, owner, unverified);
      if n - 1 in rows && Matches(rows[n - 1], owner, unverified)
         && (best.Some? ==> rows[best.value].createdAt <= rows[n - 1].createdAt)
      then Some(n - 1) else best
  }

  predicate CoolingDown(t: Table, owner: Owner, now: int) {
    var recent := MostRecent(t.rows, t.nextId, owner, false);
    recent.Some? && now - t.rows[recent.value].createdAt < COOLDOWN
  }

  function Create(t: Table, owner: Owner, secret: string, now: int): Result<Table> {
    if CoolingDown(t, owner, now) then Err(Conflict)
    else Ok(Table(t.rows[t.nextId := Code(owner, secret, now, now + EXPIRY, None, 0, None)], t.nextId + 1))
  }

  predicate IsLocked(c: Code, now: int) {
    c.lockedUntil.Some? && c.lockedUntil.value > now
  }

  /** The row whose code a guess made now would be compared with. */
  function Exposed(t: Table, owner: Owner, now: int): (r: Option<OtpId>)
    ensures r.Some? ==> r.value in t.rows
  {
    var recent := MostRecent(t.rows, t.nextId, owner, true);
    if recent.None? || IsLocked(t.rows[recent.value], now) || t.rows[recent.value].expiresAt < now then None else recent
  }

  datatype Reply = Verified | NoCode | LockedOut | Expired | Wrong(left: nat) | TooManyFailures

  function Failed(c: Code, now: int): Code {
    c.(failures := c.failures + 1,
       lockedUntil := if c.failures + 1 >= MAX_FAILURES then Some(now + LOCK_TIME) else c.lockedUntil)
  }

  function Verify(t: Table, owner: Owner, secret: string, now: int): (Table, Reply) {
    var recent := MostRecent(t.rows, t.nextId, owner, true);
    if recent.None? then (t, NoCode)
    else
      var id := recent.value;
      var c := t.rows[id];
      if IsLocked(c, now) then (t, LockedOut)
      else if c.expiresAt < now then (t, Expired)
      else if c.secret != secret then
        (t.(rows := t.rows[id := Failed(c, now)]),
         if c.failures + 1 >= MAX_FAILURES then TooManyFailures else Wrong(MAX_FAILURES - (c.failures + 1)))
      else (t.(rows := t.rows[id := c.(verifiedAt := Some(now))]), Verified)
  }

  function Cleanup(t: Table, now: int): Table {
    t.(rows := map id | id in t.rows && t.rows[id].expiresAt >= now :: t.rows[id])
  }

  // ---------- runs ----------

  datatype Event = Request(owner: Owner, secret: string) | Guess(owner: Owner, secret: string) | Sweep

  datatype Timed = Timed(at: int, event: Event)

  function Step(t: Table, e: Timed): Table {
    match e.event
    case Request(owner, secret) =>
      var r := Create(t, owner, secret, e.at);
      if r.Ok? then r.value else t
    case Guess(owner, secret) => Verify(t, owner, secret, e.at).0
    case Sweep => Cleanup(t, e.at)
  }

  function Run(t: Table, h: seq<Timed>): Table
    decreases |h|
  {
    if h == [] then t else Run(Step(t, h[0]), h[1..])
  }

  /** The code a step compares with a wrong guess, if any. */
  function WrongOn(t: Table, e: Timed): (r: Option<OtpId>)
    ensures r.Some? ==> r.value in t.rows
  {
    if !e.event.Guess? then None
    else
      var id := Exposed(t, e.event.owner, e.at);
      if id.Some? && t.rows[id.value].secret != e.event.secret then id else None
  }

  predicate Creates(t: Table, e: Timed, owner: Owner) {
    e.event.Request? && e.event.owner == owner && !CoolingDown(t, owner, e.at)
  }

  /** A wrong comparison is what the two failure replies report. */
  lemma WrongReplies(t: Table, e: Timed)
    requires e.event.Guess?
    ensures var reply := Verify(t, e.event.owner, e.event.secret, e.at).1;
      WrongOn(t, e).Some? <==> reply.Wrong? || reply.TooManyFailures?
  {
  }

  /** How many guesses a run compares, wrongly, with one code. */
  function WrongGuesses(t: Table, h: seq<Timed>, id: OtpId): nat
    decreases |h|
  {
    if h == [] then 0 else (if WrongOn(t, h[0]) == Some(id) then 1 else 0) + WrongGuesses(Step(t, h[0]), h[1..], id)
  }

  function OwnerWrong(t: Table, e: Timed, owner: Owner): bool {
    WrongOn(t, e).Some? && e.event.owner == owner
  }

  /** How many guesses of one owner a run compares wrongly, whatever the code. */
  function OwnerGuesses(t: Table, h: seq<Timed>, owner: Owner): nat
    decreases |h|
  {
    if h == [] then 0 else (if OwnerWrong(t, h[0], owner) then 1 else 0) + OwnerGuesses(Step(t, h[0]), h[1..], owner)
  }

  function Creations(t: Table, h: seq<Timed>, owner: Owner): nat
    decreases |h|
  {
    if h == [] then 0 else (if Creates(t, h[0], owner) then 1 else 0) + Creations(Step(t, h[0]), h[1..], owner)
  }

  /** Events in order of time, none before `from` or after `to`. */
  ghost predicate Within(h: seq<Timed>, from: int, to: int)
    decreases |h|
  {
    if h == [] then from <= to else from <= h[0].at && Within(h[1..], h[0].at, to)
  }

  // ---------- what every step keeps ----------

  predicate RowOk(c: Code, now: int) {
    && c.createdAt <= now && c.expiresAt == c.createdAt + EXPIRY
    && c.failures <= MAX_FAILURES
    && (c.failures == MAX_FAILURES ==> c.lockedUntil.Some?)
    && (c.lockedUntil.Some? ==> c.lockedUntil.value > c.expiresAt)
  }

  ghost predicate Spaced(rows: map<OtpId, Code>) {
    forall a, b :: a in rows && b in rows && a < b && rows[a].owner == rows[b].owner
      ==> rows[a].createdAt + COOLDOWN <= rows[b].createdAt
  }

  ghost predicate Inv(t: Table, now: int) {
    && (forall id :: id in t.rows ==> id < t.nextId && RowOk(t.rows[id], now))
    && Spaced(t.rows)
  }

  lemma EmptyInv(now: int)
    ensures Inv(Table(map[], 0), now)
  {
  }

  /** A row that is compared has a guess left: a lock outlives the expiry of its row. */
  lemma ExposedHasGuessLeft(t: Table, owner: Owner, now: int)
    requires Inv(t, now) && Exposed(t, owner, now).Some?
    ensures t.rows[Exposed(t, owner, now).value].failures < MAX_FAILURES
  {
  }

  lemma RowUpdateKeeps(t: Table, id: OtpId, c: Code, now: int)
    requires Inv(t, now) && id in t.rows && RowOk(c, now)
    requires c.owner == t.rows[id].owner && c.createdAt == t.rows[id].createdAt
    ensures Inv(t.(rows := t.rows[id := c]), now)
  {
  }

  lemma CreateKeeps(t: Table, owner: Owner, secret: string, now: int)
    requires Inv(t, now) && Create(t, owner, secret, now).Ok?
    ensures Inv(Create(t, owner, secret, now).value, now)
  {
    var u := Create(t, owner, secret, now).value;
    forall a | a in t.rows && t.rows[a].owner == owner
      ensures t.rows[a].createdAt + COOLDOWN <= now
    {
      assert Matches(t.rows[a], owner, false);
    }
  }

  lemma StepKeeps(t: Table, e: Timed, now: int)
    requires Inv(t, now) && now <= e.at
    ensures Inv(Step(t, e), e.at)
  {
    assert Inv(t, e.at);
    match e.event
    case Request(owner, secret) =>
      if Create(t, owner, secret, e.at).Ok? {
        CreateKeeps(t, owner, secret, e.at);
      }
    case Guess(owner, secret) =>
      var id := Exposed(t, owner, e.at);
      if id.Some? {
        var c := t.rows[id.value];
        ExposedHasGuessLeft(t, owner, e.at);
        RowUpdateKeeps(t, id.value, if c.secret == secret then c.(verifiedAt := Some(e.at)) else Failed(c, e.at), e.at);
      }
    case Sweep =>
  }

  /** The invariant holds throughout every run in order of time. */
  lemma {:induction false} RunKeeps(t: Table, h: seq<Timed>, from: int, to: int)
    requires Inv(t, from) && Within(h, from, to)
    ensures Inv(Run(t, h), to)
    decreases |h|
  {
    if h != [] {
      StepKeeps(t, h[0], from);
      RunKeeps(Step(t, h[0]), h[1..], h[0].at, to);
    }
  }

  // ---------- five wrong guesses per code ----------

  /** The wrong guesses a code can still take. */
  function Allowance(t: Table, id: OtpId): int {
    if id in t.rows then MAX_FAILURES - t.rows[id].failures else if id < t.nextId then 0 else MAX_FAILURES
  }

  lemma AllowanceFalls(t: Table, e: Timed, now: int, id: OtpId)
    requires Inv(t, now) && now <= e.at
    ensures Allowance(Step(t, e), id) + (if WrongOn(t, e) == Some(id) then 1 else 0) <= Allowance(t, id)
  {
    if WrongOn(t, e) == Some(id) {
      ExposedHasGuessLeft(t, e.event.owner, e.at);
    }
  }

  /** Every code takes at most five wrong guesses, ever; from any state on, at most those it has left. */
  lemma {:induction false} FiveWrongEver(t: Table, h: seq<Timed>, from: int, to: int, id: OtpId)
    requires Inv(t, from) && Within(h, from, to)
    ensures WrongGuesses(t, h, id) <= Allowance(t, id) <= MAX_FAILURES
    decreases |h|
  {
    if h != [] {
      AllowanceFalls(t, h[0], from, id);
      StepKeeps(t, h[0], from);
      FiveWrongEver(Step(t, h[0]), h[1..], h[0].at, to, id);
    }
  }

  // ---------- creations are spaced ----------

  /** A creation at `time` shows in the table until that code has expired. */
  ghost predicate Remembers(t: Table, owner: Owner, time: int, now: int) {
    now > time + EXPIRY || exists id :: id in t.rows && t.rows[id].owner == owner && t.rows[id].createdAt >= time
  }

  lemma LiveRowStays(t: Table, e: Timed, id: OtpId, now: int)
    requires Inv(t, now) && id in t.rows && t.rows[id].expiresAt >= e.at
    ensures id in Step(t, e).rows
    ensures Step(t, e).rows[id].owner == t.rows[id].owner && Step(t, e).rows[id].createdAt == t.rows[id].createdAt
  {
  }

  lemma RememberedStep(t: Table, e: Timed, owner: Owner, time: int, now: int)
    requires Inv(t, now) && now <= e.at && Remembers(t, owner, time, now)
    ensures Remembers(Step(t, e), owner, time, e.at)
  {
    if e.at <= time + EXPIRY {
      var id :| id in t.rows && t.rows[id].owner == owner && t.rows[id].createdAt >= time;
      LiveRowStays(t, e, id, now);
      hide Step;
      assert id in Step(t, e).rows;
    }
  }

  lemma RememberedRefuses(t: Table, e: Timed, owner: Owner, time: int)
    requires Inv(t, e.at) && Remembers(t, owner, time, e.at) && Creates(t, e, owner)
    ensures time + COOLDOWN <= e.at
  {
  }

  lemma CreationIsRemembered(t: Table, e: Timed, owner: Owner)
    requires Creates(t, e, owner)
    ensures Remembers(Step(t, e), owner, e.at, e.at)
  {
    assert Step(t, e).rows[t.nextId].createdAt == e.at;
  }

  /** Two codes of one owner are never created less than 60 seconds apart, whatever is swept in between. */
  lemma {:induction false} CreationsAreSpaced(t: Table, h: seq<Timed>, from: int, to: int, owner: Owner, time: int, i: nat)
    requires Inv(t, from) && Within(h, from, to) && i < |h|
    requires Remembers(t, owner, time, from) && Creates(Run(t, h[..i]), h[i], owner)
    ensures time + COOLDOWN <= h[i].at
    decreases |h|
  {
    RememberedStep(t, h[0], owner, time, from);
    StepKeeps(t, h[0], from);
    if i == 0 {
      assert Inv(t, h[0].at) && Remembers(t, owner, time, h[0].at);
      RememberedRefuses(t, h[0], owner, time);
    } else {
      assert h[..i][0] == h[0] && h[..i][1..] == h[1..][..i - 1];
      CreationsAreSpaced(Step(t, h[0]), h[1..], h[0].at, to, owner, time, i - 1);
    }
  }

  /** After a creation at `time`, n more take at least n cooldowns. */
  lemma {:induction false} LaterCreations(t: Table, h: seq<Timed>, from: int, to: int, owner: Owner, time: int)
    requires Inv(t, from) && Within(h, from, to) && time <= from && Remembers(t, owner, time, from)
    ensures COOLDOWN * Creations(t, h, owner) <= to - time
    decreases |h|
  {
    if h != [] {
      var u := Step(t, h[0]);
      StepKeeps(t, h[0], from);
      RememberedStep(t, h[0], owner, time, from);
      if Creates(t, h[0], owner) {
        assert Inv(t, h[0].at) && Remembers(t, owner, time, h[0].at);
        RememberedRefuses(t, h[0], owner, time);
        CreationIsRemembered(t, h[0], owner);
        LaterCreations(u, h[1..], h[0].at, to, owner, h[0].at);
      } else {
        LaterCreations(u, h[1..], h[0].at, to, owner, time);
      }
    }
  }

  lemma {:induction false} CreationsBound(t: Table, h: seq<Timed>, from: int, to: int, owner: Owner)
    requires Inv(t, from) && Within(h, from, to)
    ensures COOLDOWN * (Creations(t, h, owner) - 1) <= to - from
    decreases |h|
  {
    if h != [] {
      var u := Step(t, h[0]);
      StepKeeps(t, h[0], from);
      if Creates(t, h[0], owner) {
        CreationIsRemembered(t, h[0], owner);
        LaterCreations(u, h[1..], h[0].at, to, owner, h[0].at);
        WithinBounds(h[1..], h[0].at, to);
      } else {
        CreationsBound(u, h[1..], h[0].at, to, owner);
      }
    } else {
      WithinBounds(h, from, to);
    }
  }

  lemma {:induction false} WithinBounds(h: seq<Timed>, from: int, to: int)
    requires Within(h, from, to)
    ensures from <= to
    decreases |h|
  {
    if h != [] {
      WithinBounds(h[1..], h[0].at, to);
    }
  }

  // ---------- guesses of one owner over a span ----------

  predicate IsLive(t: Table, id: OtpId, owner: Owner, now: int) {
    id in t.rows && t.rows[id].owner == owner && t.rows[id].expiresAt >= now
  }

  /** What a further code adds to the wrong guesses its owner can get compared before any new request. */
  function Stacked(c: Code, older: int): int {
    if older > 0 then MAX_FAILURES - 1 - c.failures + older else MAX_FAILURES - c.failures
  }

  predicate IsBlocked(c: Code, now: int) {
    IsLocked(c, now) || c.expiresAt < now
  }

  /**
   The wrong guesses the codes with ids below `n` are good for: the newest unused one is compared first;
   guessing it right after at most four misses uncovers the next, and a fifth miss locks all of them away.
   */
  function Reach(t: Table, n: OtpId, owner: Owner, now: int): int {
    if n == 0 then 0
    else if n - 1 !in t.rows || !Matches(t.rows[n - 1], owner, true) then Reach(t, n - 1, owner, now)
    else if IsBlocked(t.rows[n - 1], now) then 0
    else Stacked(t.rows[n - 1], Reach(t, n - 1, owner, now))
  }

  function LiveCodes(t: Table, n: OtpId, owner: Owner, now: int): nat {
    if n == 0 then 0 else LiveCodes(t, n - 1, owner, now) + if IsLive(t, n - 1, owner, now) then 1 else 0
  }

  lemma {:induction false} ReachBounds(t: Table, n: OtpId, owner: Owner, now: int)
    requires Inv(t, now)
    ensures 0 <= Reach(t, n, owner, now) <= MAX_FAILURES * LiveCodes(t, n, owner, now)
    decreases n
  {
    if n > 0 {
      ReachBounds(t, n - 1, owner, now);
    }
  }

  /** Only the owner's unused codes count. */
  lemma {:induction false} ReachSame(t: Table, u: Table, n: OtpId, owner: Owner, now: int)
    requires forall id :: id < n && id in t.rows && Matches(t.rows[id], owner, true) ==> id in u.rows && u.rows[id] == t.rows[id]
    requires forall id :: id < n && id in u.rows && Matches(u.rows[id], owner, true) ==> id in t.rows && u.rows[id] == t.rows[id]
    ensures Reach(u, n, owner, now) == Reach(t, n, owner, now)
    decreases n
  {
    if n > 0 {
      ReachSame(t, u, n - 1, owner, now);
    }
  }

  lemma {:induction false} ReachSkips(t: Table, x: OtpId, n: OtpId, owner: Owner, now: int)
    requires x <= n && forall id :: x <= id < n && id in t.rows ==> !Matches(t.rows[id], owner, true)
    ensures Reach(t, n, owner, now) == Reach(t, x, owner, now)
    decreases n
  {
    if x < n {
      ReachSkips(t, x, n - 1, owner, now);
    }
  }

  /** As time passes codes only drop out: a lock never ends before its code expires. */
  lemma {:induction false} ReachAges(t: Table, n: OtpId, owner: Owner, now: int, later: int)
    requires Inv(t, now) && now <= later && n <= t.nextId
    ensures 0 <= Reach(t, n, owner, later) <= Reach(t, n, owner, now)
    decreases n
  {
    if n > 0 {
      ReachAges(t, n - 1, owner, now, later);
    }
  }

  lemma {:induction false} ReachCleaned(t: Table, n: OtpId, owner: Owner, now: int)
    requires Inv(t, now) && n <= t.nextId
    ensures Reach(Cleanup(t, now), n, owner, now) == Reach(t, n, owner, now)
    decreases n
  {
    if n > 0 {
      ReachCleaned(t, n - 1, owner, now);
      var u := Cleanup(t, now);
      if n - 1 in t.rows && Matches(t.rows[n - 1], owner, true) && t.rows[n - 1].expiresAt < now {
        ReachSkips(u, 0, n - 1, owner, now);
      }
    }
  }

  /** The newest unused code is the one with the highest id, so it is the first that counts. */
  lemma ReachStartsAt(t: Table, owner: Owner, now: int)
    requires Inv(t, now)
    ensures var recent := MostRecent(t.rows, t.nextId, owner, true);
      && (recent.None? ==> Reach(t, t.nextId, owner, now) == 0)
      && (recent.Some? ==>
            && (forall id :: id in t.rows && recent.value < id ==> !Matches(t.rows[id], owner, true))
            && Reach(t, t.nextId, owner, now) == Reach(t, recent.value + 1, owner, now))
  {
    var recent := MostRecent(t.rows, t.nextId, owner, true);
    ReachSkips(t, if recent.Some? then recent.value + 1 else 0, t.nextId, owner, now);
  }

  /** Nothing is left exactly when no code would be compared. */
  lemma ReachIsExposure(t: Table, owner: Owner, now: int)
    requires Inv(t, now)
    ensures Reach(t, t.nextId, owner, now) == 0 <==> Exposed(t, owner, now).None?
    ensures var x := Exposed(t, owner, now);
      x.Some? ==> Reach(t, t.nextId, owner, now) == Stacked(t.rows[x.value], Reach(t, x.value, owner, now))
  {
    ReachStartsAt(t, owner, now);
    var x := Exposed(t, owner, now);
    if x.Some? {
      ExposedHasGuessLeft(t, owner, now);
      ReachBounds(t, x.value, owner, now);
    }
  }

  /** Changing the first code that counts leaves what lies below it. */
  lemma {:induction false} FirstChanged(t: Table, u: Table, x: OtpId, d: Code, owner: Owner, now: int)
    requires x < t.nextId && u == t.(rows := t.rows[x := d])
    requires forall id :: id in t.rows && x < id ==> !Matches(t.rows[id], owner, true)
    ensures Reach(u, u.nextId, owner, now) == Reach(u, x + 1, owner, now)
    ensures Reach(u, x, owner, now) == Reach(t, x, owner, now)
  {
    ReachSkips(u, x + 1, u.nextId, owner, now);
    ReachSame(t, u, x, owner, now);
  }

  /** A compared guess, right or wrong, changes the first code that counts and no other. */
  lemma GuessReach(t: Table, owner: Owner, secret: string, now: int)
    requires Inv(t, now) && Exposed(t, owner, now).Some?
    ensures var x := Exposed(t, owner, now).value;
      var c, older, u := t.rows[x], Reach(t, x, owner, now), Step(t, Timed(now, Guess(owner, secret)));
      Reach(u, u.nextId, owner, now)
      == if c.secret == secret then older
         else if c.failures + 1 == MAX_FAILURES then 0
         else Stacked(c, older) - 1
  {
    var x := Exposed(t, owner, now).value;
    var c, u := t.rows[x], Step(t, Timed(now, Guess(owner, secret)));
    ReachStartsAt(t, owner, now);
    ExposedHasGuessLeft(t, owner, now);
    var d := if c.secret == secret then c.(verifiedAt := Some(now)) else Failed(c, now);
    assert u == t.(rows := t.rows[x := d]) && c.owner == owner && c.verifiedAt == None && !IsBlocked(c, now);
    FirstChanged(t, u, x, d, owner, now);
    hide Step, Inv, Exposed;
    assert u.rows[x] == d;
  }

  /** Using a code up uncovers an older one, if any. */
  lemma UsedUncoversOlder(t: Table, owner: Owner, now: int)
    requires Inv(t, now) && Exposed(t, owner, now).Some?
    ensures var x := Exposed(t, owner, now).value;
      var next := Exposed(Step(t, Timed(now, Guess(owner, t.rows[x].secret))), owner, now);
      next.Some? ==> next.value < x
  {
    ReachStartsAt(t, owner, now);
  }

  lemma RequestReach(t: Table, e: Timed, owner: Owner)
    requires Inv(t, e.at) && Creates(t, e, owner)
    ensures var u := Step(t, e); var older := Reach(t, t.nextId, owner, e.at);
      Reach(u, u.nextId, owner, e.at) == if older > 0 then MAX_FAILURES - 1 + older else MAX_FAILURES
  {
    ReachSame(t, Step(t, e), t.nextId, owner, e.at);
  }

  lemma OtherRowStays(t: Table, e: Timed, owner: Owner, id: OtpId)
    requires Inv(t, e.at) && !e.event.Sweep? && e.event.owner != owner
    ensures id in Step(t, e).rows && Step(t, e).rows[id].owner == owner <==> id in t.rows && t.rows[id].owner == owner
    ensures id in t.rows && t.rows[id].owner == owner ==> Step(t, e).rows[id] == t.rows[id]
    ensures t.nextId <= Step(t, e).nextId
  {
  }

  lemma OthersKeepReach(t: Table, e: Timed, owner: Owner)
    requires Inv(t, e.at) && !e.event.Sweep? && e.event.owner != owner
    ensures Reach(Step(t, e), Step(t, e).nextId, owner, e.at) == Reach(t, t.nextId, owner, e.at)
  {
    hide Step;
    var u := Step(t, e);
    OtherRowStays(t, e, owner, 0);
    forall id | id in u.rows && Matches(u.rows[id], owner, true)
      ensures id in t.rows && u.rows[id] == t.rows[id] && id < t.nextId
    {
      OtherRowStays(t, e, owner, id);
    }
    forall id | id in t.rows && Matches(t.rows[id], owner, true)
      ensures id in u.rows && u.rows[id] == t.rows[id]
    {
      OtherRowStays(t, e, owner, id);
    }
    ReachSame(t, u, t.nextId, owner, e.at);
    ReachSkips(u, t.nextId, u.nextId, owner, e.at);
  }

  /** One step spends what it compares, and gains at most five guesses, by a new code. */
  lemma ReachStep(t: Table, e: Timed, owner: Owner, now: int)
    requires Inv(t, now) && now <= e.at
    ensures var u := Step(t, e);
      Reach(u, u.nextId, owner, e.at) + (if OwnerWrong(t, e, owner) then 1 else 0)
      <= Reach(t, t.nextId, owner, now) + if Creates(t, e, owner) then MAX_FAILURES else 0
  {
    ReachAges(t, t.nextId, owner, now, e.at);
    assert Inv(t, e.at);
    ReachIsExposure(t, owner, e.at);
    hide Inv, Reach;
    match e.event
    case Sweep => ReachCleaned(t, t.nextId, owner, e.at);
    case Request(o, _) =>
      if o != owner {
        OthersKeepReach(t, e, owner);
      } else if Creates(t, e, owner) {
        RequestReach(t, e, owner);
      }
    case Guess(o, secret) =>
      if o != owner {
        OthersKeepReach(t, e, owner);
      } else if Exposed(t, owner, e.at).Some? {
        GuessReach(t, owner, secret, e.at);
        ExposedHasGuessLeft(t, owner, e.at);
        ReachBounds(t, Exposed(t, owner, e.at).value, owner, e.at);
      }
  }

  /** Guesses come out of what the existing codes are good for and of the codes created on the way. */
  lemma {:induction false} GuessBudget(t: Table, h: seq<Timed>, from: int, to: int, owner: Owner)
    requires Inv(t, from) && Within(h, from, to)
    ensures OwnerGuesses(t, h, owner) <= Reach(t, t.nextId, owner, from) + MAX_FAILURES * Creations(t, h, owner)
    decreases |h|
  {
    if h != [] {
      hide Inv, Step, Reach;
      StepKeeps(t, h[0], from);
      ReachStep(t, h[0], owner, from);
      GuessBudget(Step(t, h[0]), h[1..], h[0].at, to, owner);
    } else {
      ReachBounds(t, t.nextId, owner, from);
    }
  }

  /** Live codes were created within the last ten minutes, a minute apart. */
  lemma {:induction false} LiveCodesBound(t: Table, n: OtpId, owner: Owner, now: int) returns (last: OtpId)
    requires Inv(t, now) && LiveCodes(t, n, owner, now) > 0
    ensures last < n && IsLive(t, last, owner, now)
    ensures COOLDOWN * (LiveCodes(t, n, owner, now) - 1) <= t.rows[last].createdAt - now + EXPIRY
    decreases n
  {
    if LiveCodes(t, n - 1, owner, now) > 0 {
      last := LiveCodesBound(t, n - 1, owner, now);
    }
    if IsLive(t, n - 1, owner, now) {
      last := n - 1;
    }
  }

  /** The codes that are live or get created during a span fit into the span and the ten minutes before it. */
  lemma ReachableCodes(t: Table, h: seq<Timed>, from: int, to: int, owner: Owner)
    requires Inv(t, from) && Within(h, from, to)
    ensures COOLDOWN * (LiveCodes(t, t.nextId, owner, from) + Creations(t, h, owner) - 1) <= to - from + EXPIRY
  {
    if LiveCodes(t, t.nextId, owner, from) == 0 {
      CreationsBound(t, h, from, to, owner);
    } else {
      var last := LiveCodesBound(t, t.nextId, owner, from);
      hide Within, Creations, LiveCodes;
      LaterCreations(t, h, from, to, owner, t.rows[last].createdAt);
    }
  }

  /**
   Over any span, from any reachable state, the wrong guesses are at most five per minute of the span
   and the ten minutes before it.
   */
  lemma SpanBound(t: Table, h: seq<Timed>, from: int, to: int, owner: Owner)
    requires Inv(t, from) && Within(h, from, to)
    ensures OwnerGuesses(t, h, owner) <= MAX_FAILURES * ((to - from + EXPIRY) / COOLDOWN + 1)
  {
    hide Inv, Within, OwnerGuesses, Creations, LiveCodes, Reach;
    ReachableCodes(t, h, from, to, owner);
    ReachBounds(t, t.nextId, owner, from);
    GuessBudget(t, h, from, to, owner);
  }

  // ---------- five per minute, exactly when ----------

  /** The bound one would expect from the cooldown alone. */
  ghost predicate FivePerMinute(t: Table, h: seq<Timed>, from: int, to: int, owner: Owner) {
    Within(h, from, to) ==> OwnerGuesses(t, h, owner) <= MAX_FAILURES * ((to - from) / COOLDOWN + 1)
  }

  ghost predicate AlwaysFivePerMinute(t: Table, owner: Owner, from: int) {
    forall h, to :: FivePerMinute(t, h, from, to, owner)
  }

  /** The owner requested a code in this very millisecond. */
  predicate HasCodeFrom(t: Table, owner: Owner, time: int) {
    exists id :: id in t.rows && t.rows[id].owner == owner && t.rows[id].createdAt == time
  }

  /** Guesses that existing codes may cost: the cooldown since a code of this millisecond pays for five. */
  function Spare(t: Table, owner: Owner, from: int): int {
    if HasCodeFrom(t, owner, from) then MAX_FAILURES else 0
  }

  lemma LittleReachIsBounded(t: Table, h: seq<Timed>, from: int, to: int, owner: Owner)
    requires Inv(t, from) && Reach(t, t.nextId, owner, from) <= Spare(t, owner, from)
    ensures FivePerMinute(t, h, from, to, owner)
  {
    hide Inv, Within, Reach, OwnerGuesses, Creations;
    if Within(h, from, to) {
      GuessBudget(t, h, from, to, owner);
      if HasCodeFrom(t, owner, from) {
        assert Remembers(t, owner, from, from);
        LaterCreations(t, h, from, to, owner, from);
      } else {
        CreationsBound(t, h, from, to, owner);
      }
    }
  }

  /** Whatever the codes are good for can be spent within one millisecond. */
  lemma {:induction false} AllOfReachIsSpent(t: Table, owner: Owner, now: int) returns (h: seq<Timed>)
    requires Inv(t, now)
    ensures Within(h, now, now) && OwnerGuesses(t, h, owner) == Reach(t, t.nextId, owner, now)
    decreases Reach(t, t.nextId, owner, now), if Exposed(t, owner, now).Some? then Exposed(t, owner, now).value + 1 else 0
  {
    ReachIsExposure(t, owner, now);
    var x := Exposed(t, owner, now);
    if x.None? {
      return [];
    }
    var c, older := t.rows[x.value], Reach(t, x.value, owner, now);
    var secret := if older > 0 && c.failures + 1 == MAX_FAILURES then c.secret else c.secret + "0";
    var e := Timed(now, Guess(owner, secret));
    GuessReach(t, owner, secret, now);
    UsedUncoversOlder(t, owner, now);
    StepKeeps(t, e, now);
    var rest := AllOfReachIsSpent(Step(t, e), owner, now);
    h := [e] + rest;
    assert h[1..] == rest;
  }

  /** The first time from `from` on at which the owner may request a code. */
  function NextRequest(t: Table, owner: Owner, from: int): (time: int)
    ensures time >= from && !CoolingDown(t, owner, time)
  {
    var recent := MostRecent(t.rows, t.nextId, owner, false);
    if recent.Some? && t.rows[recent.value].createdAt + COOLDOWN > from then t.rows[recent.value].createdAt + COOLDOWN else from
  }

  lemma NextRequestIsSoon(t: Table, owner: Owner, from: int)
    requires Inv(t, from) && !HasCodeFrom(t, owner, from)
    ensures NextRequest(t, owner, from) < from + COOLDOWN
  {
  }

  /** A new code alone is good for five guesses. */
  lemma RequestAndSpend(t: Table, owner: Owner, from: int, time: int) returns (h: seq<Timed>)
    requires Inv(t, from) && from <= time && !CoolingDown(t, owner, time)
    ensures Within(h, from, time) && OwnerGuesses(t, h, owner) >= MAX_FAILURES
  {
    var e := Timed(time, Request(owner, "1"));
    assert Inv(t, time);
    StepKeeps(t, e, time);
    RequestReach(t, e, owner);
    var rest := AllOfReachIsSpent(Step(t, e), owner, time);
    h := [e] + rest;
    assert h[1..] == rest;
  }

  /** One guess at the code that is open now, a request within the minute, and five guesses at the new code. */
  lemma SixWithinAMinute(t: Table, owner: Owner, from: int) returns (h: seq<Timed>, to: int)
    requires Inv(t, from) && Exposed(t, owner, from).Some? && !HasCodeFrom(t, owner, from)
    ensures !FivePerMinute(t, h, from, to, owner)
  {
    var e := Timed(from, Guess(owner, t.rows[Exposed(t, owner, from).value].secret + "0"));
    var u := Step(t, e);
    StepKeeps(t, e, from);
    NextRequestIsSoon(u, owner, from);
    to := NextRequest(u, owner, from);
    var rest := RequestAndSpend(u, owner, from, to);
    h := [e] + rest;
    assert h[1..] == rest;
  }

  /**
   Five wrong guesses per started minute is a bound for every continuation if and only if the span starts
   with no code open to guesses or, at the millisecond of a request, with codes good for at most five.
   */
  lemma FivePerMinuteIff(t: Table, owner: Owner, from: int)
    requires Inv(t, from)
    ensures AlwaysFivePerMinute(t, owner, from) <==> Reach(t, t.nextId, owner, from) <= Spare(t, owner, from)
  {
    ReachIsExposure(t, owner, from);
    ReachBounds(t, t.nextId, owner, from);
    if Reach(t, t.nextId, owner, from) <= Spare(t, owner, from) {
      forall h, to
        ensures FivePerMinute(t, h, from, to, owner)
      {
        LittleReachIsBounded(t, h, from, to, owner);
      }
    } else if HasCodeFrom(t, owner, from) {
      var h := AllOfReachIsSpent(t, owner, from);
      assert !FivePerMinute(t, h, from, from, owner);
    } else {
      var h, to := SixWithinAMinute(t, owner, from);
    }
  }

  /** So it holds of every run of the whole system, which starts without codes. */
  lemma WholeRunBound(h: seq<Timed>, from: int, to: int, owner: Owner)
    requires Within(h, from, to)
    ensures OwnerGuesses(Table(map[], 0), h, owner) <= MAX_FAILURES * ((to - from) / COOLDOWN + 1)
  {
    EmptyInv(from);
    LittleReachIsBounded(Table(map[], 0), h, from, to, owner);
    assert FivePerMinute(Table(map[], 0), h, from, to, owner);
  }

  /** And it fails right after the first code: one millisecond later six guesses fit into a minute. */
  lemma OneCodeIsEnoughToExceed(owner: Owner, secret: string)
    ensures var t := Run(Table(map[], 0), [Timed(0, Request(owner, secret))]);
      !AlwaysFivePerMinute(t, owner, 1)
  {
    var start, request := Table(map[], 0), Timed(0, Request(owner, secret));
    var t := Step(start, request);
    assert Run(start, [request]) == t by {
      assert [request][1..] == [];
    }
    assert t == Table(map[0 := Code(owner, secret, 0, EXPIRY, None, 0, None)], 1);
    hide Run, Step, AlwaysFivePerMinute;
    assert Reach(t, 0, owner, 1) == 0 && Reach(t, 1, owner, 1) == MAX_FAILURES;
    FivePerMinuteIff(t, owner, 1);
  }

  // ---------- what each operation does ----------

  /** The unused code of the owner that was created last. */
  ghost predicate IsNewestUnused(t: Table, owner: Owner, id: OtpId) {
    && id in t.rows && t.rows[id].owner == owner && t.rows[id].verifiedAt == None
    && (forall other :: other in t.rows && t.rows[other].owner == owner && t.rows[other].verifiedAt == None
          ==> t.rows[other].createdAt <= t.rows[id].createdAt)
  }

  lemma NewestIsMostRecent(t: Table, owner: Owner, now: int, id: OtpId)
    requires Inv(t, now) && IsNewestUnused(t, owner, id)
    ensures MostRecent(t.rows, t.nextId, owner, true) == Some(id)
  {
    var recent := MostRecent(t.rows, t.nextId, owner, true);
    assert Matches(t.rows[id], owner, true);
    assert recent.Some? && t.rows[recent.value].createdAt == t.rows[id].createdAt;
  }

  /** Without an unused code there is nothing to verify, and with one that is the code verified. */
  lemma NoCodeIff(t: Table, owner: Owner, secret: string, now: int)
    requires Inv(t, now)
    ensures Verify(t, owner, secret, now).1 == NoCode
      <==> forall id :: id in t.rows && t.rows[id].owner == owner ==> t.rows[id].verifiedAt != None
    ensures Verify(t, owner, secret, now).1 == NoCode ==> Verify(t, owner, secret, now).0 == t
  {
    assert forall id :: id in t.rows ==> (Matches(t.rows[id], owner, true) <==> t.rows[id].owner == owner && t.rows[id].verifiedAt == None);
  }

  /**
   Each reply exactly when it is due, and what it writes: a locked code is refused before an expired one,
   an expired one before it is compared, the fifth miss locks for half an hour, and only the right secret is accepted.
   */
  lemma VerifyOutcome(t: Table, owner: Owner, secret: string, now: int, id: OtpId)
    requires Inv(t, now) && IsNewestUnused(t, owner, id)
    ensures var c := t.rows[id];
      var (u, reply) := Verify(t, owner, secret, now);
      var locked := c.lockedUntil.Some? && c.lockedUntil.value > now;
      && u.nextId == t.nextId && u.rows.Keys == t.rows.Keys
      && (forall other :: other in t.rows && other != id ==> u.rows[other] == t.rows[other])
      && (reply == LockedOut <==> locked)
      && (reply == Expired <==> !locked && now > c.expiresAt)
      && (reply == Verified <==> !locked && now <= c.expiresAt && secret == c.secret)
      && (reply == TooManyFailures <==> !locked && now <= c.expiresAt && secret != c.secret && c.failures >= 4)
      && (reply.Wrong? <==> !locked && now <= c.expiresAt && secret != c.secret && c.failures < 4)
      && (reply.Wrong? ==> reply.left == 4 - c.failures)
      && u.rows[id] == match reply
                       case Verified => c.(verifiedAt := Some(now))
                       case Wrong(_) => c.(failures := c.failures + 1)
                       case TooManyFailures => c.(failures := c.failures + 1, lockedUntil := Some(now + 1_800_000))
                       case _ => c
  {
    NewestIsMostRecent(t, owner, now, id);
    hide Inv, IsNewestUnused, MostRecent;
  }

  /** A request is refused exactly while a code of the owner is younger than a minute; a new code lives ten minutes. */
  lemma CreateOutcome(t: Table, owner: Owner, secret: string, now: int)
    requires Inv(t, now)
    ensures Create(t, owner, secret, now) == Err(Conflict)
      <==> exists id :: id in t.rows && t.rows[id].owner == owner && now - t.rows[id].createdAt < 60_000
    ensures Create(t, owner, secret, now) != Err(Conflict) ==>
      Create(t, owner, secret, now).Ok? &&
      Create(t, owner, secret, now).value
      == Table(t.rows[t.nextId := Code(owner, secret, now, now + 600_000, None, 0, None)], t.nextId + 1)
  {
    assert forall id :: id in t.rows ==> (Matches(t.rows[id], owner, false) <==> t.rows[id].owner == owner);
  }

  /** Cleanup deletes exactly the codes that have expired. */
  lemma CleanupOutcome(t: Table, now: int)
    ensures Cleanup(t, now).nextId == t.nextId
    ensures forall id :: id in Cleanup(t, now).rows <==> id in t.rows && now <= t.rows[id].expiresAt
    ensures forall id :: id in Cleanup(t, now).rows ==> Cleanup(t, now).rows[id] == t.rows[id]
  {
  }

  /** The code a step accepts, if any. */
  function AcceptedBy(t: Table, e: Timed): Option<OtpId> {
    if e.event.Guess? && Verify(t, e.event.owner, e.event.secret, e.at).1 == Verified
    then MostRecent(t.rows, t.nextId, e.event.owner, true) else None
  }

  function TimesAccepted(t: Table, h: seq<Timed>, id: OtpId): nat
    decreases |h|
  {
    if h == [] then 0 else (if AcceptedBy(t, h[0]) == Some(id) then 1 else 0) + TimesAccepted(Step(t, h[0]), h[1..], id)
  }

  /** An accepted code is at most ten minutes old and was given in full. */
  lemma AcceptedInTime(t: Table, e: Timed, now: int, id: OtpId)
    requires Inv(t, now) && now <= e.at && AcceptedBy(t, e) == Some(id)
    ensures id in t.rows && t.rows[id].owner == e.event.owner && t.rows[id].secret == e.event.secret
    ensures t.rows[id].createdAt <= e.at <= t.rows[id].createdAt + 600_000
    ensures id in Step(t, e).rows && Step(t, e).rows[id].verifiedAt == Some(e.at)
  {
  }

  /** No longer in the table, or used. */
  predicate IsSpent(t: Table, id: OtpId) {
    id < t.nextId && (id in t.rows ==> t.rows[id].verifiedAt.Some?)
  }

  lemma SpentStays(t: Table, e: Timed, now: int, id: OtpId)
    requires Inv(t, now) && IsSpent(t, id)
    ensures IsSpent(Step(t, e), id) && AcceptedBy(t, e) != Some(id)
  {
  }

  /** In any run a code is accepted at most once. */
  lemma {:induction false} AcceptedAtMostOnce(t: Table, h: seq<Timed>, from: int, to: int, id: OtpId)
    requires Inv(t, from) && Within(h, from, to)
    ensures TimesAccepted(t, h, id) <= 1
    ensures IsSpent(t, id) ==> TimesAccepted(t, h, id) == 0
    decreases |h|
  {
    if h != [] {
      StepKeeps(t, h[0], from);
      AcceptedAtMostOnce(Step(t, h[0]), h[1..], h[0].at, to, id);
      if IsSpent(t, id) {
        SpentStays(t, h[0], from, id);
      } else if AcceptedBy(t, h[0]) == Some(id) {
        AcceptedInTime(t, h[0], from, id);
      }
    }
  }

  // ---------- the service ----------

  class OtpService {
    var rows: map<OtpId, Code>
    var nextId: OtpId

    constructor ()
      ensures Codes() == Table(map[], 0)
    {
      rows, nextId := map[], 0;
    }

    function Codes(): Table
      reads this
    {
      Table(rows, nextId)
    }

    method ValidateCooldown(owner: Owner, now: int) returns (r: Result<()>)
      ensures r == if CoolingDown(Codes(), owner, now) then Err(Conflict) else Ok(())
    {
      var recent := MostRecent(rows, nextId, owner, false);
      if recent.Some? {
        var sinceLast := now - rows[recent.value].createdAt;
        if sinceLast < COOLDOWN {
          return Err(Conflict);
        }
      }
      return Ok(());
    }

    /** `secret` is the generated code. */
    method CreateOtpCode(owner: Owner, secret: string, now: int) returns (r: Result<OtpId>)
      modifies this
      ensures match Create(old(Codes()), owner, secret, now)
              case Ok(t) => r == Ok(old(nextId)) && Codes() == t
              case Err(e) => r == Err(e) && Codes() == old(Codes())
      ensures old(Inv(Codes(), now)) ==> Inv(Codes(), now)
    {
      if old(Inv(Codes(), now)) {
        StepKeeps(Codes(), Timed(now, Request(owner, secret)), now);
      }
      var cooldown := ValidateCooldown(owner, now);
      if cooldown.Err? {
        return Err(cooldown.error);
      }
      r := Ok(nextId);
      rows := rows[nextId := Code(owner, secret, now, now + EXPIRY, None, 0, None)];
      nextId := nextId + 1;
    }

    method IncrementFailureCount(id: OtpId) returns (failures: nat)
      requires id in rows
      modifies this`rows
      ensures failures == old(rows)[id].failures + 1
      ensures rows == old(rows)[id := old(rows)[id].(failures := failures)]
    {
      failures := rows[id].failures + 1;
      rows := rows[id := rows[id].(failures := failures)];
    }

    method LockOtp(id: OtpId, now: int)
      requires id in rows
      modifies this`rows
      ensures rows == old(rows)[id := old(rows)[id].(lockedUntil := Some(now + LOCK_TIME))]
    {
      rows := rows[id := rows[id].(lockedUntil := Some(now + LOCK_TIME))];
    }

    method VerifyOtp(owner: Owner, secret: string, now: int) returns (reply: Reply)
      modifies this`rows
      ensures (Codes(), reply) == Verify(old(Codes()), owner, secret, now)
      ensures old(Inv(Codes(), now)) ==> Inv(Codes(), now)
    {
      if old(Inv(Codes(), now)) {
        StepKeeps(Codes(), Timed(now, Guess(owner, secret)), now);
      }
      var recent := MostRecent(rows, nextId, owner, true);
      if recent.None? {
        return NoCode;
      }
      var id := recent.value;
      if IsLocked(rows[id], now) {
        return LockedOut;
      }
      if rows[id].expiresAt < now {
        return Expired;
      }
      if rows[id].secret != secret {
        var failures := IncrementFailureCount(id);
        if failures >= MAX_FAILURES {
          LockOtp(id, now);
          assert rows == old(rows)[id := Failed(old(rows)[id], now)];
          return TooManyFailures;
        }
        return Wrong(MAX_FAILURES - failures);
      }
      rows := rows[id := rows[id].(verifiedAt := Some(now))];
      return Verified;
    }

    method CleanupExpiredOtps(now: int) returns (deleted: nat)
      modifies this`rows
      ensures Codes() == Cleanup(old(Codes()), now)
      ensures deleted == |set id | id in old(rows) && old(rows)[id].expiresAt < now|
    {
      deleted := |set id | id in rows && rows[id].expiresAt < now|;
      rows := map id | id in rows && rows[id].expiresAt >= now :: rows[id];
    }
  }
}

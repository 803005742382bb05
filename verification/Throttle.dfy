/** The sliding-window request counter: one Redis sorted set of millisecond timestamps per client key. */
module Throttle {
  type Key = nat

  /** A sorted set whose members are their own scores, and the time after which the server drops the key. */
  datatype Entry = Entry(stamps: set<nat>, expiresAt: nat)

  type Store = map<Key, Entry>

  /** `at` and `blockDuration` are in milliseconds, `ttl` is in seconds as the storage reads it. */
  datatype Call = Call(key: Key, at: nat, ttl: nat, limit: nat, blockDuration: nat)

  datatype Record = Record(totalHits: nat, timeToExpire: nat, isBlocked: bool, timeToBlockExpire: nat)

  function Width(c: Call): nat {
    c.ttl * 1000
  }

  // ---------- one request ----------

  /** What the server holds for a key at a given time. */
  function Alive(st: Store, key: Key, now: nat): set<nat> {
    if key in st && now <= st[key].expiresAt then st[key].stamps else {}
  }

  /** After pruning with inclusive bounds and adding the new timestamp. */
  function Kept(st: Store, c: Call): set<nat> {
    Pruned(Alive(st, c.key, c.at), 0, c.at - Width(c)) + {c.at}
  }

  function Pruned(stamps: set<nat>, low: int, high: int): set<nat> {
    set s | s in stamps && !(low <= s <= high)
  }

  function Between(stamps: set<nat>, low: int, high: int): set<nat> {
    set s | s in stamps && low <= s <= high
  }

  function Hits(st: Store, c: Call): nat {
    |Between(Kept(st, c), c.at - Width(c), c.at)|
  }

  /** An expiry of zero seconds deletes the key at once. */
  function After(st: Store, c: Call): Store {
    if c.ttl == 0 then st - {c.key} else st[c.key := Entry(Kept(st, c), c.at + Width(c))]
  }

  function Answer(st: Store, c: Call): Record {
    var hits := Hits(st, c);
    Record(hits, Width(c), hits > c.limit, if hits > c.limit then c.blockDuration else 0)
  }

  // ---------- whole histories ----------

  function Run(calls: seq<Call>): Store {
    if calls == [] then map[] else After(Run(calls[..|calls| - 1]), calls[|calls| - 1])
  }

  predicate Blocked(calls: seq<Call>, i: nat)
    requires i < |calls|
  {
    Answer(Run(calls[..i]), calls[i]).isBlocked
  }

  ghost predicate InOrder(calls: seq<Call>) {
    forall i, j :: 0 <= i < j < |calls| ==> calls[i].at <= calls[j].at
  }

  predicate Falls(c: Call, key: Key, from: int, to: int) {
    c.key == key && from < c.at <= to
  }

  /** The distinct timestamps of all requests ever made under the key in (from, to]. */
  function Recent(calls: seq<Call>, key: Key, from: int, to: int): set<nat> {
    set i | 0 <= i < |calls| && Falls(calls[i], key, from, to) :: calls[i].at
  }

  ghost predicate WidthAtLeast(calls: seq<Call>, key: Key, width: nat) {
    forall i :: 0 <= i < |calls| && calls[i].key == key ==> width <= Width(calls[i])
  }

  lemma RecentAppend(calls: seq<Call>, key: Key, from: int, to: int)
    requires calls != []
    ensures var last := calls[|calls| - 1];
      Recent(calls, key, from, to)
      == Recent(calls[..|calls| - 1], key, from, to) + if Falls(last, key, from, to) then {last.at} else {}
  {
  }

  // ---------- what is stored, exactly ----------

  /** After request p the key lives on until it is used again or until `now`. */
  ghost predicate Bridged(calls: seq<Call>, p: nat, now: nat)
    requires p < |calls|
  {
    && calls[p].ttl > 0
    && (now <= calls[p].at + Width(calls[p])
        || exists n :: p < n < |calls| && calls[n].key == calls[p].key && calls[n].at <= calls[p].at + Width(calls[p]))
  }

  /** No later request of the key prunes the timestamp of request i, and the key never expires from i on. */
  ghost predicate Survives(calls: seq<Call>, i: nat, now: nat)
    requires i < |calls|
  {
    && (forall j :: i < j < |calls| && calls[j].key == calls[i].key ==> calls[j].at - Width(calls[j]) < calls[i].at)
    && (forall p :: i <= p < |calls| && calls[p].key == calls[i].key ==> Bridged(calls, p, now))
  }

  ghost predicate Outlives(calls: seq<Call>, key: Key, now: nat, s: nat) {
    exists i: nat :: i < |calls| && calls[i].key == key && calls[i].at == s && Survives(calls, i, now)
  }

  lemma BridgedStep(calls: seq<Call>, p: nat, now: nat)
    requires InOrder(calls) && calls != [] && p < |calls| - 1 && calls[|calls| - 1].at <= now
    ensures var before, c := calls[..|calls| - 1], calls[|calls| - 1];
      Bridged(calls, p, now) <==> Bridged(before, p, if c.key == calls[p].key then c.at else now)
  {
    var before, n := calls[..|calls| - 1], |calls| - 1;
    assert forall i :: 0 <= i < n ==> before[i] == calls[i];
  }

  /** Whether a timestamp survives one more request. */
  lemma SurvivesStep(calls: seq<Call>, i: nat, now: nat)
    requires InOrder(calls) && calls != [] && i < |calls| - 1 && calls[|calls| - 1].at <= now
    ensures var before, c := calls[..|calls| - 1], calls[|calls| - 1];
      Survives(calls, i, now) <==>
        if c.key == calls[i].key
        then Survives(before, i, c.at) && c.at - Width(c) < calls[i].at && c.ttl > 0 && now <= c.at + Width(c)
        else Survives(before, i, now)
  {
    hide Bridged;
    var n := |calls| - 1;
    var before, c := calls[..n], calls[n];
    assert forall j :: 0 <= j < n ==> before[j] == calls[j];
    forall p: nat | p < n && calls[p].key == calls[i].key
      ensures Bridged(calls, p, now) <==> Bridged(before, p, if c.key == calls[p].key then c.at else now)
    {
      BridgedStep(calls, p, now);
    }
    LastBridged(calls, now);
  }

  lemma LastBridged(calls: seq<Call>, now: nat)
    requires calls != []
    ensures var c := calls[|calls| - 1]; Bridged(calls, |calls| - 1, now) <==> c.ttl > 0 && now <= c.at + Width(c)
  {
  }

  lemma OutlivesStep(calls: seq<Call>, key: Key, now: nat, s: nat)
    requires InOrder(calls) && calls != [] && calls[|calls| - 1].at <= now
    ensures var before, c := calls[..|calls| - 1], calls[|calls| - 1];
      Outlives(calls, key, now, s) <==>
        if c.key == key
        then c.ttl > 0 && now <= c.at + Width(c) && (s == c.at || (Outlives(before, key, c.at, s) && c.at - Width(c) < s))
        else Outlives(before, key, now, s)
  {
    hide Survives;
    var n := |calls| - 1;
    var before, c := calls[..n], calls[n];
    forall i: nat | i < n
      ensures before[i] == calls[i]
      ensures Survives(calls, i, now) <==>
        if c.key == calls[i].key
        then Survives(before, i, c.at) && c.at - Width(c) < calls[i].at && c.ttl > 0 && now <= c.at + Width(c)
        else Survives(before, i, now)
    {
      SurvivesStep(calls, i, now);
    }
    LastSurvives(calls, now);
  }

  lemma LastSurvives(calls: seq<Call>, now: nat)
    requires calls != []
    ensures var c := calls[|calls| - 1]; Survives(calls, |calls| - 1, now) <==> c.ttl > 0 && now <= c.at + Width(c)
  {
    LastBridged(calls, now);
  }

  lemma AliveStep(st: Store, c: Call, key: Key, now: nat, s: nat)
    requires c.at <= now
    ensures s in Alive(After(st, c), key, now) <==>
      if c.key == key
      then c.ttl > 0 && now <= c.at + Width(c) && (s == c.at || (s in Alive(st, key, c.at) && c.at - Width(c) < s))
      else s in Alive(st, key, now)
  {
  }

  /**
   Whatever the ttls, a timestamp is stored exactly if a request that made it survives: no later
   request of the key pruned it, and the key was always used again before it expired.
   */
  lemma {:induction false} StoredExactly(calls: seq<Call>, key: Key, now: nat, s: nat)
    requires InOrder(calls) && (calls != [] ==> calls[|calls| - 1].at <= now)
    ensures s in Alive(Run(calls), key, now) <==> Outlives(calls, key, now, s)
    decreases |calls|
  {
    if calls != [] {
      hide Outlives, Alive, After;
      var n := |calls| - 1;
      var c, before := calls[n], calls[..n];
      assert forall i :: 0 <= i < n ==> before[i] == calls[i];
      OutlivesStep(calls, key, now, s);
      AliveStep(Run(before), c, key, now, s);
      StoredExactly(before, key, if c.key == key then c.at else now, s);
    }
  }

  /** In a window no wider than the key's shortest ttl every timestamp survives. */
  lemma {:induction false} WindowSurvives(calls: seq<Call>, key: Key, width: nat, now: nat, i: nat)
    requires InOrder(calls) && WidthAtLeast(calls, key, width)
    requires i < |calls| && Falls(calls[i], key, now - width, now) && calls[|calls| - 1].at <= now
    ensures Survives(calls, i, now)
  {
  }

  /**
   Pruning and expiry forget nothing that matters and invent nothing: at any later time the stored
   timestamps in a window no wider than the key's shortest ttl are those of the whole history.
   */
  lemma StoreIsWindow(calls: seq<Call>, key: Key, width: nat, now: nat)
    requires InOrder(calls) && WidthAtLeast(calls, key, width)
    requires calls != [] ==> calls[|calls| - 1].at <= now
    ensures Later(Alive(Run(calls), key, now), now - width) == Recent(calls, key, now - width, now)
  {
    hide Alive, Run, Survives;
    var stored, recent := Later(Alive(Run(calls), key, now), now - width), Recent(calls, key, now - width, now);
    forall s | s in stored
      ensures s in recent
    {
      StoredExactly(calls, key, now, s);
      var i: nat :| i < |calls| && calls[i].key == key && calls[i].at == s && Survives(calls, i, now);
      assert Falls(calls[i], key, now - width, now);
    }
    forall s | s in recent
      ensures s in stored
    {
      var i :| 0 <= i < |calls| && Falls(calls[i], key, now - width, now) && calls[i].at == s;
      WindowSurvives(calls, key, width, now, i);
      StoredExactly(calls, key, now, s);
    }
  }

  function Later(stamps: set<nat>, time: int): set<nat> {
    set s | s in stamps && s > time
  }

  // ---------- what is counted ----------

  /** The distinct timestamps a request counts: the stored ones in its own window, and its own. */
  lemma {:induction false} CountedIsStored(st: Store, c: Call)
    requires c.ttl > 0 && forall s :: s in Alive(st, c.key, c.at) ==> s <= c.at
    ensures Between(Kept(st, c), c.at - Width(c), c.at) == Later(Alive(st, c.key, c.at), c.at - Width(c)) + {c.at}
  {
    hide Alive;
  }

  lemma StoredIsRecent(calls: seq<Call>, c: Call)
    requires InOrder(calls) && (calls != [] ==> calls[|calls| - 1].at <= c.at)
    ensures forall s :: s in Alive(Run(calls), c.key, c.at) ==> s <= c.at
    ensures Later(Alive(Run(calls), c.key, c.at), c.at - Width(c)) <= Recent(calls, c.key, c.at - Width(c), c.at)
  {
    hide Alive, Run, Survives;
    forall s | s in Alive(Run(calls), c.key, c.at)
      ensures s <= c.at && (s > c.at - Width(c) ==> s in Recent(calls, c.key, c.at - Width(c), c.at))
    {
      StoredExactly(calls, c.key, c.at, s);
      var i: nat :| i < |calls| && calls[i].key == c.key && calls[i].at == s && Survives(calls, i, c.at);
      assert s > c.at - Width(c) ==> Falls(calls[i], c.key, c.at - Width(c), c.at);
    }
  }

  /** Every counted timestamp is one of the whole history in the request's own window. */
  lemma HitsAreRecent(calls: seq<Call>, c: Call)
    requires InOrder(calls + [c]) && c.ttl > 0
    ensures var stored := Later(Alive(Run(calls), c.key, c.at), c.at - Width(c));
      var recent := Recent(calls + [c], c.key, c.at - Width(c), c.at);
      Hits(Run(calls), c) == |stored + {c.at}| && stored + {c.at} <= recent
  {
    hide Alive, Run, Recent, Kept;
    var all := calls + [c];
    assert all[..|calls|] == calls && all[|calls|] == c;
    assert forall i :: 0 <= i < |calls| ==> all[i] == calls[i];
    StoredIsRecent(calls, c);
    CountedIsStored(Run(calls), c);
    RecentAppend(all, c.key, c.at - Width(c), c.at);
  }

  /** Whatever the ttls were, no request is blocked by timestamps from outside its own window. */
  lemma HitsNeverOvercount(calls: seq<Call>, c: Call)
    requires InOrder(calls + [c]) && c.ttl > 0
    ensures Hits(Run(calls), c) <= |Recent(calls + [c], c.key, c.at - Width(c), c.at)|
  {
    HitsAreRecent(calls, c);
    SubsetSize(Later(Alive(Run(calls), c.key, c.at), c.at - Width(c)) + {c.at}, Recent(calls + [c], c.key, c.at - Width(c), c.at));
  }

  /** Every earlier timestamp of the key in the request's window has survived until the request. */
  ghost predicate NothingForgotten(calls: seq<Call>, c: Call) {
    forall i :: 0 <= i < |calls| && Falls(calls[i], c.key, c.at - Width(c), c.at) && calls[i].at < c.at
      ==> Outlives(calls, c.key, c.at, calls[i].at)
  }

  /**
   The answered count is the number of distinct timestamps of the key's whole history in the request's
   own window if and only if no request pruned, and no gap expired, one of them.
   */
  lemma HitsExactIff(calls: seq<Call>, c: Call)
    requires InOrder(calls + [c])
    ensures Hits(Run(calls), c) == |Recent(calls + [c], c.key, c.at - Width(c), c.at)|
      <==> c.ttl > 0 && NothingForgotten(calls, c)
  {
    var recent := Recent(calls + [c], c.key, c.at - Width(c), c.at);
    if c.ttl == 0 {
      assert recent == {};
      assert c.at in Between(Kept(Run(calls), c), c.at - Width(c), c.at);
    } else {
      var stored := Later(Alive(Run(calls), c.key, c.at), c.at - Width(c));
      HitsAreRecent(calls, c);
      NothingForgottenIff(calls, c);
      SubsetEqual(stored + {c.at}, recent);
    }
  }

  lemma NothingForgottenIff(calls: seq<Call>, c: Call)
    requires InOrder(calls + [c]) && c.ttl > 0
    ensures var stored := Later(Alive(Run(calls), c.key, c.at), c.at - Width(c));
      Recent(calls + [c], c.key, c.at - Width(c), c.at) <= stored + {c.at} <==> NothingForgotten(calls, c)
  {
    hide Alive, Run, Outlives;
    var all := calls + [c];
    assert all[..|calls|] == calls && all[|calls|] == c;
    assert forall i :: 0 <= i < |calls| ==> all[i] == calls[i];
    RecentAppend(all, c.key, c.at - Width(c), c.at);
    var stored := Later(Alive(Run(calls), c.key, c.at), c.at - Width(c));
    forall i | 0 <= i < |calls| && Falls(calls[i], c.key, c.at - Width(c), c.at)
      ensures calls[i].at in Recent(calls, c.key, c.at - Width(c), c.at)
      ensures calls[i].at in stored <==> Outlives(calls, c.key, c.at, calls[i].at)
    {
      StoredExactly(calls, c.key, c.at, calls[i].at);
    }
  }

  /** As long as one key has one ttl, or its ttls never grow, every count is exact. */
  lemma HitsExact(calls: seq<Call>, c: Call)
    requires InOrder(calls + [c]) && WidthAtLeast(calls, c.key, Width(c)) && c.ttl > 0
    ensures Hits(Run(calls), c) == |Recent(calls + [c], c.key, c.at - Width(c), c.at)|
  {
    assert forall i :: 0 <= i < |calls| ==> (calls + [c])[i] == calls[i];
    assert (calls + [c])[|calls|] == c;
    forall i | 0 <= i < |calls| && Falls(calls[i], c.key, c.at - Width(c), c.at)
      ensures Outlives(calls, c.key, c.at, calls[i].at)
    {
      WindowSurvives(calls, c.key, Width(c), c.at, i);
    }
    HitsExactIff(calls, c);
  }

  lemma {:induction false} SubsetSize(a: set<nat>, b: set<nat>)
    requires a <= b
    ensures |a| <= |b|
    decreases b
  {
    if b != {} {
      var x :| x in b;
      SubsetSize(a - {x}, b - {x});
    }
  }

  lemma SubsetEqual(a: set<nat>, b: set<nat>)
    requires a <= b
    ensures |a| == |b| <==> b <= a
  {
    assert b == a + (b - a);
  }

  const WIDE_REQUEST := Call(0, 0, 10, 1, 0)
  const NARROW_REQUEST := Call(0, 5000, 1, 1, 0)
  const WIDE_AGAIN := Call(0, 6000, 10, 1, 0)

  /** Mixing ttls under one key can make a wide window undercount: a narrow request prunes what it needs. */
  lemma NarrowTtlForgets()
    ensures InOrder([WIDE_REQUEST, NARROW_REQUEST, WIDE_AGAIN])
    ensures Hits(Run([WIDE_REQUEST, NARROW_REQUEST]), WIDE_AGAIN) == 2
    ensures Recent([WIDE_REQUEST, NARROW_REQUEST, WIDE_AGAIN], 0, 6000 - Width(WIDE_AGAIN), 6000) == {0, 5000, 6000}
  {
    assert [WIDE_REQUEST, NARROW_REQUEST][..1] == [WIDE_REQUEST] && [WIDE_REQUEST][..0] == [];
    assert Kept(map[], WIDE_REQUEST) == {0};
    var st := After(map[], WIDE_REQUEST);
    assert Kept(st, NARROW_REQUEST) == {5000};
    assert Run([WIDE_REQUEST]) == st;
    var now := After(st, NARROW_REQUEST);
    assert Run([WIDE_REQUEST, NARROW_REQUEST]) == now;
    assert Between(Kept(now, WIDE_AGAIN), -4000, 6000) == {5000, 6000};
    var all := [WIDE_REQUEST, NARROW_REQUEST, WIDE_AGAIN];
    forall i | 0 <= i < 3
      ensures Falls(all[i], 0, -4000, 6000) && all[i].at in {0, 5000, 6000}
    {
    }
    assert all[0].at == 0 && all[1].at == 5000 && all[2].at == 6000;
  }

  /**
   The whole answer, with one ttl per key: the hits are the distinct timestamps of the last `ttl` seconds,
   the request is blocked exactly if they exceed the limit, and only then for the block duration.
   */
  lemma {:induction false} AnswerOutcome(calls: seq<Call>, c: Call)
    requires InOrder(calls + [c]) && c.ttl > 0
    requires forall i :: 0 <= i < |calls| && calls[i].key == c.key ==> calls[i].ttl >= c.ttl
    ensures var hits := |Recent(calls + [c], c.key, c.at - c.ttl * 1000, c.at)|;
      Answer(Run(calls), c)
      == Record(hits, c.ttl * 1000, hits > c.limit, if hits > c.limit then c.blockDuration else 0)
  {
    hide Hits, Run, Recent, InOrder;
    assert Width(c) == c.ttl * 1000 && WidthAtLeast(calls, c.key, Width(c));
    HitsExact(calls, c);
  }

  // ---------- what the counter guarantees ----------

  ghost predicate Uniform(calls: seq<Call>, key: Key, width: nat, limit: nat) {
    forall i :: 0 <= i < |calls| && calls[i].key == key ==> Width(calls[i]) == width && calls[i].limit == limit
  }

  predicate Passes(calls: seq<Call>, i: nat, key: Key, from: int, to: int)
    requires i < |calls|
  {
    Falls(calls[i], key, from, to) && !Blocked(calls, i)
  }

  /** The indices of the requests let through in (from, to]. */
  function Passed(calls: seq<Call>, key: Key, from: int, to: int): set<nat> {
    set i: nat | i < |calls| && Passes(calls, i, key, from, to)
  }

  function Stamps(calls: seq<Call>, indices: set<nat>): set<nat> {
    set i | i in indices && i < |calls| :: calls[i].at
  }

  /** In every window as long as the ttl the requests let through have at most `limit` distinct timestamps. */
  lemma WindowLimit(calls: seq<Call>, key: Key, width: nat, limit: nat, from: int)
    requires InOrder(calls) && Uniform(calls, key, width, limit)
    ensures |Stamps(calls, Passed(calls, key, from, from + width))| <= limit
  {
    hide Recent, Blocked;
    var passed := Passed(calls, key, from, from + width);
    if passed == {} {
      assert Stamps(calls, passed) == {};
    } else {
      var last := Latest(passed);
      HitsInWindow(calls, key, width, from, last);
      var c := calls[last];
      var counted := Recent(calls[..last] + [c], key, c.at - width, c.at);
      forall s | s in Stamps(calls, passed)
        ensures s in counted
      {
        var i :| i in passed && calls[i].at == s;
        PassedIsCounted(calls, key, width, from, i, last);
      }
      SubsetSize(Stamps(calls, passed), counted);
    }
  }

  lemma PassedIsCounted(calls: seq<Call>, key: Key, width: nat, from: int, i: nat, last: nat)
    requires InOrder(calls) && i <= last < |calls|
    requires Falls(calls[i], key, from, from + width) && Falls(calls[last], key, from, from + width)
    ensures calls[i].at in Recent(calls[..last] + [calls[last]], key, calls[last].at - width, calls[last].at)
  {
    var all := calls[..last] + [calls[last]];
    assert all[i] == calls[i] && calls[i].at <= calls[last].at;
    assert Falls(all[i], key, calls[last].at - width, calls[last].at);
  }

  lemma {:induction false} HitsInWindow(calls: seq<Call>, key: Key, width: nat, from: int, last: nat)
    requires InOrder(calls) && (forall i :: 0 <= i < |calls| && calls[i].key == key ==> Width(calls[i]) == width)
    requires last < |calls| && Passes(calls, last, key, from, from + width)
    ensures |Recent(calls[..last] + [calls[last]], key, calls[last].at - width, calls[last].at)| <= calls[last].limit
  {
    assert calls[..last] + [calls[last]] == calls[..last + 1];
    HitsExact(calls[..last], calls[last]);
  }

  lemma Latest(indices: set<nat>) returns (last: nat)
    requires indices != {}
    ensures last in indices && forall i :: i in indices ==> i <= last
    decreases indices
  {
    last :| last in indices;
    var rest := indices - {last};
    assert forall i :: i in indices ==> i in rest || i == last;
    if rest != {} {
      var other := Latest(rest);
      last := if other > last then other else last;
    }
  }

  /** At most `m` requests share a key and a millisecond. */
  ghost predicate AtMostPerMillisecond(calls: seq<Call>, key: Key, m: nat) {
    forall s: nat :: |At(calls, key, s)| <= m
  }

  function At(calls: seq<Call>, key: Key, s: nat): set<nat> {
    set i: nat | i < |calls| && calls[i].key == key && calls[i].at == s
  }

  /**
   The number of requests let through is bounded by the limit times the requests per millisecond:
   by the limit itself when no two requests share a millisecond.
   */
  lemma RequestLimit(calls: seq<Call>, key: Key, width: nat, limit: nat, from: int, m: nat)
    requires InOrder(calls) && Uniform(calls, key, width, limit) && AtMostPerMillisecond(calls, key, m)
    ensures |Passed(calls, key, from, from + width)| <= limit * m
  {
    var passed := Passed(calls, key, from, from + width);
    WindowLimit(calls, key, width, limit, from);
    Fibres(calls, key, passed, Stamps(calls, passed), m);
    MulMonotone(|Stamps(calls, passed)|, limit, m);
  }

  lemma MulMonotone(a: nat, b: nat, m: nat)
    requires a <= b
    ensures a * m <= b * m
  {
  }

  lemma OneMoreFibre(n: nat, m: nat)
    ensures (n + 1) * m == n * m + m
  {
  }

  lemma {:induction false} Fibres(calls: seq<Call>, key: Key, indices: set<nat>, stamps: set<nat>, m: nat)
    requires forall i :: i in indices ==> i < |calls| && calls[i].key == key && calls[i].at in stamps
    requires AtMostPerMillisecond(calls, key, m)
    ensures |indices| <= |stamps| * m
    decreases stamps
  {
    if stamps == {} {
      assert indices == {};
    } else {
      var s :| s in stamps;
      var here := indices * At(calls, key, s);
      Fibres(calls, key, indices - here, stamps - {s}, m);
      SubsetSize(here, At(calls, key, s));
      assert |indices| == |indices - here| + |here|;
      OneMoreFibre(|stamps| - 1, m);
    }
  }

  function Burst(c: Call, n: nat): seq<Call> {
    seq(n, _ => c)
  }

  /** Within one millisecond the counter never gets past one: a burst of any size passes a positive limit. */
  lemma BurstPasses(c: Call, n: nat)
    requires c.ttl > 0 && c.limit > 0
    ensures |Passed(Burst(c, n), c.key, c.at - Width(c), c.at)| == n
  {
    forall i: nat | i in Below(n)
      ensures !Blocked(Burst(c, n), i)
    {
      BurstNeverBlocked(c, n, i);
    }
    assert Passed(Burst(c, n), c.key, c.at - Width(c), c.at) == Below(n);
  }

  lemma BurstNeverBlocked(c: Call, n: nat, i: nat)
    requires c.ttl > 0 && c.limit > 0 && i < n
    ensures !Blocked(Burst(c, n), i)
  {
    var before := Burst(c, n)[..i];
    HitsExact(before, c);
    var recent := Recent(before + [c], c.key, c.at - Width(c), c.at);
    assert forall s :: s in recent ==> s == c.at;
    SubsetSize(recent, {c.at});
  }

  function Below(n: nat): (below: set<nat>)
    ensures |below| == n && forall i :: i in below <==> 0 <= i < n
  {
    if n == 0 then {} else Below(n - 1) + {n - 1}
  }

  // ---------- the storage service ----------

  class RedisThrottlerStorage {
    var store: Store

    constructor ()
      ensures store == map[]
    {
      store := map[];
    }

    /** Redis removes a key lazily when its expiry has passed. */
    method Touch(key: Key, now: nat)
      modifies this
      ensures store == if key in old(store) && now > old(store)[key].expiresAt then old(store) - {key} else old(store)
    {
      if key in store && now > store[key].expiresAt {
        store := store - {key};
      }
    }

    method ZRemRangeByScore(key: Key, low: int, high: int)
      modifies this
      ensures store == if key in old(store)
                       then old(store)[key := old(store)[key].(stamps := Pruned(old(store)[key].stamps, low, high))]
                       else old(store)
    {
      if key in store {
        store := store[key := store[key].(stamps := Pruned(store[key].stamps, low, high))];
      }
    }

    method ZAdd(key: Key, score: nat)
      modifies this
      ensures store == if key in old(store)
                       then old(store)[key := old(store)[key].(stamps := old(store)[key].stamps + {score})]
                       else old(store)[key := Entry({score}, 0)]
    {
      if key in store {
        store := store[key := store[key].(stamps := store[key].stamps + {score})];
      } else {
        store := store[key := Entry({score}, 0)];
      }
    }

    method Increment(c: Call) returns (r: Record)
      modifies this
      ensures r == Answer(old(store), c)
      ensures store == After(old(store), c)
    {
      var windowStart := c.at - c.ttl * 1000;
      Touch(c.key, c.at);
      ZRemRangeByScore(c.key, 0, windowStart);
      ZAdd(c.key, c.at);
      assert store[c.key].stamps == Kept(old(store), c);
      var count := |Between(store[c.key].stamps, windowStart, c.at)|;
      if c.ttl == 0 {
        store := store - {c.key};
      } else {
        store := store[c.key := store[c.key].(expiresAt := c.at + c.ttl * 1000)];
      }
      r := Record(count, c.ttl * 1000, count > c.limit, if count > c.limit then c.blockDuration else 0);
    }
  }
}

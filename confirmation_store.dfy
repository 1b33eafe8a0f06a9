/**
 * The per-user store of pending interactions (app/services/confirmation_store.py).
 *
 * Time is an integer number of seconds passed in as `now` (the source reads the
 * wall clock); the TTL is in minutes, as in the source. Every public operation
 * first sweeps out every entry whose expiry lies strictly before `now`.
 */
module ConfirmationStore {
  import opened Common

  /** One stored dict `{"type", "payload", "expires_at", "created_at"}`. */
  datatype Entry<P> = Entry(ptype: string, payload: P, expiresAt: Option<int>, createdAt: Option<int>)

  /** The `_cleanup` condition: `v.get("expires_at") and v["expires_at"] < now`. */
  predicate Expired<P>(e: Entry<P>, now: int)
  {
    e.expiresAt.Some? && e.expiresAt.value < now
  }

  /** What is left of `m` after a sweep at `now`. */
  function Swept<P>(m: map<string, Entry<P>>, now: int): (r: map<string, Entry<P>>)
    ensures forall u :: u in r <==> u in m && !Expired(m[u], now)
    ensures forall u :: u in r ==> r[u] == m[u]
  {
    map u | u in m && !Expired(m[u], now) :: m[u]
  }

  /** The result of `get_stats`. */
  datatype Stats = Stats(total: nat, byType: map<string, nat>, oldest: Option<int>, newest: Option<int>)

  /** The users whose pending entry has type `t`. */
  function UsersOfType<P>(m: map<string, Entry<P>>, t: string): set<string>
  {
    set u | u in m && m[u].ptype == t
  }

  /** The sum of the counts held in a map. */
  ghost function SumValues(m: map<string, nat>): nat
    decreases |m|
  {
    if m == map[] then 0
    else
      var k :| k in m;
      assert |m - {k}| < |m| by { assert (m - {k}).Keys == m.Keys - {k}; }
      m[k] + SumValues(m - {k})
  }

  /** The sum may be split at any key, not only the one `SumValues` picks. */
  lemma {:induction false} SumValuesRemove(m: map<string, nat>, k: string)
    requires k in m
    ensures SumValues(m) == m[k] + SumValues(m - {k})
    decreases |m|
  {
    var j :| j in m && SumValues(m) == m[j] + SumValues(m - {j});
    if j != k {
      assert (m - {j}).Keys == m.Keys - {j};
      assert (m - {k}).Keys == m.Keys - {k};
      SumValuesRemove(m - {j}, k);
      SumValuesRemove(m - {k}, j);
      assert m - {j} - {k} == m - {k} - {j};
    }
  }

  lemma SumValuesBump(m: map<string, nat>, t: string)
    ensures t in m ==> SumValues(m[t := m[t] + 1]) == SumValues(m) + 1
    ensures t !in m ==> SumValues(m[t := 1]) == SumValues(m) + 1
  {
    if t in m {
      var m' := m[t := m[t] + 1];
      SumValuesRemove(m', t);
      SumValuesRemove(m, t);
      assert m' - {t} == m - {t};
    } else {
      var m' := m[t := 1];
      SumValuesRemove(m', t);
      assert m' - {t} == m;
    }
  }

  /** `min(xs)` */
  function SeqMin(xs: seq<int>): (r: int)
    requires xs != []
    ensures r in xs && forall x :: x in xs ==> r <= x
  {
    if |xs| == 1 then xs[0]
    else
      var m := SeqMin(xs[1..]);
      assert forall x :: x in xs ==> x == xs[0] || x in xs[1..];
      if xs[0] <= m then xs[0] else m
  }

  /** `max(xs)` */
  function SeqMax(xs: seq<int>): (r: int)
    requires xs != []
    ensures r in xs && forall x :: x in xs ==> x <= r
  {
    if |xs| == 1 then xs[0]
    else
      var m := SeqMax(xs[1..]);
      assert forall x :: x in xs ==> x == xs[0] || x in xs[1..];
      if xs[0] >= m then xs[0] else m
  }

  /** The per-type counts after visiting the users in `seen`. */
  ghost predicate CountsOf<P>(m: map<string, Entry<P>>, seen: set<string>, byType: map<string, nat>)
  {
    && (forall t :: t in byType <==> UsersOfType(m, t) * seen != {})
    && (forall t :: t in byType ==> byType[t] == |UsersOfType(m, t) * seen|)
    && SumValues(byType) == |seen|
  }

  /** `by_type[t] = by_type.get(t, 0) + 1` */
  function Bump(byType: map<string, nat>, t: string): (r: map<string, nat>)
    ensures r.Keys == byType.Keys + {t}
    ensures r[t] == (if t in byType then byType[t] else 0) + 1
    ensures forall t' :: t' in byType && t' != t ==> r[t'] == byType[t']
  {
    byType[t := (if t in byType then byType[t] else 0) + 1]
  }

  /** Counting one more user keeps the counts exact and their sum equal to the number visited. */
  lemma TallyStep<P>(m: map<string, Entry<P>>, seen: set<string>, u: string, byType: map<string, nat>)
    requires u in m && u !in seen
    requires CountsOf(m, seen, byType)
    ensures CountsOf(m, seen + {u}, Bump(byType, m[u].ptype))
  {
    var t0 := m[u].ptype;
    var b := Bump(byType, t0);
    SumValuesBump(byType, t0);
    if t0 in byType {
      assert byType[t0 := byType[t0] + 1] == b;
    } else {
      assert byType[t0 := 1] == b;
    }
    TallyStepKeys(m, seen, u, byType);
    TallyStepCounts(m, seen, u, byType);
  }

  lemma TallyStepKeys<P>(m: map<string, Entry<P>>, seen: set<string>, u: string, byType: map<string, nat>)
    requires u in m && u !in seen
    requires forall t :: t in byType <==> UsersOfType(m, t) * seen != {}
    ensures forall t :: t in Bump(byType, m[u].ptype) <==> UsersOfType(m, t) * (seen + {u}) != {}
  {
    var t0 := m[u].ptype;
    forall t ensures t in Bump(byType, t0) <==> UsersOfType(m, t) * (seen + {u}) != {} {
      if t == t0 {
        assert u in UsersOfType(m, t) * (seen + {u});
      } else {
        assert UsersOfType(m, t) * (seen + {u}) == UsersOfType(m, t) * seen;
      }
    }
  }

  lemma TallyStepCounts<P>(m: map<string, Entry<P>>, seen: set<string>, u: string, byType: map<string, nat>)
    requires u in m && u !in seen
    requires forall t :: t in byType <==> UsersOfType(m, t) * seen != {}
    requires forall t :: t in byType ==> byType[t] == |UsersOfType(m, t) * seen|
    ensures forall t :: t in Bump(byType, m[u].ptype) ==>
              Bump(byType, m[u].ptype)[t] == |UsersOfType(m, t) * (seen + {u})|
  {
    var t0 := m[u].ptype;
    var b := Bump(byType, t0);
    forall t | t in b ensures b[t] == |UsersOfType(m, t) * (seen + {u})| {
      if t == t0 {
        assert UsersOfType(m, t) * (seen + {u}) == UsersOfType(m, t) * seen + {u};
        assert u !in UsersOfType(m, t) * seen;
        if t !in byType {
          assert UsersOfType(m, t) * seen == {};
        }
      } else {
        assert UsersOfType(m, t) * (seen + {u}) == UsersOfType(m, t) * seen;
      }
    }
  }

  /** Having visited every user, the counts are those of the whole store. */
  lemma CountsComplete<P>(m: map<string, Entry<P>>, byType: map<string, nat>)
    requires CountsOf(m, m.Keys, byType)
    ensures forall t :: t in byType <==> UsersOfType(m, t) != {}
    ensures forall t :: t in byType ==> byType[t] == |UsersOfType(m, t)|
    ensures SumValues(byType) == |m|
  {
    forall t ensures UsersOfType(m, t) * m.Keys == UsersOfType(m, t) { }
    assert |m.Keys| == |m|;
  }

  /**
   * `if timestamp:`: a creation time is collected when present. A stored
   * `created_at` is a `datetime`, and every `datetime` is truthy, so presence
   * is the whole test.
   */
  predicate Stamped<P>(e: Entry<P>)
  {
    e.createdAt.Some?
  }

  /** `timestamps` holds exactly the creation times of the users in `seen`. */
  ghost predicate Collected<P>(m: map<string, Entry<P>>, seen: set<string>, timestamps: seq<int>)
  {
    && (forall x :: x in timestamps ==> exists u :: u in seen && u in m && Stamped(m[u]) && m[u].createdAt == Some(x))
    && (forall u :: u in seen && u in m && Stamped(m[u]) ==> m[u].createdAt.value in timestamps)
  }

  lemma CollectedStep<P>(m: map<string, Entry<P>>, seen: set<string>, u: string, timestamps: seq<int>)
    requires u in m && Collected(m, seen, timestamps)
    ensures Collected(m, seen + {u}, if Stamped(m[u]) then timestamps + [m[u].createdAt.value] else timestamps)
  {
  }

  /**
   * The aggregation loop of `get_stats` over the (already swept) store: counts
   * per type, and the oldest and newest creation time.
   */
  method Tally<P>(m: map<string, Entry<P>>) returns (s: Stats)
    ensures s.total == |m|
    ensures forall t :: t in s.byType <==> UsersOfType(m, t) != {}
    ensures forall t :: t in s.byType ==> s.byType[t] == |UsersOfType(m, t)|
    ensures SumValues(s.byType) == s.total
    ensures s.oldest.None? <==> forall u :: u in m ==> !Stamped(m[u])
    ensures s.oldest.None? <==> s.newest.None?
    ensures s.oldest.Some? ==> s.oldest.value <= s.newest.value
    ensures s.oldest.Some? ==> forall u :: u in m && Stamped(m[u]) ==>
              s.oldest.value <= m[u].createdAt.value <= s.newest.value
    ensures s.oldest.Some? ==> exists u :: u in m && m[u].createdAt == s.oldest
    ensures s.newest.Some? ==> exists u :: u in m && m[u].createdAt == s.newest
  {
    var byType, timestamps := TallyLoop(m);
    CountsComplete(m, byType);
    s := Summarise(m, byType, timestamps);
  }

  /** The loop of `Tally`: one visit per user, bumping its type and collecting its creation time. */
  method TallyLoop<P>(m: map<string, Entry<P>>) returns (byType: map<string, nat>, timestamps: seq<int>)
    ensures CountsOf(m, m.Keys, byType)
    ensures Collected(m, m.Keys, timestamps)
  {
    byType := map[];
    timestamps := [];
    var seen: set<string> := {};
    while seen != m.Keys
      invariant seen <= m.Keys
      invariant CountsOf(m, seen, byType)
      invariant Collected(m, seen, timestamps)
      decreases |m.Keys - seen|
    {
      var u :| u in m.Keys - seen;
      var e := m[u];
      TallyStep(m, seen, u, byType);
      CollectedStep(m, seen, u, timestamps);
      byType := Bump(byType, e.ptype);
      if e.createdAt.Some? {
        timestamps := timestamps + [e.createdAt.value];
      }
      assert m.Keys - (seen + {u}) < m.Keys - seen;
      seen := seen + {u};
    }
  }

  /** `min(timestamps)` and `max(timestamps)`, or `None` when there are none. */
  function Summarise<P>(m: map<string, Entry<P>>, byType: map<string, nat>, timestamps: seq<int>): (s: Stats)
    requires Collected(m, m.Keys, timestamps)
    ensures s.total == |m| && s.byType == byType
    ensures s.oldest.None? <==> forall u :: u in m ==> !Stamped(m[u])
    ensures s.oldest.None? <==> s.newest.None?
    ensures s.oldest.Some? ==> s.oldest.value <= s.newest.value
    ensures s.oldest.Some? ==> forall u :: u in m && Stamped(m[u]) ==>
              s.oldest.value <= m[u].createdAt.value <= s.newest.value
    ensures s.oldest.Some? ==> exists u :: u in m && m[u].createdAt == s.oldest
    ensures s.newest.Some? ==> exists u :: u in m && m[u].createdAt == s.newest
  {
    if timestamps == [] then
      Stats(|m|, byType, None, None)
    else
      assert timestamps[0] in timestamps;
      Stats(|m|, byType, Some(SeqMin(timestamps)), Some(SeqMax(timestamps)))
  }

  class PendingStore<P> {
    /** `ttl_min` */
    const ttl: int
    /** `_store`: user key to pending entry */
    var store: map<string, Entry<P>>

    /** Every entry was written by `add`: both timestamps present, `ttl` minutes apart. */
    ghost predicate Valid()
      reads this
    {
      forall u :: u in store ==>
        store[u].createdAt.Some? && store[u].expiresAt == Some(store[u].createdAt.value + ttl * 60)
    }

    constructor (ttlMin: int)
      ensures ttl == ttlMin && store == map[] && Valid()
    {
      ttl := ttlMin;
      store := map[];
    }

    /** `_cleanup` */
    method Cleanup(now: int)
      requires Valid()
      modifies this
      ensures Valid()
      ensures store == Swept(old(store), now)
    {
      var toDel := set u | u in store && Expired(store[u], now);
      ghost var all := toDel;
      while toDel != {}
        invariant toDel <= all
        invariant Valid()
        invariant store == map u | u in old(store) && u !in all - toDel :: old(store)[u]
        decreases toDel
      {
        var u :| u in toDel;
        store := store - {u};
        toDel := toDel - {u};
      }
      assert store == Swept(old(store), now);
    }

    /** `add`: sweep, then overwrite the user's entry. */
    method Add(user: string, ptype: string, payload: P, now: int)
      requires Valid()
      modifies this
      ensures Valid()
      ensures store == Swept(old(store), now)[user := Entry(ptype, payload, Some(now + ttl * 60), Some(now))]
    {
      Cleanup(now);
      store := store[user := Entry(ptype, payload, Some(now + ttl * 60), Some(now))];
    }

    /** `has` */
    method Has(user: string, now: int) returns (b: bool)
      requires Valid()
      modifies this
      ensures Valid()
      ensures store == Swept(old(store), now)
      ensures b <==> user in store
    {
      Cleanup(now);
      b := user in store;
    }

    /** `get`: sweep, then read without removing. */
    method Get(user: string, now: int) returns (e: Option<Entry<P>>)
      requires Valid()
      modifies this
      ensures Valid()
      ensures store == Swept(old(store), now)
      ensures user in store ==> e == Some(store[user])
      ensures user !in store ==> e == None
    {
      Cleanup(now);
      e := if user in store then Some(store[user]) else None;
    }

    /** `pop`: sweep, then remove and return. */
    method Pop(user: string, now: int) returns (e: Option<Entry<P>>)
      requires Valid()
      modifies this
      ensures Valid()
      ensures store == Swept(old(store), now) - {user}
      ensures user in Swept(old(store), now) ==> e == Some(Swept(old(store), now)[user])
      ensures user !in Swept(old(store), now) ==> e == None
    {
      Cleanup(now);
      if user in store {
        e := Some(store[user]);
        store := store - {user};
      } else {
        e := None;
      }
    }

    /** `get_stats`: sweep, then aggregate. */
    method GetStats(now: int) returns (s: Stats)
      requires Valid()
      modifies this
      ensures Valid()
      ensures store == Swept(old(store), now)
      ensures s.total == |store|
      ensures forall t :: t in s.byType <==> UsersOfType(store, t) != {}
      ensures forall t :: t in s.byType ==> s.byType[t] == |UsersOfType(store, t)|
      ensures SumValues(s.byType) == s.total
      ensures s.oldest.None? <==> forall u :: u in store ==> !Stamped(store[u])
      ensures s.oldest.None? <==> s.newest.None?
      ensures s.oldest.Some? ==> s.oldest.value <= s.newest.value
      ensures s.oldest.Some? ==> forall u :: u in store && Stamped(store[u]) ==>
                s.oldest.value <= store[u].createdAt.value <= s.newest.value
      ensures s.oldest.Some? ==> exists u :: u in store && store[u].createdAt == s.oldest
      ensures s.newest.Some? ==> exists u :: u in store && store[u].createdAt == s.newest
      ensures s.oldest.None? <==> store == map[]
    {
      Cleanup(now);
      s := Tally(store);
    }
  }

  /** After any public operation at `now`, nothing stale is left. */
  lemma {:induction false} SweptIsFresh<P>(m: map<string, Entry<P>>, now: int)
    ensures forall u :: u in Swept(m, now) ==> !Expired(Swept(m, now)[u], now)
  {
  }

  /** An entry added at `now` with a non-negative TTL is found by every sweep up to its expiry, inclusive. */
  lemma AddedIsLive<P>(m: map<string, Entry<P>>, user: string, ptype: string, payload: P,
                       ttl: int, now: int, later: int)
    requires 0 <= ttl && now <= later <= now + ttl * 60
    ensures var m' := Swept(m, now)[user := Entry(ptype, payload, Some(now + ttl * 60), Some(now))];
            user in Swept(m', later) && Swept(m', later)[user] == Entry(ptype, payload, Some(now + ttl * 60), Some(now))
  {
  }

  /** A later sweep sees what an earlier sweep left, minus what expired in between. */
  lemma SweptTwice<P>(m: map<string, Entry<P>>, a: int, b: int)
    requires a <= b
    ensures Swept(Swept(m, a), b) == Swept(m, b)
  {
    assert Swept(Swept(m, a), b).Keys == Swept(m, b).Keys;
  }

  // ---------------------------------------------------------------------
  // Confirm / cancel vocabulary (the two static methods)
  // ---------------------------------------------------------------------

  const ConfirmWords: set<string> := {
    "1", "confirm", "confirmed", "yes", "y", "ok", "okay", "sure", "yep", "yeah",
    "oui", "si", "sí", "ja", "да", "はい", "כן", "מאשר", "מאשרת", "לאשר", "אשר", "אישור",
    "מְאָמֵת", "✔", "✅", "👍"
  }

  const CancelWords: set<string> := {
    "0", "cancel", "c", "no", "n", "abort", "stop", "nope", "nah",
    "nein", "non", "нет", "いいえ", "בטל", "ביטול", "לא", "לבטל", "✖", "❌", "👎"
  }

  /** `(text or "").strip().lower()` */
  function Normalize(text: Option<string>): string
  {
    Lower(Strip(OrEmpty(text)))
  }

  /** `is_confirm` */
  predicate IsConfirm(text: Option<string>)
  {
    Normalize(text) in ConfirmWords
  }

  /** `is_cancel` */
  predicate IsCancel(text: Option<string>)
  {
    Normalize(text) in CancelWords
  }

  /** No reply is both a confirmation and a cancellation. */
  lemma ConfirmCancelExclusive(text: Option<string>)
    ensures !(IsConfirm(text) && IsCancel(text))
  {
    assert ConfirmWords !! CancelWords;
  }

  /** Surrounding whitespace does not change how a reply is classified. */
  lemma ClassificationIgnoresPadding(left: string, s: string, right: string)
    requires AllSpace(left) && AllSpace(right)
    ensures IsConfirm(Some(left + s + right)) == IsConfirm(Some(s))
    ensures IsCancel(Some(left + s + right)) == IsCancel(Some(s))
  {
    StripPadded(left, s, right);
  }

  /** `None` is read as the empty reply. */
  lemma NoneIsEmptyReply()
    ensures IsConfirm(None) == IsConfirm(Some(""))
    ensures IsCancel(None) == IsCancel(Some(""))
  {
    assert OrEmpty(None) == OrEmpty(Some(""));
  }
}

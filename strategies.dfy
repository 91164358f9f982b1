/**
 * Per-car race strategies and the insertion-ordered table (a JavaScript object
 * keyed by car id) that the race screens share. Every field of a strategy may be
 * absent, so that object spread `{...base, ...patch}` is field-wise overriding.
 */
module Strategies {
  import opened Wrappers

  datatype Tyre = Soft | Medium | Hard
  datatype TemplateKey = Aggressive | Conservative | OneStop | Undercut

  datatype Strategy = Strategy(
    template: Option<TemplateKey>,
    plannedPitLaps: Option<seq<int>>,
    pitSeconds: Option<real>,
    paceK: Option<real>,
    tyreSequence: Option<seq<Tyre>>,
    currentTyre: Option<Tyre>,
    fuelLoad: Option<real>)

  /** `{}`: a strategy with no field set. */
  const NoFields := Strategy(None, None, None, None, None, None, None)

  function Override<T>(base: Option<T>, patch: Option<T>): (r: Option<T>)
    ensures r == if patch.Some? then patch else base
  {
    if patch.Some? then patch else base
  }

  /** `{...base, ...patch}`: the patch's fields win, the base keeps the rest. */
  function Merge(base: Strategy, patch: Strategy): (r: Strategy)
    ensures r.plannedPitLaps == Override(base.plannedPitLaps, patch.plannedPitLaps)
    ensures r.paceK == Override(base.paceK, patch.paceK)
    ensures r.pitSeconds == Override(base.pitSeconds, patch.pitSeconds)
  {
    Strategy(
      Override(base.template, patch.template),
      Override(base.plannedPitLaps, patch.plannedPitLaps),
      Override(base.pitSeconds, patch.pitSeconds),
      Override(base.paceK, patch.paceK),
      Override(base.tyreSequence, patch.tyreSequence),
      Override(base.currentTyre, patch.currentTyre),
      Override(base.fuelLoad, patch.fuelLoad))
  }

  /** Spreading `{}` changes nothing, spreading onto `{}` copies, and a patch applied twice is applied once. */
  lemma MergeLaws(s: Strategy, p: Strategy)
    ensures Merge(s, NoFields) == s
    ensures Merge(NoFields, p) == p
    ensures Merge(Merge(s, p), p) == Merge(s, p)
  {
  }

  /**
   * An insertion-ordered map from key to strategy; the race screens key it by car id
   * (`CarTable`). The operations are stated for any key type with equality.
   */
  datatype Table<K> = Table(keys: seq<K>, entries: map<K, Strategy>)

  type CarTable = Table<string>

  predicate Distinct<K(==)>(ids: seq<K>)
  {
    forall i, j :: 0 <= i < j < |ids| ==> ids[i] != ids[j]
  }

  /** The keys are distinct and are exactly the keys of the entries. */
  predicate Valid<K(==)>(t: Table<K>)
  {
    Distinct(t.keys) && t.entries.Keys == (set k | k in t.keys)
  }

  function EmptyTable<K>(): (r: Table<K>)
    ensures r.keys == [] && r.entries == map[]
  {
    Table([], map[])
  }

  /** `table[id]`, `undefined` when the id has no entry. */
  function Get<K(==)>(t: Table<K>, id: K): (r: Option<Strategy>)
    ensures r.Some? <==> id in t.entries
    ensures r.Some? ==> r.value == t.entries[id]
  {
    if id in t.entries then Some(t.entries[id]) else None
  }

  /** `{...t, [id]: v}`: an existing key keeps its place, a new key goes last. */
  function Put<K(==)>(t: Table<K>, id: K, v: Strategy): (r: Table<K>)
    ensures Valid(t) ==> Valid(r)
    ensures r.entries == t.entries[id := v]
    ensures r.keys == if id in t.entries then t.keys else t.keys + [id]
  {
    if id in t.entries then Table(t.keys, t.entries[id := v]) else Table(t.keys + [id], t.entries[id := v])
  }

  /** `existing.paceK || 1.0`. */
  function PaceOf(s: Strategy): (r: real)
    ensures r != 0.0
    ensures s.paceK.Some? && s.paceK.value != 0.0 ==> r == s.paceK.value
    ensures s.paceK.None? || s.paceK.value == 0.0 ==> r == 1.0
  {
    if s.paceK.Some? && s.paceK.value != 0.0 then s.paceK.value else 1.0
  }

  /** The entry for `id`, or `{}` when there is none (`prev[id] || {}`). */
  function EntryOr<K(==)>(t: Table<K>, id: K): (r: Strategy)
    ensures id in t.entries ==> r == t.entries[id]
    ensures id !in t.entries ==> r == NoFields
  {
    if id in t.entries then t.entries[id] else NoFields
  }

  /** `{...s, paceK: (s.paceK || 1.0) * m}`. */
  function Scaled(s: Strategy, m: real): (r: Strategy)
    ensures r.paceK == Some(PaceOf(s) * m)
    ensures r == s.(paceK := r.paceK)
  {
    s.(paceK := Some(PaceOf(s) * m))
  }

  /** A pace scaled by a non-zero factor and scaled again is scaled once by the product; nothing else changes. */
  lemma ScaledTwice(s: Strategy, a: real, b: real)
    requires a != 0.0
    ensures Scaled(Scaled(s, a), b).paceK.value == PaceOf(s) * (a * b)
    ensures Scaled(Scaled(s, a), b) == s.(paceK := Scaled(Scaled(s, a), b).paceK)
  {
    var p := PaceOf(s);
    NonZeroProduct(p, a);
    var s1 := Scaled(s, a);
    assert PaceOf(s1) == p * a;
    MulAssoc(p, a, b, PaceOf(s1));
  }

  lemma MulAssoc(p: real, a: real, b: real, q: real)
    requires q == p * a
    ensures q * b == p * (a * b)
  {
  }

  /**
   * `{...prev, [id]: {...prev[id], paceK: (prev[id]?.paceK || 1.0) * m}}`:
   * scales one car's pace, creating the entry when the car had none; other cars,
   * the key order and the car's other fields stay as they were.
   */
  function ScalePace<K(==,!new)>(t: Table<K>, id: K, m: real): (r: Table<K>)
    ensures Valid(t) ==> Valid(r)
    ensures id in r.entries && r.entries[id] == Scaled(EntryOr(t, id), m)
    ensures id !in t.entries ==> r.entries[id] == NoFields.(paceK := Some(m))
    ensures forall k :: k in t.entries && k != id ==> k in r.entries && r.entries[k] == t.entries[k]
    ensures r.keys == if id in t.entries then t.keys else t.keys + [id]
  {
    Put(t, id, Scaled(EntryOr(t, id), m))
  }

  /**
   * Scaling a car's pace twice by non-zero factors is scaling it once by their product:
   * the same keys, the same other cars, and the car's other fields as before.
   */
  lemma ScaleCompose<K(!new)>(t: Table<K>, id: K, a: real, b: real)
    requires a != 0.0
    ensures ScalePace(ScalePace(t, id, a), id, b).keys == ScalePace(t, id, a * b).keys
    ensures ScalePace(ScalePace(t, id, a), id, b).entries.Keys == ScalePace(t, id, a * b).entries.Keys
    ensures ScalePace(ScalePace(t, id, a), id, b).entries[id].paceK.value == PaceOf(EntryOr(t, id)) * (a * b)
    ensures ScalePace(ScalePace(t, id, a), id, b).entries[id]
         == EntryOr(t, id).(paceK := ScalePace(ScalePace(t, id, a), id, b).entries[id].paceK)
    ensures forall k :: k in t.entries && k != id ==> ScalePace(ScalePace(t, id, a), id, b).entries[k] == t.entries[k]
  {
    var e := EntryOr(t, id);
    assert EntryOr(ScalePace(t, id, a), id) == Scaled(e, a);
    ScaledTwice(e, a, b);
  }

  lemma NonZeroProduct(x: real, y: real)
    requires x != 0.0 && y != 0.0
    ensures x * y != 0.0
  {
    assert (x * y) / y == x;
  }

  /** A second write to the same key replaces the first and leaves the key order as one write does. */
  lemma PutTwice<K>(t: Table<K>, id: K, v: Strategy, w: Strategy)
    ensures Put(Put(t, id, v), id, w) == Put(t, id, w)
  {
    assert t.entries[id := v][id := w] == t.entries[id := w];
  }

  /** `for each j: t[ids[j]] = vals[j]`, in order: later writes to the same id win. */
  function PutAll<K(==,!new)>(acc: Table<K>, ids: seq<K>, vals: seq<Strategy>): (r: Table<K>)
    requires |ids| == |vals|
    ensures Valid(acc) ==> Valid(r)
    ensures forall k :: k in r.entries <==> k in acc.entries || k in ids
    ensures forall k :: k in acc.entries && k !in ids ==> r.entries[k] == acc.entries[k]
    ensures (forall k :: k in ids ==> k in acc.entries) ==> r.keys == acc.keys
    decreases |ids|
  {
    if ids == [] then acc
    else Put(PutAll(acc, ids[..|ids| - 1], vals[..|ids| - 1]), ids[|ids| - 1], vals[|ids| - 1])
  }

  /** With distinct ids, each id ends up holding its own value. */
  lemma PutAllDistinct<K(!new)>(acc: Table<K>, ids: seq<K>, vals: seq<Strategy>)
    requires |ids| == |vals| && Distinct(ids)
    ensures forall j :: 0 <= j < |ids| ==> PutAll(acc, ids, vals).entries[ids[j]] == vals[j]
  {
    forall j | 0 <= j < |ids| ensures PutAll(acc, ids, vals).entries[ids[j]] == vals[j] {
      PutAllAt(acc, ids, vals, j);
    }
  }

  /** No later write touches the `j`-th id, so it keeps the `j`-th value. */
  lemma {:induction false} PutAllAt<K(!new)>(acc: Table<K>, ids: seq<K>, vals: seq<Strategy>, j: nat)
    requires |ids| == |vals| && Distinct(ids) && j < |ids|
    ensures ids[j] in PutAll(acc, ids, vals).entries && PutAll(acc, ids, vals).entries[ids[j]] == vals[j]
    decreases |ids|
  {
    var n := |ids| - 1;
    if j < n {
      DistinctFront(ids);
      PutAllAt(acc, ids[..n], vals[..n], j);
      assert ids[..n][j] == ids[j] && vals[..n][j] == vals[j];
    }
  }

  lemma DistinctFront<K>(ids: seq<K>)
    requires |ids| > 0 && Distinct(ids)
    ensures Distinct(ids[..|ids| - 1]) && ids[|ids| - 1] !in ids[..|ids| - 1]
  {
  }

  /** Written onto `{}`, distinct ids become the keys in their own order. */
  lemma {:induction false} PutAllKeys<K(!new)>(ids: seq<K>, vals: seq<Strategy>)
    requires |ids| == |vals| && Distinct(ids)
    ensures PutAll(EmptyTable(), ids, vals).keys == ids
    decreases |ids|
  {
    if ids != [] {
      var n := |ids| - 1;
      PutAllKeys(ids[..n], vals[..n]);
      assert ids[n] !in ids[..n];
      assert ids[..n] + [ids[n]] == ids;
    }
  }

  /** When every written value is `v`, every written id holds `v`. */
  lemma {:induction false} PutAllFrom<K(!new)>(acc: Table<K>, ids: seq<K>, vals: seq<Strategy>, v: Strategy)
    requires |ids| == |vals|
    requires forall j :: 0 <= j < |vals| ==> vals[j] == v
    ensures forall k :: k in ids ==> PutAll(acc, ids, vals).entries[k] == v
    decreases |ids|
  {
    if ids != [] {
      var n := |ids| - 1;
      PutAllFrom(acc, ids[..n], vals[..n], v);
      assert PutAll(acc, ids, vals) == Put(PutAll(acc, ids[..n], vals[..n]), ids[n], vals[n]);
      forall k | k in ids ensures PutAll(acc, ids, vals).entries[k] == v {
        if k != ids[n] {
          InFront(ids, k);
        }
      }
    }
  }

  lemma InFront<K>(ids: seq<K>, k: K)
    requires k in ids && k != ids[|ids| - 1]
    ensures k in ids[..|ids| - 1]
  {
    var j :| 0 <= j < |ids| && ids[j] == k;
    assert ids[..|ids| - 1][j] == k;
  }

  /** Writing one more id after a run of writes. */
  lemma PutAllSnoc<K(!new)>(acc: Table<K>, ids: seq<K>, vals: seq<Strategy>, id: K, v: Strategy)
    requires |ids| == |vals|
    ensures PutAll(acc, ids + [id], vals + [v]) == Put(PutAll(acc, ids, vals), id, v)
  {
    var ids', vals' := ids + [id], vals + [v];
    assert ids'[..|ids'| - 1] == ids && vals'[..|ids'| - 1] == vals;
  }

  /** Writing `a` then `b` is writing `a + b`. */
  lemma {:induction false} PutAllAppend<K(!new)>(acc: Table<K>, a: seq<K>, va: seq<Strategy>, b: seq<K>, vb: seq<Strategy>)
    requires |a| == |va| && |b| == |vb|
    ensures PutAll(acc, a + b, va + vb) == PutAll(PutAll(acc, a, va), b, vb)
    decreases |b|
  {
    if b == [] {
      assert a + b == a && va + vb == va;
    } else {
      var n := |b| - 1;
      PutAllAppend(acc, a, va, b[..n], vb[..n]);
      PutAllSnoc(acc, a + b[..n], va + vb[..n], b[n], vb[n]);
      AppendLast(a, b);
      AppendLast(va, vb);
    }
  }

  lemma AppendLast<T>(a: seq<T>, b: seq<T>)
    requires |b| > 0
    ensures a + b[..|b| - 1] + [b[|b| - 1]] == a + b
  {
    assert b[..|b| - 1] + [b[|b| - 1]] == b;
  }

  /** The values of a table in key order. */
  function Values<K>(b: Table<K>): (vs: seq<Strategy>)
    requires Valid(b)
    ensures |vs| == |b.keys|
    ensures forall j :: 0 <= j < |b.keys| ==> b.keys[j] in b.entries && vs[j] == b.entries[b.keys[j]]
  {
    seq(|b.keys|, j requires 0 <= j < |b.keys| => b.entries[b.keys[j]])
  }

  /** `{...a, ...b}`: every entry of `b` written onto `a`, in `b`'s key order. */
  function Spread<K(==,!new)>(a: Table<K>, b: Table<K>): (r: Table<K>)
    requires Valid(b)
    ensures Valid(a) ==> Valid(r)
  {
    PutAll(a, b.keys, Values(b))
  }

  /** Spreading a table whose keys are already present keeps the key order, takes `b`'s entries and keeps the rest of `a`. */
  lemma SpreadOver<K(!new)>(a: Table<K>, b: Table<K>)
    requires Valid(a) && Valid(b) && b.entries.Keys <= a.entries.Keys
    ensures Spread(a, b).keys == a.keys
    ensures Spread(a, b).entries.Keys == a.entries.Keys
    ensures forall k :: k in b.entries ==> Spread(a, b).entries[k] == b.entries[k]
    ensures forall k :: k in a.entries && k !in b.entries ==> Spread(a, b).entries[k] == a.entries[k]
  {
    PutAllDistinct(a, b.keys, Values(b));
    forall k | k in b.entries ensures Spread(a, b).entries[k] == b.entries[k] {
      var j :| 0 <= j < |b.keys| && b.keys[j] == k;
    }
  }

  /** The fields a patch sets: `{...s, ...p}` can only change these. */
  predicate Covers(q: Strategy, p: Strategy)
  {
    (p.template.Some? ==> q.template.Some?) && (p.plannedPitLaps.Some? ==> q.plannedPitLaps.Some?)
    && (p.pitSeconds.Some? ==> q.pitSeconds.Some?) && (p.paceK.Some? ==> q.paceK.Some?)
    && (p.tyreSequence.Some? ==> q.tyreSequence.Some?) && (p.currentTyre.Some? ==> q.currentTyre.Some?)
    && (p.fuelLoad.Some? ==> q.fuelLoad.Some?)
  }

  /** A later patch that sets every field an earlier one set hides the earlier one. */
  lemma MergeShadow(s: Strategy, p: Strategy, q: Strategy)
    requires Covers(q, p)
    ensures Merge(Merge(s, p), q) == Merge(s, q)
  {
  }

  /** Every entry of the table patched with `p`; the keys and their order stay. */
  function MergeAll<K(!new)>(t: Table<K>, p: Strategy): (r: Table<K>)
    ensures Valid(t) ==> Valid(r)
    ensures r.keys == t.keys && r.entries.Keys == t.entries.Keys
    ensures forall k :: k in t.entries ==> r.entries[k] == Merge(t.entries[k], p)
  {
    Table(t.keys, map k | k in t.entries :: Merge(t.entries[k], p))
  }

  /** Patching every entry with `p` and then with a `q` that covers it is patching with `q` alone. */
  lemma MergeAllShadow<K(!new)>(t: Table<K>, p: Strategy, q: Strategy)
    requires Covers(q, p)
    ensures MergeAll(MergeAll(t, p), q) == MergeAll(t, q)
  {
    forall k | k in t.entries ensures MergeAll(MergeAll(t, p), q).entries[k] == MergeAll(t, q).entries[k] {
      MergeShadow(t.entries[k], p, q);
    }
    assert MergeAll(MergeAll(t, p), q).entries == MergeAll(t, q).entries;
  }

  /** What the strategy-preparation screen hands to the race screens when the race is started. */
  datatype PrepResult = PrepResult(
    strategies: CarTable,
    gridOrder: seq<string>,
    weatherCondition: string,
    trackTemp: real,
    fuelLoad: real)
}

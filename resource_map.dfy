/**
 * The handle-indexed resource table of the Direct3D 11 backend
 * (`sD3D11ResourceMap<T>`), and the two small D3D11 record types that
 * are stored in or hung off engine objects (`sMeshData`,
 * `sD3D11UniformBufferData`).
 *
 * A table is a counter plus a map from handle to a native object. The
 * native `Release()` call is recorded by appending the released value to
 * a ghost log, so that "released exactly once" can be stated.
 */
module D3D11Resources {

  datatype Option<T> = None | Some(value: T)

  /** An engine-level handle (`wv::Handle`); 0 stands for "no resource". */
  type Handle = nat

  /** An opaque native Direct3D object: a shader, a compiled blob, a buffer, an input layout. */
  datatype Token = Token(id: nat)

  /** DXGI index formats the backend records for a mesh (`sMeshData::index_format`). */
  datatype IndexFormat = FormatUnknown | R16UInt | R32UInt

  /** `sD3D11UniformBufferData`: the constant-buffer slot a uniform buffer binds to. */
  datatype UniformBufferData = UniformBufferData(bindingIndex: Handle)

  /** `sMeshData`: per-mesh backend data, updated in place after it is stored in a table. */
  class MeshData {
    var indexFormat: IndexFormat

    constructor ()
      ensures indexFormat == FormatUnknown
    {
      indexFormat := FormatUnknown;
    }
  }

  // ---------------------------------------------------------------------
  // The value of a table, and the effect of each operation on it
  // ---------------------------------------------------------------------

  /** The observable state of a table: the counter, the entries, and every value released so far. */
  datatype Table<T> = Table(count: nat, entries: map<Handle, T>, released: seq<T>)

  function EmptyTable<T>(): Table<T> {
    Table(0, map[], [])
  }

  /** `get`: the stored value, or None (the source's null) for an absent handle. */
  function Lookup<T>(t: Table<T>, h: Handle): Option<T> {
    if h in t.entries then Some(t.entries[h]) else None
  }

  /** Every key was handed out by `add`: it lies between 1 and the counter. */
  ghost predicate Bounded<T>(t: Table<T>) {
    forall h :: h in t.entries ==> 1 <= h <= t.count
  }

  /** `add`: pre-increment the counter and store the value under the new handle. */
  function Added<T>(t: Table<T>, v: T): (r: Table<T>)
    ensures r.count == t.count + 1
    ensures Lookup(r, r.count) == Some(v)
    ensures forall h :: h != r.count ==> Lookup(r, h) == Lookup(t, h)
    ensures r.released == t.released
    ensures Bounded(t) ==> Bounded(r) && r.count !in t.entries
  {
    Table(t.count + 1, t.entries[t.count + 1 := v], t.released)
  }

  /** `remove`: release a present entry and erase it; an absent handle is left alone. */
  function Removed<T>(t: Table<T>, h: Handle): (r: Table<T>)
    ensures Lookup(r, h) == None
    ensures forall k :: k != h ==> Lookup(r, k) == Lookup(t, k)
    ensures r.count == t.count
    ensures h !in t.entries ==> r == t
    ensures h in t.entries ==> r.released == t.released + [t.entries[h]]
    ensures |r.entries| + |r.released| == |t.entries| + |t.released|
    ensures Bounded(t) ==> Bounded(r)
  {
    if h in t.entries then
      var rest := t.entries - {h};
      assert rest.Keys == t.entries.Keys - {h};
      Table(t.count, rest, t.released + [t.entries[h]])
    else
      t
  }

  /**
   * `u` is `t` with handle `h` erased: `h` is absent, every other handle and
   * the counter are as before, and the value stored under `h`, if any, is
   * the one value added to the release log.
   */
  ghost predicate Erased<T>(t: Table<T>, u: Table<T>, h: Handle) {
    && Lookup(u, h) == None
    && (forall k :: k != h ==> Lookup(u, k) == Lookup(t, k))
    && u.count == t.count
    && u.released == t.released + (if h in t.entries then [t.entries[h]] else [])
  }

  /** `set`: remove (and so release) any previous occupant of slot `i`, then store `v` there. */
  function Replaced<T>(t: Table<T>, i: Handle, v: T): (r: Table<T>)
    ensures Lookup(r, i) == Some(v)
    ensures forall k :: k != i ==> Lookup(r, k) == Lookup(t, k)
    ensures r.count == t.count
    ensures r.released == Removed(t, i).released
    ensures |r.entries| + |r.released| == |t.entries| + |t.released| + 1
    ensures Bounded(t) && 1 <= i <= t.count ==> Bounded(r)
  {
    var cleared := Removed(t, i);
    Table(cleared.count, cleared.entries[i := v], cleared.released)
  }

  // ---------------------------------------------------------------------
  // Sequences of operations
  // ---------------------------------------------------------------------

  /** One mutating call on a table. */
  datatype Op<T> = AddOp(value: T) | SetOp(index: Handle, value: T) | RemoveOp(handle: Handle)

  function Step<T>(t: Table<T>, op: Op<T>): Table<T> {
    match op
    case AddOp(v) => Added(t, v)
    case SetOp(i, v) => Replaced(t, i, v)
    case RemoveOp(h) => Removed(t, h)
  }

  /** The table after applying `ops` in order. */
  function Run<T>(t: Table<T>, ops: seq<Op<T>>): Table<T>
    decreases |ops|
  {
    if ops == [] then t else Run(Step(t, ops[0]), ops[1..])
  }

  /** The handles the `add` calls among `ops` return, in call order. */
  function Issued<T>(t: Table<T>, ops: seq<Op<T>>): seq<Handle>
    decreases |ops|
  {
    if ops == [] then []
    else (if ops[0].AddOp? then [t.count + 1] else []) + Issued(Step(t, ops[0]), ops[1..])
  }

  /** How many of `ops` store a value (`add` and `set`). */
  function Stores<T>(ops: seq<Op<T>>): nat
    decreases |ops|
  {
    if ops == [] then 0 else (if ops[0].RemoveOp? then 0 else 1) + Stores(ops[1..])
  }

  /**
   * Handles handed out by `add` are consecutive from `count + 1`: the
   * first add on a fresh table returns 1, each later one is strictly
   * greater, none is 0, and the counter ends at the last one issued.
   */
  lemma {:induction false} IssuedHandlesConsecutive<T>(t: Table<T>, ops: seq<Op<T>>)
    ensures Run(t, ops).count == t.count + |Issued(t, ops)|
    ensures forall k :: 0 <= k < |Issued(t, ops)| ==> Issued(t, ops)[k] == t.count + 1 + k
    decreases |ops|
  {
    if ops != [] {
      IssuedHandlesConsecutive(Step(t, ops[0]), ops[1..]);
    }
  }

  /** Handles issued by a sequence of adds are never 0 and strictly increase. */
  lemma IssuedHandlesIncrease<T>(t: Table<T>, ops: seq<Op<T>>)
    ensures forall k :: 0 <= k < |Issued(t, ops)| ==> Issued(t, ops)[k] > t.count && Issued(t, ops)[k] != 0
    ensures forall j, k :: 0 <= j < k < |Issued(t, ops)| ==> Issued(t, ops)[j] < Issued(t, ops)[k]
  {
    IssuedHandlesConsecutive(t, ops);
  }

  /**
   * Every `add` among `ops` stores under a key that is free at that point.
   * This holds for a table whose keys all came from its own `add` (see
   * `BoundedRunsAddToFreeKeys`) and for a table written only through `set`
   * and `remove`, like the vertex-shader blob table (see
   * `SetOnlyRunsAddToFreeKeys`).
   */
  ghost predicate AddsToFreeKeys<T>(t: Table<T>, ops: seq<Op<T>>)
    decreases |ops|
  {
    ops == [] ||
    ((ops[0].AddOp? ==> t.count + 1 !in t.entries) && AddsToFreeKeys(Step(t, ops[0]), ops[1..]))
  }

  /** `v` is accounted for in `t`: it is stored under some handle, or it has been released. */
  ghost predicate Holds<T>(t: Table<T>, v: T) {
    v in t.entries.Values || v in t.released
  }

  /** One call keeps every value accounted for, and accounts for the value it stores. */
  lemma StepHolds<T>(t: Table<T>, op: Op<T>)
    requires op.AddOp? ==> t.count + 1 !in t.entries
    ensures forall v :: Holds(t, v) ==> Holds(Step(t, op), v)
    ensures !op.RemoveOp? ==> Holds(Step(t, op), op.value)
    ensures |Step(t, op).entries| + |Step(t, op).released| ==
              |t.entries| + |t.released| + (if op.RemoveOp? then 0 else 1)
    ensures t.released <= Step(t, op).released
  {
    var u := Step(t, op);
    forall v | Holds(t, v) ensures Holds(u, v) {
      if v in t.entries.Values {
        var k :| k in t.entries && t.entries[k] == v;
        if Lookup(u, k) == Lookup(t, k) {
          assert u.entries[k] == v;
        } else {
          assert v in u.released;
        }
      }
    }
    if !op.RemoveOp? {
      var k := if op.AddOp? then t.count + 1 else op.index;
      assert Lookup(u, k) == Some(op.value);
      assert u.entries[k] == op.value;
    }
    if op.AddOp? {
      assert |u.entries| == |t.entries| + 1;
    }
  }

  /**
   * No value is lost: when every `add` stores under a free key, each value
   * the table held or released before, and each value `ops` stores, is
   * afterwards still held or released. Entries plus releases grow by
   * exactly the number of stores, so no release happens without a store,
   * and the release log only grows.
   */
  lemma {:induction false} RunConservesValues<T>(t: Table<T>, ops: seq<Op<T>>)
    requires AddsToFreeKeys(t, ops)
    ensures forall v :: Holds(t, v) ==> Holds(Run(t, ops), v)
    ensures forall k :: 0 <= k < |ops| && !ops[k].RemoveOp? ==> Holds(Run(t, ops), ops[k].value)
    ensures |Run(t, ops).entries| + |Run(t, ops).released| == |t.entries| + |t.released| + Stores(ops)
    ensures t.released <= Run(t, ops).released
    decreases |ops|
  {
    if ops != [] {
      var next := Step(t, ops[0]);
      StepHolds(t, ops[0]);
      RunConservesValues(next, ops[1..]);
      assert Run(t, ops) == Run(next, ops[1..]);
      forall k | 0 <= k < |ops| && !ops[k].RemoveOp? ensures Holds(Run(t, ops), ops[k].value) {
        if k > 0 {
          assert ops[k] == ops[1..][k - 1];
        }
      }
    }
  }

  /**
   * On a table whose keys all came from `add`, with every `set` aimed at a
   * handle already issued, every `add` stores under a free key and the
   * keys keep lying between 1 and the counter.
   */
  lemma {:induction false} BoundedRunsAddToFreeKeys<T>(t: Table<T>, ops: seq<Op<T>>)
    requires Bounded(t)
    requires forall k :: 0 <= k < |ops| && ops[k].SetOp? ==> 1 <= ops[k].index <= t.count
    ensures AddsToFreeKeys(t, ops)
    ensures Bounded(Run(t, ops))
    ensures Run(t, ops).count >= t.count
    decreases |ops|
  {
    if ops != [] {
      var next := Step(t, ops[0]);
      assert ops[0].AddOp? ==> t.count + 1 !in t.entries;
      assert Bounded(next) && next.count >= t.count;
      forall k | 0 <= k < |ops[1..]| && ops[1..][k].SetOp?
        ensures 1 <= ops[1..][k].index <= next.count
      {
        assert ops[1..][k] == ops[k + 1];
      }
      BoundedRunsAddToFreeKeys(next, ops[1..]);
    }
  }

  /** A run without `add`, such as every run on the vertex-shader blob table, adds to no occupied key. */
  lemma {:induction false} SetOnlyRunsAddToFreeKeys<T>(t: Table<T>, ops: seq<Op<T>>)
    requires forall k :: 0 <= k < |ops| ==> !ops[k].AddOp?
    ensures AddsToFreeKeys(t, ops)
    decreases |ops|
  {
    if ops != [] {
      forall k | 0 <= k < |ops[1..]| ensures !ops[1..][k].AddOp? {
        assert ops[1..][k] == ops[k + 1];
      }
      SetOnlyRunsAddToFreeKeys(Step(t, ops[0]), ops[1..]);
    }
  }

  /** Removing a handle twice releases its value once: the second removal changes nothing. */
  lemma RemoveTwiceReleasesOnce<T>(t: Table<T>, h: Handle)
    ensures Removed(Removed(t, h), h) == Removed(t, h)
    ensures |Removed(Removed(t, h), h).released| <= |t.released| + 1
  {
  }

  /** After `h := add(v)`, `get(h)` is `v`; after a following `remove(h)`, `get(h)` is null. */
  lemma AddThenRemove<T>(t: Table<T>, v: T)
    ensures Lookup(Added(t, v), t.count + 1) == Some(v)
    ensures Lookup(Removed(Added(t, v), t.count + 1), t.count + 1) == None
    ensures Removed(Added(t, v), t.count + 1).released == t.released + [v]
  {
  }

  // ---------------------------------------------------------------------
  // The table itself, updated in place
  // ---------------------------------------------------------------------

  /** `sD3D11ResourceMap<T>`: `count` and `map` are real fields; `released` logs `Release()` calls. */
  class ResourceMap<T> {
    var count: nat
    var entries: map<Handle, T>
    ghost var released: seq<T>

    ghost function State(): Table<T>
      reads this
    {
      Table(count, entries, released)
    }

    constructor ()
      ensures State() == EmptyTable()
    {
      count := 0;
      entries := map[];
      released := [];
    }

    /** `add`: the returned handle is the new counter. */
    method Add(v: T) returns (h: Handle)
      modifies this
      ensures State() == Added(old(State()), v)
      ensures h == count && h == old(count) + 1
    {
      count := count + 1;
      entries := entries[count := v];
      h := count;
    }

    /** `set`: returns the counter, not the slot it wrote. */
    method Set(i: Handle, v: T) returns (c: nat)
      modifies this
      ensures State() == Replaced(old(State()), i, v)
      ensures c == count && c == old(count)
    {
      Remove(i);
      entries := entries[i := v];
      c := count;
    }

    /** `get`: changes nothing. */
    method Get(h: Handle) returns (r: Option<T>)
      ensures r == Lookup(State(), h)
      ensures r.Some? <==> h in entries
    {
      if h in entries {
        r := Some(entries[h]);
      } else {
        r := None;
      }
    }

    /** `remove`: the release is logged before the entry is erased. */
    method Remove(h: Handle)
      modifies this
      ensures State() == Removed(old(State()), h)
    {
      if h in entries {
        released := released + [entries[h]];
        entries := entries - {h};
      }
    }
  }
}

/** The restriction of map keys to strings (internal/pickle/bind.go): dicts are copied
    into string-keyed ones, lists are overwritten in place, everything else is left
    alone. Lists and dicts may be shared. */
module PickleRestrict {
  import opened Bytes
  import opened Collections
  import opened Options
  import opened PickleMachine
  import C = PickleCompiler

  /** What a value looks like when followed through lists and string keys only. */
  datatype RTree =
    | RLeaf(v: Value)
    | RList(elems: seq<RTree>)
    | RStrDict(dict: map<seq<byte>, RTree>)

  /** Finished: value v reads as r and no any-keyed dict is on the way. */
  ghost predicate Restricted(h: Heap, v: Value, r: RTree)
    decreases r
  {
    match v
    case ListRef(id) =>
      && r.RList? && IsList(h, v) && |h[id].elems| == |r.elems|
      && forall i :: 0 <= i < |r.elems| ==> Restricted(h, h[id].elems[i], r.elems[i])
    case DictRef(_) => false
    case StrDictRef(id) =>
      && r.RStrDict? && id < |h| && h[id].StrDictCell? && h[id].strDict.Keys == r.dict.Keys
      && forall s :: s in r.dict ==> Restricted(h, h[id].strDict[s], r.dict[s])
    case _ => r == RLeaf(v)
  }

  /** To do: v reads as r once the entries under other than string keys are dropped,
      and no list in `avoid` is on the way. When there is such an r, ReadableIff
      says. */
  ghost predicate Pending(h: Heap, v: Value, r: RTree, avoid: set<nat>)
    decreases r
  {
    match v
    case ListRef(id) =>
      && id !in avoid && r.RList? && IsList(h, v) && |h[id].elems| == |r.elems|
      && forall i :: 0 <= i < |r.elems| ==> Pending(h, h[id].elems[i], r.elems[i], avoid)
    case DictRef(id) =>
      && r.RStrDict? && IsDict(h, v)
      && (forall s :: s in r.dict <==> Str(s) in h[id].dict)
      && forall s :: s in r.dict ==> Pending(h, h[id].dict[Str(s)], r.dict[s], avoid)
    case StrDictRef(_) => Restricted(h, v, r)
    case _ => r == RLeaf(v)
  }

  lemma {:induction false} RestrictedIsPending(h: Heap, v: Value, r: RTree)
    requires Restricted(h, v, r)
    ensures Pending(h, v, r, {})
    decreases r
  {
    if v.ListRef? {
      forall i | 0 <= i < |r.elems| ensures Pending(h, h[v.id].elems[i], r.elems[i], {}) {
        RestrictedIsPending(h, h[v.id].elems[i], r.elems[i]);
      }
    }
  }

  lemma {:induction false} RestrictedOne(h: Heap, v: Value, r: RTree, q: RTree)
    requires Restricted(h, v, r) && Restricted(h, v, q)
    ensures r == q
    decreases r
  {
    if v.ListRef? {
      forall i | 0 <= i < |r.elems| ensures r.elems[i] == q.elems[i] {
        RestrictedOne(h, h[v.id].elems[i], r.elems[i], q.elems[i]);
      }
      assert r.elems == q.elems;
    } else if v.StrDictRef? {
      forall s | s in r.dict ensures r.dict[s] == q.dict[s] {
        RestrictedOne(h, h[v.id].strDict[s], r.dict[s], q.dict[s]);
      }
      assert r.dict == q.dict;
    }
  }

  /** The reading of a value is unique. */
  lemma {:induction false} PendingOne(h: Heap, v: Value, r: RTree, q: RTree, a: set<nat>, b: set<nat>)
    requires Pending(h, v, r, a) && Pending(h, v, q, b)
    ensures r == q
    decreases r
  {
    if v.ListRef? {
      forall i | 0 <= i < |r.elems| ensures r.elems[i] == q.elems[i] {
        PendingOne(h, h[v.id].elems[i], r.elems[i], q.elems[i], a, b);
      }
      assert r.elems == q.elems;
    } else if v.DictRef? {
      forall s | s in r.dict ensures s in q.dict && r.dict[s] == q.dict[s] {
        PendingOne(h, h[v.id].dict[Str(s)], r.dict[s], q.dict[s], a, b);
      }
      assert r.dict == q.dict;
    } else if v.StrDictRef? {
      RestrictedOne(h, v, r, q);
    }
  }

  /** No list is on the way to itself. */
  lemma {:induction false} BelowAvoids(h: Heap, v: Value, r: RTree, id: nat, whole: RTree, avoid: set<nat>)
    requires Pending(h, ListRef(id), whole, avoid) && Pending(h, v, r, avoid) && r < whole
    ensures Pending(h, v, r, avoid + {id})
    decreases r
  {
    if v.ListRef? {
      if v.id == id { PendingOne(h, v, r, whole, avoid, avoid); }
      forall i | 0 <= i < |r.elems| ensures Pending(h, h[v.id].elems[i], r.elems[i], avoid + {id}) {
        BelowAvoids(h, h[v.id].elems[i], r.elems[i], id, whole, avoid);
      }
    } else if v.DictRef? {
      forall s | s in r.dict ensures Pending(h, h[v.id].dict[Str(s)], r.dict[s], avoid + {id}) {
        BelowAvoids(h, h[v.id].dict[Str(s)], r.dict[s], id, whole, avoid);
      }
    }
  }

  /* Which values have a reading */

  /** The value leads to a cell of its kind with a rank below the bound, or to no list or
      dict. */
  ghost predicate Below(h: Heap, rank: map<nat, nat>, bound: nat, v: Value) {
    match v
    case ListRef(id) => IsList(h, v) && id in rank && rank[id] < bound
    case DictRef(id) => IsDict(h, v) && id in rank && rank[id] < bound
    case StrDictRef(_) => false
    case _ => true
  }

  /** The ranks fall along list elements and the entries under string keys: following
      them never loops. */
  ghost predicate Ranked(h: Heap, rank: map<nat, nat>) {
    forall id :: id in rank ==>
      && id < |h|
      && (h[id].ListCell? ==> forall i :: 0 <= i < |h[id].elems| ==> Below(h, rank, rank[id], h[id].elems[i]))
      && (h[id].DictCell? ==>
            forall s :: Str(s) in h[id].dict ==> Below(h, rank, rank[id], h[id].dict[Str(s)]))
  }

  ghost function ReadingOf(h: Heap, rank: map<nat, nat>, bound: nat, v: Value): (r: RTree)
    requires Ranked(h, rank) && Below(h, rank, bound, v)
    ensures Pending(h, v, r, {})
    decreases bound
  {
    match v
    case ListRef(id) =>
      var elems := h[id].elems;
      RList(seq(|elems|, i requires 0 <= i < |elems| => ReadingOf(h, rank, rank[id], elems[i])))
    case DictRef(id) =>
      var dict := h[id].dict;
      RStrDict(map k | k in dict && k.Str? :: k.s := assert dict[Str(k.s)] == dict[k];
                                                    ReadingOf(h, rank, rank[id], dict[k]))
    case _ => RLeaf(v)
  }

  ghost function Largest(s: set<nat>): (m: nat)
    ensures forall x :: x in s ==> x <= m
  {
    if s == {} then 0
    else
      var x :| x in s;
      var m := Largest(s - {x});
      assert forall y :: y in s ==> y == x || y in s - {x};
      if x > m then x else m
  }

  ghost function Height(r: RTree): nat {
    match r
    case RLeaf(_) => 0
    case RList(elems) => 1 + Largest(set i | 0 <= i < |elems| :: Height(elems[i]))
    case RStrDict(dict) => 1 + Largest(set s | s in dict :: Height(dict[s]))
  }

  function RefTo(h: Heap, id: nat): Value
    requires id < |h|
  {
    if h[id].ListCell? then ListRef(id) else DictRef(id)
  }

  ghost predicate Readable(h: Heap, v: Value) {
    exists r :: Pending(h, v, r, {})
  }

  ghost function Reading(h: Heap, v: Value): (r: RTree)
    requires Readable(h, v)
    ensures Pending(h, v, r, {})
  {
    var r :| Pending(h, v, r, {}); r
  }

  /** The height of its reading, for every cell that has one. */
  ghost function Heights(h: Heap): map<nat, nat> {
    map id | 0 <= id < |h| && Readable(h, RefTo(h, id)) :: Height(Reading(h, RefTo(h, id)))
  }

  /** No string-keyed dict yet, as in every heap the machine makes. */
  ghost predicate Unrestricted(h: Heap) {
    forall id :: 0 <= id < |h| ==>
      && (h[id].ListCell? ==> forall i :: 0 <= i < |h[id].elems| ==> !h[id].elems[i].StrDictRef?)
      && (h[id].DictCell? ==> forall k :: k in h[id].dict ==> !h[id].dict[k].StrDictRef?)
  }

  lemma ReadingIsBelow(h: Heap, v: Value, r: RTree, bound: nat)
    requires Pending(h, v, r, {}) && Height(r) < bound && !v.StrDictRef?
    ensures Below(h, Heights(h), bound, v)
  {
    if v.ListRef? || v.DictRef? {
      assert RefTo(h, v.id) == v && Readable(h, v);
      PendingOne(h, v, r, Reading(h, v), {}, {});
    }
  }

  lemma ElementIsLower(r: RTree, i: nat)
    requires r.RList? && i < |r.elems|
    ensures Height(r.elems[i]) < Height(r)
  {
    var heights := set j | 0 <= j < |r.elems| :: Height(r.elems[j]);
    assert Height(r.elems[i]) in heights && Height(r) == 1 + Largest(heights);
  }

  lemma EntryIsLower(r: RTree, s: seq<byte>)
    requires r.RStrDict? && s in r.dict
    ensures Height(r.dict[s]) < Height(r)
  {
    var heights := set u | u in r.dict :: Height(r.dict[u]);
    assert Height(r.dict[s]) in heights && Height(r) == 1 + Largest(heights);
  }

  lemma ListFalls(h: Heap, id: nat, i: nat)
    requires Unrestricted(h) && id in Heights(h) && h[id].ListCell? && i < |h[id].elems|
    ensures Below(h, Heights(h), Heights(h)[id], h[id].elems[i])
  {
    var r := Reading(h, ListRef(id));
    ElementIsLower(r, i);
    ReadingIsBelow(h, h[id].elems[i], r.elems[i], Heights(h)[id]);
  }

  lemma DictFalls(h: Heap, id: nat, s: seq<byte>)
    requires Unrestricted(h) && id in Heights(h) && h[id].DictCell? && Str(s) in h[id].dict
    ensures Below(h, Heights(h), Heights(h)[id], h[id].dict[Str(s)])
  {
    var r := Reading(h, DictRef(id));
    EntryIsLower(r, s);
    ReadingIsBelow(h, h[id].dict[Str(s)], r.dict[s], Heights(h)[id]);
  }

  lemma HeightsFall(h: Heap)
    requires Unrestricted(h)
    ensures Ranked(h, Heights(h))
  {
    var rank := Heights(h);
    forall id, i | id in rank && h[id].ListCell? && 0 <= i < |h[id].elems|
      ensures Below(h, rank, rank[id], h[id].elems[i])
    {
      ListFalls(h, id, i);
    }
    forall id, s | id in rank && h[id].DictCell? && Str(s) in h[id].dict
      ensures Below(h, rank, rank[id], h[id].dict[Str(s)])
    {
      DictFalls(h, id, s);
    }
  }

  /** A value has a reading, and can be restricted, exactly when following lists and
      string keys from it stays on valid references and never loops. */
  lemma ReadableIff(h: Heap, v: Value)
    requires Unrestricted(h) && !v.StrDictRef?
    ensures Readable(h, v) <==> exists rank, bound :: Ranked(h, rank) && Below(h, rank, bound, v)
  {
    if Readable(h, v) {
      HeightsFall(h);
      ReadingIsBelow(h, v, Reading(h, v), Height(Reading(h, v)) + 1);
    }
    if exists rank, bound :: Ranked(h, rank) && Below(h, rank, bound, v) {
      var rank, bound :| Ranked(h, rank) && Below(h, rank, bound, v);
      assert Pending(h, v, ReadingOf(h, rank, bound, v), {});
    }
  }

  /* How the heap may change under the values that are still to be done */

  ghost predicate CellKept(c: Cell, d: Cell) {
    if c.ListCell? then
      && d.ListCell? && |d.elems| == |c.elems|
      && forall j :: 0 <= j < |c.elems| ==>
           d.elems[j] == c.elems[j] || (c.elems[j].DictRef? && d.elems[j].StrDictRef?)
    else d == c
  }

  /** Every reading survives; only lists change, and only in elements that are dicts; the
      only new cells are string-keyed dicts. */
  ghost predicate Keeps(h: Heap, g: Heap) {
    && |h| <= |g|
    && (forall v, r, a :: Pending(h, v, r, a) ==> Pending(g, v, r, a))
    && (forall v, r :: Restricted(h, v, r) ==> Restricted(g, v, r))
    && (forall id :: 0 <= id < |h| ==> CellKept(h[id], g[id]))
    && (forall id :: |h| <= id < |g| ==> g[id].StrDictCell?)
  }

  ghost predicate Untouched(h: Heap, g: Heap, avoid: set<nat>) {
    |h| <= |g| && forall id :: 0 <= id < |h| && id in avoid ==> g[id] == h[id]
  }

  lemma KeepsTransitive(h: Heap, g: Heap, f: Heap)
    requires Keeps(h, g) && Keeps(g, f)
    ensures Keeps(h, f)
  {
    forall id | 0 <= id < |f|
      ensures if id < |h| then CellKept(h[id], f[id]) else f[id].StrDictCell?
    {
      if id < |h| {
        assert CellKept(h[id], g[id]) && CellKept(g[id], f[id]);
      } else if id < |g| {
        assert CellKept(g[id], f[id]);
      }
    }
  }

  lemma {:induction false} ExtendRestricted(h: Heap, c: Cell, v: Value, r: RTree)
    requires Restricted(h, v, r)
    ensures Restricted(h + [c], v, r)
    decreases r
  {
    if v.ListRef? {
      forall i | 0 <= i < |r.elems| ensures Restricted(h + [c], h[v.id].elems[i], r.elems[i]) {
        ExtendRestricted(h, c, h[v.id].elems[i], r.elems[i]);
      }
    } else if v.StrDictRef? {
      forall s | s in r.dict ensures Restricted(h + [c], h[v.id].strDict[s], r.dict[s]) {
        ExtendRestricted(h, c, h[v.id].strDict[s], r.dict[s]);
      }
    }
  }

  lemma {:induction false} ExtendPending(h: Heap, c: Cell, v: Value, r: RTree, a: set<nat>)
    requires Pending(h, v, r, a)
    ensures Pending(h + [c], v, r, a)
    decreases r
  {
    if v.ListRef? {
      forall i | 0 <= i < |r.elems| ensures Pending(h + [c], h[v.id].elems[i], r.elems[i], a) {
        ExtendPending(h, c, h[v.id].elems[i], r.elems[i], a);
      }
    } else if v.DictRef? {
      forall s | s in r.dict ensures Pending(h + [c], h[v.id].dict[Str(s)], r.dict[s], a) {
        ExtendPending(h, c, h[v.id].dict[Str(s)], r.dict[s], a);
      }
    } else if v.StrDictRef? {
      ExtendRestricted(h, c, v, r);
    }
  }

  lemma ExtendKeeps(h: Heap, c: Cell)
    requires c.StrDictCell?
    ensures Keeps(h, h + [c])
  {
    forall v, r, a | Pending(h, v, r, a) ensures Pending(h + [c], v, r, a) { ExtendPending(h, c, v, r, a); }
    forall v, r | Restricted(h, v, r) ensures Restricted(h + [c], v, r) { ExtendRestricted(h, c, v, r); }
  }

  /** Element i of list `id` replaced by a finished value with the same reading: itself,
      or the copy of a dict. */
  ghost predicate Replaces(h: Heap, g: Heap, id: nat, i: nat, e: Value, r: RTree) {
    && id < |h| && h[id].ListCell? && i < |h[id].elems|
    && (exists a :: Pending(h, h[id].elems[i], r, a)) && Restricted(h, e, r)
    && (e == h[id].elems[i] || (h[id].elems[i].DictRef? && e.StrDictRef?))
    && g == h[id := ListCell(h[id].elems[i := e])]
  }

  lemma {:induction false} WriteRestricted(h: Heap, g: Heap, id: nat, i: nat, e: Value, r: RTree, u: Value, q: RTree)
    requires Replaces(h, g, id, i, e, r) && Restricted(h, u, q)
    ensures Restricted(g, u, q)
    decreases q
  {
    if u.ListRef? {
      forall j | 0 <= j < |q.elems| ensures Restricted(g, g[u.id].elems[j], q.elems[j]) {
        WriteRestricted(h, g, id, i, e, r, h[u.id].elems[j], q.elems[j]);
      }
    } else if u.StrDictRef? {
      forall s | s in q.dict ensures Restricted(g, g[u.id].strDict[s], q.dict[s]) {
        WriteRestricted(h, g, id, i, e, r, h[u.id].strDict[s], q.dict[s]);
      }
    }
  }

  lemma {:induction false} WritePending(h: Heap, g: Heap, id: nat, i: nat, e: Value, r: RTree, u: Value, q: RTree,
                                        a: set<nat>)
    requires Replaces(h, g, id, i, e, r) && Pending(h, u, q, a)
    ensures Pending(g, u, q, a)
    decreases q
  {
    if u.ListRef? {
      forall j | 0 <= j < |q.elems| ensures Pending(g, g[u.id].elems[j], q.elems[j], a) {
        if u.id == id && j == i && e.StrDictRef? {
          var b :| Pending(h, h[id].elems[i], r, b);
          PendingOne(h, h[id].elems[i], r, q.elems[i], b, a);
          WriteRestricted(h, g, id, i, e, r, e, r);
        } else {
          WritePending(h, g, id, i, e, r, h[u.id].elems[j], q.elems[j], a);
        }
      }
    } else if u.DictRef? {
      forall s | s in q.dict ensures Pending(g, g[u.id].dict[Str(s)], q.dict[s], a) {
        WritePending(h, g, id, i, e, r, h[u.id].dict[Str(s)], q.dict[s], a);
      }
    } else if u.StrDictRef? {
      WriteRestricted(h, g, id, i, e, r, u, q);
    }
  }

  lemma WriteKeeps(h: Heap, g: Heap, id: nat, i: nat, e: Value, r: RTree)
    requires Replaces(h, g, id, i, e, r)
    ensures Keeps(h, g)
  {
    forall u, q, a | Pending(h, u, q, a) ensures Pending(g, u, q, a) { WritePending(h, g, id, i, e, r, u, q, a); }
    forall u, q | Restricted(h, u, q) ensures Restricted(g, u, q) { WriteRestricted(h, g, id, i, e, r, u, q); }
  }

  /* The lists on the way */

  datatype Step = Key(s: seq<byte>) | At(i: nat)

  /** Following string keys of dicts and list indices, as the code does. */
  function Walk(h: Heap, v: Value, path: seq<Step>): Option<Value>
    decreases |path|
  {
    if path == [] then Some(v)
    else
      match path[0]
      case Key(s) =>
        if IsDict(h, v) && Str(s) in h[v.id].dict then Walk(h, h[v.id].dict[Str(s)], path[1..]) else None
      case At(i) =>
        if IsList(h, v) && i < |h[v.id].elems| then Walk(h, h[v.id].elems[i], path[1..]) else None
  }

  ghost predicate OnWay(h: Heap, v: Value, id: nat) {
    exists path :: Walk(h, v, path) == Some(ListRef(id))
  }

  ghost predicate Finished(h: Heap, id: nat) {
    exists r :: Restricted(h, ListRef(id), r)
  }

  /** The lists on the way from a dict that has been replaced in a list are finished. */
  ghost predicate ElementSwept(h: Heap, g: Heap, id: nat, i: nat)
    requires id < |h| <= |g| && h[id].ListCell? && CellKept(h[id], g[id]) && i < |h[id].elems|
  {
    g[id].elems[i] != h[id].elems[i] ==> forall j :: OnWay(h, h[id].elems[i], j) ==> Finished(g, j)
  }

  ghost predicate Swept(h: Heap, g: Heap) {
    && Keeps(h, g)
    && forall id, i :: 0 <= id < |h| && h[id].ListCell? && 0 <= i < |h[id].elems| ==> ElementSwept(h, g, id, i)
  }

  lemma OnWayVia(h: Heap, v: Value, step: Step, w: Value, id: nat)
    requires Walk(h, v, [step]) == Some(w) && OnWay(h, w, id)
    ensures OnWay(h, v, id)
  {
    var path :| Walk(h, w, path) == Some(ListRef(id));
    assert [step][1..] == [] && ([step] + path)[1..] == path;
    assert Walk(h, v, [step] + path) == Some(ListRef(id));
  }

  lemma OnWayFrom(h: Heap, v: Value, id: nat) returns (step: Step, w: Value)
    requires OnWay(h, v, id) && v != ListRef(id)
    ensures Walk(h, v, [step]) == Some(w) && OnWay(h, w, id)
  {
    var path :| Walk(h, v, path) == Some(ListRef(id));
    step := path[0];
    w := match step case Key(s) => h[v.id].dict[Str(s)] case At(i) => h[v.id].elems[i];
    assert [step][1..] == [];
    assert Walk(h, w, path[1..]) == Some(ListRef(id));
  }

  /** What was on the way still is, or is finished. */
  lemma {:induction false} WalkStays(h: Heap, g: Heap, v: Value, path: seq<Step>, id: nat)
    requires Swept(h, g) && Walk(h, v, path) == Some(ListRef(id))
    ensures Walk(g, v, path) == Some(ListRef(id)) || Finished(g, id)
    decreases |path|
  {
    if path != [] {
      assert CellKept(h[v.id], g[v.id]);
      match path[0]
      case Key(s) => WalkStays(h, g, h[v.id].dict[Str(s)], path[1..], id);
      case At(i) =>
        if g[v.id].elems[i] == h[v.id].elems[i] {
          WalkStays(h, g, h[v.id].elems[i], path[1..], id);
        } else {
          assert OnWay(h, h[v.id].elems[i], id);
          assert ElementSwept(h, g, v.id, i);
        }
    }
  }

  lemma OnWayStays(h: Heap, g: Heap, v: Value, id: nat)
    requires Swept(h, g) && OnWay(h, v, id)
    ensures OnWay(g, v, id) || Finished(g, id)
  {
    var path :| Walk(h, v, path) == Some(ListRef(id));
    WalkStays(h, g, v, path, id);
  }

  /** Nothing gets on the way. */
  lemma {:induction false} WalkBack(h: Heap, g: Heap, v: Value, path: seq<Step>, id: nat)
    requires Keeps(h, g) && Walk(g, v, path) == Some(ListRef(id))
    ensures Walk(h, v, path) == Some(ListRef(id))
    decreases |path|
  {
    if path != [] {
      assert v.id < |h| && CellKept(h[v.id], g[v.id]);
      match path[0]
      case Key(s) => WalkBack(h, g, g[v.id].dict[Str(s)], path[1..], id);
      case At(i) => WalkBack(h, g, g[v.id].elems[i], path[1..], id);
    }
  }

  lemma OnWayBack(h: Heap, g: Heap, v: Value, id: nat)
    requires Keeps(h, g) && OnWay(g, v, id)
    ensures OnWay(h, v, id)
  {
    var path :| Walk(g, v, path) == Some(ListRef(id));
    WalkBack(h, g, v, path, id);
  }

  lemma FinishedStays(h: Heap, g: Heap, id: nat)
    requires Keeps(h, g) && Finished(h, id)
    ensures Finished(g, id)
  {
    var r :| Restricted(h, ListRef(id), r);
    assert Restricted(g, ListRef(id), r);
  }

  lemma SweptTransitive(h: Heap, g: Heap, f: Heap)
    requires Swept(h, g) && Swept(g, f)
    ensures Swept(h, f)
  {
    KeepsTransitive(h, g, f);
    forall id, i | 0 <= id < |h| && h[id].ListCell? && 0 <= i < |h[id].elems|
      ensures ElementSwept(h, f, id, i)
    {
      assert CellKept(h[id], g[id]) && CellKept(g[id], f[id]);
      assert ElementSwept(h, g, id, i) && ElementSwept(g, f, id, i);
      if f[id].elems[i] != h[id].elems[i] {
        forall j | OnWay(h, h[id].elems[i], j)
          ensures Finished(f, j)
        {
          OnWayStays(h, g, h[id].elems[i], j);
          if Finished(g, j) { FinishedStays(g, f, j); }
        }
      }
    }
  }

  ghost predicate AllFinished(h: Heap, v: Value, g: Heap) {
    forall id :: OnWay(h, v, id) ==> Finished(g, id)
  }

  ghost predicate KeptOffWay(h: Heap, v: Value, g: Heap) {
    |h| <= |g| && forall id :: 0 <= id < |h| && !OnWay(h, v, id) ==> g[id] == h[id]
  }

  /** All lists on the way from v are finished, all others are as they were. */
  ghost predicate Sweeps(h: Heap, v: Value, g: Heap) {
    Swept(h, g) && AllFinished(h, v, g) && KeptOffWay(h, v, g)
  }

  /** One child after others have been done: what the loop over a parent keeps. */
  lemma SweepMore(h: Heap, parent: Value, scope: Value, child: Value, before: Heap, after: Heap)
    requires Swept(h, before) && KeptOffWay(h, parent, before)
    requires Swept(before, after) && AllFinished(before, child, after) && KeptOffWay(before, scope, after)
    requires forall id :: OnWay(h, scope, id) ==> OnWay(h, parent, id)
    ensures Swept(h, after) && AllFinished(h, child, after) && KeptOffWay(h, parent, after)
    ensures forall v :: AllFinished(h, v, before) ==> AllFinished(h, v, after)
  {
    SweptTransitive(h, before, after);
    FinishedAll(before, after);
    forall id | OnWay(h, child, id)
      ensures Finished(after, id)
    {
      OnWayStays(h, before, child, id);
    }
    forall id | 0 <= id < |h| && !OnWay(h, parent, id)
      ensures after[id] == h[id]
    {
      if OnWay(before, scope, id) { OnWayBack(h, before, scope, id); }
    }
  }

  lemma ChildOnWay(h: Heap, v: Value, step: Step, w: Value)
    requires Walk(h, v, [step]) == Some(w)
    ensures forall id :: OnWay(h, w, id) ==> OnWay(h, v, id)
  {
    forall id | OnWay(h, w, id) ensures OnWay(h, v, id) { OnWayVia(h, v, step, w, id); }
  }

  lemma WalkOne(h: Heap, v: Value, step: Step)
    ensures Walk(h, v, [step]) ==
            match step
            case Key(s) => if IsDict(h, v) && Str(s) in h[v.id].dict then Some(h[v.id].dict[Str(s)]) else None
            case At(i) => if IsList(h, v) && i < |h[v.id].elems| then Some(h[v.id].elems[i]) else None
  {
    assert [step][1..] == [];
  }

  /** A dict is swept when its entries under string keys are. */
  lemma DictFinished(h: Heap, id: nat, g: Heap)
    requires IsDict(h, DictRef(id))
    requires forall s :: Str(s) in h[id].dict ==> AllFinished(h, h[id].dict[Str(s)], g)
    ensures AllFinished(h, DictRef(id), g)
  {
    forall j | OnWay(h, DictRef(id), j)
      ensures Finished(g, j)
    {
      var step, w := OnWayFrom(h, DictRef(id), j);
      WalkOne(h, DictRef(id), step);
    }
  }

  /** A list is swept when it is finished and its elements are swept. */
  lemma ListFinished(h: Heap, id: nat, g: Heap)
    requires IsList(h, ListRef(id)) && Finished(g, id)
    requires forall i :: 0 <= i < |h[id].elems| ==> AllFinished(h, h[id].elems[i], g)
    ensures AllFinished(h, ListRef(id), g)
  {
    forall j | OnWay(h, ListRef(id), j) && j != id
      ensures Finished(g, j)
    {
      var step, w := OnWayFrom(h, ListRef(id), j);
      WalkOne(h, ListRef(id), step);
    }
  }

  /** Nothing is on the way from any other value. */
  lemma SweepsNothing(h: Heap, v: Value)
    requires !v.ListRef? && !v.DictRef?
    ensures Sweeps(h, v, h)
  {
    SweptSame(h);
    forall id
      ensures !OnWay(h, v, id)
    {
      if OnWay(h, v, id) {
        var step, w := OnWayFrom(h, v, id);
        WalkOne(h, v, step);
      }
    }
  }

  lemma ListIsOnItsWay(h: Heap, id: nat)
    ensures OnWay(h, ListRef(id), id)
  {
    assert Walk(h, ListRef(id), []) == Some(ListRef(id));
  }

  /** Overwriting an element whose lists are finished. */
  lemma WriteSwept(h: Heap, between: Heap, g: Heap, id: nat, i: nat, e: Value, r: RTree)
    requires Replaces(between, g, id, i, e, r) && Keeps(h, between)
    requires AllFinished(h, between[id].elems[i], between)
    ensures Swept(between, g)
  {
    WriteKeeps(between, g, id, i, e, r);
    FinishedAll(between, g);
    forall j | OnWay(between, between[id].elems[i], j)
      ensures Finished(g, j)
    {
      OnWayBack(h, between, between[id].elems[i], j);
    }
    forall id', i' | 0 <= id' < |between| && between[id'].ListCell? && 0 <= i' < |between[id'].elems|
      ensures ElementSwept(between, g, id', i')
    {
      assert CellKept(between[id'], g[id']);
    }
  }

  lemma SweptSame(h: Heap)
    ensures Swept(h, h)
  {
  }

  lemma ExtendSwept(h: Heap, c: Cell)
    requires c.StrDictCell?
    ensures Swept(h, h + [c])
  {
    ExtendKeeps(h, c);
  }

  lemma FinishedAll(h: Heap, g: Heap)
    requires Keeps(h, g)
    ensures forall id :: Finished(h, id) ==> Finished(g, id)
  {
    forall id | Finished(h, id) ensures Finished(g, id) { FinishedStays(h, g, id); }
  }

  /* The code */

  class Store {
    var cells: Heap

    /** Works for every value that can be followed without looping, whatever is shared
        and in whatever order the entries of a dict come up. Every list on the way is
        finished afterwards; a finished value and every list off the way are left as
        they are. */
    method Restrict(v: Value, ghost r: RTree, ghost avoid: set<nat>) returns (v': Value)
      requires Pending(cells, v, r, avoid)
      modifies this
      ensures Restricted(cells, v', r)
      ensures Sweeps(old(cells), v, cells) && Untouched(old(cells), cells, avoid)
      ensures v' == v || (v.DictRef? && v'.StrDictRef?)
      ensures Restricted(old(cells), v, r) ==> v' == v && cells == old(cells)
      decreases r, 2
    {
      if v.DictRef? {
        v' := RestrictDict(v.id, r, avoid);
      } else {
        if v.ListRef? { RestrictList(v.id, r, avoid); } else { SweepsNothing(cells, v); }
        v' := v;
      }
    }

    method RestrictDict(id: nat, ghost r: RTree, ghost avoid: set<nat>) returns (v': Value)
      requires Pending(cells, DictRef(id), r, avoid)
      modifies this
      ensures v'.StrDictRef? && Restricted(cells, v', r)
      ensures Sweeps(old(cells), DictRef(id), cells) && Untouched(old(cells), cells, avoid)
      decreases r, 0
    {
      var dict := cells[id].dict;
      var m: map<seq<byte>, Value> := map[];
      var todo := dict.Keys;
      ghost var h := cells;
      SweptSame(h);
      while todo != {}
        invariant Swept(h, cells) && Untouched(h, cells, avoid) && KeptOffWay(h, DictRef(id), cells)
        invariant todo <= dict.Keys
        invariant forall s :: s in m <==> Str(s) in dict && Str(s) !in todo
        invariant forall s :: s in m ==> Restricted(cells, m[s], r.dict[s]) && AllFinished(h, dict[Str(s)], cells)
        decreases todo
      {
        var k := Pick(todo);
        todo := todo - {k};
        if k.Str? {
          ghost var before := cells;
          assert Pending(cells, DictRef(id), r, avoid) && CellKept(h[id], cells[id]);
          var e := Restrict(dict[k], r.dict[k.s], avoid);
          WalkOne(h, DictRef(id), Key(k.s));
          ChildOnWay(h, DictRef(id), Key(k.s), dict[k]);
          SweepMore(h, DictRef(id), dict[k], dict[k], before, cells);
          m := m[k.s := e];
        }
      }
      DictFinished(h, id, cells);
      ghost var before := cells;
      ExtendSwept(cells, StrDictCell(m));
      v' := StrDictRef(|cells|);
      cells := cells + [StrDictCell(m)];
      SweptTransitive(h, before, cells);
      FinishedAll(before, cells);
    }

    /** One element of a list, overwritten in place. */
    method RestrictElement(id: nat, i: nat, ghost r: RTree, ghost avoid: set<nat>)
      requires Pending(cells, ListRef(id), r, avoid) && i < |r.elems|
      modifies this
      ensures Swept(old(cells), cells) && Untouched(old(cells), cells, avoid)
      ensures AllFinished(old(cells), old(cells[id].elems[i]), cells) && KeptOffWay(old(cells), ListRef(id), cells)
      ensures IsList(cells, ListRef(id))
      ensures cells[id].elems == old(cells[id].elems)[i := cells[id].elems[i]]
      ensures Restricted(cells, cells[id].elems[i], r.elems[i])
      ensures Restricted(old(cells), old(cells[id].elems[i]), r.elems[i]) ==> cells == old(cells)
      decreases r, 0
    {
      ghost var h := cells;
      var v := cells[id].elems[i];
      BelowAvoids(cells, v, r.elems[i], id, r, avoid);
      var e := Restrict(v, r.elems[i], avoid + {id});
      ghost var between := cells;
      assert between[id] == h[id];
      assert e == v ==> between[id].elems[i := e] == between[id].elems;
      cells := cells[id := ListCell(cells[id].elems[i := e])];
      assert Pending(between, between[id].elems[i], r.elems[i], avoid + {id});
      WriteSwept(h, between, cells, id, i, e, r.elems[i]);
      SweptTransitive(h, between, cells);
      FinishedAll(between, cells);
      WalkOne(h, ListRef(id), At(i));
      ChildOnWay(h, ListRef(id), At(i), v);
      ListIsOnItsWay(h, id);
    }

    method RestrictList(id: nat, ghost r: RTree, ghost avoid: set<nat>)
      requires Pending(cells, ListRef(id), r, avoid)
      modifies this
      ensures Restricted(cells, ListRef(id), r)
      ensures Sweeps(old(cells), ListRef(id), cells) && Untouched(old(cells), cells, avoid)
      ensures Restricted(old(cells), ListRef(id), r) ==> cells == old(cells)
      decreases r, 1
    {
      var n := |cells[id].elems|;
      ghost var h := cells;
      SweptSame(h);
      for i := 0 to n
        invariant Swept(h, cells) && Untouched(h, cells, avoid) && KeptOffWay(h, ListRef(id), cells)
        invariant Pending(cells, ListRef(id), r, avoid)
        invariant forall j :: 0 <= j < i ==> Restricted(cells, cells[id].elems[j], r.elems[j])
        invariant forall j :: 0 <= j < i ==> AllFinished(h, h[id].elems[j], cells)
        invariant forall j :: i <= j < n ==> cells[id].elems[j] == h[id].elems[j]
        invariant Restricted(h, ListRef(id), r) ==> cells == h
      {
        ghost var before := cells;
        RestrictElement(id, i, r, avoid);
        SweepMore(h, ListRef(id), ListRef(id), h[id].elems[i], before, cells);
        assert Pending(cells, ListRef(id), r, avoid);
      }
      assert Restricted(cells, ListRef(id), r);
      ListFinished(h, id, cells);
    }
  }

  /* What a restricted value offers */

  /** Following one string key or list index. */
  function Follow(h: Heap, v: Value, step: Step): Option<Value> {
    match step
    case Key(s) =>
      if IsDict(h, v) && Str(s) in h[v.id].dict then Some(h[v.id].dict[Str(s)])
      else if v.StrDictRef? && v.id < |h| && h[v.id].StrDictCell? && s in h[v.id].strDict then
        Some(h[v.id].strDict[s])
      else None
    case At(i) =>
      if IsList(h, v) && i < |h[v.id].elems| then Some(h[v.id].elems[i]) else None
  }

  function FollowAll(h: Heap, v: Value, path: seq<Step>): Option<Value>
    decreases |path|
  {
    if path == [] then Some(v)
    else
      var w := Follow(h, v, path[0]);
      if w.None? then w else FollowAll(h, w.value, path[1..])
  }

  function Descend(r: RTree, path: seq<Step>): Option<RTree>
    decreases |path|
  {
    if path == [] then Some(r)
    else
      match path[0]
      case Key(s) => if r.RStrDict? && s in r.dict then Descend(r.dict[s], path[1..]) else None
      case At(i) => if r.RList? && i < |r.elems| then Descend(r.elems[i], path[1..]) else None
  }

  lemma {:induction false} RestrictedPaths(h: Heap, v: Value, r: RTree, path: seq<Step>)
    requires Restricted(h, v, r)
    ensures FollowAll(h, v, path).Some? <==> Descend(r, path).Some?
    ensures Descend(r, path).Some? ==> Restricted(h, FollowAll(h, v, path).value, Descend(r, path).value)
    decreases |path|
  {
    if path != [] {
      var w := Follow(h, v, path[0]);
      if w.Some? {
        RestrictedPaths(h, w.value, if path[0].Key? then r.dict[path[0].s] else r.elems[path[0].i], path[1..]);
      }
    }
  }

  lemma {:induction false} PendingPaths(h: Heap, v: Value, r: RTree, a: set<nat>, path: seq<Step>)
    requires Pending(h, v, r, a)
    ensures FollowAll(h, v, path).Some? <==> Descend(r, path).Some?
    ensures Descend(r, path).Some? && Descend(r, path).value.RLeaf? ==>
              FollowAll(h, v, path).value == Descend(r, path).value.v
    decreases |path|
  {
    if v.StrDictRef? {
      RestrictedPaths(h, v, r, path);
    } else if path != [] {
      var w := Follow(h, v, path[0]);
      if w.Some? {
        PendingPaths(h, w.value, if path[0].Key? then r.dict[path[0].s] else r.elems[path[0].i], a, path[1..]);
      }
    }
  }

  /** The restriction keeps exactly the paths through string keys and list indices,
      with the same atoms at their ends, and no any-keyed dict is left on any of them. */
  lemma PathsAreKept(h: Heap, v: Value, g: Heap, w: Value, r: RTree, a: set<nat>, path: seq<Step>)
    requires Pending(h, v, r, a) && Restricted(g, w, r)
    ensures FollowAll(h, v, path).Some? <==> FollowAll(g, w, path).Some?
    ensures FollowAll(g, w, path).Some? ==>
              && !FollowAll(g, w, path).value.DictRef?
              && (Descend(r, path).Some? && Descend(r, path).value.RLeaf? ==>
                    FollowAll(g, w, path) == FollowAll(h, v, path))
  {
    PendingPaths(h, v, r, a, path);
    RestrictedPaths(g, w, r, path);
  }

  /* The values the machine makes */

  /** The restriction as a function on a finite value read from a heap. */
  ghost function RestrictTree(h: Heap, v: Value, t: C.Tree): (r: RTree)
    requires C.Denotes(h, v, t, {})
    ensures Pending(h, v, r, {})
    decreases t
  {
    match t
    case TList(elems) =>
      assert C.Holds(h, v.id, t, {});
      RList(seq(|elems|, i requires 0 <= i < |elems| => RestrictTree(h, h[v.id].elems[i], elems[i])))
    case TDict(dict) =>
      assert C.Holds(h, v.id, t, {});
      RStrDict(map k | k in dict && k.Str? :: k.s := RestrictTree(h, h[v.id].dict[k], dict[k]))
    case _ => RLeaf(v)
  }

  /* Values off the way */

  /** The lists a restriction of v overwrites: those on the way that hold a dict. */
  ghost function Overwritten(h: Heap, v: Value): set<nat> {
    set id | 0 <= id < |h| && h[id].ListCell? && OnWay(h, v, id) && HoldsDict(h[id].elems)
  }

  predicate HoldsDict(elems: seq<Value>) {
    exists i :: 0 <= i < |elems| && elems[i].DictRef?
  }

  lemma OthersStay(h: Heap, v: Value, g: Heap, id: nat)
    requires Sweeps(h, v, g) && id < |h| && id !in Overwritten(h, v)
    ensures g[id] == h[id]
  {
    assert CellKept(h[id], g[id]);
    if h[id].ListCell? && OnWay(h, v, id) { assert g[id].elems == h[id].elems; }
  }

  lemma OverwrittenReadsDifferently(h: Heap, v: Value, g: Heap, id: nat, t: C.Tree)
    requires Sweeps(h, v, g) && id in Overwritten(h, v)
    requires t.TList? && C.Holds(h, id, t, {})
    ensures !C.Holds(g, id, t, {})
  {
    var i :| 0 <= i < |h[id].elems| && h[id].elems[i].DictRef?;
    assert Finished(g, id) && CellKept(h[id], g[id]);
    var r :| Restricted(g, ListRef(id), r);
    assert Restricted(g, g[id].elems[i], r.elems[i]);
    assert C.Denotes(h, h[id].elems[i], t.elems[i], {}) && t.elems[i].TDict?;
    assert !C.Denotes(g, g[id].elems[i], t.elems[i], {});
  }

  lemma {:induction false} StayingAvoids(h: Heap, v: Value, g: Heap, u: Value, t: C.Tree)
    requires Sweeps(h, v, g) && C.Denotes(h, u, t, {}) && C.Denotes(g, u, t, {})
    ensures C.Denotes(h, u, t, Overwritten(h, v))
    decreases t
  {
    var hit := Overwritten(h, v);
    match t
    case Leaf(_) =>
    case TTuple(items) =>
      forall i | 0 <= i < |items| ensures C.Denotes(h, u.items[i], items[i], hit) {
        StayingAvoids(h, v, g, u.items[i], items[i]);
      }
    case TObject(cls, args) =>
      StayingAvoids(h, v, g, u.cls, cls);
      forall i | 0 <= i < |args| ensures C.Denotes(h, u.args[i], args[i], hit) {
        StayingAvoids(h, v, g, u.args[i], args[i]);
      }
    case TList(elems) =>
      assert C.Holds(h, u.id, t, {}) && C.Holds(g, u.id, t, {});
      if u.id in hit { OverwrittenReadsDifferently(h, v, g, u.id, t); }
      OthersStay(h, v, g, u.id);
      forall i | 0 <= i < |elems| ensures C.Denotes(h, h[u.id].elems[i], elems[i], hit) {
        StayingAvoids(h, v, g, h[u.id].elems[i], elems[i]);
      }
    case TDict(dict) =>
      assert C.Holds(h, u.id, t, {}) && C.Holds(g, u.id, t, {});
      OthersStay(h, v, g, u.id);
      forall k | k in dict ensures C.Denotes(h, h[u.id].dict[k], dict[k], hit) {
        StayingAvoids(h, v, g, h[u.id].dict[k], dict[k]);
      }
    case TSet(_) =>
      assert C.Holds(h, u.id, t, {});
  }

  /** After the restriction of v, any finite value, such as a tuple, set or object, still
      holds what it held exactly when it holds, at no depth, a list that is on the way
      from v and has a dict in it. */
  lemma ReadingStaysIff(h: Heap, v: Value, g: Heap, u: Value, t: C.Tree)
    requires Sweeps(h, v, g) && C.Denotes(h, u, t, {})
    ensures C.Denotes(g, u, t, {}) <==> C.Denotes(h, u, t, Overwritten(h, v))
  {
    if C.Denotes(g, u, t, {}) {
      StayingAvoids(h, v, g, u, t);
    }
    if C.Denotes(h, u, t, Overwritten(h, v)) {
      forall j | 0 <= j < |h| && j !in Overwritten(h, v)
        ensures j < |g| && g[j] == h[j]
      {
        OthersStay(h, v, g, j);
      }
      C.DenotesFrame(h, g, u, t, Overwritten(h, v), {});
    }
  }

  /** So a tuple that shares such a list with v changes, although tuples are not
      restricted. */
  lemma SharedTupleChanges(h: Heap, v: Value, g: Heap, id: nat, t: C.Tree)
    requires Sweeps(h, v, g) && id in Overwritten(h, v) && C.Denotes(h, ListRef(id), t, {})
    ensures C.Denotes(h, Tuple([ListRef(id)]), C.TTuple([t]), {})
    ensures !C.Denotes(g, Tuple([ListRef(id)]), C.TTuple([t]), {})
  {
    ReadingStaysIff(h, v, g, ListRef(id), t);
    assert Tuple([ListRef(id)]).items[0] == ListRef(id) && C.TTuple([t]).items[0] == t;
  }

  const DICT_IN_SHARED_LIST: Heap :=
    [ListCell([DictRef(1)]), DictCell(map[]), ListCell([ListRef(0), Tuple([ListRef(0)])])]

  /** For example (L,) when [L, (L,)] with L = [{}] is restricted. */
  lemma SharedTupleExample(g: Heap)
    requires Sweeps(DICT_IN_SHARED_LIST, ListRef(2), g)
    ensures !C.Denotes(g, Tuple([ListRef(0)]), C.TTuple([C.TList([C.TDict(map[])])]), {})
  {
    var h := DICT_IN_SHARED_LIST;
    var dict, list := C.TDict(map[]), C.TList([C.TDict(map[])]);
    assert C.Denotes(h, DictRef(1), dict, {});
    assert C.Denotes(h, ListRef(0), list, {});
    WalkOne(h, ListRef(2), At(0));
    assert h[0].elems[0].DictRef? && OnWay(h, ListRef(2), 0);
    SharedTupleChanges(h, ListRef(2), g, 0, list);
  }
}

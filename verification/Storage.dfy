/** The Set message on stored data (cmd/isthmus/apdatastorage.go): a list of operations
    on a JSON value, carried out in place on slices and maps. */
module Storage {
  import opened Options
  import opened Text

  datatype Json =
    | JNull
    | JBool(b: bool)
    | JNum(n: real)
    | JStr(s: string)
    | JList(elems: seq<Json>)
    | JDict(dict: map<string, Json>)

  datatype MathOp = Plus | Mul | Pow | Mod | Floor | Ceil | Max | Min | And | Or | Xor | LeftShift | RightShift

  /** What the name of an operation stands for. */
  datatype Kind = Replace | Default | Add | Compute(f: MathOp) | Remove | Pop | Update | Unknown

  datatype Operation = Operation(kind: Kind, value: Json)

  function KindOf(name: string): Kind {
    if name == "replace" then Replace
    else if name == "default" then Default
    else if name == "add" then Add
    else if name == "mul" then Compute(Mul)
    else if name == "pow" then Compute(Pow)
    else if name == "mod" then Compute(Mod)
    else if name == "floor" then Compute(Floor)
    else if name == "ceil" then Compute(Ceil)
    else if name == "max" then Compute(Max)
    else if name == "min" then Compute(Min)
    else if name == "and" then Compute(And)
    else if name == "or" then Compute(Or)
    else if name == "xor" then Compute(Xor)
    else if name == "left_shift" then Compute(LeftShift)
    else if name == "right_shift" then Compute(RightShift)
    else if name == "remove" then Remove
    else if name == "pop" then Pop
    else if name == "update" then Update
    else Unknown
  }

  /** An operation as it comes in the message. */
  datatype Request = Request(name: string, value: Json)

  function Parsed(requests: seq<Request>): (ops: seq<Operation>)
    ensures |ops| == |requests|
  {
    seq(|requests|, i requires 0 <= i < |requests| => Operation(KindOf(requests[i].name), requests[i].value))
  }

  /** What the code leaves to Go: the arithmetic on float64, and how much room a slice
      of a given length is allocated with beyond it. */
  datatype Runtime = Runtime(math: (MathOp, real, real) -> real, room: nat -> nat)

  const READ_ONLY_PREFIX := "_read_"

  function IndexOf(elems: seq<Json>, x: Json): (i: int)
    ensures -1 <= i < |elems|
    ensures i >= 0 ==> elems[i] == x
    ensures forall j :: 0 <= j < (if i == -1 then |elems| else i) ==> elems[j] != x
  {
    if elems == [] then -1
    else if elems[0] == x then 0
    else
      var i := IndexOf(elems[1..], x);
      if i == -1 then -1 else i + 1
  }

  /** Conversion of a float to an int drops the fraction. */
  function Truncate(r: real): int {
    if r >= 0.0 then r.Floor else -((-r).Floor)
  }

  function Without<T>(s: seq<T>, i: nat): seq<T>
    requires i < |s|
  {
    s[..i] + s[i + 1..]
  }

  /* Operations on values that do not change */

  /** One operation as a function of the current value; None is an error. Adding to
      something that is neither a number nor a list is reported but not stopped. */
  function Apply(op: Operation, v: Json, rt: Runtime): Option<Json> {
    match op.kind
    case Replace => Some(op.value)
    case Default => Some(v)
    case Add =>
      if v.JNum? then (if op.value.JNum? then Some(JNum(rt.math(Plus, v.n, op.value.n))) else None)
      else if v.JList? then (if op.value.JList? then Some(JList(v.elems + op.value.elems)) else None)
      else Some(v)
    case Compute(f) =>
      if v.JNum? && op.value.JNum? then Some(JNum(rt.math(f, v.n, op.value.n))) else None
    case Remove =>
      if !v.JList? || !(op.value.JNum? || op.value.JStr?) then None
      else
        var i := IndexOf(v.elems, op.value);
        Some(if i == -1 then v else JList(Without(v.elems, i)))
    case Pop =>
      if v.JList? then
        if !op.value.JNum? then None
        else
          var i := Truncate(op.value.n);
          Some(if 0 <= i < |v.elems| then JList(Without(v.elems, i)) else v)
      else if v.JDict? && op.value.JStr? then Some(JDict(v.dict - {op.value.s}))
      else None
    case Update =>
      if v.JDict? && op.value.JDict? then Some(JDict(v.dict + op.value.dict)) else None
    case Unknown => None
  }

  /** The operations from left to right. */
  function FoldOps(ops: seq<Operation>, v: Json, rt: Runtime): Option<Json>
    decreases |ops|
  {
    if ops == [] then Some(v)
    else
      var w := Apply(ops[0], v, rt);
      if w.None? then None else FoldOps(ops[1..], w.value, rt)
  }

  /* The Go values: slices over shared arrays, references to maps */

  datatype Val = Plain(j: Json) | Slice(arr: nat, len: nat) | MapRef(id: nat)

  datatype Heap = Heap(arrays: seq<seq<Json>>, maps: seq<map<string, Json>>)

  predicate Live(h: Heap, v: Val) {
    match v
    case Plain(j) => !j.JList? && !j.JDict?
    case Slice(arr, len) => arr < |h.arrays| && len <= |h.arrays[arr]|
    case MapRef(id) => id < |h.maps|
  }

  function Read(h: Heap, v: Val): Json
    requires Live(h, v)
  {
    match v
    case Plain(j) => j
    case Slice(arr, len) => JList(h.arrays[arr][..len])
    case MapRef(id) => JDict(h.maps[id])
  }

  /** No array got shorter and nothing disappeared. */
  predicate Extends(h: Heap, g: Heap) {
    && |h.arrays| <= |g.arrays| && |h.maps| <= |g.maps|
    && forall i :: 0 <= i < |h.arrays| ==> |g.arrays[i]| == |h.arrays[i]|
  }

  /** A freshly decoded value, on storage of its own. */
  function Decode(h: Heap, j: Json, rt: Runtime): (r: (Heap, Val))
    ensures Live(r.0, r.1) && Read(r.0, r.1) == j && Extends(h, r.0)
  {
    match j
    case JList(elems) =>
      var a := elems + seq(rt.room(|elems|), _ => JNull);
      assert a[..|elems|] == elems;
      (h.(arrays := h.arrays + [a]), Slice(|h.arrays|, |elems|))
    case JDict(dict) => (h.(maps := h.maps + [dict]), MapRef(|h.maps|))
    case _ => (h, Plain(j))
  }

  /** An array of which the first len slots are in use, with slot i deleted: the rest
      moves down and the freed slot is cleared. */
  function Deleted(arr: seq<Json>, len: nat, i: nat): (r: seq<Json>)
    requires i < len <= |arr|
    ensures |r| == |arr| && r[..len - 1] == Without(arr[..len], i)
  {
    var r := arr[..i] + arr[i + 1..len] + [JNull] + arr[len..];
    assert r[..len - 1] == Without(arr[..len], i);
    r
  }

  /** The same array with more values behind those in use. */
  function Written(arr: seq<Json>, len: nat, more: seq<Json>): (r: seq<Json>)
    requires len + |more| <= |arr|
    ensures |r| == |arr| && r[..len + |more|] == arr[..len] + more
  {
    var r := arr[..len] + more + arr[len + |more|..];
    assert r[..len + |more|] == arr[..len] + more;
    r
  }

  /** slices.Delete of one element, in place. */
  function DeleteAt(h: Heap, v: Val, i: nat): (r: (Heap, Val))
    requires v.Slice? && Live(h, v) && i < v.len
    ensures Live(r.0, r.1) && Extends(h, r.0)
    ensures Read(r.0, r.1) == JList(Without(h.arrays[v.arr][..v.len], i))
  {
    (h.(arrays := h.arrays[v.arr := Deleted(h.arrays[v.arr], v.len, i)]), Slice(v.arr, v.len - 1))
  }

  /** Go's append: in place while the array has room, else a larger array. */
  function AppendAll(h: Heap, v: Val, more: seq<Json>, rt: Runtime): (r: (Heap, Val))
    requires v.Slice? && Live(h, v)
    ensures Live(r.0, r.1) && Extends(h, r.0)
    ensures Read(r.0, r.1) == JList(h.arrays[v.arr][..v.len] + more)
  {
    var a := h.arrays[v.arr];
    var end := v.len + |more|;
    if end <= |a| then
      (h.(arrays := h.arrays[v.arr := Written(a, v.len, more)]), Slice(v.arr, end))
    else
      var b := a[..v.len] + more + seq(rt.room(end), _ => JNull);
      assert b[..end] == a[..v.len] + more;
      (h.(arrays := h.arrays + [b]), Slice(|h.arrays|, end))
  }

  function WriteMap(h: Heap, id: nat, m: map<string, Json>): (g: Heap)
    requires id < |h.maps|
    ensures Extends(h, g)
  {
    h.(maps := h.maps[id := m])
  }

  /** The variables of the loop: origVal, newVal and found. */
  datatype Loop = Loop(heap: Heap, orig: Val, latest: Val, found: bool)

  predicate LiveLoop(st: Loop, dflt: Val) {
    Live(st.heap, st.orig) && Live(st.heap, st.latest) && Live(st.heap, dflt)
  }

  function Assign(st: Loop, r: (Heap, Val)): Loop {
    Loop(r.0, r.1, r.1, st.found)
  }

  /** One round of the loop; None where the function returns an error. */
  function Round(st: Loop, op: Operation, dflt: Val, rt: Runtime): Option<Loop>
    requires LiveLoop(st, dflt)
  {
    var h, v := st.heap, st.orig;
    match op.kind
    case Replace => Some(Assign(st, Decode(h, op.value, rt)))
    case Default =>
      var value := if st.found then v else dflt;
      Some(Loop(h, value, value, true))
    case Add =>
      if v.Plain? && v.j.JNum? then
        if op.value.JNum? then Some(Assign(st, (h, Plain(JNum(rt.math(Plus, v.j.n, op.value.n)))))) else None
      else if v.Slice? then
        if op.value.JList? then Some(Assign(st, AppendAll(h, v, op.value.elems, rt))) else None
      else Some(st.(orig := st.latest))  // the error is set but the loop goes on
    case Compute(f) =>
      if v.Plain? && v.j.JNum? && op.value.JNum? then
        Some(Assign(st, (h, Plain(JNum(rt.math(f, v.j.n, op.value.n))))))
      else None
    case Remove =>
      if !v.Slice? || !(op.value.JNum? || op.value.JStr?) then None
      else
        var i := IndexOf(h.arrays[v.arr][..v.len], op.value);
        Some(Assign(st, if i == -1 then (h, v) else DeleteAt(h, v, i)))
    case Pop =>
      if v.Slice? then
        if !op.value.JNum? then None
        else
          var i := Truncate(op.value.n);
          Some(Assign(st, if 0 <= i < v.len then DeleteAt(h, v, i) else (h, v)))
      else if v.MapRef? && op.value.JStr? then
        Some(Assign(st, (WriteMap(h, v.id, h.maps[v.id] - {op.value.s}), v)))
      else None
    case Update =>
      if v.MapRef? && op.value.JDict? then
        Some(Assign(st, (WriteMap(h, v.id, h.maps[v.id] + op.value.dict), v)))
      else None
    case Unknown => None
  }

  /* In place agrees with values */

  lemma LiveExtends(h: Heap, g: Heap, v: Val)
    requires Live(h, v) && Extends(h, g)
    ensures Live(g, v)
  {
  }

  /** An "add" to something that is neither a number nor a list. */
  predicate BadAdd(op: Operation, v: Json) {
    op.kind.Add? && !v.JNum? && !v.JList?
  }

  /** The round computed the operation on the value read from the heap. */
  ghost predicate Computed(st: Loop, op: Operation, dflt: Val, rt: Runtime, t: Option<Loop>)
    requires LiveLoop(st, dflt)
  {
    var w := Apply(op, Read(st.heap, st.orig), rt);
    match t
    case None => w.None?
    case Some(t) =>
      && LiveLoop(t, dflt) && t.latest == t.orig && w == Some(Read(t.heap, t.orig))
      && (t.found <==> st.found || op.kind.Default?)
  }

  lemma SliceRound(st: Loop, op: Operation, dflt: Val, rt: Runtime)
    requires LiveLoop(st, dflt) && st.orig.Slice? && (op.kind.Add? || op.kind.Remove? || op.kind.Pop?)
    ensures Computed(st, op, dflt, rt, Round(st, op, dflt, rt))
  {
    RoundLive(st, op, dflt, rt);
  }

  lemma MapRound(st: Loop, op: Operation, dflt: Val, rt: Runtime)
    requires LiveLoop(st, dflt) && st.orig.MapRef? && (op.kind.Update? || op.kind.Pop?)
    ensures Computed(st, op, dflt, rt, Round(st, op, dflt, rt))
  {
    RoundLive(st, op, dflt, rt);
  }

  lemma PlainRound(st: Loop, op: Operation, dflt: Val, rt: Runtime)
    requires LiveLoop(st, dflt) && (op.kind.Default? ==> st.found)
    requires BadAdd(op, Read(st.heap, st.orig)) ==> st.latest == st.orig
    requires !(st.orig.Slice? && (op.kind.Add? || op.kind.Remove? || op.kind.Pop?))
    requires !(st.orig.MapRef? && (op.kind.Update? || op.kind.Pop?))
    ensures Computed(st, op, dflt, rt, Round(st, op, dflt, rt))
  {
    RoundLive(st, op, dflt, rt);
  }

  /** A round computes the operation, unless it takes the default or keeps a stale
      newVal after a bad "add". */
  lemma RoundReads(st: Loop, op: Operation, dflt: Val, rt: Runtime)
    requires LiveLoop(st, dflt) && (op.kind.Default? ==> st.found)
    requires BadAdd(op, Read(st.heap, st.orig)) ==> st.latest == st.orig
    ensures Computed(st, op, dflt, rt, Round(st, op, dflt, rt))
  {
    if st.orig.Slice? && (op.kind.Add? || op.kind.Remove? || op.kind.Pop?) {
      SliceRound(st, op, dflt, rt);
    } else if st.orig.MapRef? && (op.kind.Update? || op.kind.Pop?) {
      MapRound(st, op, dflt, rt);
    } else {
      PlainRound(st, op, dflt, rt);
    }
  }

  /** All rounds. */
  function Rounds(st: Loop, ops: seq<Operation>, dflt: Val, rt: Runtime): Option<Json>
    requires LiveLoop(st, dflt)
    decreases |ops|
  {
    if ops == [] then Some(Read(st.heap, st.latest))
    else
      var t := Round(st, ops[0], dflt, rt);
      if t.None? then None
      else RoundLive(st, ops[0], dflt, rt); Rounds(t.value, ops[1..], dflt, rt)
  }

  /** In-place changes never shorten an array, so every slice stays readable. */
  lemma RoundLive(st: Loop, op: Operation, dflt: Val, rt: Runtime)
    requires LiveLoop(st, dflt)
    ensures Round(st, op, dflt, rt).Some? ==>
              Extends(st.heap, Round(st, op, dflt, rt).value.heap) && LiveLoop(Round(st, op, dflt, rt).value, dflt)
  {
    var t := Round(st, op, dflt, rt);
    if t.Some? {
      assert Extends(st.heap, t.value.heap);
      LiveExtends(st.heap, t.value.heap, dflt);
      LiveExtends(st.heap, t.value.heap, st.orig);
      LiveExtends(st.heap, t.value.heap, st.latest);
    }
  }

  /** After the first round, when the key was found or no later operation asks for the
      default, the in-place loop is the fold of the operations. */
  lemma {:induction false} RoundsAreFold(st: Loop, ops: seq<Operation>, dflt: Val, rt: Runtime)
    requires LiveLoop(st, dflt) && st.latest == st.orig
    requires st.found || forall i :: 0 <= i < |ops| ==> !ops[i].kind.Default?
    ensures Rounds(st, ops, dflt, rt) == FoldOps(ops, Read(st.heap, st.orig), rt)
    decreases |ops|
  {
    if ops != [] {
      RoundReads(st, ops[0], dflt, rt);
      var t := Round(st, ops[0], dflt, rt);
      if t.Some? { RoundsAreFold(t.value, ops[1..], dflt, rt); }
    }
  }

  const EMPTY := Heap([], [])

  /** The loop as it starts: on the stored value if there is one, else on the default. */
  function Start(stored: Option<Json>, dflt: Json, rt: Runtime): (r: (Loop, Val))
    ensures LiveLoop(r.0, r.1)
    ensures Read(r.0.heap, r.0.orig) == if stored.Some? then stored.value else dflt
    ensures Read(r.0.heap, r.1) == dflt
  {
    var d := Decode(EMPTY, dflt, rt);
    if stored.None? then (Loop(d.0, d.1, Plain(JNull), false), d.1)
    else
      var o := Decode(d.0, stored.value, rt);
      assert d.1.Slice? ==> o.0.arrays[d.1.arr] == d.0.arrays[d.1.arr];
      (Loop(o.0, o.1, Plain(JNull), true), d.1)
  }

  /** updateDataStorage: every error leaves the stored data as it was. */
  method UpdateDataStorage(store: map<string, Json>, key: string, dflt: Json, requests: seq<Request>, rt: Runtime)
    returns (ok: bool, store': map<string, Json>)
    ensures var stored := if key in store then Some(store[key]) else None;
            var (st, d) := Start(stored, dflt, rt);
            var result := Rounds(st, Parsed(requests), d, rt);
            && ok == (!HasPrefix(key, "_read_") && result.Some?)
            && store' == if ok then store[key := result.value] else store
  {
    if HasPrefix(key, READ_ONLY_PREFIX) { return false, store; }
    var (st, d) := Start(if key in store then Some(store[key]) else None, dflt, rt);
    ghost var st0 := st;
    ghost var ops := Parsed(requests);
    for i := 0 to |requests|
      invariant LiveLoop(st, d) && Rounds(st, ops[i..], d, rt) == Rounds(st0, ops, d, rt)
    {
      assert ops[i..][1..] == ops[i + 1..];
      var op := Operation(KindOf(requests[i].name), requests[i].value);
      assert op == ops[i];
      var t := Round(st, op, d, rt);
      if t.None? { return false, store; }
      RoundLive(st, op, d, rt);
      st := t.value;
    }
    assert ops[|ops|..] == [];
    return true, store[key := Read(st.heap, st.latest)];
  }

  /** What Set stores under an existing key: the left fold, except that without
      operations it is null, and a bad "add" in first place makes the rest start from
      null. */
  function SetResult(stored: Json, ops: seq<Operation>, rt: Runtime): Option<Json> {
    if ops == [] then Some(JNull)
    else if BadAdd(ops[0], stored) then FoldOps(ops[1..], JNull, rt)
    else FoldOps(ops, stored, rt)
  }

  /** Set as a fold: for every stored value and every list of operations. */
  lemma SetIsFold(stored: Json, dflt: Json, ops: seq<Operation>, rt: Runtime)
    ensures var (st, d) := Start(Some(stored), dflt, rt);
            Rounds(st, ops, d, rt) == SetResult(stored, ops, rt)
  {
    var (st, d) := Start(Some(stored), dflt, rt);
    if ops != [] {
      var t := Round(st, ops[0], d, rt);
      if BadAdd(ops[0], stored) {
        assert t == Some(st.(orig := st.latest));
      } else {
        RoundReads(st, ops[0], d, rt);
      }
      if t.Some? { RoundsAreFold(t.value, ops[1..], d, rt); }
    }
  }

  /** The operations make up for starting from null: they replace the value before using
      it, or fail on the stored value too. */
  ghost predicate Hidden(ops: seq<Operation>, stored: Json, rt: Runtime)
    decreases |ops|
  {
    && ops != []
    && match ops[0].kind
       case Replace => true
       case Default => Hidden(ops[1..], stored, rt)
       case Add => Hidden(ops[1..], stored, rt)
       case _ => FoldOps(ops, stored, rt).None?
  }

  lemma {:induction false} NullShowsUnlessHidden(ops: seq<Operation>, stored: Json, rt: Runtime)
    requires stored != JNull && !stored.JNum? && !stored.JList?
    ensures FoldOps(ops, JNull, rt) == FoldOps(ops, stored, rt) <==> Hidden(ops, stored, rt)
    decreases |ops|
  {
    if ops != [] && (ops[0].kind.Default? || ops[0].kind.Add?) {
      NullShowsUnlessHidden(ops[1..], stored, rt);
    }
  }

  /** The plain left fold is stored exactly when null was stored already, or there is an
      operation and the first is no bad "add", or the others hide it. */
  lemma PlainFoldIff(stored: Json, ops: seq<Operation>, rt: Runtime)
    ensures SetResult(stored, ops, rt) == FoldOps(ops, stored, rt) <==>
            || stored == JNull
            || (ops != [] && (BadAdd(ops[0], stored) ==> Hidden(ops[1..], stored, rt)))
  {
    if ops != [] && BadAdd(ops[0], stored) && stored != JNull {
      NullShowsUnlessHidden(ops[1..], stored, rt);
    }
  }

  /* The operations by name */

  /** What one operation makes of a stored value that it is not a bad "add" for. */
  function SetOne(stored: Json, name: string, value: Json, dflt: Json, rt: Runtime): Option<Json> {
    var (st, d) := Start(Some(stored), dflt, rt);
    Rounds(st, Parsed([Request(name, value)]), d, rt)
  }

  lemma SetOneApplies(stored: Json, name: string, value: Json, dflt: Json, rt: Runtime)
    requires !BadAdd(Operation(KindOf(name), value), stored)
    ensures SetOne(stored, name, value, dflt, rt) == Apply(Operation(KindOf(name), value), stored, rt)
  {
    var op := Operation(KindOf(name), value);
    ParsedOne(name, value);
    FoldOne(op, stored, rt);
    SetIsFold(stored, dflt, [op], rt);
  }

  lemma ParsedOne(name: string, value: Json)
    ensures Parsed([Request(name, value)]) == [Operation(KindOf(name), value)]
  {
  }

  lemma FoldOne(op: Operation, v: Json, rt: Runtime)
    ensures FoldOps([op], v, rt) == Apply(op, v, rt)
  {
    assert [op][1..] == [];
  }

  /** Conversion to an integer goes towards zero. */
  lemma TruncatesTowardsZero(r: real)
    ensures r >= 0.0 ==> 0 <= Truncate(r) && Truncate(r) as real <= r < Truncate(r) as real + 1.0
    ensures r < 0.0 ==> Truncate(r) <= 0 && Truncate(r) as real - 1.0 < r <= Truncate(r) as real
  {
  }

  /** "pop" with a number takes out the element of that index, or nothing. */
  lemma PopTakesIndex(elems: seq<Json>, k: int, dflt: Json, rt: Runtime)
    ensures SetOne(JList(elems), "pop", JNum(k as real), dflt, rt) ==
            Some(JList(if 0 <= k < |elems| then elems[..k] + elems[k + 1..] else elems))
  {
    SetOneApplies(JList(elems), "pop", JNum(k as real), dflt, rt);
    TruncatesTowardsZero(k as real);
    assert Truncate(k as real) == k;
  }

  lemma PopTakesKey(dict: map<string, Json>, key: string, dflt: Json, rt: Runtime)
    ensures SetOne(JDict(dict), "pop", JStr(key), dflt, rt) == Some(JDict(dict - {key}))
  {
    SetOneApplies(JDict(dict), "pop", JStr(key), dflt, rt);
  }

  /** "remove" takes out the first occurrence of a number or string. */
  lemma RemoveTakesFirst(elems: seq<Json>, x: Json, i: nat, dflt: Json, rt: Runtime)
    requires x.JNum? || x.JStr?
    requires i < |elems| && elems[i] == x && x !in elems[..i]
    ensures SetOne(JList(elems), "remove", x, dflt, rt) == Some(JList(elems[..i] + elems[i + 1..]))
  {
    SetOneApplies(JList(elems), "remove", x, dflt, rt);
    FirstIndex(elems, x, i);
  }

  lemma RemoveWithoutMatch(elems: seq<Json>, x: Json, dflt: Json, rt: Runtime)
    requires (x.JNum? || x.JStr?) && x !in elems
    ensures SetOne(JList(elems), "remove", x, dflt, rt) == Some(JList(elems))
  {
    SetOneApplies(JList(elems), "remove", x, dflt, rt);
  }

  lemma FirstIndex(elems: seq<Json>, x: Json, i: nat)
    requires i < |elems| && elems[i] == x && x !in elems[..i]
    ensures IndexOf(elems, x) == i
  {
  }

  lemma UpdateMerges(dict: map<string, Json>, more: map<string, Json>, dflt: Json, rt: Runtime)
    ensures SetOne(JDict(dict), "update", JDict(more), dflt, rt) == Some(JDict(dict + more))
  {
    SetOneApplies(JDict(dict), "update", JDict(more), dflt, rt);
  }

  lemma AddJoins(elems: seq<Json>, more: seq<Json>, a: real, b: real, dflt: Json, rt: Runtime)
    ensures SetOne(JList(elems), "add", JList(more), dflt, rt) == Some(JList(elems + more))
    ensures SetOne(JNum(a), "add", JNum(b), dflt, rt) == Some(JNum(rt.math(Plus, a, b)))
  {
    SetOneApplies(JList(elems), "add", JList(more), dflt, rt);
    SetOneApplies(JNum(a), "add", JNum(b), dflt, rt);
  }

  lemma ReplaceAndDefault(stored: Json, value: Json, dflt: Json, rt: Runtime)
    ensures SetOne(stored, "replace", value, dflt, rt) == Some(value)
    ensures SetOne(stored, "default", value, dflt, rt) == Some(stored)
  {
    SetOneApplies(stored, "replace", value, dflt, rt);
    SetOneApplies(stored, "default", value, dflt, rt);
  }

  /** The arithmetic operations work on two numbers and nothing else. */
  lemma MathApplies(stored: Json, name: string, f: MathOp, value: Json, dflt: Json, rt: Runtime)
    requires KindOf(name) == Compute(f)
    ensures SetOne(stored, name, value, dflt, rt) ==
            if stored.JNum? && value.JNum? then Some(JNum(rt.math(f, stored.n, value.n))) else None
  {
    SetOneApplies(stored, name, value, dflt, rt);
  }

  lemma MathNames()
    ensures KindOf("mul") == Compute(Mul) && KindOf("pow") == Compute(Pow) && KindOf("mod") == Compute(Mod)
    ensures KindOf("floor") == Compute(Floor)
  {
  }

  lemma OrderNames()
    ensures KindOf("ceil") == Compute(Ceil)
    ensures KindOf("max") == Compute(Max) && KindOf("min") == Compute(Min)
  {
  }

  lemma BitNames()
    ensures KindOf("and") == Compute(And) && KindOf("or") == Compute(Or) && KindOf("xor") == Compute(Xor)
    ensures KindOf("left_shift") == Compute(LeftShift) && KindOf("right_shift") == Compute(RightShift)
  {
  }

  /** A name that is none of these is an error. */
  lemma UnknownNameFails(stored: Json, name: string, value: Json, dflt: Json, rt: Runtime)
    requires name !in {"replace", "default", "add", "remove", "pop", "update", "mul", "pow", "mod", "floor", "ceil",
                       "max", "min", "and", "or", "xor", "left_shift", "right_shift"}
    ensures SetOne(stored, name, value, dflt, rt) == None
  {
    SetOneApplies(stored, name, value, dflt, rt);
  }
}

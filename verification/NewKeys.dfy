/** The Set message on a key that does not exist yet (cmd/isthmus/apdatastorage.go): the
    value starts as the default of the message itself, not as a copy of it, and is
    changed in place until an operation moves it to other storage. */
module NewKeys {
  import opened Options
  import opened Storage

  /* Values that share nothing with the default */

  /** No in-place change through one value shows in the other. */
  predicate Separate(v: Val, d: Val) {
    && (v.Slice? && d.Slice? ==> v.arr != d.arr)
    && (v.MapRef? && d.MapRef? ==> v.id != d.id)
  }

  /** Only storage of v may have changed, and only v or new storage is referred to. */
  ghost predicate Confined(h: Heap, v: Val, g: Heap, w: Val) {
    && Extends(h, g)
    && (forall i :: 0 <= i < |h.arrays| && !(v.Slice? && v.arr == i) ==> g.arrays[i] == h.arrays[i])
    && (forall i :: 0 <= i < |h.maps| && !(v.MapRef? && v.id == i) ==> g.maps[i] == h.maps[i])
    && (w.Slice? ==> w.arr >= |h.arrays| || (v.Slice? && w.arr == v.arr))
    && (w.MapRef? ==> w.id >= |h.maps| || (v.MapRef? && w.id == v.id))
  }

  lemma DecodeConfined(h: Heap, v: Val, j: Json, rt: Runtime)
    ensures Confined(h, v, Decode(h, j, rt).0, Decode(h, j, rt).1)
  {
  }

  lemma SliceConfined(h: Heap, v: Val, i: nat, more: seq<Json>, rt: Runtime)
    requires v.Slice? && Live(h, v)
    ensures i < v.len ==> Confined(h, v, DeleteAt(h, v, i).0, DeleteAt(h, v, i).1)
    ensures Confined(h, v, AppendAll(h, v, more, rt).0, AppendAll(h, v, more, rt).1)
  {
  }

  lemma SliceRoundConfined(st: Loop, op: Operation, dflt: Val, rt: Runtime)
    requires LiveLoop(st, dflt) && st.orig.Slice? && (op.kind.Add? || op.kind.Remove? || op.kind.Pop?)
    ensures var t := Round(st, op, dflt, rt);
            t.Some? ==> Confined(st.heap, st.orig, t.value.heap, t.value.orig)
  {
    var h, v := st.heap, st.orig;
    match op.kind {
      case Add => if op.value.JList? { SliceConfined(h, v, v.len, op.value.elems, rt); }
      case Remove =>
        var i := IndexOf(h.arrays[v.arr][..v.len], op.value);
        if i != -1 { SliceConfined(h, v, i, [], rt); }
      case Pop =>
        if op.value.JNum? && Truncate(op.value.n) >= 0 { SliceConfined(h, v, Truncate(op.value.n), [], rt); }
    }
  }

  lemma RoundConfined(st: Loop, op: Operation, dflt: Val, rt: Runtime)
    requires LiveLoop(st, dflt) && !op.kind.Default?
    requires BadAdd(op, Read(st.heap, st.orig)) ==> st.latest == st.orig
    ensures var t := Round(st, op, dflt, rt);
            t.Some? ==> Confined(st.heap, st.orig, t.value.heap, t.value.orig)
  {
    if st.orig.Slice? && (op.kind.Add? || op.kind.Remove? || op.kind.Pop?) {
      SliceRoundConfined(st, op, dflt, rt);
    } else if op.kind.Replace? {
      DecodeConfined(st.heap, st.orig, op.value, rt);
    }
  }

  lemma ConfinedApart(h: Heap, v: Val, g: Heap, w: Val, d: Val)
    requires Confined(h, v, g, w) && Separate(v, d) && Live(h, d)
    ensures Live(g, d) && Separate(w, d) && Read(g, d) == Read(h, d)
  {
  }

  /** The fold on a key that does not exist yet: the first "default" goes back to the
      default of the message. */
  function FoldNew(ops: seq<Operation>, v: Json, dflt: Json, rt: Runtime): Option<Json>
    decreases |ops|
  {
    if ops == [] then Some(v)
    else if ops[0].kind.Default? then FoldOps(ops[1..], dflt, rt)
    else
      var w := Apply(ops[0], v, rt);
      if w.None? then None else FoldNew(ops[1..], w.value, dflt, rt)
  }

  lemma {:induction false} RoundsAreFoldNew(st: Loop, ops: seq<Operation>, dflt: Val, rt: Runtime)
    requires LiveLoop(st, dflt) && Separate(st.orig, dflt) && st.latest == st.orig && !st.found
    ensures Rounds(st, ops, dflt, rt) == FoldNew(ops, Read(st.heap, st.orig), Read(st.heap, dflt), rt)
    decreases |ops|
  {
    if ops != [] {
      var t := Round(st, ops[0], dflt, rt);
      if ops[0].kind.Default? {
        RoundsAreFold(t.value, ops[1..], dflt, rt);
      } else {
        RoundReads(st, ops[0], dflt, rt);
        RoundConfined(st, ops[0], dflt, rt);
        if t.Some? {
          ConfinedApart(st.heap, st.orig, t.value.heap, t.value.orig, dflt);
          RoundsAreFoldNew(t.value, ops[1..], dflt, rt);
        }
      }
    }
  }

  /* Values on the default's own storage */

  /** The storage of a list or dictionary default while the value still lives on it: the
      map, or the array with the number of slots the value uses and the number the
      default uses. */
  datatype Own =
    | OwnMap(dict: map<string, Json>)
    | OwnArray(arr: seq<Json>, len: nat, size: nat)

  predicate ValidOwn(o: Own) {
    o.OwnArray? ==> o.len <= |o.arr| && o.size <= |o.arr|
  }

  function Current(o: Own): Json
    requires ValidOwn(o)
  {
    match o case OwnMap(dict) => JDict(dict) case OwnArray(arr, len, _) => JList(arr[..len])
  }

  /** What asking for the default gives. */
  function Shown(o: Own): Json
    requires ValidOwn(o)
  {
    match o case OwnMap(dict) => JDict(dict) case OwnArray(arr, _, size) => JList(arr[..size])
  }

  datatype Next = Fails | Stays(own: Own) | Leaves(value: Json)

  function AdvanceMap(dict: map<string, Json>, op: Operation): Next {
    match op.kind
    case Replace => Leaves(op.value)
    case Add => Stays(OwnMap(dict))
    case Pop => if op.value.JStr? then Stays(OwnMap(dict - {op.value.s})) else Fails
    case Update => if op.value.JDict? then Stays(OwnMap(dict + op.value.dict)) else Fails
    case Default => Stays(OwnMap(dict))
    case _ => Fails
  }

  function DeleteOwn(o: Own, i: int): Own
    requires o.OwnArray? && ValidOwn(o)
  {
    if 0 <= i < o.len then OwnArray(Deleted(o.arr, o.len, i), o.len - 1, o.size) else o
  }

  function AdvanceArray(o: Own, op: Operation): Next
    requires o.OwnArray? && ValidOwn(o)
  {
    match op.kind
    case Replace => Leaves(op.value)
    case Add =>
      if !op.value.JList? then Fails
      else
        var more := op.value.elems;
        if o.len + |more| <= |o.arr| then Stays(OwnArray(Written(o.arr, o.len, more), o.len + |more|, o.size))
        else Leaves(JList(o.arr[..o.len] + more))
    case Remove =>
      if op.value.JNum? || op.value.JStr? then Stays(DeleteOwn(o, IndexOf(o.arr[..o.len], op.value))) else Fails
    case Pop => if op.value.JNum? then Stays(DeleteOwn(o, Truncate(op.value.n))) else Fails
    case Default => Stays(o)
    case _ => Fails
  }

  /** One operation on a value that lives on the default's storage. */
  function Advance(o: Own, op: Operation): Next
    requires ValidOwn(o)
  {
    match o case OwnMap(dict) => AdvanceMap(dict, op) case OwnArray(_, _, _) => AdvanceArray(o, op)
  }

  /** The value itself goes through the plain operations; only the default suffers. */
  lemma AdvanceApplies(o: Own, op: Operation, rt: Runtime)
    requires ValidOwn(o)
    ensures match Advance(o, op)
            case Fails => Apply(op, Current(o), rt).None?
            case Stays(p) => ValidOwn(p) && Apply(op, Current(o), rt) == Some(Current(p))
            case Leaves(v) => Apply(op, Current(o), rt) == Some(v)
  {
    if o.OwnArray? && (op.kind.Remove? || op.kind.Pop?) { DeleteApplies(o, op, rt); }
  }

  lemma DeleteApplies(o: Own, op: Operation, rt: Runtime)
    requires o.OwnArray? && ValidOwn(o) && (op.kind.Remove? || op.kind.Pop?)
    ensures match AdvanceArray(o, op)
            case Fails => Apply(op, Current(o), rt).None?
            case Stays(p) => ValidOwn(p) && Apply(op, Current(o), rt) == Some(Current(p))
            case Leaves(v) => false
  {
  }

  /** The fold on a new key whose default is a list or dictionary: the first "default"
      gives what has become of it. */
  function FoldOwn(ops: seq<Operation>, o: Own, rt: Runtime): Option<Json>
    requires ValidOwn(o)
    decreases |ops|
  {
    if ops == [] then Some(Current(o))
    else if ops[0].kind.Default? then FoldOps(ops[1..], Shown(o), rt)
    else
      AdvanceApplies(o, ops[0], rt);
      match Advance(o, ops[0])
      case Fails => None
      case Stays(p) => FoldOwn(ops[1..], p, rt)
      case Leaves(v) => FoldNew(ops[1..], v, Shown(o), rt)
  }

  /** The loop's variables are as the storage says. */
  ghost predicate Owns(st: Loop, dflt: Val, o: Own) {
    && LiveLoop(st, dflt) && ValidOwn(o) && !st.found
    && match o
       case OwnMap(dict) => st.orig == dflt && dflt.MapRef? && st.heap.maps[dflt.id] == dict
       case OwnArray(arr, len, size) =>
         && dflt.Slice? && dflt.len == size && st.orig == Slice(dflt.arr, len) && st.heap.arrays[dflt.arr] == arr
  }

  /** A round on the default's own storage is one step of it. */
  ghost predicate StepsOwn(t: Option<Loop>, dflt: Val, o: Own, next: Next)
    requires ValidOwn(o)
  {
    match next
    case Fails => t.None?
    case Stays(p) => t.Some? && t.value.latest == t.value.orig && Owns(t.value, dflt, p)
    case Leaves(v) =>
      && t.Some? && LiveLoop(t.value, dflt) && t.value.latest == t.value.orig && !t.value.found
      && Separate(t.value.orig, dflt)
      && Read(t.value.heap, t.value.orig) == v && Read(t.value.heap, dflt) == Shown(o)
  }

  lemma MapStepsOwn(st: Loop, op: Operation, dflt: Val, o: Own, rt: Runtime)
    requires Owns(st, dflt, o) && o.OwnMap? && !op.kind.Default? && (op.kind.Add? ==> st.latest == st.orig)
    ensures StepsOwn(Round(st, op, dflt, rt), dflt, o, Advance(o, op))
  {
    RoundLive(st, op, dflt, rt);
  }

  lemma ArrayStepsOwn(st: Loop, op: Operation, dflt: Val, o: Own, rt: Runtime)
    requires Owns(st, dflt, o) && o.OwnArray? && !op.kind.Default?
    ensures StepsOwn(Round(st, op, dflt, rt), dflt, o, Advance(o, op))
  {
    RoundLive(st, op, dflt, rt);
  }

  lemma {:induction false} RoundsAreFoldOwn(st: Loop, ops: seq<Operation>, dflt: Val, o: Own, rt: Runtime)
    requires Owns(st, dflt, o)
    requires st.latest == st.orig || (ops != [] && !BadAdd(ops[0], Current(o)))
    ensures Rounds(st, ops, dflt, rt) == FoldOwn(ops, o, rt)
    decreases |ops|
  {
    if ops != [] {
      var t := Round(st, ops[0], dflt, rt);
      if ops[0].kind.Default? {
        RoundsAreFold(t.value, ops[1..], dflt, rt);
      } else {
        AdvanceApplies(o, ops[0], rt);
        if o.OwnMap? { MapStepsOwn(st, ops[0], dflt, o, rt); } else { ArrayStepsOwn(st, ops[0], dflt, o, rt); }
        match Advance(o, ops[0])
        case Fails =>
        case Stays(p) => RoundsAreFoldOwn(t.value, ops[1..], dflt, p, rt);
        case Leaves(_) => RoundsAreFoldNew(t.value, ops[1..], dflt, rt);
      }
    }
  }

  /* Set on a new key */

  predicate Compound(j: Json) {
    j.JList? || j.JDict?
  }

  function Owned(dflt: Json, rt: Runtime): (o: Own)
    requires Compound(dflt)
    ensures ValidOwn(o) && Current(o) == dflt && Shown(o) == dflt
  {
    match dflt
    case JDict(dict) => OwnMap(dict)
    case JList(elems) =>
      var arr := elems + seq(rt.room(|elems|), _ => JNull);
      assert arr[..|elems|] == elems;
      OwnArray(arr, |elems|, |elems|)
  }

  /** What Set stores under a new key. */
  function SetNewResult(dflt: Json, ops: seq<Operation>, rt: Runtime): Option<Json> {
    if ops == [] then Some(JNull)
    else if BadAdd(ops[0], dflt) then FoldNew(ops[1..], JNull, dflt, rt)
    else if Compound(dflt) then FoldOwn(ops, Owned(dflt, rt), rt)
    else FoldNew(ops, dflt, dflt, rt)
  }

  lemma StartOwns(dflt: Json, rt: Runtime)
    requires Compound(dflt)
    ensures var (st, d) := Start(None, dflt, rt); Owns(st, d, Owned(dflt, rt))
  {
  }

  lemma StartAfterBadAdd(dflt: Json, op: Operation, rt: Runtime)
    requires BadAdd(op, dflt)
    ensures var (st, d) := Start(None, dflt, rt);
            Round(st, op, d, rt) == Some(st.(orig := Plain(JNull))) && Separate(Plain(JNull), d)
  {
  }

  lemma PlainDefaultIsFold(dflt: Json, ops: seq<Operation>, rt: Runtime)
    requires !Compound(dflt) && ops != [] && !BadAdd(ops[0], dflt)
    ensures var (st, d) := Start(None, dflt, rt); Rounds(st, ops, d, rt) == FoldNew(ops, dflt, dflt, rt)
  {
    var (st, d) := Start(None, dflt, rt);
    var t := Round(st, ops[0], d, rt);
    if ops[0].kind.Default? {
      RoundsAreFold(t.value, ops[1..], d, rt);
    } else {
      RoundReads(st, ops[0], d, rt);
      RoundConfined(st, ops[0], d, rt);
      if t.Some? {
        ConfinedApart(st.heap, st.orig, t.value.heap, t.value.orig, d);
        RoundsAreFoldNew(t.value, ops[1..], d, rt);
      }
    }
  }

  /** Set on a new key, for every default and every list of operations. */
  lemma SetOnNewKey(dflt: Json, ops: seq<Operation>, rt: Runtime)
    ensures var (st, d) := Start(None, dflt, rt);
            Rounds(st, ops, d, rt) == SetNewResult(dflt, ops, rt)
  {
    var (st, d) := Start(None, dflt, rt);
    if ops == [] {
    } else if BadAdd(ops[0], dflt) {
      StartAfterBadAdd(dflt, ops[0], rt);
      RoundsAreFoldNew(Round(st, ops[0], d, rt).value, ops[1..], d, rt);
    } else if Compound(dflt) {
      StartOwns(dflt, rt);
      RoundsAreFoldOwn(st, ops, d, Owned(dflt, rt), rt);
    } else {
      PlainDefaultIsFold(dflt, ops, rt);
    }
  }

  /* When the default of the message is what counts */

  predicate NoDefaults(ops: seq<Operation>) {
    forall i :: 0 <= i < |ops| ==> !ops[i].kind.Default?
  }

  /** What has become of the default after operations that do not ask for it. */
  function ShownAfter(ops: seq<Operation>, o: Own, rt: Runtime): Json
    requires ValidOwn(o)
    decreases |ops|
  {
    if ops == [] then Shown(o)
    else
      AdvanceApplies(o, ops[0], rt);
      match Advance(o, ops[0])
      case Stays(p) => ShownAfter(ops[1..], p, rt)
      case _ => Shown(o)
  }

  /** The fold, as if the default could not be changed. */
  function Intended(dflt: Json, ops: seq<Operation>, rt: Runtime): Option<Json> {
    if ops == [] then Some(JNull)
    else if BadAdd(ops[0], dflt) then FoldNew(ops[1..], JNull, dflt, rt)
    else FoldNew(ops, dflt, dflt, rt)
  }

  lemma {:induction false} FoldNewSplits(a: seq<Operation>, op: Operation, b: seq<Operation>, v: Json, dflt: Json,
                                         rt: Runtime)
    requires NoDefaults(a) && op.kind.Default?
    ensures FoldNew(a + ([op] + b), v, dflt, rt) ==
            if FoldOps(a, v, rt).None? then None else FoldOps(b, dflt, rt)
    decreases |a|
  {
    var ops := a + ([op] + b);
    if a == [] {
      assert ops[1..] == b;
    } else {
      assert ops[1..] == a[1..] + ([op] + b);
      var w := Apply(a[0], v, rt);
      if w.Some? { FoldNewSplits(a[1..], op, b, w.value, dflt, rt); }
    }
  }

  lemma {:induction false} FoldOwnSplits(a: seq<Operation>, op: Operation, b: seq<Operation>, o: Own, rt: Runtime)
    requires ValidOwn(o) && NoDefaults(a) && op.kind.Default?
    ensures FoldOwn(a + ([op] + b), o, rt) ==
            if FoldOps(a, Current(o), rt).None? then None else FoldOps(b, ShownAfter(a, o, rt), rt)
    decreases |a|
  {
    var ops := a + ([op] + b);
    if a == [] {
      assert ops[1..] == b;
    } else {
      assert ops[1..] == a[1..] + ([op] + b);
      AdvanceApplies(o, a[0], rt);
      match Advance(o, a[0])
      case Fails =>
      case Stays(p) => FoldOwnSplits(a[1..], op, b, p, rt);
      case Leaves(v) => FoldNewSplits(a[1..], op, b, v, Shown(o), rt);
    }
  }

  /** The intended fold is stored for one given list of operations exactly when those
      before the first "default" start with a bad "add" or fail, or those after it make the
      same of what has become of the default as of the default. */
  lemma OneListIff(dflt: Json, a: seq<Operation>, op: Operation, b: seq<Operation>, rt: Runtime)
    requires Compound(dflt) && NoDefaults(a) && op.kind.Default?
    ensures SetNewResult(dflt, a + ([op] + b), rt) == Intended(dflt, a + ([op] + b), rt) <==>
            || (a != [] && BadAdd(a[0], dflt))
            || FoldOps(a, dflt, rt).None?
            || FoldOps(b, ShownAfter(a, Owned(dflt, rt), rt), rt) == FoldOps(b, dflt, rt)
  {
    FoldOwnSplits(a, op, b, Owned(dflt, rt), rt);
    FoldNewSplits(a, op, b, dflt, dflt, rt);
    assert (a + ([op] + b))[0] == if a == [] then op else a[0];
  }

  /** A list or dictionary as default, and operations a before the first "default": Set
      stores the intended fold, whatever comes after, exactly when the operations before
      start with a bad "add", fail, or leave the default as it was. */
  lemma LateDefaultIff(dflt: Json, a: seq<Operation>, op: Operation, rt: Runtime)
    requires Compound(dflt) && NoDefaults(a) && op.kind.Default?
    ensures (forall b :: SetNewResult(dflt, a + ([op] + b), rt) == Intended(dflt, a + ([op] + b), rt)) <==>
            || (a != [] && BadAdd(a[0], dflt))
            || FoldOps(a, dflt, rt).None?
            || ShownAfter(a, Owned(dflt, rt), rt) == dflt
  {
    forall b: seq<Operation>
      ensures a + ([op] + b) != [] && (a + ([op] + b))[0] == if a == [] then op else a[0]
      ensures FoldOwn(a + ([op] + b), Owned(dflt, rt), rt) ==
              if FoldOps(a, dflt, rt).None? then None else FoldOps(b, ShownAfter(a, Owned(dflt, rt), rt), rt)
      ensures FoldNew(a + ([op] + b), dflt, dflt, rt) ==
              if FoldOps(a, dflt, rt).None? then None else FoldOps(b, dflt, rt)
    {
      FoldOwnSplits(a, op, b, Owned(dflt, rt), rt);
      FoldNewSplits(a, op, b, dflt, dflt, rt);
    }
    if !(a != [] && BadAdd(a[0], dflt)) && FoldOps(a, dflt, rt).Some? {
      var b: seq<Operation> := [];
      assert SetNewResult(dflt, a + ([op] + b), rt) == Some(ShownAfter(a, Owned(dflt, rt), rt));
      assert Intended(dflt, a + ([op] + b), rt) == Some(dflt);
    }
  }

  /** Without a "default" the intended fold is always stored. */
  lemma {:induction false} NoDefaultIsIntended(ops: seq<Operation>, o: Own, dflt: Json, rt: Runtime)
    requires ValidOwn(o) && NoDefaults(ops)
    ensures FoldOwn(ops, o, rt) == FoldNew(ops, Current(o), dflt, rt)
    decreases |ops|
  {
    if ops != [] {
      AdvanceApplies(o, ops[0], rt);
      match Advance(o, ops[0])
      case Fails =>
      case Stays(p) => NoDefaultIsIntended(ops[1..], p, dflt, rt);
      case Leaves(v) => NeverAsked(ops[1..], v, Shown(o), dflt, rt);
    }
  }

  lemma {:induction false} NeverAsked(ops: seq<Operation>, v: Json, d: Json, e: Json, rt: Runtime)
    requires NoDefaults(ops)
    ensures FoldNew(ops, v, d, rt) == FoldNew(ops, v, e, rt)
    decreases |ops|
  {
    if ops != [] {
      var w := Apply(ops[0], v, rt);
      if w.Some? { NeverAsked(ops[1..], w.value, d, e, rt); }
    }
  }

  /** For example: removing an entry of a dictionary and asking for the default gives the
      dictionary without the entry. */
  lemma LateDefaultSeesChanges(dict: map<string, Json>, s: string, rt: Runtime)
    ensures SetNewResult(JDict(dict), [Operation(Pop, JStr(s)), Operation(Default, JNull)], rt) ==
            Some(JDict(dict - {s}))
  {
    var a, op := [Operation(Pop, JStr(s))], Operation(Default, JNull);
    assert a + ([op] + []) == [Operation(Pop, JStr(s)), op];
    FoldOwnSplits(a, op, [], OwnMap(dict), rt);
    assert a[1..] == [];
  }
}

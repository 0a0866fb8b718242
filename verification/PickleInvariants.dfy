/** What every program keeps, well formed or not. */
module PickleInvariants {
  import opened Bytes
  import opened PickleMachine

  /** No mark anywhere inside. */
  ghost predicate Plain(v: Value) {
    match v
    case Mark => false
    case Tuple(items) => forall i :: 0 <= i < |items| ==> Plain(items[i])
    case Object(cls, args) => Plain(cls) && forall i :: 0 <= i < |args| ==> Plain(args[i])
    case _ => true
  }

  /** Every reference leads to a cell of its own kind. */
  ghost predicate Grounded(h: Heap, v: Value)
    decreases v
  {
    match v
    case ListRef(_) => IsList(h, v)
    case DictRef(_) => IsDict(h, v)
    case SetRef(_) => IsSet(h, v)
    case StrDictRef(_) => false
    case Tuple(items) => forall i :: 0 <= i < |items| ==> Grounded(h, items[i])
    case Object(cls, args) => Grounded(h, cls) && forall i :: 0 <= i < |args| ==> Grounded(h, args[i])
    case _ => true
  }

  ghost predicate Good(h: Heap, v: Value) {
    Plain(v) && Grounded(h, v)
  }

  ghost predicate AllGood(h: Heap, vs: seq<Value>) {
    forall i :: 0 <= i < |vs| ==> Good(h, vs[i])
  }

  /** On the stack and in the memo a bare mark is allowed too. */
  ghost predicate Slots(h: Heap, vs: seq<Value>) {
    forall i :: 0 <= i < |vs| ==> vs[i].Mark? || Good(h, vs[i])
  }

  ghost predicate GoodCell(h: Heap, c: Cell) {
    match c
    case ListCell(elems) => AllGood(h, elems)
    case DictCell(dict) => forall k :: k in dict ==> Good(h, k) && Good(h, dict[k])
    case SetCell(members) => forall x :: x in members ==> Good(h, x)
    case StrDictCell(_) => false
  }

  ghost predicate GoodHeap(h: Heap) {
    forall id :: 0 <= id < |h| ==> GoodCell(h, h[id])
  }

  ghost predicate GoodMachine(m: Machine) {
    Slots(m.heap, m.stack) && Slots(m.heap, m.memo) && GoodHeap(m.heap)
  }

  /** How a cell may change: a list by a suffix, a dict or set by more keys. */
  ghost predicate CellGrows(c: Cell, d: Cell) {
    match c
    case ListCell(elems) => d.ListCell? && elems <= d.elems
    case DictCell(dict) => d.DictCell? && dict.Keys <= d.dict.Keys
    case SetCell(members) => d.SetCell? && members <= d.members
    case StrDictCell(_) => c == d
  }

  ghost predicate HeapGrows(h: Heap, g: Heap) {
    |h| <= |g| && forall id :: 0 <= id < |h| ==> CellGrows(h[id], g[id])
  }

  ghost predicate MachineGrows(m: Machine, n: Machine) {
    HeapGrows(m.heap, n.heap) && m.memo <= n.memo
  }

  lemma HeapGrowsTransitive(h: Heap, g: Heap, f: Heap)
    requires HeapGrows(h, g) && HeapGrows(g, f)
    ensures HeapGrows(h, f)
  {
    forall id | 0 <= id < |h|
      ensures CellGrows(h[id], f[id])
    {
      assert CellGrows(h[id], g[id]) && CellGrows(g[id], f[id]);
    }
  }

  lemma {:induction false} GroundedGrows(h: Heap, g: Heap, v: Value)
    requires HeapGrows(h, g) && Grounded(h, v)
    ensures Grounded(g, v)
    decreases v
  {
    match v
    case ListRef(id) => assert CellGrows(h[id], g[id]);
    case DictRef(id) => assert CellGrows(h[id], g[id]);
    case SetRef(id) => assert CellGrows(h[id], g[id]);
    case Tuple(items) =>
      forall i | 0 <= i < |items| ensures Grounded(g, items[i]) { GroundedGrows(h, g, items[i]); }
    case Object(cls, args) =>
      GroundedGrows(h, g, cls);
      forall i | 0 <= i < |args| ensures Grounded(g, args[i]) { GroundedGrows(h, g, args[i]); }
    case _ =>
  }

  lemma SlotsGrow(h: Heap, g: Heap, vs: seq<Value>)
    requires HeapGrows(h, g) && Slots(h, vs)
    ensures Slots(g, vs)
  {
    forall i | 0 <= i < |vs| && !vs[i].Mark?
      ensures Good(g, vs[i])
    {
      GroundedGrows(h, g, vs[i]);
    }
  }

  lemma CellGrowsGood(h: Heap, g: Heap, c: Cell)
    requires HeapGrows(h, g) && GoodCell(h, c)
    ensures GoodCell(g, c)
  {
    forall v | Good(h, v)
      ensures Good(g, v)
    {
      GroundedGrows(h, g, v);
    }
  }

  /** A new stack over a heap in which one cell has grown. */
  lemma UpdateKeepsGood(m: Machine, stack: seq<Value>, id: nat, c: Cell)
    requires GoodMachine(m) && Slots(m.heap, stack) && id < |m.heap|
    requires CellGrows(m.heap[id], c) && GoodCell(m.heap, c)
    ensures var n := m.(stack := stack, heap := m.heap[id := c]); GoodMachine(n) && MachineGrows(m, n)
  {
    var g := m.heap[id := c];
    assert HeapGrows(m.heap, g);
    SlotsGrow(m.heap, g, stack);
    SlotsGrow(m.heap, g, m.memo);
    forall j | 0 <= j < |g|
      ensures GoodCell(g, g[j])
    {
      CellGrowsGood(m.heap, g, g[j]);
    }
  }

  lemma NewCellKeepsGood(m: Machine, v: Value, c: Cell)
    requires GoodMachine(m) && GoodCell(m.heap, c)
    requires Good(m.heap + [c], v)
    ensures GoodMachine(NewCell(m, v, c)) && MachineGrows(m, NewCell(m, v, c))
  {
    var g := m.heap + [c];
    assert HeapGrows(m.heap, g);
    SlotsGrow(m.heap, g, m.stack);
    SlotsGrow(m.heap, g, m.memo);
    forall j | 0 <= j < |g|
      ensures GoodCell(g, g[j])
    {
      CellGrowsGood(m.heap, g, g[j]);
    }
  }

  lemma {:induction false} InsertAllGood(h: Heap, dict: map<Value, Value>, kvs: seq<Value>)
    requires |kvs| % 2 == 0 && GoodCell(h, DictCell(dict)) && AllGood(h, kvs) && InsertAll(dict, kvs).Ok?
    ensures GoodCell(h, DictCell(InsertAll(dict, kvs).value))
    ensures dict.Keys <= InsertAll(dict, kvs).value.Keys
    decreases |kvs|
  {
    if kvs != [] {
      InsertAllGood(h, dict[kvs[0] := kvs[1]], kvs[2..]);
    }
  }

  lemma {:induction false} AddAllGood(h: Heap, members: set<Value>, vs: seq<Value>)
    requires GoodCell(h, SetCell(members)) && AllGood(h, vs) && AddAll(members, vs).Ok?
    ensures GoodCell(h, SetCell(AddAll(members, vs).value))
    ensures members <= AddAll(members, vs).value
    decreases |vs|
  {
    if vs != [] {
      AddAllGood(h, members + {vs[0]}, vs[1..]);
    }
  }

  lemma ExtendKeepsGood(m: Machine, stack: seq<Value>, vs: seq<Value>)
    requires GoodMachine(m) && Slots(m.heap, stack) && AllGood(m.heap, vs)
    ensures ExtendList(m, stack, vs).Ok? ==>
              GoodMachine(ExtendList(m, stack, vs).value) && MachineGrows(m, ExtendList(m, stack, vs).value)
    ensures ExtendSet(m, stack, vs).Ok? ==>
              GoodMachine(ExtendSet(m, stack, vs).value) && MachineGrows(m, ExtendSet(m, stack, vs).value)
    ensures |vs| % 2 == 0 && ExtendDict(m, stack, vs).Ok? ==>
              GoodMachine(ExtendDict(m, stack, vs).value) && MachineGrows(m, ExtendDict(m, stack, vs).value)
  {
    if stack != [] && IsList(m.heap, Top(stack)) {
      var id := Top(stack).id;
      assert GoodCell(m.heap, m.heap[id]);
      UpdateKeepsGood(m, stack, id, ListCell(m.heap[id].elems + vs));
    }
    if ExtendSet(m, stack, vs).Ok? {
      var id := Top(stack).id;
      assert GoodCell(m.heap, m.heap[id]);
      AddAllGood(m.heap, m.heap[id].members, vs);
      UpdateKeepsGood(m, stack, id, SetCell(AddAll(m.heap[id].members, vs).value));
    }
    if |vs| % 2 == 0 && ExtendDict(m, stack, vs).Ok? {
      var id := Top(stack).id;
      assert GoodCell(m.heap, m.heap[id]);
      InsertAllGood(m.heap, m.heap[id].dict, vs);
      UpdateKeepsGood(m, stack, id, DictCell(InsertAll(m.heap[id].dict, vs).value));
    }
  }

  lemma GatherKeepsGood(m: Machine, op: Op)
    requires op.OpTuple? || op.OpAppends? || op.OpAddItems? || op.OpSetItems?
    requires GoodMachine(m) && Gather(m, op).Ok?
    ensures GoodMachine(Gather(m, op).value) && MachineGrows(m, Gather(m, op).value)
  {
    var i := LastMark(m.stack);
    var below, vs := m.stack[..i], m.stack[i + 1..];
    assert forall j :: 0 <= j < |vs| ==> vs[j] == m.stack[i + 1 + j];
    assert AllGood(m.heap, vs) && Slots(m.heap, below);
    ExtendKeepsGood(m, below, vs);
  }

  lemma PushKeepsGood(m: Machine, keep: nat, v: Value)
    requires GoodMachine(m) && keep <= |m.stack| && (v.Mark? || Good(m.heap, v))
    ensures var n := m.(stack := m.stack[..keep] + [v]); GoodMachine(n) && MachineGrows(m, n)
  {
  }

  lemma MakeTupleKeepsGood(m: Machine, k: nat)
    requires GoodMachine(m) && MakeTuple(m, k).Ok?
    ensures GoodMachine(MakeTuple(m, k).value) && MachineGrows(m, MakeTuple(m, k).value)
  {
    PopManyTakes(m.stack, k);
    var vs := PopMany(m.stack, k).value;
    assert forall i :: 0 <= i < k ==> vs[i] == m.stack[|m.stack| - k + i];
    PushKeepsGood(m, |m.stack| - k, Tuple(vs));
  }

  lemma NewObjectKeepsGood(m: Machine)
    requires GoodMachine(m) && NewObject(m).Ok?
    ensures GoodMachine(NewObject(m).value) && MachineGrows(m, NewObject(m).value)
  {
    var n := |m.stack|;
    assert Good(m.heap, m.stack[n - 1]) && Good(m.heap, m.stack[n - 2]);
    PushKeepsGood(m, n - 2, Object(m.stack[n - 2], m.stack[n - 1].items));
  }

  lemma AppendKeepsGood(m: Machine)
    requires GoodMachine(m) && AppendOne(m).Ok?
    ensures GoodMachine(AppendOne(m).value) && MachineGrows(m, AppendOne(m).value)
  {
    var n := |m.stack|;
    assert Good(m.heap, m.stack[n - 1]);
    ExtendKeepsGood(m, DropLast(m.stack, 1), [m.stack[n - 1]]);
  }

  lemma SetItemKeepsGood(m: Machine)
    requires GoodMachine(m) && SetItem(m).Ok?
    ensures GoodMachine(SetItem(m).value) && MachineGrows(m, SetItem(m).value)
  {
    var n := |m.stack|;
    assert Good(m.heap, m.stack[n - 1]) && Good(m.heap, m.stack[n - 2]);
    ExtendKeepsGood(m, DropLast(m.stack, 2), [m.stack[n - 2], m.stack[n - 1]]);
  }

  lemma EmptyKeepsGood(m: Machine, op: Op)
    requires GoodMachine(m) && (op.OpEmptyList? || op.OpEmptyDict? || op.OpEmptySet?)
    ensures GoodMachine(Step(m, op).value) && MachineGrows(m, Step(m, op).value)
  {
    if op.OpEmptyList? {
      NewCellKeepsGood(m, ListRef(|m.heap|), ListCell([]));
    } else if op.OpEmptyDict? {
      NewCellKeepsGood(m, DictRef(|m.heap|), DictCell(map[]));
    } else {
      NewCellKeepsGood(m, SetRef(|m.heap|), SetCell({}));
    }
  }

  lemma GlobalKeepsGood(m: Machine)
    requires GoodMachine(m) && StackGlobal(m).Ok?
    ensures GoodMachine(StackGlobal(m).value) && MachineGrows(m, StackGlobal(m).value)
  {
    var n := |m.stack|;
    PushKeepsGood(m, n - 2, StackGlobal(m).value.stack[n - 2]);
  }

  lemma MemoizeKeepsGood(m: Machine, op: Op)
    requires GoodMachine(m) && (op.OpMemoize? || op.OpFrame?) && Step(m, op).Ok?
    ensures GoodMachine(Step(m, op).value) && MachineGrows(m, Step(m, op).value)
  {
    HeapGrowsSame(m.heap);
  }

  /** Any instruction, on any machine in good order: marks stay out of containers,
      references stay valid, the memo is only appended to, lists grow by suffixes and
      the keys of dicts and sets only grow. */
  lemma StepKeepsGood(m: Machine, op: Op)
    requires !op.OpStop? && GoodMachine(m) && Step(m, op).Ok?
    ensures GoodMachine(Step(m, op).value) && MachineGrows(m, Step(m, op).value)
  {
    if op.OpTuple? || op.OpAppends? || op.OpAddItems? || op.OpSetItems? {
      GatherKeepsGood(m, op);
    } else if op.OpEmptyList? || op.OpEmptyDict? || op.OpEmptySet? {
      EmptyKeepsGood(m, op);
    } else if op.OpTuple1? || op.OpTuple2? || op.OpTuple3? {
      MakeTupleKeepsGood(m, if op.OpTuple1? then 1 else if op.OpTuple2? then 2 else 3);
    } else if op.OpAppend? {
      AppendKeepsGood(m);
    } else if op.OpSetItem? {
      SetItemKeepsGood(m);
    } else if op.OpReduce? || op.OpNewObj? {
      NewObjectKeepsGood(m);
    } else if op.OpStackGlobal? {
      GlobalKeepsGood(m);
    } else if op.OpMemoize? || op.OpFrame? {
      MemoizeKeepsGood(m, op);
    } else {
      PushStepKeepsGood(m, op);
    }
  }

  /** The instructions that push one value. */
  lemma PushStepKeepsGood(m: Machine, op: Op)
    requires GoodMachine(m) && !op.OpStop? && Step(m, op).Ok? && !op.OpMemoize? && !op.OpFrame?
    requires !op.OpTuple? && !op.OpAppends? && !op.OpAddItems? && !op.OpSetItems? && !op.OpEmptyList?
    requires !op.OpEmptyDict? && !op.OpEmptySet? && !op.OpTuple1? && !op.OpTuple2? && !op.OpTuple3?
    requires !op.OpAppend? && !op.OpSetItem? && !op.OpReduce? && !op.OpNewObj? && !op.OpStackGlobal?
    ensures GoodMachine(Step(m, op).value) && MachineGrows(m, Step(m, op).value)
  {
    var n := |m.stack|;
    assert m.stack[..n] == m.stack;
    PushKeepsGood(m, n, Step(m, op).value.stack[n]);
  }

  /** Whatever the input bytes, a decoded value and the heap it refers to hold no
      mark and no dangling reference, and cells that existed before only grew. */
  lemma {:induction false} RunKeepsGood(m: Machine, input: seq<byte>)
    requires GoodMachine(m) && Run(m, input).Ok?
    ensures var r := Run(m, input).value;
            Good(r.heap, r.value) && GoodHeap(r.heap) && HeapGrows(m.heap, r.heap) && |r.rest| < |input|
    decreases |input|
  {
    FetchConsumes(input);
    var f := Fetch(input).value;
    if !f.op.OpStop? {
      var n := Step(m, f.op).value;
      StepKeepsGood(m, f.op);
      RunKeepsGood(n, f.rest);
      HeapGrowsTransitive(m.heap, n.heap, Run(m, input).value.heap);
    }
  }

  /** The machine and the unread input after one more instruction. */
  function Next(m: Machine, input: seq<byte>): Result<(Machine, seq<byte>)> {
    var f := Fetch(input);
    if f.Err? then Err(f.error)
    else if f.value.op.OpStop? then Err(Leftover)
    else
      var n := Step(m, f.value.op);
      if n.Err? then Err(n.error) else Ok((n.value, f.value.rest))
  }

  /** The machines and the unread inputs of a run, well formed to its end or not. */
  ghost predicate IsRun(ms: seq<Machine>, inputs: seq<seq<byte>>) {
    |ms| == |inputs| && forall i :: 0 <= i < |ms| - 1 ==> Follows(ms[i], inputs[i], ms[i + 1], inputs[i + 1])
  }

  ghost predicate Follows(m: Machine, input: seq<byte>, n: Machine, rest: seq<byte>) {
    Next(m, input) == Ok((n, rest))
  }

  lemma FollowingIsGood(m: Machine, input: seq<byte>, n: Machine, rest: seq<byte>)
    requires GoodMachine(m) && Follows(m, input, n, rest)
    ensures GoodMachine(n) && MachineGrows(m, n) && |rest| < |input|
  {
    FetchConsumes(input);
    StepKeepsGood(m, Fetch(input).value.op);
  }

  ghost predicate GoodFrom(m: Machine, n: Machine) {
    GoodMachine(n) && MachineGrows(m, n)
  }

  lemma GoodFromTransitive(m: Machine, n: Machine, k: Machine)
    requires GoodFrom(m, n) && GoodMachine(k) && MachineGrows(n, k)
    ensures GoodFrom(m, k)
  {
    MachineGrowsTransitive(m, n, k);
  }

  /** On any input, whether it decodes in the end or not, every machine of a run is in
      good order, its memo extends the first one and its cells only grew; and there are
      no more instructions than bytes. */
  lemma {:induction false} EveryReachedMachineIsGood(ms: seq<Machine>, inputs: seq<seq<byte>>, i: nat)
    requires IsRun(ms, inputs) && i < |ms| && GoodMachine(ms[0])
    ensures GoodFrom(ms[0], ms[i]) && i + |inputs[i]| <= |inputs[0]|
  {
    if i == 0 {
      HeapGrowsSame(ms[0].heap);
    } else {
      EveryReachedMachineIsGood(ms, inputs, i - 1);
      assert Follows(ms[i - 1], inputs[i - 1], ms[i - 1 + 1], inputs[i - 1 + 1]);
      FollowingIsGood(ms[i - 1], inputs[i - 1], ms[i], inputs[i]);
      GoodFromTransitive(ms[0], ms[i - 1], ms[i]);
    }
  }

  lemma MachineGrowsTransitive(m: Machine, n: Machine, k: Machine)
    requires MachineGrows(m, n) && MachineGrows(n, k)
    ensures MachineGrows(m, k)
  {
    HeapGrowsTransitive(m.heap, n.heap, k.heap);
  }

  lemma HeapGrowsSame(h: Heap)
    ensures HeapGrows(h, h)
  {
  }

  lemma DecodedValueIsGood(input: seq<byte>)
    requires Decode(input).Ok?
    ensures Good(Decode(input).value.heap, Decode(input).value.value) && GoodHeap(Decode(input).value.heap)
  {
    RunKeepsGood(START, input[2..]);
  }
}

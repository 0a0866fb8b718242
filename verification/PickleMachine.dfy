/** The pickle stack machine (internal/pickle/vm.go) as a function on values.

    Lists, dicts and sets live on a heap and are shared by reference; everything
    else is a plain value. */
module PickleMachine {
  import opened Bytes

  datatype Value =
    | Nil
    | Bool(b: bool)
    | Int(n: int)
    | Str(s: seq<byte>)
    | Symbol(mod: seq<byte>, attr: seq<byte>)
    | Tuple(items: seq<Value>)
    | Object(cls: Value, args: seq<Value>)
    | ListRef(id: nat)
    | DictRef(id: nat)
    | SetRef(id: nat)
    | StrDictRef(id: nat)  // only made by the restriction of map keys
    | Mark

  datatype Cell =
    | ListCell(elems: seq<Value>)
    | DictCell(dict: map<Value, Value>)
    | SetCell(members: set<Value>)
    | StrDictCell(strDict: map<seq<byte>, Value>)

  type Heap = seq<Cell>

  datatype Error =
    | Eof | BadHeader | BadOpcode | StringTooLong | EmptyStack | UnexpectedMark | UnpairedKey
    | MemoBounds | WrongType | BadKey | Leftover
    | Panic  // Go's runtime panic on an unhashable map key

  datatype Result<+T> = Ok(value: T) | Err(error: Error)

  /* Instructions */

  datatype Op =
    | OpMark | OpEmptyTuple | OpStop | OpNone | OpTrue | OpFalse
    | OpEmptyList | OpEmptyDict | OpEmptySet
    | OpTuple | OpTuple1 | OpTuple2 | OpTuple3
    | OpAppend | OpAppends | OpAddItems | OpSetItem | OpSetItems
    | OpReduce | OpNewObj | OpStackGlobal | OpMemoize
    | OpInt(n: int) | OpInt1(u: nat) | OpInt2(u: nat)
    | OpStr1(s: seq<byte>) | OpStr4(s: seq<byte>) | OpStr8(s: seq<byte>)
    | OpGet(i: nat) | OpLongGet(i: nat)
    | OpFrame(skipped: seq<byte>)

  datatype Fetched = Fetched(op: Op, rest: seq<byte>)

  /** Opcodes without an argument. */
  function PlainOp(b: byte): Result<Op> {
    if b == 0x28 then Ok(OpMark)
    else if b == 0x29 then Ok(OpEmptyTuple)
    else if b == 0x2e then Ok(OpStop)
    else if b == 0x4e then Ok(OpNone)
    else if b == 0x52 then Ok(OpReduce)
    else if b == 0x5d then Ok(OpEmptyList)
    else if b == 0x61 then Ok(OpAppend)
    else if b == 0x65 then Ok(OpAppends)
    else if b == 0x73 then Ok(OpSetItem)
    else if b == 0x74 then Ok(OpTuple)
    else if b == 0x75 then Ok(OpSetItems)
    else if b == 0x7d then Ok(OpEmptyDict)
    else if b == 0x81 then Ok(OpNewObj)
    else if b == 0x85 then Ok(OpTuple1)
    else if b == 0x86 then Ok(OpTuple2)
    else if b == 0x87 then Ok(OpTuple3)
    else if b == 0x88 then Ok(OpTrue)
    else if b == 0x89 then Ok(OpFalse)
    else if b == 0x8f then Ok(OpEmptySet)
    else if b == 0x90 then Ok(OpAddItems)
    else if b == 0x93 then Ok(OpStackGlobal)
    else if b == 0x94 then Ok(OpMemoize)
    else Err(BadOpcode)
  }

  /** A k-byte unsigned argument at the start of the input. */
  function ReadUint(input: seq<byte>, k: nat): Result<nat> {
    if |input| < k then Err(Eof) else Ok(FromLittleEndian(input[..k]))
  }

  /** Splits off a string whose length is a k-byte argument. */
  function ReadString(input: seq<byte>, k: nat): Result<(seq<byte>, seq<byte>)> {
    var n := ReadUint(input, k);
    if n.Err? then Err(n.error)
    else if n.value >= TWO_63 then Err(StringTooLong)
    else if |input| - k < n.value then Err(Eof)
    else Ok((input[k..k + n.value], input[k + n.value..]))
  }

  /** Reads one instruction with its argument. */
  function Fetch(input: seq<byte>): Result<Fetched> {
    if input == [] then Err(Eof) else
    var b, rest := input[0], input[1..];
    if b == 0x4a then
      var n := ReadUint(rest, 4);
      if n.Err? then Err(n.error) else
      Pow256Values(); Ok(Fetched(OpInt(ToInt32(n.value)), rest[4..]))
    else if b == 0x4b then
      var n := ReadUint(rest, 1);
      if n.Err? then Err(n.error) else Ok(Fetched(OpInt1(n.value), rest[1..]))
    else if b == 0x4d then
      var n := ReadUint(rest, 2);
      if n.Err? then Err(n.error) else Ok(Fetched(OpInt2(n.value), rest[2..]))
    else if b == 0x8c then
      var s := ReadString(rest, 1);
      if s.Err? then Err(s.error) else Ok(Fetched(OpStr1(s.value.0), s.value.1))
    else if b == 0x58 then
      var s := ReadString(rest, 4);
      if s.Err? then Err(s.error) else Ok(Fetched(OpStr4(s.value.0), s.value.1))
    else if b == 0x8d then
      var s := ReadString(rest, 8);
      if s.Err? then Err(s.error) else Ok(Fetched(OpStr8(s.value.0), s.value.1))
    else if b == 0x68 then
      var n := ReadUint(rest, 1);
      if n.Err? then Err(n.error) else Ok(Fetched(OpGet(n.value), rest[1..]))
    else if b == 0x6a then
      var n := ReadUint(rest, 4);
      if n.Err? then Err(n.error) else Ok(Fetched(OpLongGet(n.value), rest[4..]))
    else if b == 0x95 then
      if |rest| < 8 then Err(Eof) else Ok(Fetched(OpFrame(rest[..8]), rest[8..]))
    else
      var op := PlainOp(b);
      if op.Err? then Err(op.error) else Ok(Fetched(op.value, rest))
  }

  /** Every instruction takes at least one byte, so the loop ends. */
  lemma FetchConsumes(input: seq<byte>)
    requires Fetch(input).Ok?
    ensures |Fetch(input).value.rest| < |input|
  {
  }

  /* The machine */

  datatype Machine = Machine(stack: seq<Value>, memo: seq<Value>, heap: Heap)

  function Push(m: Machine, v: Value): Machine {
    m.(stack := m.stack + [v])
  }

  function Pop(stack: seq<Value>): Result<Value> {
    if stack == [] then Err(EmptyStack)
    else if stack[|stack| - 1].Mark? then Err(UnexpectedMark)
    else Ok(stack[|stack| - 1])
  }

  function DropLast(stack: seq<Value>, k: nat): seq<Value>
    requires k <= |stack|
  {
    stack[..|stack| - k]
  }

  /** Index of the topmost mark, or -1. */
  function LastMark(stack: seq<Value>): (i: int)
    ensures -1 <= i < |stack|
    ensures i >= 0 ==> stack[i].Mark?
    ensures forall j :: i < j < |stack| ==> !stack[j].Mark?
  {
    if stack == [] then -1
    else if stack[|stack| - 1].Mark? then |stack| - 1
    else LastMark(stack[..|stack| - 1])
  }

  /** The values above the topmost mark. */
  function PopUntilMark(stack: seq<Value>): Result<seq<Value>> {
    var i := LastMark(stack);
    if i == -1 then Err(EmptyStack) else Ok(stack[i + 1..])
  }

  /** A map key Go can hash: no map inside. A list is a pointer and can be hashed. */
  predicate Hashable(v: Value) {
    match v
    case DictRef(_) => false
    case SetRef(_) => false
    case StrDictRef(_) => false
    case Tuple(items) => forall i :: 0 <= i < |items| ==> Hashable(items[i])
    case Object(cls, args) => Hashable(cls) && forall i :: 0 <= i < |args| ==> Hashable(args[i])
    case _ => true
  }

  predicate KeyType(v: Value) {
    v.Int? || v.Str? || v.Bool? || v.Tuple?
  }

  function Insert(dict: map<Value, Value>, key: Value, value: Value): Result<map<Value, Value>> {
    if !Hashable(key) then Err(Panic) else Ok(dict[key := value])
  }

  function InsertAll(dict: map<Value, Value>, kvs: seq<Value>): Result<map<Value, Value>>
    requires |kvs| % 2 == 0
    decreases |kvs|
  {
    if kvs == [] then Ok(dict)
    else if !KeyType(kvs[0]) then Err(BadKey)
    else
      var r := Insert(dict, kvs[0], kvs[1]);
      if r.Err? then r else InsertAll(r.value, kvs[2..])
  }

  function AddAll(members: set<Value>, vs: seq<Value>): Result<set<Value>>
    decreases |vs|
  {
    if vs == [] then Ok(members)
    else if !Hashable(vs[0]) then Err(Panic)
    else AddAll(members + {vs[0]}, vs[1..])
  }

  predicate IsList(h: Heap, v: Value) {
    v.ListRef? && v.id < |h| && h[v.id].ListCell?
  }

  predicate IsDict(h: Heap, v: Value) {
    v.DictRef? && v.id < |h| && h[v.id].DictCell?
  }

  predicate IsSet(h: Heap, v: Value) {
    v.SetRef? && v.id < |h| && h[v.id].SetCell?
  }

  function Top(stack: seq<Value>): Value
    requires stack != []
  {
    stack[|stack| - 1]
  }

  /** APPEND and APPENDS once the operands are off the stack. */
  function ExtendList(m: Machine, stack: seq<Value>, vs: seq<Value>): Result<Machine> {
    if stack == [] then Err(EmptyStack)
    else if !IsList(m.heap, Top(stack)) then Err(WrongType)
    else
      var id := Top(stack).id;
      Ok(m.(stack := stack, heap := m.heap[id := ListCell(m.heap[id].elems + vs)]))
  }

  function ExtendSet(m: Machine, stack: seq<Value>, vs: seq<Value>): Result<Machine> {
    if stack == [] then Err(EmptyStack)
    else if !IsSet(m.heap, Top(stack)) then Err(WrongType)
    else
      var id := Top(stack).id;
      var r := AddAll(m.heap[id].members, vs);
      if r.Err? then Err(r.error)
      else Ok(m.(stack := stack, heap := m.heap[id := SetCell(r.value)]))
  }

  function ExtendDict(m: Machine, stack: seq<Value>, kvs: seq<Value>): Result<Machine>
    requires |kvs| % 2 == 0
  {
    if stack == [] then Err(EmptyStack)
    else if !IsDict(m.heap, Top(stack)) then Err(WrongType)
    else
      var id := Top(stack).id;
      var r := InsertAll(m.heap[id].dict, kvs);
      if r.Err? then Err(r.error)
      else Ok(m.(stack := stack, heap := m.heap[id := DictCell(r.value)]))
  }

  function NewCell(m: Machine, v: Value, c: Cell): Machine {
    m.(stack := m.stack + [v], heap := m.heap + [c])
  }

  /** The top k values, none of them a mark, popped from the top down. */
  function PopMany(stack: seq<Value>, k: nat): Result<seq<Value>>
    decreases k
  {
    if k == 0 then Ok([])
    else
      var v := Pop(stack);
      if v.Err? then Err(v.error)
      else
        var below := PopMany(DropLast(stack, 1), k - 1);
        if below.Err? then below else Ok(below.value + [v.value])
  }

  lemma {:induction false} PopManyTakes(stack: seq<Value>, k: nat)
    requires PopMany(stack, k).Ok?
    ensures k <= |stack| && PopMany(stack, k).value == stack[|stack| - k..]
    ensures forall i :: |stack| - k <= i < |stack| ==> !stack[i].Mark?
    decreases k
  {
    if k > 0 {
      PopManyTakes(DropLast(stack, 1), k - 1);
      assert stack[|stack| - k..] == DropLast(stack, 1)[|stack| - k..] + [stack[|stack| - 1]];
    }
  }

  function MakeTuple(m: Machine, k: nat): Result<Machine> {
    var vs := PopMany(m.stack, k);
    if vs.Err? then Err(vs.error)
    else PopManyTakes(m.stack, k); Ok(m.(stack := DropLast(m.stack, k) + [Tuple(vs.value)]))
  }

  function GetMemo(m: Machine, i: nat): Result<Machine> {
    if i >= |m.memo| then Err(MemoBounds) else Ok(Push(m, m.memo[i]))
  }

  function StackGlobal(m: Machine): Result<Machine> {
    var attr := Pop(m.stack);
    if attr.Err? then Err(attr.error)
    else if !attr.value.Str? then Err(WrongType)
    else
      var mod := Pop(DropLast(m.stack, 1));
      if mod.Err? then Err(mod.error)
      else if !mod.value.Str? then Err(WrongType)
      else Ok(m.(stack := DropLast(m.stack, 2) + [Symbol(mod.value.s, attr.value.s)]))
  }

  function NewObject(m: Machine): Result<Machine> {
    var args := Pop(m.stack);
    if args.Err? then Err(args.error)
    else if !args.value.Tuple? then Err(WrongType)
    else
      var cls := Pop(DropLast(m.stack, 1));
      if cls.Err? then Err(cls.error)
      else Ok(m.(stack := DropLast(m.stack, 2) + [Object(cls.value, args.value.items)]))
  }

  function AppendOne(m: Machine): Result<Machine> {
    var item := Pop(m.stack);
    if item.Err? then Err(item.error) else ExtendList(m, DropLast(m.stack, 1), [item.value])
  }

  function SetItem(m: Machine): Result<Machine> {
    var value := Pop(m.stack);
    if value.Err? then Err(value.error)
    else
      var key := Pop(DropLast(m.stack, 1));
      if key.Err? then Err(key.error)
      else if !KeyType(key.value) then Err(BadKey)
      else ExtendDict(m, DropLast(m.stack, 2), [key.value, value.value])
  }

  /** The instructions that take everything above the topmost mark. */
  function Gather(m: Machine, op: Op): Result<Machine>
    requires op.OpTuple? || op.OpAppends? || op.OpAddItems? || op.OpSetItems?
  {
    var vs := PopUntilMark(m.stack);
    if vs.Err? then Err(vs.error)
    else
      var below := m.stack[..LastMark(m.stack)];
      match op
      case OpTuple => Ok(m.(stack := below + [Tuple(vs.value)]))
      case OpAppends => ExtendList(m, below, vs.value)
      case OpAddItems => ExtendSet(m, below, vs.value)
      case OpSetItems =>
        if |vs.value| % 2 != 0 then Err(UnpairedKey) else ExtendDict(m, below, vs.value)
  }

  function Step(m: Machine, op: Op): Result<Machine>
    requires !op.OpStop?
  {
    match op
    case OpMark => Ok(Push(m, Mark))
    case OpEmptyTuple => Ok(Push(m, Tuple([])))
    case OpNone => Ok(Push(m, Nil))
    case OpTrue => Ok(Push(m, Bool(true)))
    case OpFalse => Ok(Push(m, Bool(false)))
    case OpEmptyList => Ok(NewCell(m, ListRef(|m.heap|), ListCell([])))
    case OpEmptyDict => Ok(NewCell(m, DictRef(|m.heap|), DictCell(map[])))
    case OpEmptySet => Ok(NewCell(m, SetRef(|m.heap|), SetCell({})))
    case OpTuple => Gather(m, op)
    case OpAppends => Gather(m, op)
    case OpAddItems => Gather(m, op)
    case OpSetItems => Gather(m, op)
    case OpTuple1 => MakeTuple(m, 1)
    case OpTuple2 => MakeTuple(m, 2)
    case OpTuple3 => MakeTuple(m, 3)
    case OpAppend => AppendOne(m)
    case OpSetItem => SetItem(m)
    case OpReduce => NewObject(m)
    case OpNewObj => NewObject(m)
    case OpStackGlobal => StackGlobal(m)
    case OpMemoize => if m.stack == [] then Err(EmptyStack) else Ok(m.(memo := m.memo + [Top(m.stack)]))
    case OpInt(n) => Ok(Push(m, Int(n)))
    case OpInt1(u) => Ok(Push(m, Int(u)))
    case OpInt2(u) => Ok(Push(m, Int(u)))
    case OpStr1(s) => Ok(Push(m, Str(s)))
    case OpStr4(s) => Ok(Push(m, Str(s)))
    case OpStr8(s) => Ok(Push(m, Str(s)))
    case OpGet(i) => GetMemo(m, i)
    case OpLongGet(i) => GetMemo(m, i)
    case OpFrame(_) => Ok(m)
  }

  /** STOP: exactly one value may be left. */
  function Stop(m: Machine): Result<Value> {
    var v := Pop(m.stack);
    if v.Err? then v
    else if |m.stack| > 1 then Err(Leftover)
    else v
  }

  /** The value, the heap it refers to and the unread input. */
  datatype Final = Final(value: Value, heap: Heap, rest: seq<byte>)

  /** The exec loop. */
  function Run(m: Machine, input: seq<byte>): Result<Final>
    decreases |input|
  {
    var f := Fetch(input);
    if f.Err? then Err(f.error)
    else if f.value.op.OpStop? then
      var v := Stop(m);
      if v.Err? then Err(v.error) else Ok(Final(v.value, m.heap, f.value.rest))
    else
      var next := Step(m, f.value.op);
      if next.Err? then Err(next.error)
      else FetchConsumes(input); Run(next.value, f.value.rest)
  }

  const START := Machine([], [], [])

  /** Decode up to the binding to Go types: a PROTO instruction, then the program. */
  function Decode(input: seq<byte>): Result<Final> {
    if |input| < 2 then Err(Eof)
    else if input[0] != 0x80 || input[1] < 4 then Err(BadHeader)
    else Run(START, input[2..])
  }
}

/** The pickle machine as it is stored: a growing array for the stack, and views into
    that array for the operands above a mark (internal/pickle/vm.go). It simulates the
    machine on sequences, because every reader of a view is done with it before the
    next push can overwrite it. */
module PickleVM {
  import opened Bytes
  import opened PickleMachine

  datatype Status = Fine | Failed(error: Error)

  class VM {
    var src: seq<byte>  // the unread input
    var buf: array<Value>
    var len: nat
    var memo: seq<Value>
    var heap: Heap

    ghost predicate Valid()
      reads this
    {
      len <= buf.Length
    }

    ghost function Abs(): Machine
      requires Valid()
      reads this, buf
    {
      Machine(buf[..len], memo, heap)
    }

    constructor (input: seq<byte>)
      ensures Valid() && fresh(buf) && src == input && Abs() == START
    {
      src, len, memo, heap := input, 0, [], [];
      buf := new Value[0];
    }

    /** Go's append of one element: in place while there is room, else into a larger
        array. */
    method Append(v: Value)
      requires Valid()
      modifies this`buf, this`len, buf
      ensures Valid() && (buf == old(buf) || fresh(buf))
      ensures Abs() == Push(old(Abs()), v)
    {
      if len == buf.Length {
        var bigger := new Value[2 * len + 1](i requires 0 <= i reads this, buf =>
          if i < buf.Length then buf[i] else Nil);
        assert bigger[..len] == buf[..len];
        buf := bigger;
      }
      buf[len] := v;
      len := len + 1;
      assert buf[..len] == buf[..len - 1] + [v];
    }

    method PopValue() returns (r: Result<Value>)
      requires Valid()
      modifies this`len
      ensures Valid() && r == Pop(old(Abs()).stack)
      ensures r.Ok? ==> old(len) > 0 && len == old(len) - 1
                        && Abs() == old(Abs()).(stack := DropLast(old(Abs()).stack, 1))
    {
      if len == 0 { return Err(EmptyStack); }
      var v := buf[len - 1];
      len := len - 1;
      if v.Mark? { return Err(UnexpectedMark); }
      assert buf[..len] == old(buf[..len])[..old(len) - 1];
      r := Ok(v);
    }

    /** The operands above the topmost mark stay where they are: the caller gets the
        bounds of a view into the stack's own array. */
    method PopToMark() returns (ok: bool, lo: nat, hi: nat)
      requires Valid()
      modifies this`len
      ensures Valid() && ok == (LastMark(old(Abs()).stack) >= 0)
      ensures ok ==> lo <= hi <= buf.Length && lo == len + 1
                     && Ok(buf[lo..hi]) == PopUntilMark(old(Abs()).stack)
                     && Abs() == old(Abs()).(stack := old(Abs()).stack[..LastMark(old(Abs()).stack)])
    {
      var i := len;
      ghost var stack := buf[..len];
      while i > 0
        invariant 0 <= i <= len == |stack|
        invariant forall j :: i <= j < len ==> !stack[j].Mark?
      {
        i := i - 1;
        if buf[i].Mark? {
          ok, lo, hi := true, i + 1, len;
          assert stack[i].Mark? && LastMark(stack) == i;
          assert buf[lo..hi] == stack[lo..];
          assert buf[..i] == stack[..i];
          len := i;
          return;
        }
      }
      ok, lo, hi := false, 0, 0;
    }

    /** TUPLE: the view is copied out before the push that may overwrite it. */
    method MakeMarkedTuple() returns (s: Status)
      requires Valid()
      modifies this`buf, this`len, buf
      ensures Simulates(OpTuple, old(Abs()), s)
      ensures buf == old(buf) || fresh(buf)
    {
      var ok, lo, hi := PopToMark();
      if !ok { return Failed(EmptyStack); }
      var items := buf[lo..hi];
      Append(Tuple(items));
      s := Fine;
    }

    /** The new state, or the error, is the one of the sequence machine. */
    ghost predicate Simulates(op: Op, m: Machine, s: Status)
      requires !op.OpStop?
      reads this, buf
    {
      && Valid()
      && match s
         case Fine => Step(m, op) == Ok(Abs())
         case Failed(e) => Step(m, op) == Err(e)
    }

    method AppendItems() returns (s: Status)
      requires Valid()
      modifies this`len, this`heap
      ensures Simulates(OpAppends, old(Abs()), s)
    {
      var ok, lo, hi := PopToMark();
      if !ok { return Failed(EmptyStack); }
      if len == 0 { return Failed(EmptyStack); }
      var target := buf[len - 1];
      if !IsList(heap, target) { return Failed(WrongType); }
      heap := heap[target.id := ListCell(heap[target.id].elems + buf[lo..hi])];
      s := Fine;
    }

    /** Reads a view member by member. */
    method CollectMembers(start: set<Value>, lo: nat, hi: nat) returns (r: Result<set<Value>>)
      requires lo <= hi <= buf.Length
      ensures r == AddAll(start, buf[lo..hi])
    {
      var members := start;
      for i := lo to hi
        invariant AddAll(start, buf[lo..hi]) == AddAll(members, buf[i..hi])
      {
        assert buf[i..hi][1..] == buf[i + 1..hi];
        if !Hashable(buf[i]) { return Err(Panic); }
        members := members + {buf[i]};
      }
      r := Ok(members);
    }

    method AddItems() returns (s: Status)
      requires Valid()
      modifies this`len, this`heap
      ensures Simulates(OpAddItems, old(Abs()), s)
    {
      var ok, lo, hi := PopToMark();
      if !ok { return Failed(EmptyStack); }
      if len == 0 { return Failed(EmptyStack); }
      var target := buf[len - 1];
      assert target == Top(Abs().stack);
      if !IsSet(heap, target) { return Failed(WrongType); }
      var members := CollectMembers(heap[target.id].members, lo, hi);
      if members.Err? { return Failed(members.error); }
      heap := heap[target.id := SetCell(members.value)];
      s := Fine;
    }

    static method CheckDictKey(v: Value) returns (ok: bool)
      ensures ok == KeyType(v)
    {
      match v {
        case Int(_) => ok := true;
        case Str(_) => ok := true;
        case Bool(_) => ok := true;
        case Tuple(_) => ok := true;
        case _ => ok := false;
      }
    }

    /** Writes pair by pair from a view; an error leaves the earlier pairs written. */
    method InsertPairs(id: nat, lo: nat, hi: nat) returns (s: Status)
      requires lo <= hi <= buf.Length && (hi - lo) % 2 == 0
      requires id < |heap| && heap[id].DictCell?
      modifies this`heap
      ensures var r := InsertAll(old(heap)[id].dict, buf[lo..hi]);
              match s
              case Fine => r.Ok? && heap == old(heap)[id := DictCell(r.value)]
              case Failed(e) => r == Err(e)
    {
      ghost var start := heap[id].dict;
      var i := lo;
      while i < hi
        invariant lo <= i <= hi && (hi - i) % 2 == 0
        invariant id < |heap| && heap[id].DictCell? && heap == old(heap)[id := heap[id]]
        invariant InsertAll(start, buf[lo..hi]) == InsertAll(heap[id].dict, buf[i..hi])
      {
        assert buf[i..hi][2..] == buf[i + 2..hi];
        var allowed := CheckDictKey(buf[i]);
        if !allowed { return Failed(BadKey); }
        if !Hashable(buf[i]) { return Failed(Panic); }
        heap := heap[id := DictCell(heap[id].dict[buf[i] := buf[i + 1]])];
        i := i + 2;
      }
      assert buf[hi..hi] == [];
      s := Fine;
    }

    method SetPairs() returns (s: Status)
      requires Valid()
      modifies this`len, this`heap
      ensures Simulates(OpSetItems, old(Abs()), s)
    {
      ghost var m := Abs();
      var ok, lo, hi := PopToMark();
      if !ok { return Failed(EmptyStack); }
      ghost var vs := buf[lo..hi];
      assert |vs| == hi - lo;
      if (hi - lo) % 2 != 0 { return Failed(UnpairedKey); }
      assert Step(m, OpSetItems) == ExtendDict(m, Abs().stack, vs);
      if len == 0 { return Failed(EmptyStack); }
      var target := buf[len - 1];
      assert target == Top(Abs().stack);
      if !IsDict(heap, target) { return Failed(WrongType); }
      s := InsertPairs(target.id, lo, hi);
    }

    method AppendItem() returns (s: Status)
      requires Valid()
      modifies this`len, this`heap
      ensures Simulates(OpAppend, old(Abs()), s)
    {
      var item := PopValue();
      if item.Err? { return Failed(item.error); }
      if len == 0 { return Failed(EmptyStack); }
      var target := buf[len - 1];
      if !IsList(heap, target) { return Failed(WrongType); }
      heap := heap[target.id := ListCell(heap[target.id].elems + [item.value])];
      s := Fine;
    }

    method SetPair() returns (s: Status)
      requires Valid()
      modifies this`len, this`heap
      ensures Simulates(OpSetItem, old(Abs()), s)
    {
      ghost var m := Abs();
      var value := PopValue();
      if value.Err? { return Failed(value.error); }
      var key := PopValue();
      if key.Err? { return Failed(key.error); }
      var allowed := CheckDictKey(key.value);
      if !allowed { return Failed(BadKey); }
      assert DropLast(m.stack, 2) == DropLast(DropLast(m.stack, 1), 1);
      if len == 0 { return Failed(EmptyStack); }
      var target := buf[len - 1];
      if !IsDict(heap, target) { return Failed(WrongType); }
      InsertPair(heap[target.id].dict, key.value, value.value);
      if !Hashable(key.value) { return Failed(Panic); }
      heap := heap[target.id := DictCell(heap[target.id].dict[key.value := value.value])];
      s := Fine;
    }

    method MakeShortTuple(k: nat) returns (s: Status)
      requires Valid() && 1 <= k <= 3
      modifies this`buf, this`len, buf
      ensures Simulates(if k == 1 then OpTuple1 else if k == 2 then OpTuple2 else OpTuple3, old(Abs()), s)
      ensures buf == old(buf) || fresh(buf)
    {
      ghost var m := Abs();
      var items := [];
      assert DropLast(m.stack, 0) == m.stack;
      PrependNone(PopMany(m.stack, k));
      for i := 0 to k
        invariant Valid() && buf == old(buf) && buf[..] == old(buf[..])
        invariant i <= |m.stack| && Abs() == m.(stack := DropLast(m.stack, i)) && |items| == i
        invariant PopMany(m.stack, k) == Prepend(PopMany(DropLast(m.stack, i), k - i), items)
      {
        var v := PopValue();
        if v.Err? { return Failed(v.error); }
        assert DropLast(DropLast(m.stack, i), 1) == DropLast(m.stack, i + 1);
        PrependOne(PopMany(DropLast(m.stack, i + 1), k - i - 1), v.value, items);
        items := [v.value] + items;
      }
      assert [] + items == items;
      Append(Tuple(items));
      s := Fine;
    }

    method MakeObject(op: Op) returns (s: Status)
      requires Valid() && (op.OpReduce? || op.OpNewObj?)
      modifies this`buf, this`len, buf
      ensures Simulates(op, old(Abs()), s)
      ensures buf == old(buf) || fresh(buf)
    {
      ghost var m := Abs();
      var args := PopValue();
      if args.Err? { return Failed(args.error); }
      if !args.value.Tuple? { return Failed(WrongType); }
      var cls := PopValue();
      if cls.Err? { return Failed(cls.error); }
      assert DropLast(m.stack, 2) == DropLast(DropLast(m.stack, 1), 1);
      Append(Object(cls.value, args.value.items));
      s := Fine;
    }

    method MakeSymbol() returns (s: Status)
      requires Valid()
      modifies this`buf, this`len, buf
      ensures Simulates(OpStackGlobal, old(Abs()), s)
      ensures buf == old(buf) || fresh(buf)
    {
      ghost var m := Abs();
      var attr := PopValue();
      if attr.Err? { return Failed(attr.error); }
      if !attr.value.Str? { return Failed(WrongType); }
      var mod := PopValue();
      if mod.Err? { return Failed(mod.error); }
      if !mod.value.Str? { return Failed(WrongType); }
      assert DropLast(m.stack, 2) == DropLast(DropLast(m.stack, 1), 1);
      Append(Symbol(mod.value.s, attr.value.s));
      s := Fine;
    }

    method NewContainer(v: Value, c: Cell)
      requires Valid()
      modifies this`buf, this`len, this`heap, buf
      ensures Valid() && Abs() == NewCell(old(Abs()), v, c)
      ensures buf == old(buf) || fresh(buf)
    {
      Append(v);
      heap := heap + [c];
    }

    method FetchMemo(i: nat) returns (s: Status)
      requires Valid()
      modifies this`buf, this`len, buf
      ensures Valid() && GetMemo(old(Abs()), i) == if s.Fine? then Ok(Abs()) else Err(s.error)
      ensures buf == old(buf) || fresh(buf)
    {
      if i >= |memo| { return Failed(MemoBounds); }
      Append(memo[i]);
      s := Fine;
    }

    method Memoize() returns (s: Status)
      requires Valid()
      modifies this`memo
      ensures Simulates(OpMemoize, old(Abs()), s)
    {
      if len == 0 { return Failed(EmptyStack); }
      memo := memo + [buf[len - 1]];
      s := Fine;
    }

    /** The value a plain push instruction pushes. */
    static function Pushes(op: Op): Value
      requires op.OpMark? || op.OpEmptyTuple? || op.OpNone? || op.OpTrue? || op.OpFalse? || op.OpInt? || op.OpInt1?
               || op.OpInt2? || op.OpStr1? || op.OpStr4? || op.OpStr8?
    {
      match op
      case OpMark => Mark
      case OpEmptyTuple => Tuple([])
      case OpNone => Nil
      case OpTrue => Bool(true)
      case OpFalse => Bool(false)
      case OpInt(n) => Int(n)
      case OpInt1(u) => Int(u)
      case OpInt2(u) => Int(u)
      case OpStr1(s) => Str(s)
      case OpStr4(s) => Str(s)
      case OpStr8(s) => Str(s)
    }

    method Dispatch(op: Op) returns (s: Status)
      requires Valid() && !op.OpStop?
      modifies this`buf, this`len, this`memo, this`heap, buf
      ensures Simulates(op, old(Abs()), s)
      ensures buf == old(buf) || fresh(buf)
    {
      s := Fine;
      if op.OpEmptyList? {
        NewContainer(ListRef(|heap|), ListCell([]));
      } else if op.OpEmptyDict? {
        NewContainer(DictRef(|heap|), DictCell(map[]));
      } else if op.OpEmptySet? {
        NewContainer(SetRef(|heap|), SetCell({}));
      } else if op.OpTuple? {
        s := MakeMarkedTuple();
      } else if op.OpTuple1? || op.OpTuple2? || op.OpTuple3? {
        s := MakeShortTuple(if op.OpTuple1? then 1 else if op.OpTuple2? then 2 else 3);
      } else if op.OpAppend? {
        s := AppendItem();
      } else if op.OpAppends? {
        s := AppendItems();
      } else if op.OpAddItems? {
        s := AddItems();
      } else if op.OpSetItem? {
        s := SetPair();
      } else if op.OpSetItems? {
        s := SetPairs();
      } else if op.OpReduce? || op.OpNewObj? {
        s := MakeObject(op);
      } else if op.OpStackGlobal? {
        s := MakeSymbol();
      } else if op.OpMemoize? {
        s := Memoize();
      } else if op.OpGet? || op.OpLongGet? {
        s := FetchMemo(op.i);
      } else if !op.OpFrame? {
        Append(Pushes(op));
      }
    }
  }

  function Prepend(r: Result<seq<Value>>, items: seq<Value>): Result<seq<Value>> {
    if r.Err? then r else Ok(r.value + items)
  }

  lemma PrependNone(r: Result<seq<Value>>)
    ensures Prepend(r, []) == r
  {
    if r.Ok? { assert r.value + [] == r.value; }
  }

  lemma PrependOne(r: Result<seq<Value>>, v: Value, items: seq<Value>)
    ensures Prepend(if r.Err? then r else Ok(r.value + [v]), items) == Prepend(r, [v] + items)
  {
    if r.Ok? { assert r.value + [v] + items == r.value + ([v] + items); }
  }

  lemma InsertPair(dict: map<Value, Value>, key: Value, value: Value)
    requires KeyType(key)
    ensures InsertAll(dict, [key, value]) == Insert(dict, key, value)
  {
    assert [key, value][2..] == [];
  }

  /** The exec loop: on every input, well formed or not, the array machine ends with
      the same value and heap, or the same error, as the sequence machine. */
  method Exec(input: seq<byte>) returns (r: Result<Final>)
    ensures r == Run(START, input)
  {
    var vm := new VM(input);
    while true
      invariant vm.Valid() && fresh(vm) && fresh(vm.buf)
      invariant Run(vm.Abs(), vm.src) == Run(START, input)
      decreases |vm.src|
    {
      var f := Fetch(vm.src);
      if f.Err? { return Err(f.error); }
      FetchConsumes(vm.src);
      vm.src := f.value.rest;
      if f.value.op.OpStop? {
        var v := vm.PopValue();
        if v.Err? { return Err(v.error); }
        if vm.len > 0 { return Err(Leftover); }
        return Ok(Final(v.value, vm.heap, vm.src));
      }
      var s := vm.Dispatch(f.value.op);
      if s.Failed? { return Err(s.error); }
    }
  }
}

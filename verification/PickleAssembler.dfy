/** Instructions as bytes, and programs as lists of instructions. */
module PickleAssembler {
  import opened Bytes
  import opened PickleMachine

  /** The argument fits the instruction. */
  predicate Encodable(op: Op) {
    match op
    case OpInt(n) => IsInt32(n)
    case OpInt1(u) => u < 0x100
    case OpInt2(u) => u < 0x1_0000
    case OpStr1(s) => |s| < 0x100
    case OpStr4(s) => |s| < TWO_32
    case OpStr8(s) => |s| < TWO_63
    case OpGet(i) => i < 0x100
    case OpLongGet(i) => i < TWO_32
    case OpFrame(skipped) => |skipped| == 8
    case _ => true
  }

  function Opcode(op: Op): byte {
    match op
    case OpMark => 0x28
    case OpEmptyTuple => 0x29
    case OpStop => 0x2e
    case OpNone => 0x4e
    case OpTrue => 0x88
    case OpFalse => 0x89
    case OpEmptyList => 0x5d
    case OpEmptyDict => 0x7d
    case OpEmptySet => 0x8f
    case OpTuple => 0x74
    case OpTuple1 => 0x85
    case OpTuple2 => 0x86
    case OpTuple3 => 0x87
    case OpAppend => 0x61
    case OpAppends => 0x65
    case OpAddItems => 0x90
    case OpSetItem => 0x73
    case OpSetItems => 0x75
    case OpReduce => 0x52
    case OpNewObj => 0x81
    case OpStackGlobal => 0x93
    case OpMemoize => 0x94
    case OpInt(_) => 0x4a
    case OpInt1(_) => 0x4b
    case OpInt2(_) => 0x4d
    case OpStr1(_) => 0x8c
    case OpStr4(_) => 0x58
    case OpStr8(_) => 0x8d
    case OpGet(_) => 0x68
    case OpLongGet(_) => 0x6a
    case OpFrame(_) => 0x95
  }

  function Argument(op: Op): seq<byte>
    requires Encodable(op)
  {
    match op
    case OpInt(n) => LittleEndian(ToUint32(n), 4)
    case OpInt1(u) => LittleEndian(u, 1)
    case OpInt2(u) => LittleEndian(u, 2)
    case OpStr1(s) => LittleEndian(|s|, 1) + s
    case OpStr4(s) => LittleEndian(|s|, 4) + s
    case OpStr8(s) => LittleEndian(|s|, 8) + s
    case OpGet(i) => LittleEndian(i, 1)
    case OpLongGet(i) => LittleEndian(i, 4)
    case OpFrame(skipped) => skipped
    case _ => []
  }

  function Encode(op: Op): seq<byte>
    requires Encodable(op)
  {
    [Opcode(op)] + Argument(op)
  }

  function Assemble(ops: seq<Op>): seq<byte>
    requires forall i :: 0 <= i < |ops| ==> Encodable(ops[i])
  {
    if ops == [] then [] else Encode(ops[0]) + Assemble(ops[1..])
  }

  lemma ReadUintBack(n: nat, k: nat, rest: seq<byte>)
    requires n < Pow256(k)
    ensures var s := LittleEndian(n, k) + rest; ReadUint(s, k) == Ok(n) && s[k..] == rest
  {
    var s := LittleEndian(n, k) + rest;
    assert s[..k] == LittleEndian(n, k);
    LittleEndianRoundTrip(n, k);
  }

  lemma ReadStringBack(t: seq<byte>, k: nat, rest: seq<byte>)
    requires |t| < Pow256(k) && |t| < TWO_63
    ensures ReadString(LittleEndian(|t|, k) + t + rest, k) == Ok((t, rest))
  {
    var s := LittleEndian(|t|, k) + t + rest;
    assert s == LittleEndian(|t|, k) + (t + rest);
    ReadUintBack(|t|, k, t + rest);
    assert s[k..k + |t|] == t;
    assert s[k + |t|..] == rest;
  }

  lemma FetchNumber(op: Op, rest: seq<byte>)
    requires Encodable(op) && (op.OpInt? || op.OpInt1? || op.OpInt2? || op.OpGet? || op.OpLongGet? || op.OpFrame?)
    ensures Fetch([Opcode(op)] + (Argument(op) + rest)) == Ok(Fetched(op, rest))
  {
    var input := [Opcode(op)] + (Argument(op) + rest);
    assert input[1..] == Argument(op) + rest;
    Pow256Values();
    match op
    case OpInt(n) => ReadUintBack(ToUint32(n), 4, rest);
    case OpInt1(u) => ReadUintBack(u, 1, rest);
    case OpInt2(u) => ReadUintBack(u, 2, rest);
    case OpGet(i) => ReadUintBack(i, 1, rest);
    case OpLongGet(i) => ReadUintBack(i, 4, rest);
    case OpFrame(skipped) =>
      assert (skipped + rest)[..8] == skipped && (skipped + rest)[8..] == rest;
  }

  lemma FetchText(op: Op, rest: seq<byte>)
    requires Encodable(op) && (op.OpStr1? || op.OpStr4? || op.OpStr8?)
    ensures Fetch([Opcode(op)] + (Argument(op) + rest)) == Ok(Fetched(op, rest))
  {
    var input := [Opcode(op)] + (Argument(op) + rest);
    assert input[1..] == Argument(op) + rest;
    Pow256Values();
    match op
    case OpStr1(s) => ReadStringBack(s, 1, rest);
    case OpStr4(s) => ReadStringBack(s, 4, rest);
    case OpStr8(s) => ReadStringBack(s, 8, rest);
  }

  /** Reading an instruction gives back what was written, and the rest of the input. */
  lemma FetchEncode(op: Op, rest: seq<byte>)
    requires Encodable(op)
    ensures Fetch(Encode(op) + rest) == Ok(Fetched(op, rest))
  {
    assert Encode(op) + rest == [Opcode(op)] + (Argument(op) + rest);
    if op.OpInt? || op.OpInt1? || op.OpInt2? || op.OpGet? || op.OpLongGet? || op.OpFrame? {
      FetchNumber(op, rest);
    } else if op.OpStr1? || op.OpStr4? || op.OpStr8? {
      FetchText(op, rest);
    } else {
      assert Argument(op) + rest == rest;
      assert ([Opcode(op)] + rest)[1..] == rest;
    }
  }

  /* Running lists of instructions */

  predicate NoStop(ops: seq<Op>) {
    forall i :: 0 <= i < |ops| ==> !ops[i].OpStop?
  }

  function RunOps(m: Machine, ops: seq<Op>): Result<Machine>
    requires NoStop(ops)
    decreases |ops|
  {
    if ops == [] then Ok(m)
    else
      var next := Step(m, ops[0]);
      if next.Err? then next else RunOps(next.value, ops[1..])
  }

  lemma {:induction false} RunOpsConcat(m: Machine, a: seq<Op>, b: seq<Op>)
    requires NoStop(a) && NoStop(b)
    ensures NoStop(a + b)
    ensures RunOps(m, a + b) == if RunOps(m, a).Ok? then RunOps(RunOps(m, a).value, b) else RunOps(m, a)
    decreases |a|
  {
    if a == [] {
      assert a + b == b;
    } else {
      assert (a + b)[1..] == a[1..] + b;
      var next := Step(m, a[0]);
      if next.Ok? { RunOpsConcat(next.value, a[1..], b); }
    }
  }

  lemma RunOpsOne(m: Machine, op: Op)
    requires !op.OpStop?
    ensures RunOps(m, [op]) == Step(m, op)
  {
    assert [op][1..] == [];
  }

  /** The byte-level loop on assembled code, followed by anything. */
  lemma {:induction false} RunAssembled(m: Machine, ops: seq<Op>, rest: seq<byte>)
    requires NoStop(ops) && forall i :: 0 <= i < |ops| ==> Encodable(ops[i])
    ensures Run(m, Assemble(ops) + rest) ==
            if RunOps(m, ops).Ok? then Run(RunOps(m, ops).value, rest) else Err(RunOps(m, ops).error)
    decreases |ops|
  {
    if ops == [] {
      assert Assemble(ops) + rest == rest;
    } else {
      var tail := Assemble(ops[1..]) + rest;
      assert Assemble(ops) + rest == Encode(ops[0]) + tail;
      FetchEncode(ops[0], tail);
      var next := Step(m, ops[0]);
      if next.Ok? { RunAssembled(next.value, ops[1..], rest); }
    }
  }

  /* Frames */

  function WithoutFrames(ops: seq<Op>): (r: seq<Op>)
    ensures NoStop(ops) ==> NoStop(r)
  {
    if ops == [] then []
    else if ops[0].OpFrame? then WithoutFrames(ops[1..])
    else [ops[0]] + WithoutFrames(ops[1..])
  }

  /** FRAME instructions make no difference, wherever they stand. */
  lemma {:induction false} FramesDoNothing(m: Machine, ops: seq<Op>)
    requires NoStop(ops)
    ensures RunOps(m, ops) == RunOps(m, WithoutFrames(ops))
    decreases |ops|
  {
    if ops != [] {
      if ops[0].OpFrame? {
        FramesDoNothing(m, ops[1..]);
      } else {
        var rest := WithoutFrames(ops[1..]);
        assert ([ops[0]] + rest)[1..] == rest;
        var next := Step(m, ops[0]);
        if next.Ok? { FramesDoNothing(next.value, ops[1..]); }
      }
    }
  }
}

/** Compiler correctness of the pickle machine: the code a pickler writes for a value
    leaves exactly that value on the stack. */
module PickleCompiler {
  import opened Bytes
  import opened Options
  import opened PickleMachine
  import opened PickleAssembler

  /* Values as finite trees */

  /** The keys of a dict and the members of a set are values without references. */
  datatype Tree =
    | Leaf(v: Value)
    | TTuple(items: seq<Tree>)
    | TObject(cls: Tree, args: seq<Tree>)
    | TList(elems: seq<Tree>)
    | TDict(dict: map<Value, Tree>)
    | TSet(members: set<Value>)

  predicate Atomic(v: Value) {
    v.Nil? || v.Bool? || v.Int? || v.Str? || v.Symbol?
  }

  /** The keys that dicts are read with: integers, strings, booleans and tuples. */
  predicate MayBeKey(v: Value) {
    match v
    case Int(_) => true
    case Str(_) => true
    case Bool(_) => true
    case Tuple(_) => true
    case _ => false
  }

  /** No list, dict or set inside. */
  predicate Ground(t: Tree) {
    match t
    case Leaf(v) => Atomic(v)
    case TTuple(items) => forall i :: 0 <= i < |items| ==> Ground(items[i])
    case TObject(cls, args) => Ground(cls) && forall i :: 0 <= i < |args| ==> Ground(args[i])
    case _ => false
  }

  function ValueOf(t: Tree): (v: Value)
    requires Ground(t)
  {
    match t
    case Leaf(v) => v
    case TTuple(items) => Tuple(seq(|items|, i requires 0 <= i < |items| => ValueOf(items[i])))
    case TObject(cls, args) => Object(ValueOf(cls), seq(|args|, i requires 0 <= i < |args| => ValueOf(args[i])))
  }

  /** Value v in heap h is the tree t, read without touching the cells in `avoid`. */
  ghost predicate Denotes(h: Heap, v: Value, t: Tree, avoid: set<nat>)
    decreases t, 1
  {
    match t
    case Leaf(x) => v == x && Atomic(x)
    case TTuple(items) =>
      v.Tuple? && |v.items| == |items| && forall i :: 0 <= i < |items| ==> Denotes(h, v.items[i], items[i], avoid)
    case TObject(cls, args) =>
      && v.Object? && Denotes(h, v.cls, cls, avoid)
      && |v.args| == |args| && forall i :: 0 <= i < |args| ==> Denotes(h, v.args[i], args[i], avoid)
    case TList(_) => v.ListRef? && v.id !in avoid && Holds(h, v.id, t, avoid)
    case TDict(_) => v.DictRef? && v.id !in avoid && Holds(h, v.id, t, avoid)
    case TSet(_) => v.SetRef? && v.id !in avoid && Holds(h, v.id, t, avoid)
  }

  /** The cell `id` has the contents of t. */
  ghost predicate Holds(h: Heap, id: nat, t: Tree, avoid: set<nat>)
    decreases t, 0
  {
    && id < |h|
    && match t
       case TList(elems) =>
         && h[id].ListCell? && |h[id].elems| == |elems|
         && forall i :: 0 <= i < |elems| ==> Denotes(h, h[id].elems[i], elems[i], avoid)
       case TDict(dict) =>
         && h[id].DictCell? && h[id].dict.Keys == dict.Keys
         && forall k :: k in dict ==> Denotes(h, h[id].dict[k], dict[k], avoid)
       case TSet(members) => h[id] == SetCell(members)
       case _ => false
  }

  /** The second heap keeps every cell the first may be read at. */
  ghost predicate Frame(h: Heap, g: Heap, a: set<nat>, b: set<nat>) {
    forall j :: 0 <= j < |h| && j !in a ==> j < |g| && g[j] == h[j] && j !in b
  }

  lemma {:induction false} DenotesFrame(h: Heap, g: Heap, v: Value, t: Tree, a: set<nat>, b: set<nat>)
    requires Frame(h, g, a, b) && Denotes(h, v, t, a)
    ensures Denotes(g, v, t, b)
    decreases t, 1
  {
    match t
    case Leaf(_) =>
    case TTuple(items) =>
      forall i | 0 <= i < |items| ensures Denotes(g, v.items[i], items[i], b) {
        DenotesFrame(h, g, v.items[i], items[i], a, b);
      }
    case TObject(cls, args) =>
      DenotesFrame(h, g, v.cls, cls, a, b);
      forall i | 0 <= i < |args| ensures Denotes(g, v.args[i], args[i], b) {
        DenotesFrame(h, g, v.args[i], args[i], a, b);
      }
    case _ => HoldsFrame(h, g, v.id, t, a, b);
  }

  lemma {:induction false} HoldsFrame(h: Heap, g: Heap, id: nat, t: Tree, a: set<nat>, b: set<nat>)
    requires Frame(h, g, a, b) && Holds(h, id, t, a) && id < |g| && g[id] == h[id]
    ensures Holds(g, id, t, b)
    decreases t, 0
  {
    match t
    case TList(elems) =>
      forall i | 0 <= i < |elems| ensures Denotes(g, g[id].elems[i], elems[i], b) {
        DenotesFrame(h, g, h[id].elems[i], elems[i], a, b);
      }
    case TDict(dict) =>
      forall k | k in dict ensures Denotes(g, g[id].dict[k], dict[k], b) {
        DenotesFrame(h, g, h[id].dict[k], dict[k], a, b);
      }
    case TSet(_) =>
  }

  /** A ground tree is read from one value only, and that value can be hashed. */
  lemma {:induction false} GroundDenotes(h: Heap, v: Value, t: Tree, avoid: set<nat>)
    requires Ground(t) && Denotes(h, v, t, avoid)
    ensures v == ValueOf(t) && Hashable(v)
    decreases t
  {
    match t
    case Leaf(_) =>
    case TTuple(items) =>
      forall i | 0 <= i < |items| ensures v.items[i] == ValueOf(items[i]) && Hashable(v.items[i]) {
        GroundDenotes(h, v.items[i], items[i], avoid);
      }
      assert v.items == ValueOf(t).items;
    case TObject(cls, args) =>
      GroundDenotes(h, v.cls, cls, avoid);
      forall i | 0 <= i < |args| ensures v.args[i] == ValueOf(args[i]) && Hashable(v.args[i]) {
        GroundDenotes(h, v.args[i], args[i], avoid);
      }
      assert v.args == ValueOf(t).args;
  }

  /** The reading of a value is unique. */
  lemma {:induction false} DenotesOne(h: Heap, v: Value, t: Tree, u: Tree, avoid: set<nat>)
    requires Denotes(h, v, t, avoid) && Denotes(h, v, u, avoid)
    ensures t == u
    decreases t
  {
    match t
    case Leaf(_) =>
    case TTuple(items) =>
      forall i | 0 <= i < |items| ensures items[i] == u.items[i] {
        DenotesOne(h, v.items[i], items[i], u.items[i], avoid);
      }
      assert items == u.items;
    case TObject(cls, args) =>
      DenotesOne(h, v.cls, cls, u.cls, avoid);
      forall i | 0 <= i < |args| ensures args[i] == u.args[i] {
        DenotesOne(h, v.args[i], args[i], u.args[i], avoid);
      }
      assert args == u.args;
    case TList(elems) =>
      forall i | 0 <= i < |elems| ensures elems[i] == u.elems[i] {
        DenotesOne(h, h[v.id].elems[i], elems[i], u.elems[i], avoid);
      }
      assert elems == u.elems;
    case TDict(dict) =>
      forall k | k in dict ensures dict[k] == u.dict[k] {
        DenotesOne(h, h[v.id].dict[k], dict[k], u.dict[k], avoid);
      }
      assert dict == u.dict;
    case TSet(_) =>
  }

  /* What a pickler may write */

  datatype Kind = KList | KDict | KSet

  /** A way of writing a value down: which instruction for an atom, how the contents
      of a container are split into batches, what is memoized and what is fetched. */
  datatype Plan =
    | Lit(op: Op)
    | Global(mod: Plan, attr: Plan)
    | Tup(items: Plans, short: bool)
    | Obj(cls: Plan, args: Plan, reduce: bool)
    | Container(kind: Kind, memo: bool, chunks: Chunks)
    | Memo(p: Plan)
    | Get(i: nat, long: bool)

  datatype Plans = End | More(head: Plan, tail: Plans)

  /** A chunk is written with APPEND or SETITEM when single, else between a MARK and
      APPENDS, SETITEMS or ADDITEMS. */
  datatype Chunks = Done | Chunk(single: bool, items: Plans, rest: Chunks)

  function LitValue(op: Op): Option<Value> {
    match op
    case OpNone => Some(Nil)
    case OpTrue => Some(Bool(true))
    case OpFalse => Some(Bool(false))
    case OpInt(n) => Some(Int(n))
    case OpInt1(u) => Some(Int(u))
    case OpInt2(u) => Some(Int(u))
    case OpStr1(s) => Some(Str(s))
    case OpStr4(s) => Some(Str(s))
    case OpStr8(s) => Some(Str(s))
    case _ => None
  }

  function EmptyOp(kind: Kind): Op {
    match kind case KList => OpEmptyList case KDict => OpEmptyDict case KSet => OpEmptySet
  }

  function OneOp(kind: Kind): Op {
    if kind.KDict? then OpSetItem else OpAppend
  }

  function ManyOp(kind: Kind): Op {
    match kind case KList => OpAppends case KDict => OpSetItems case KSet => OpAddItems
  }

  function Code(p: Plan): (ops: seq<Op>)
    ensures NoStop(ops)
  {
    match p
    case Lit(op) => if LitValue(op).None? then [] else [op]
    case Global(mod, attr) => Code(mod) + Code(attr) + [OpStackGlobal]
    case Tup(items, short) =>
      if !short then [OpMark] + CodeAll(items) + [OpTuple]
      else CodeAll(items) + [TupleOp(Count(items))]
    case Obj(cls, args, reduce) => Code(cls) + Code(args) + [if reduce then OpReduce else OpNewObj]
    case Container(kind, memo, chunks) =>
      [EmptyOp(kind)] + (if memo then [OpMemoize] else []) + CodeChunks(kind, chunks)
    case Memo(q) => Code(q) + [OpMemoize]
    case Get(i, long) => [if long then OpLongGet(i) else OpGet(i)]
  }

  function Count(ps: Plans): nat {
    match ps case End => 0 case More(_, tail) => 1 + Count(tail)
  }

  function TupleOp(n: nat): Op {
    if n == 0 then OpEmptyTuple else if n == 1 then OpTuple1 else if n == 2 then OpTuple2 else OpTuple3
  }

  function CodeAll(ps: Plans): (ops: seq<Op>)
    ensures NoStop(ops)
    decreases ps, 0
  {
    match ps case End => [] case More(head, tail) => Code(head) + CodeAll(tail)
  }

  function CodeChunk(kind: Kind, single: bool, items: Plans): (ops: seq<Op>)
    ensures NoStop(ops)
    decreases items, 1
  {
    if single then CodeAll(items) + [OneOp(kind)] else [OpMark] + CodeAll(items) + [ManyOp(kind)]
  }

  function CodeChunks(kind: Kind, chunks: Chunks): (ops: seq<Op>)
    ensures NoStop(ops)
    decreases chunks
  {
    match chunks
    case Done => []
    case Chunk(single, items, rest) => CodeChunk(kind, single, items) + CodeChunks(kind, rest)
  }

  /* What it means */

  /** For each memo index, the tree that can be fetched from it; none while the
      container it stands for is still being filled. */
  type Env = seq<Option<Tree>>

  function EmptyTree(kind: Kind): Tree {
    match kind case KList => TList([]) case KDict => TDict(map[]) case KSet => TSet({})
  }

  function AddPairs(dict: map<Value, Tree>, ts: seq<Tree>): Option<map<Value, Tree>>
    decreases |ts|
  {
    if ts == [] then Some(dict)
    else if |ts| < 2 || !Ground(ts[0]) || !MayBeKey(ValueOf(ts[0])) then None
    else AddPairs(dict[ValueOf(ts[0]) := ts[1]], ts[2..])
  }

  function AddMembers(members: set<Value>, ts: seq<Tree>): Option<set<Value>>
    decreases |ts|
  {
    if ts == [] then Some(members)
    else if !Ground(ts[0]) then None
    else AddMembers(members + {ValueOf(ts[0])}, ts[1..])
  }

  predicate ChunkFits(kind: Kind, single: bool, n: nat) {
    single ==> (kind.KList? && n == 1) || (kind.KDict? && n == 2)
  }

  /** The contents of a container with more items. */
  function AddTo(kind: Kind, acc: Tree, ts: seq<Tree>): Option<Tree> {
    match acc
    case TList(elems) => if kind.KList? then Some(TList(elems + ts)) else None
    case TDict(dict) =>
      if !kind.KDict? then None
      else var r := AddPairs(dict, ts); if r.None? then None else Some(TDict(r.value))
    case TSet(members) =>
      if !kind.KSet? then None
      else var r := AddMembers(members, ts); if r.None? then None else Some(TSet(r.value))
    case _ => None
  }

  function Eval(p: Plan, env: Env): (r: Option<(Tree, Env)>)
    ensures r.Some? ==> |env| <= |r.value.1|
    decreases p
  {
    match p
    case Lit(op) =>
      var v := LitValue(op);
      if v.None? then None else Some((Leaf(v.value), env))
    case Global(mod, attr) =>
      var a := Eval(mod, env);
      if a.None? || !a.value.0.Leaf? || !a.value.0.v.Str? then None else
      var b := Eval(attr, a.value.1);
      if b.None? || !b.value.0.Leaf? || !b.value.0.v.Str? then None else
      Some((Leaf(Symbol(a.value.0.v.s, b.value.0.v.s)), b.value.1))
    case Tup(items, short) =>
      var a := EvalAll(items, env);
      if a.None? || (short && |a.value.0| > 3) then None else Some((TTuple(a.value.0), a.value.1))
    case Obj(cls, args, _) =>
      var a := Eval(cls, env);
      if a.None? then None else
      var b := Eval(args, a.value.1);
      if b.None? || !b.value.0.TTuple? then None else Some((TObject(a.value.0, b.value.0.items), b.value.1))
    case Container(kind, memo, chunks) =>
      var a := EvalChunks(kind, chunks, if memo then env + [None] else env, EmptyTree(kind));
      if a.None? then None
      else Some((a.value.0, if memo then a.value.1[|env| := Some(a.value.0)] else a.value.1))
    case Memo(q) =>
      var a := Eval(q, env);
      if a.None? then None else Some((a.value.0, a.value.1 + [Some(a.value.0)]))
    case Get(i, _) =>
      if i < |env| && env[i].Some? then Some((env[i].value, env)) else None
  }

  function EvalAll(ps: Plans, env: Env): (r: Option<(seq<Tree>, Env)>)
    ensures r.Some? ==> |env| <= |r.value.1| && |r.value.0| == Count(ps)
    decreases ps
  {
    match ps
    case End => Some(([], env))
    case More(head, tail) =>
      var a := Eval(head, env);
      if a.None? then None else
      var b := EvalAll(tail, a.value.1);
      if b.None? then None else Some(([a.value.0] + b.value.0, b.value.1))
  }

  function EvalChunks(kind: Kind, chunks: Chunks, env: Env, acc: Tree): (r: Option<(Tree, Env)>)
    ensures r.Some? ==> |env| <= |r.value.1|
    decreases chunks
  {
    match chunks
    case Done => Some((acc, env))
    case Chunk(single, items, rest) =>
      var a := EvalAll(items, env);
      if a.None? || !ChunkFits(kind, single, |a.value.0|) then None else
      var next := AddTo(kind, acc, a.value.0);
      if next.None? then None else EvalChunks(kind, rest, a.value.1, next.value)
  }

  /* The proof */

  ghost predicate EnvOk(m: Machine, env: Env, open: set<nat>) {
    && |env| == |m.memo|
    && forall i :: 0 <= i < |env| && env[i].Some? ==> Denotes(m.heap, m.memo[i], env[i].value, open)
  }

  /** The cells being filled exist. */
  ghost predicate OpenOk(h: Heap, open: set<nat>) {
    forall id :: id in open ==> id < |h|
  }

  /** Running some code pushed the trees, left the rest of the stack and all old cells
      alone, and kept the memo in step with the environment. */
  ghost predicate Pushed(m: Machine, r: Result<Machine>, ts: seq<Tree>, env: Env, open: set<nat>) {
    && r.Ok?
    && var n := r.value;
    && |n.stack| == |m.stack| + |ts| && n.stack[..|m.stack|] == m.stack
    && (forall i :: 0 <= i < |ts| ==> Denotes(n.heap, n.stack[|m.stack| + i], ts[i], open))
    && m.memo <= n.memo && m.heap <= n.heap
    && EnvOk(n, env, open)
  }

  /** Running some code filled the cell `id` and left all other old cells alone. */
  ghost predicate Filled(m: Machine, r: Result<Machine>, id: nat, t: Tree, env: Env, open: set<nat>) {
    && r.Ok?
    && var n := r.value;
    && n.stack == m.stack && m.memo <= n.memo
    && |m.heap| <= |n.heap| && (forall j :: 0 <= j < |m.heap| && j != id ==> n.heap[j] == m.heap[j])
    && Holds(n.heap, id, t, open)
    && EnvOk(n, env, open)
  }

  lemma DenotesIsNotMark(h: Heap, v: Value, t: Tree, avoid: set<nat>)
    requires Denotes(h, v, t, avoid)
    ensures !v.Mark?
  {
  }

  lemma PrefixFrame(h: Heap, g: Heap, open: set<nat>)
    requires h <= g
    ensures Frame(h, g, open, open)
  {
  }

  lemma EnvFrame(m: Machine, n: Machine, env: Env, a: set<nat>, b: set<nat>)
    requires EnvOk(m, env, a) && Frame(m.heap, n.heap, a, b) && n.memo == m.memo
    ensures EnvOk(n, env, b)
  {
    forall i | 0 <= i < |env| && env[i].Some?
      ensures Denotes(n.heap, n.memo[i], env[i].value, b)
    {
      DenotesFrame(m.heap, n.heap, m.memo[i], env[i].value, a, b);
    }
  }

  /** Two pieces of pushing code, one after the other. */
  lemma PushedTwice(m: Machine, a: seq<Op>, b: seq<Op>, ts: seq<Tree>, us: seq<Tree>,
                    env1: Env, env2: Env, open: set<nat>)
    requires NoStop(a) && NoStop(b)
    requires Pushed(m, RunOps(m, a), ts, env1, open)
    requires Pushed(RunOps(m, a).value, RunOps(RunOps(m, a).value, b), us, env2, open)
    ensures NoStop(a + b) && Pushed(m, RunOps(m, a + b), ts + us, env2, open)
  {
    RunOpsConcat(m, a, b);
    var n := RunOps(m, a).value;
    var k := RunOps(n, b).value;
    PrefixFrame(n.heap, k.heap, open);
    assert forall j :: 0 <= j < |n.stack| ==> k.stack[j] == k.stack[..|n.stack|][j] == n.stack[j];
    assert k.stack[..|m.stack|] == m.stack;
    forall i | 0 <= i < |ts|
      ensures Denotes(k.heap, k.stack[|m.stack| + i], ts[i], open)
    {
      DenotesFrame(n.heap, k.heap, n.stack[|m.stack| + i], ts[i], open, open);
    }
    forall i | |ts| <= i < |ts + us|
      ensures Denotes(k.heap, k.stack[|m.stack| + i], (ts + us)[i], open)
    {
      assert k.stack[|m.stack| + i] == k.stack[|n.stack| + (i - |ts|)];
    }
  }

  /** An instruction that turns the pushed values into one value. */
  lemma PushedThenBuild(m: Machine, a: seq<Op>, op: Op, ts: seq<Tree>, t: Tree, env: Env, open: set<nat>)
    requires NoStop(a) && !op.OpStop? && Pushed(m, RunOps(m, a), ts, env, open)
    requires var n := RunOps(m, a).value;
             exists v :: Step(n, op) == Ok(n.(stack := m.stack + [v])) && Denotes(n.heap, v, t, open)
    ensures NoStop(a + [op]) && Pushed(m, RunOps(m, a + [op]), [t], env, open)
  {
    RunOpsConcat(m, a, [op]);
    RunOpsOne(RunOps(m, a).value, op);
  }

  lemma PopPushed(base: seq<Value>, v: Value)
    requires !v.Mark?
    ensures Pop(base + [v]) == Ok(v) && DropLast(base + [v], 1) == base
  {
  }

  /** The pushed values by themselves. */
  lemma PushedSlice(m: Machine, r: Result<Machine>, ts: seq<Tree>, env: Env, open: set<nat>)
    requires Pushed(m, r, ts, env, open)
    ensures var vs := r.value.stack[|m.stack|..];
            && r.value.stack == m.stack + vs && |vs| == |ts|
            && forall i :: 0 <= i < |ts| ==> Denotes(r.value.heap, vs[i], ts[i], open) && !vs[i].Mark?
  {
    var n := r.value;
    var vs := n.stack[|m.stack|..];
    forall i | 0 <= i < |ts|
      ensures Denotes(n.heap, vs[i], ts[i], open) && !vs[i].Mark?
    {
      assert vs[i] == n.stack[|m.stack| + i];
      DenotesIsNotMark(n.heap, vs[i], ts[i], open);
    }
  }

  lemma CompileLit(op: Op, env: Env, m: Machine, open: set<nat>)
    requires LitValue(op).Some? && EnvOk(m, env, open)
    ensures Pushed(m, RunOps(m, Code(Lit(op))), [Leaf(LitValue(op).value)], env, open)
  {
    RunOpsOne(m, op);
  }

  lemma CompileGet(i: nat, long: bool, env: Env, m: Machine, open: set<nat>)
    requires i < |env| && env[i].Some? && EnvOk(m, env, open)
    ensures Pushed(m, RunOps(m, Code(Get(i, long))), [env[i].value], env, open)
  {
    RunOpsOne(m, if long then OpLongGet(i) else OpGet(i));
  }

  lemma CompileMemo(m: Machine, a: seq<Op>, t: Tree, env: Env, open: set<nat>)
    requires NoStop(a) && Pushed(m, RunOps(m, a), [t], env, open)
    ensures NoStop(a + [OpMemoize]) && Pushed(m, RunOps(m, a + [OpMemoize]), [t], env + [Some(t)], open)
  {
    RunOpsConcat(m, a, [OpMemoize]);
    var n := RunOps(m, a).value;
    RunOpsOne(n, OpMemoize);
    var ts := [t];
    assert Denotes(n.heap, n.stack[|m.stack| + 0], ts[0], open);
  }

  lemma StackOfTwo(m: Machine, n: Machine)
    requires |n.stack| == |m.stack| + 2 && n.stack[..|m.stack|] == m.stack
    ensures n.stack == m.stack + [n.stack[|m.stack|], n.stack[|m.stack| + 1]]
    ensures DropLast(n.stack, 2) == m.stack
    ensures DropLast(n.stack, 1) == m.stack + [n.stack[|m.stack|]]
  {
  }

  lemma BuildGlobal(m: Machine, a: seq<Op>, mod: seq<byte>, attr: seq<byte>, env: Env, open: set<nat>)
    requires NoStop(a) && Pushed(m, RunOps(m, a), [Leaf(Str(mod)), Leaf(Str(attr))], env, open)
    ensures NoStop(a + [OpStackGlobal])
    ensures Pushed(m, RunOps(m, a + [OpStackGlobal]), [Leaf(Symbol(mod, attr))], env, open)
  {
    var n := RunOps(m, a).value;
    StackOfTwo(m, n);
    var k := |m.stack|;
    var ts := [Leaf(Str(mod)), Leaf(Str(attr))];
    assert Denotes(n.heap, n.stack[k + 0], ts[0], open) && Denotes(n.heap, n.stack[k + 1], ts[1], open);
    PopPushed(m.stack, Str(mod));
    var v := Symbol(mod, attr);
    assert Step(n, OpStackGlobal) == Ok(n.(stack := m.stack + [v]));
    PushedThenBuild(m, a, OpStackGlobal, ts, Leaf(v), env, open);
  }

  lemma BuildObject(m: Machine, a: seq<Op>, op: Op, cls: Tree, args: seq<Tree>, env: Env, open: set<nat>)
    requires NoStop(a) && (op == OpReduce || op == OpNewObj)
    requires Pushed(m, RunOps(m, a), [cls, TTuple(args)], env, open)
    ensures NoStop(a + [op]) && Pushed(m, RunOps(m, a + [op]), [TObject(cls, args)], env, open)
  {
    var n := RunOps(m, a).value;
    StackOfTwo(m, n);
    var k := |m.stack|;
    var ts := [cls, TTuple(args)];
    assert Denotes(n.heap, n.stack[k + 0], ts[0], open) && Denotes(n.heap, n.stack[k + 1], ts[1], open);
    DenotesIsNotMark(n.heap, n.stack[k], cls, open);
    PopPushed(m.stack, n.stack[k]);
    var v := Object(n.stack[k], n.stack[k + 1].items);
    assert Step(n, op) == Ok(n.(stack := m.stack + [v]));
    assert Denotes(n.heap, v, TObject(cls, args), open);
    PushedThenBuild(m, a, op, ts, TObject(cls, args), env, open);
  }

  lemma MarkBelow(below: seq<Value>, vs: seq<Value>)
    requires forall i :: 0 <= i < |vs| ==> !vs[i].Mark?
    ensures var s := below + [Mark] + vs;
            LastMark(s) == |below| && s[..|below|] == below && s[|below| + 1..] == vs
  {
    var s := below + [Mark] + vs;
    assert s[|below|] == Mark;
    assert forall j :: |below| < j < |s| ==> s[j] == vs[j - |below| - 1];
  }

  /** Code between a MARK and an instruction that gathers: what the latter sees. */
  lemma AfterMark(m: Machine, a: seq<Op>, ts: seq<Tree>, env: Env, open: set<nat>)
    requires NoStop(a) && Pushed(Push(m, Mark), RunOps(Push(m, Mark), a), ts, env, open)
    ensures NoStop([OpMark] + a) && RunOps(m, [OpMark] + a) == RunOps(Push(m, Mark), a)
    ensures var n := RunOps(m, [OpMark] + a).value; var vs := n.stack[|m.stack| + 1..];
            && LastMark(n.stack) == |m.stack| && n.stack[..|m.stack|] == m.stack
            && n.stack == m.stack + [Mark] + vs
            && |vs| == |ts| && (forall i :: 0 <= i < |ts| ==> Denotes(n.heap, vs[i], ts[i], open))
  {
    RunOpsConcat(m, [OpMark], a);
    RunOpsOne(m, OpMark);
    var marked := Push(m, Mark);
    PushedSlice(marked, RunOps(marked, a), ts, env, open);
    MarkBelow(m.stack, RunOps(marked, a).value.stack[|marked.stack|..]);
  }

  lemma MarkedTupleStep(n: Machine, below: seq<Value>, vs: seq<Value>)
    requires n.stack == below + [Mark] + vs && LastMark(n.stack) == |below|
    ensures Step(n, OpTuple) == Ok(n.(stack := below + [Tuple(vs)]))
  {
    assert n.stack[..|below|] == below && n.stack[|below| + 1..] == vs;
  }

  lemma BuildMarkedTuple(m: Machine, a: seq<Op>, ts: seq<Tree>, env: Env, open: set<nat>)
    requires NoStop(a) && Pushed(Push(m, Mark), RunOps(Push(m, Mark), a), ts, env, open)
    ensures NoStop([OpMark] + a + [OpTuple])
    ensures Pushed(m, RunOps(m, [OpMark] + a + [OpTuple]), [TTuple(ts)], env, open)
  {
    AfterMark(m, a, ts, env, open);
    RunOpsConcat(m, [OpMark] + a, [OpTuple]);
    var n := RunOps(m, [OpMark] + a).value;
    RunOpsOne(n, OpTuple);
    var vs := n.stack[|m.stack| + 1..];
    MarkedTupleStep(n, m.stack, vs);
    assert Denotes(n.heap, Tuple(vs), TTuple(ts), open);
  }

  lemma {:induction false} PopManyPushed(base: seq<Value>, vs: seq<Value>)
    requires forall i :: 0 <= i < |vs| ==> !vs[i].Mark?
    ensures PopMany(base + vs, |vs|) == Ok(vs)
    decreases |vs|
  {
    if vs != [] {
      var front, last := vs[..|vs| - 1], vs[|vs| - 1];
      assert base + vs == (base + front) + [last];
      PopPushed(base + front, last);
      PopManyPushed(base, front);
      assert vs == front + [last];
    }
  }

  lemma ShortTupleStep(n: Machine, below: seq<Value>, vs: seq<Value>)
    requires n.stack == below + vs && |vs| <= 3 && forall i :: 0 <= i < |vs| ==> !vs[i].Mark?
    ensures Step(n, TupleOp(|vs|)) == Ok(n.(stack := below + [Tuple(vs)]))
  {
    if vs == [] {
      assert n.stack == below;
    } else {
      PopManyPushed(below, vs);
      assert DropLast(n.stack, |vs|) == below;
    }
  }

  lemma BuildShortTuple(m: Machine, a: seq<Op>, ts: seq<Tree>, env: Env, open: set<nat>)
    requires NoStop(a) && |ts| <= 3 && Pushed(m, RunOps(m, a), ts, env, open)
    ensures NoStop(a + [TupleOp(|ts|)]) && Pushed(m, RunOps(m, a + [TupleOp(|ts|)]), [TTuple(ts)], env, open)
  {
    var n := RunOps(m, a).value;
    var vs := n.stack[|m.stack|..];
    PushedSlice(m, RunOps(m, a), ts, env, open);
    ShortTupleStep(n, m.stack, vs);
    assert Denotes(n.heap, Tuple(vs), TTuple(ts), open);
    PushedThenBuild(m, a, TupleOp(|ts|), ts, TTuple(ts), env, open);
  }

  /* Filling containers */

  function RefTo(kind: Kind, id: nat): Value {
    match kind case KList => ListRef(id) case KDict => DictRef(id) case KSet => SetRef(id)
  }

  lemma {:induction false} InsertAllDenotes(h: Heap, d: map<Value, Value>, dict: map<Value, Tree>,
                                            vs: seq<Value>, ts: seq<Tree>, open: set<nat>)
    requires |vs| == |ts| && AddPairs(dict, ts).Some?
    requires d.Keys == dict.Keys && forall k :: k in dict ==> Denotes(h, d[k], dict[k], open)
    requires forall i :: 0 <= i < |ts| ==> Denotes(h, vs[i], ts[i], open)
    ensures |vs| % 2 == 0 && InsertAll(d, vs).Ok?
    ensures var e := InsertAll(d, vs).value; var r := AddPairs(dict, ts).value;
            e.Keys == r.Keys && forall k :: k in r ==> Denotes(h, e[k], r[k], open)
    decreases |ts|
  {
    if ts != [] {
      GroundDenotes(h, vs[0], ts[0], open);
      assert Denotes(h, vs[1], ts[1], open);
      var d', dict' := d[vs[0] := vs[1]], dict[ValueOf(ts[0]) := ts[1]];
      assert d'.Keys == dict'.Keys;
      InsertAllDenotes(h, d', dict', vs[2..], ts[2..], open);
    }
  }

  lemma {:induction false} AddAllDenotes(h: Heap, members: set<Value>, vs: seq<Value>, ts: seq<Tree>, open: set<nat>)
    requires |vs| == |ts| && AddMembers(members, ts).Some?
    requires forall i :: 0 <= i < |ts| ==> Denotes(h, vs[i], ts[i], open)
    ensures AddAll(members, vs) == Ok(AddMembers(members, ts).value)
    decreases |ts|
  {
    if ts != [] {
      GroundDenotes(h, vs[0], ts[0], open);
      AddAllDenotes(h, members + {vs[0]}, vs[1..], ts[1..], open);
    }
  }

  /** What a container instruction does once its operands are off the stack. */
  function Extend(kind: Kind, n: Machine, stack: seq<Value>, vs: seq<Value>): Result<Machine>
    requires kind.KDict? ==> |vs| % 2 == 0
  {
    match kind
    case KList => ExtendList(n, stack, vs)
    case KDict => ExtendDict(n, stack, vs)
    case KSet => ExtendSet(n, stack, vs)
  }

  /** The cell after an extension reads as the larger tree, and nothing else changed. */
  lemma ExtendHolds(kind: Kind, n: Machine, stack: seq<Value>, vs: seq<Value>, id: nat,
                    acc: Tree, ts: seq<Tree>, env: Env, open: set<nat>)
    requires stack != [] && Top(stack) == RefTo(kind, id) && id in open
    requires Holds(n.heap, id, acc, open) && AddTo(kind, acc, ts).Some? && EnvOk(n, env, open)
    requires |vs| == |ts| && forall i :: 0 <= i < |ts| ==> Denotes(n.heap, vs[i], ts[i], open)
    ensures kind.KDict? ==> |vs| % 2 == 0
    ensures Extend(kind, n, stack, vs).Ok?
    ensures var k := Extend(kind, n, stack, vs).value;
            && k.stack == stack && k.memo == n.memo && |k.heap| == |n.heap|
            && (forall j :: 0 <= j < |n.heap| && j != id ==> k.heap[j] == n.heap[j])
            && Holds(k.heap, id, AddTo(kind, acc, ts).value, open) && EnvOk(k, env, open)
  {
    match kind {
      case KList =>
      case KDict => InsertAllDenotes(n.heap, n.heap[id].dict, acc.dict, vs, ts, open);
      case KSet => AddAllDenotes(n.heap, acc.members, vs, ts, open);
    }
    var k := Extend(kind, n, stack, vs).value;
    assert Frame(n.heap, k.heap, open, open);
    EnvFrame(n, k, env, open, open);
    forall v, t | Denotes(n.heap, v, t, open)
      ensures Denotes(k.heap, v, t, open)
    {
      DenotesFrame(n.heap, k.heap, v, t, open, open);
    }
  }

  /** From the state with the operands pushed to the filled cell. */
  lemma ExtendFills(kind: Kind, m: Machine, n: Machine, vs: seq<Value>, id: nat, acc: Tree, ts: seq<Tree>,
                    env: Env, open: set<nat>)
    requires m.stack != [] && Top(m.stack) == RefTo(kind, id) && id in open && id < |m.heap|
    requires Holds(m.heap, id, acc, open) && AddTo(kind, acc, ts).Some?
    requires m.heap <= n.heap && m.memo <= n.memo && EnvOk(n, env, open)
    requires |vs| == |ts| && forall i :: 0 <= i < |ts| ==> Denotes(n.heap, vs[i], ts[i], open)
    ensures kind.KDict? ==> |vs| % 2 == 0
    ensures Filled(m, Extend(kind, n, m.stack, vs), id, AddTo(kind, acc, ts).value, env, open)
  {
    PrefixFrame(m.heap, n.heap, open);
    HoldsFrame(m.heap, n.heap, id, acc, open, open);
    ExtendHolds(kind, n, m.stack, vs, id, acc, ts, env, open);
  }

  lemma GatherExtends(kind: Kind, n: Machine, below: seq<Value>, vs: seq<Value>)
    requires n.stack == below + [Mark] + vs && LastMark(n.stack) == |below|
    requires kind.KDict? ==> |vs| % 2 == 0
    ensures Step(n, ManyOp(kind)) == Extend(kind, n, below, vs)
  {
    assert n.stack[..|below|] == below && n.stack[|below| + 1..] == vs;
  }

  /** A batch: MARK, items, and the gathering instruction. */
  lemma FillBatch(kind: Kind, m: Machine, a: seq<Op>, id: nat, acc: Tree, ts: seq<Tree>, env: Env, open: set<nat>)
    requires NoStop(a) && Pushed(Push(m, Mark), RunOps(Push(m, Mark), a), ts, env, open)
    requires m.stack != [] && Top(m.stack) == RefTo(kind, id) && id in open && id < |m.heap|
    requires Holds(m.heap, id, acc, open) && AddTo(kind, acc, ts).Some?
    ensures var code := [OpMark] + a + [ManyOp(kind)];
            NoStop(code) && Filled(m, RunOps(m, code), id, AddTo(kind, acc, ts).value, env, open)
  {
    AfterMark(m, a, ts, env, open);
    RunOpsConcat(m, [OpMark] + a, [ManyOp(kind)]);
    var n := RunOps(m, [OpMark] + a).value;
    RunOpsOne(n, ManyOp(kind));
    var vs := n.stack[|m.stack| + 1..];
    ExtendFills(kind, m, n, vs, id, acc, ts, env, open);
    GatherExtends(kind, n, m.stack, vs);
  }

  lemma OneExtends(kind: Kind, n: Machine, below: seq<Value>, vs: seq<Value>)
    requires n.stack == below + vs && forall i :: 0 <= i < |vs| ==> !vs[i].Mark?
    requires ChunkFits(kind, true, |vs|) && (kind.KDict? ==> MayBeKey(vs[0]))
    ensures Step(n, OneOp(kind)) == Extend(kind, n, below, vs)
  {
    if kind.KList? {
      assert vs == [vs[0]];
      PopPushed(below, vs[0]);
    } else {
      assert vs == [vs[0], vs[1]];
      assert n.stack == below + [vs[0]] + [vs[1]];
      PopPushed(below + [vs[0]], vs[1]);
      PopPushed(below, vs[0]);
      assert DropLast(n.stack, 2) == below;
    }
  }

  /** One item, or one pair, and APPEND or SETITEM. */
  lemma FillSingle(kind: Kind, m: Machine, a: seq<Op>, id: nat, acc: Tree, ts: seq<Tree>, env: Env, open: set<nat>)
    requires NoStop(a) && Pushed(m, RunOps(m, a), ts, env, open) && ChunkFits(kind, true, |ts|)
    requires m.stack != [] && Top(m.stack) == RefTo(kind, id) && id in open && id < |m.heap|
    requires Holds(m.heap, id, acc, open) && AddTo(kind, acc, ts).Some?
    ensures var code := a + [OneOp(kind)];
            NoStop(code) && Filled(m, RunOps(m, code), id, AddTo(kind, acc, ts).value, env, open)
  {
    RunOpsConcat(m, a, [OneOp(kind)]);
    var n := RunOps(m, a).value;
    RunOpsOne(n, OneOp(kind));
    var vs := n.stack[|m.stack|..];
    PushedSlice(m, RunOps(m, a), ts, env, open);
    ExtendFills(kind, m, n, vs, id, acc, ts, env, open);
    if kind.KDict? { GroundDenotes(n.heap, vs[0], ts[0], open); }
    OneExtends(kind, n, m.stack, vs);
  }

  lemma FilledTwice(m: Machine, a: seq<Op>, b: seq<Op>, id: nat, t: Tree, u: Tree, env1: Env, env2: Env, open: set<nat>)
    requires NoStop(a) && NoStop(b) && Filled(m, RunOps(m, a), id, t, env1, open)
    requires Filled(RunOps(m, a).value, RunOps(RunOps(m, a).value, b), id, u, env2, open)
    ensures NoStop(a + b) && Filled(m, RunOps(m, a + b), id, u, env2, open)
  {
    RunOpsConcat(m, a, b);
  }

  /** EMPTY_LIST, EMPTY_DICT or EMPTY_SET, with MEMOIZE or without. */
  lemma OpenContainer(kind: Kind, memo: bool, env: Env, m: Machine, open: set<nat>)
    requires EnvOk(m, env, open) && OpenOk(m.heap, open)
    ensures var code := [EmptyOp(kind)] + (if memo then [OpMemoize] else []);
            var id := |m.heap|;
            && NoStop(code) && RunOps(m, code).Ok?
            && var n := RunOps(m, code).value;
            && n.stack == m.stack + [RefTo(kind, id)]
            && n.memo == m.memo + (if memo then [RefTo(kind, id)] else [])
            && |n.heap| == id + 1 && n.heap[..id] == m.heap
            && Holds(n.heap, id, EmptyTree(kind), open + {id})
            && EnvOk(n, if memo then env + [None] else env, open + {id}) && OpenOk(n.heap, open + {id})
  {
    var id := |m.heap|;
    var tail := if memo then [OpMemoize] else [];
    RunOpsConcat(m, [EmptyOp(kind)], tail);
    RunOpsOne(m, EmptyOp(kind));
    var n1 := Step(m, EmptyOp(kind)).value;
    if memo { RunOpsOne(n1, OpMemoize); }
    assert Frame(m.heap, n1.heap, open, open + {id});
    EnvFrame(m, n1.(memo := m.memo), env, open, open + {id});
  }

  lemma CloseContainer(kind: Kind, memo: bool, env: Env, env2: Env, m: Machine, n: Machine, r: Result<Machine>,
                       t: Tree, open: set<nat>)
    requires OpenOk(m.heap, open) && |env| == |m.memo| && |env2| >= |env| + (if memo then 1 else 0)
    requires var id := |m.heap|;
             && n.stack == m.stack + [RefTo(kind, id)]
             && n.memo == m.memo + (if memo then [RefTo(kind, id)] else [])
             && |n.heap| == id + 1 && n.heap[..id] == m.heap
             && Filled(n, r, id, t, env2, open + {id})
    requires (kind.KList? && t.TList?) || (kind.KDict? && t.TDict?) || (kind.KSet? && t.TSet?)
    ensures Pushed(m, r, [t], if memo then env2[|env| := Some(t)] else env2, open)
  {
    var id := |m.heap|;
    var k := r.value;
    assert forall j :: 0 <= j < id ==> k.heap[j] == n.heap[j] == n.heap[..id][j];
    assert Frame(k.heap, k.heap, open + {id}, open);
    HoldsFrame(k.heap, k.heap, id, t, open + {id}, open);
    assert Denotes(k.heap, RefTo(kind, id), t, open);
    EnvFrame(k, k, env2, open + {id}, open);
    assert k.stack[..|m.stack|] == m.stack;
    if memo { assert k.memo[|env|] == n.memo[|env|] == RefTo(kind, id); }
  }

  /** The kind of tree never changes while a container is filled. */
  lemma {:induction false} EvalChunksKind(kind: Kind, chunks: Chunks, env: Env, acc: Tree)
    requires EvalChunks(kind, chunks, env, acc).Some?
    requires (kind.KList? && acc.TList?) || (kind.KDict? && acc.TDict?) || (kind.KSet? && acc.TSet?)
    ensures var t := EvalChunks(kind, chunks, env, acc).value.0;
            (kind.KList? && t.TList?) || (kind.KDict? && t.TDict?) || (kind.KSet? && t.TSet?)
    decreases chunks
  {
    match chunks
    case Done =>
    case Chunk(single, items, rest) =>
      var a := EvalAll(items, env).value;
      EvalChunksKind(kind, rest, a.1, AddTo(kind, acc, a.0).value);
  }

  /** The code of p pushes the tree of p. */
  ghost predicate Compiles(p: Plan, env: Env, m: Machine, open: set<nat>) {
    Eval(p, env).Some? && Pushed(m, RunOps(m, Code(p)), [Eval(p, env).value.0], Eval(p, env).value.1, open)
  }

  lemma CompileGlobal(mod: Plan, attr: Plan, env: Env, m: Machine, open: set<nat>)
    requires Eval(Global(mod, attr), env).Some? && Compiles(mod, env, m, open)
    requires Compiles(attr, Eval(mod, env).value.1, RunOps(m, Code(mod)).value, open)
    ensures Compiles(Global(mod, attr), env, m, open)
  {
    var a := Eval(mod, env).value;
    var b := Eval(attr, a.1).value;
    PushedTwice(m, Code(mod), Code(attr), [a.0], [b.0], a.1, b.1, open);
    assert [a.0] + [b.0] == [Leaf(Str(a.0.v.s)), Leaf(Str(b.0.v.s))];
    BuildGlobal(m, Code(mod) + Code(attr), a.0.v.s, b.0.v.s, b.1, open);
  }

  lemma CompileObject(cls: Plan, args: Plan, reduce: bool, env: Env, m: Machine, open: set<nat>)
    requires Eval(Obj(cls, args, reduce), env).Some? && Compiles(cls, env, m, open)
    requires Compiles(args, Eval(cls, env).value.1, RunOps(m, Code(cls)).value, open)
    ensures Compiles(Obj(cls, args, reduce), env, m, open)
  {
    var a := Eval(cls, env).value;
    var b := Eval(args, a.1).value;
    PushedTwice(m, Code(cls), Code(args), [a.0], [b.0], a.1, b.1, open);
    assert [a.0] + [b.0] == [a.0, TTuple(b.0.items)];
    BuildObject(m, Code(cls) + Code(args), if reduce then OpReduce else OpNewObj, a.0, b.0.items, b.1, open);
  }

  /** Code pushes its tree. */
  lemma {:induction false} Compile(p: Plan, env: Env, m: Machine, open: set<nat>)
    requires Eval(p, env).Some? && EnvOk(m, env, open) && OpenOk(m.heap, open)
    ensures Pushed(m, RunOps(m, Code(p)), [Eval(p, env).value.0], Eval(p, env).value.1, open)
    decreases p
  {
    match p
    case Lit(op) => CompileLit(op, env, m, open);
    case Get(i, long) => CompileGet(i, long, env, m, open);
    case Memo(q) =>
      Compile(q, env, m, open);
      CompileMemo(m, Code(q), Eval(q, env).value.0, Eval(q, env).value.1, open);
    case Global(mod, attr) =>
      Compile(mod, env, m, open);
      Compile(attr, Eval(mod, env).value.1, RunOps(m, Code(mod)).value, open);
      CompileGlobal(mod, attr, env, m, open);
    case Obj(cls, args, reduce) =>
      Compile(cls, env, m, open);
      Compile(args, Eval(cls, env).value.1, RunOps(m, Code(cls)).value, open);
      CompileObject(cls, args, reduce, env, m, open);
    case Tup(items, short) =>
      var a := EvalAll(items, env).value;
      if short {
        CompileAll(items, env, m, open);
        BuildShortTuple(m, CodeAll(items), a.0, a.1, open);
      } else {
        CompileAll(items, env, Push(m, Mark), open);
        BuildMarkedTuple(m, CodeAll(items), a.0, a.1, open);
      }
    case Container(kind, memo, chunks) =>
      OpenContainer(kind, memo, env, m, open);
      var code := [EmptyOp(kind)] + (if memo then [OpMemoize] else []);
      var n := RunOps(m, code).value;
      var env1 := if memo then env + [None] else env;
      CompileChunks(kind, chunks, env1, n, |m.heap|, EmptyTree(kind), open + {|m.heap|});
      var a := EvalChunks(kind, chunks, env1, EmptyTree(kind)).value;
      EvalChunksKind(kind, chunks, env1, EmptyTree(kind));
      RunOpsConcat(m, code, CodeChunks(kind, chunks));
      CloseContainer(kind, memo, env, a.1, m, n, RunOps(n, CodeChunks(kind, chunks)), a.0, open);
  }

  lemma {:induction false} CompileAll(ps: Plans, env: Env, m: Machine, open: set<nat>)
    requires EvalAll(ps, env).Some? && EnvOk(m, env, open) && OpenOk(m.heap, open)
    ensures Pushed(m, RunOps(m, CodeAll(ps)), EvalAll(ps, env).value.0, EvalAll(ps, env).value.1, open)
    decreases ps
  {
    match ps
    case End => assert m.stack[..|m.stack|] == m.stack;
    case More(head, tail) =>
      var a := Eval(head, env).value;
      Compile(head, env, m, open);
      var n := RunOps(m, Code(head)).value;
      CompileAll(tail, a.1, n, open);
      var b := EvalAll(tail, a.1).value;
      PushedTwice(m, Code(head), CodeAll(tail), [a.0], b.0, a.1, b.1, open);
  }

  lemma {:induction false} CompileChunks(kind: Kind, chunks: Chunks, env: Env, m: Machine, id: nat, acc: Tree,
                                         open: set<nat>)
    requires EvalChunks(kind, chunks, env, acc).Some? && EnvOk(m, env, open) && OpenOk(m.heap, open)
    requires m.stack != [] && Top(m.stack) == RefTo(kind, id) && id in open && Holds(m.heap, id, acc, open)
    ensures var r := EvalChunks(kind, chunks, env, acc).value;
            Filled(m, RunOps(m, CodeChunks(kind, chunks)), id, r.0, r.1, open)
    decreases chunks
  {
    match chunks
    case Done =>
    case Chunk(single, items, rest) =>
      var a := EvalAll(items, env).value;
      var next := AddTo(kind, acc, a.0).value;
      var first := CodeChunk(kind, single, items);
      if single {
        CompileAll(items, env, m, open);
        FillSingle(kind, m, CodeAll(items), id, acc, a.0, a.1, open);
      } else {
        CompileAll(items, env, Push(m, Mark), open);
        FillBatch(kind, m, CodeAll(items), id, acc, a.0, a.1, open);
      }
      var n := RunOps(m, first).value;
      CompileChunks(kind, rest, a.1, n, id, next, open);
      var r := EvalChunks(kind, rest, a.1, next).value;
      FilledTwice(m, first, CodeChunks(kind, rest), id, next, r.0, a.1, r.1, open);
  }
}

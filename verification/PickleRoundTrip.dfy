/** Every finite value has code, and decoding that code gives the value back. */
module PickleRoundTrip {
  import opened Bytes
  import opened Collections
  import opened Options
  import opened PickleMachine
  import opened PickleAssembler
  import opened PickleCompiler

  /** A value without references whose parts fit the instructions. */
  predicate Writable(v: Value) {
    match v
    case Nil => true
    case Bool(_) => true
    case Int(n) => IsInt32(n)
    case Str(s) => |s| < TWO_63
    case Symbol(mod, attr) => |mod| < TWO_63 && |attr| < TWO_63
    case Tuple(items) => forall i :: 0 <= i < |items| ==> Writable(items[i])
    case Object(cls, args) => Writable(cls) && forall i :: 0 <= i < |args| ==> Writable(args[i])
    case _ => false
  }

  predicate WritableTree(t: Tree) {
    match t
    case Leaf(v) => Atomic(v) && Writable(v)
    case TTuple(items) => forall i :: 0 <= i < |items| ==> WritableTree(items[i])
    case TObject(cls, args) => WritableTree(cls) && forall i :: 0 <= i < |args| ==> WritableTree(args[i])
    case TList(elems) => forall i :: 0 <= i < |elems| ==> WritableTree(elems[i])
    case TDict(dict) => forall k :: k in dict ==> Writable(k) && MayBeKey(k) && WritableTree(dict[k])
    case TSet(members) => forall x :: x in members ==> Writable(x)
  }

  /** A value without references as a tree. */
  function TreeOf(v: Value): (t: Tree)
    requires Writable(v)
    ensures Ground(t) && ValueOf(t) == v
  {
    match v
    case Tuple(items) =>
      var ts := seq(|items|, i requires 0 <= i < |items| => TreeOf(items[i]));
      assert ValueOf(TTuple(ts)).items == items;
      TTuple(ts)
    case Object(cls, args) =>
      var ts := seq(|args|, i requires 0 <= i < |args| => TreeOf(args[i]));
      assert ValueOf(TObject(TreeOf(cls), ts)).args == args;
      TObject(TreeOf(cls), ts)
    case _ => Leaf(v)
  }

  /* A pickler without sharing: everything but atoms is memoized, as Python does */

  function IntOp(n: int): Op {
    if 0 <= n < 0x100 then OpInt1(n) else if 0 <= n < 0x1_0000 then OpInt2(n) else OpInt(n)
  }

  function StrOp(s: seq<byte>): Op {
    if |s| < 0x100 then OpStr1(s) else if |s| < TWO_32 then OpStr4(s) else OpStr8(s)
  }

  function StrPlan(s: seq<byte>): Plan {
    Memo(Lit(StrOp(s)))
  }

  function PlanOfValue(v: Value): Plan
    requires Writable(v)
  {
    match v
    case Nil => Lit(OpNone)
    case Bool(b) => Lit(if b then OpTrue else OpFalse)
    case Int(n) => Lit(IntOp(n))
    case Str(s) => StrPlan(s)
    case Symbol(mod, attr) => Memo(Global(StrPlan(mod), StrPlan(attr)))
    case Tuple(items) => Memo(Tup(PlansOfValues(items), |items| <= 3))
    case Object(cls, args) => Memo(Obj(PlanOfValue(cls), Tup(PlansOfValues(args), |args| <= 3), true))
  }

  function PlansOfValues(vs: seq<Value>): Plans
    requires forall i :: 0 <= i < |vs| ==> Writable(vs[i])
  {
    if vs == [] then End else More(PlanOfValue(vs[0]), PlansOfValues(vs[1..]))
  }

  function Batch(items: Plans): Chunks {
    if items.End? then Done else Chunk(false, items, Done)
  }

  ghost function PlanOf(t: Tree): Plan
    requires WritableTree(t)
    decreases t, 0, 0
  {
    match t
    case Leaf(v) => PlanOfValue(v)
    case TTuple(items) => Memo(Tup(PlansOf(t, items), |items| <= 3))
    case TObject(cls, args) => Memo(Obj(PlanOf(cls), Tup(PlansOf(t, args), |args| <= 3), false))
    case TList(elems) => Container(KList, true, Batch(PlansOf(t, elems)))
    case TDict(dict) => Container(KDict, true, Batch(PairPlans(t, dict)))
    case TSet(members) => Container(KSet, true, Batch(MemberPlans(members)))
  }

  ghost function PlansOf(parent: Tree, ts: seq<Tree>): Plans
    requires forall i :: 0 <= i < |ts| ==> ts[i] < parent && WritableTree(ts[i])
    decreases parent, -1, |ts|
  {
    if ts == [] then End else More(PlanOf(ts[0]), PlansOf(parent, ts[1..]))
  }

  /** Keys and values in some order. */
  ghost function PairPlans(parent: Tree, dict: map<Value, Tree>): Plans
    requires forall k :: k in dict ==> dict[k] < parent && Writable(k) && WritableTree(dict[k])
    decreases parent, -1, |dict|
  {
    if dict == map[] then End
    else
      var k := PickKey(dict);
      More(PlanOfValue(k), More(PlanOf(dict[k]), PairPlans(parent, dict - {k})))
  }

  ghost function PickKey<K, V>(m: map<K, V>): (k: K)
    requires m != map[]
    ensures k in m
    ensures |m - {k}| < |m|
  {
    assert m.Keys != {};
    var k :| k in m.Keys;
    assert (m - {k}).Keys == m.Keys - {k};
    k
  }

  ghost function PickMember<T>(s: set<T>): (x: T)
    requires s != {}
    ensures x in s
  {
    var x :| x in s; x
  }

  ghost function MemberPlans(members: set<Value>): Plans
    requires forall x :: x in members ==> Writable(x)
    decreases |members|
  {
    if members == {} then End
    else
      var x := PickMember(members);
      More(PlanOfValue(x), MemberPlans(members - {x}))
  }

  /* Its code means the tree */

  ghost predicate Means(p: Plan, t: Tree, env: Env) {
    Eval(p, env).Some? && Eval(p, env).value.0 == t
  }

  ghost predicate AllMean(ps: Plans, ts: seq<Tree>, env: Env) {
    EvalAll(ps, env).Some? && EvalAll(ps, env).value.0 == ts
  }

  function TreesOf(vs: seq<Value>): (ts: seq<Tree>)
    requires forall i :: 0 <= i < |vs| ==> Writable(vs[i])
    ensures |ts| == |vs| && forall i :: 0 <= i < |vs| ==> ts[i] == TreeOf(vs[i])
  {
    seq(|vs|, i requires 0 <= i < |vs| => TreeOf(vs[i]))
  }

  lemma StrPlanMeans(s: seq<byte>, env: Env)
    ensures Eval(StrPlan(s), env) == Some((Leaf(Str(s)), env + [Some(Leaf(Str(s)))]))
  {
    assert Eval(Lit(StrOp(s)), env) == Some((Leaf(Str(s)), env));
  }

  lemma MemoMeans(p: Plan, t: Tree, env: Env)
    requires Means(p, t, env)
    ensures Means(Memo(p), t, env)
  {
  }

  lemma SymbolMeans(mod: seq<byte>, attr: seq<byte>, env: Env)
    ensures Means(Global(StrPlan(mod), StrPlan(attr)), Leaf(Symbol(mod, attr)), env)
  {
    StrPlanMeans(mod, env);
    StrPlanMeans(attr, Eval(StrPlan(mod), env).value.1);
  }

  lemma TupMeans(items: Plans, short: bool, ts: seq<Tree>, env: Env)
    requires AllMean(items, ts, env) && (short ==> |ts| <= 3)
    ensures Means(Tup(items, short), TTuple(ts), env)
  {
  }

  lemma ObjMeans(cls: Plan, items: Plans, short: bool, reduce: bool, t: Tree, ts: seq<Tree>, env: Env)
    requires Means(cls, t, env) && AllMean(items, ts, Eval(cls, env).value.1) && (short ==> |ts| <= 3)
    ensures Means(Obj(cls, Tup(items, short), reduce), TObject(t, ts), env)
  {
    TupMeans(items, short, ts, Eval(cls, env).value.1);
  }

  lemma {:induction false} ValuePlanMeans(v: Value, env: Env)
    requires Writable(v)
    ensures Means(PlanOfValue(v), TreeOf(v), env)
    decreases v
  {
    match v
    case Tuple(items) =>
      ValuePlansMean(items, env);
      assert TreeOf(v).items == TreesOf(items);
      var short := |items| <= 3;
      TupMeans(PlansOfValues(items), short, TreesOf(items), env);
      MemoMeans(Tup(PlansOfValues(items), short), TreeOf(v), env);
    case Object(cls, args) =>
      ValuePlanMeans(cls, env);
      ValuePlansMean(args, Eval(PlanOfValue(cls), env).value.1);
      assert TreeOf(v).args == TreesOf(args);
      var short := |args| <= 3;
      ObjMeans(PlanOfValue(cls), PlansOfValues(args), short, true, TreeOf(cls), TreesOf(args), env);
      MemoMeans(Obj(PlanOfValue(cls), Tup(PlansOfValues(args), short), true), TreeOf(v), env);
    case Str(s) => StrPlanMeans(s, env);
    case Symbol(mod, attr) =>
      SymbolMeans(mod, attr, env);
      MemoMeans(Global(StrPlan(mod), StrPlan(attr)), Leaf(v), env);
    case _ =>
  }

  lemma {:induction false} ValuePlansMean(vs: seq<Value>, env: Env)
    requires forall i :: 0 <= i < |vs| ==> Writable(vs[i])
    ensures AllMean(PlansOfValues(vs), TreesOf(vs), env)
    decreases vs
  {
    if vs != [] {
      ValuePlanMeans(vs[0], env);
      ValuePlansMean(vs[1..], Eval(PlanOfValue(vs[0]), env).value.1);
      assert TreesOf(vs) == [TreeOf(vs[0])] + TreesOf(vs[1..]);
    }
  }

  lemma {:induction false} PlansMean(parent: Tree, ts: seq<Tree>, env: Env)
    requires forall i :: 0 <= i < |ts| ==> ts[i] < parent && WritableTree(ts[i])
    ensures AllMean(PlansOf(parent, ts), ts, env)
    decreases parent, -1, |ts|
  {
    if ts != [] {
      PlanMeans(ts[0], env);
      PlansMean(parent, ts[1..], Eval(PlanOf(ts[0]), env).value.1);
      assert ts == [ts[0]] + ts[1..];
    }
  }

  lemma MoveKey<K, V>(acc: map<K, V>, dict: map<K, V>, k: K)
    requires k in dict
    ensures acc[k := dict[k]] + (dict - {k}) == acc + dict
  {
  }

  lemma AddToEmpty<K, V>(dict: map<K, V>)
    ensures map[] + dict == dict
  {
  }

  /** The pairs of a dict, in whatever order they are written, add up to the dict. */
  lemma {:induction false} PairsMean(parent: Tree, dict: map<Value, Tree>, acc: map<Value, Tree>, env: Env)
    requires forall k :: k in dict ==> dict[k] < parent && Writable(k) && MayBeKey(k) && WritableTree(dict[k])
    ensures EvalAll(PairPlans(parent, dict), env).Some?
    ensures AddPairs(acc, EvalAll(PairPlans(parent, dict), env).value.0) == Some(acc + dict)
    decreases parent, -1, |dict|
  {
    if dict == map[] {
      assert acc + dict == acc;
    } else {
      var k := PickKey(dict);
      ValuePlanMeans(k, env);
      var env1 := Eval(PlanOfValue(k), env).value.1;
      PlanMeans(dict[k], env1);
      var env2 := Eval(PlanOf(dict[k]), env1).value.1;
      PairsMean(parent, dict - {k}, acc[k := dict[k]], env2);
      TwoMore(PlanOfValue(k), PlanOf(dict[k]), PairPlans(parent, dict - {k}), env);
      AddPairsTwo(acc, TreeOf(k), dict[k], EvalAll(PairPlans(parent, dict - {k}), env2).value.0);
      MoveKey(acc, dict, k);
    }
  }

  lemma AddPairsTwo(acc: map<Value, Tree>, a: Tree, b: Tree, rest: seq<Tree>)
    requires Ground(a) && MayBeKey(ValueOf(a))
    ensures AddPairs(acc, [a] + ([b] + rest)) == AddPairs(acc[ValueOf(a) := b], rest)
  {
    assert ([a] + ([b] + rest))[2..] == rest;
  }

  lemma TwoMore(p: Plan, q: Plan, ps: Plans, env: Env)
    requires Eval(p, env).Some? && Eval(q, Eval(p, env).value.1).Some?
    requires EvalAll(ps, Eval(q, Eval(p, env).value.1).value.1).Some?
    ensures var a := Eval(p, env).value; var b := Eval(q, a.1).value; var c := EvalAll(ps, b.1).value;
            EvalAll(More(p, More(q, ps)), env) == Some(([a.0] + ([b.0] + c.0), c.1))
  {
    var a := Eval(p, env).value; var b := Eval(q, a.1).value; var c := EvalAll(ps, b.1).value;
    assert EvalAll(More(q, ps), a.1) == Some(([b.0] + c.0, c.1));
  }

  lemma {:induction false} MembersMean(members: set<Value>, acc: set<Value>, env: Env)
    requires forall x :: x in members ==> Writable(x)
    ensures EvalAll(MemberPlans(members), env).Some?
    ensures AddMembers(acc, EvalAll(MemberPlans(members), env).value.0) == Some(acc + members)
    decreases |members|
  {
    if members == {} {
      assert acc + members == acc;
    } else {
      var x := PickMember(members);
      ValuePlanMeans(x, env);
      var env1 := Eval(PlanOfValue(x), env).value.1;
      MembersMean(members - {x}, acc + {x}, env1);
      var rest := EvalAll(MemberPlans(members - {x}), env1).value.0;
      var ts := EvalAll(MemberPlans(members), env).value.0;
      assert ts == [TreeOf(x)] + rest && ts[1..] == rest;
      assert acc + {x} + (members - {x}) == acc + members;
    }
  }

  /** A container written as one batch. */
  lemma BatchMeans(kind: Kind, items: Plans, env: Env, t: Tree)
    requires EvalAll(items, env + [None]).Some?
    requires AddTo(kind, EmptyTree(kind), EvalAll(items, env + [None]).value.0) == Some(t)
    ensures Means(Container(kind, true, Batch(items)), t, env)
  {
    if items.End? {
      assert kind.KList? ==> t.elems == [];
    } else {
      var env1 := EvalAll(items, env + [None]).value.1;
      assert EvalChunks(kind, Done, env1, t) == Some((t, env1));
    }
  }

  lemma ListMeans(t: Tree, env: Env)
    requires t.TList? && WritableTree(t)
    requires AllMean(PlansOf(t, t.elems), t.elems, env + [None])
    ensures Means(PlanOf(t), t, env)
  {
    assert [] + t.elems == t.elems;
    BatchMeans(KList, PlansOf(t, t.elems), env, t);
  }

  lemma DictMeans(t: Tree, env: Env)
    requires t.TDict? && WritableTree(t)
    requires EvalAll(PairPlans(t, t.dict), env + [None]).Some?
    requires AddPairs(map[], EvalAll(PairPlans(t, t.dict), env + [None]).value.0) == Some(map[] + t.dict)
    ensures Means(PlanOf(t), t, env)
  {
    AddToEmpty(t.dict);
    BatchMeans(KDict, PairPlans(t, t.dict), env, t);
  }

  lemma SetMeans(t: Tree, env: Env)
    requires t.TSet? && WritableTree(t)
    ensures Means(PlanOf(t), t, env)
  {
    MembersMean(t.members, {}, env + [None]);
    assert {} + t.members == t.members;
    BatchMeans(KSet, MemberPlans(t.members), env, t);
  }

  lemma {:induction false} PlanMeans(t: Tree, env: Env)
    requires WritableTree(t)
    ensures Means(PlanOf(t), t, env)
    decreases t, 0, 0
  {
    match t
    case Leaf(v) => ValuePlanMeans(v, env);
    case TTuple(items) =>
      PlansMean(t, items, env);
      TupMeans(PlansOf(t, items), |items| <= 3, items, env);
      MemoMeans(Tup(PlansOf(t, items), |items| <= 3), t, env);
    case TObject(cls, args) =>
      PlanMeans(cls, env);
      PlansMean(t, args, Eval(PlanOf(cls), env).value.1);
      ObjMeans(PlanOf(cls), PlansOf(t, args), |args| <= 3, false, cls, args, env);
      MemoMeans(Obj(PlanOf(cls), Tup(PlansOf(t, args), |args| <= 3), false), t, env);
    case TList(elems) =>
      PlansMean(t, elems, env + [None]);
      ListMeans(t, env);
    case TDict(dict) =>
      PairsMean(t, dict, map[], env + [None]);
      DictMeans(t, env);
    case TSet(_) => SetMeans(t, env);
  }

  /* Its instructions can be assembled */

  predicate AllEncodable(ops: seq<Op>) {
    forall i :: 0 <= i < |ops| ==> Encodable(ops[i])
  }

  predicate Unframed(ops: seq<Op>) {
    forall i :: 0 <= i < |ops| ==> !ops[i].OpFrame?
  }

  /** Every argument in the plan fits its instruction. */
  predicate Neat(p: Plan) {
    match p
    case Lit(op) => Encodable(op)
    case Global(mod, attr) => Neat(mod) && Neat(attr)
    case Tup(items, _) => NeatAll(items)
    case Obj(cls, args, _) => Neat(cls) && Neat(args)
    case Container(_, _, chunks) => NeatChunks(chunks)
    case Memo(q) => Neat(q)
    case Get(i, long) => i < if long then TWO_32 else 0x100
  }

  predicate NeatAll(ps: Plans) {
    match ps case End => true case More(head, tail) => Neat(head) && NeatAll(tail)
  }

  predicate NeatChunks(chunks: Chunks) {
    match chunks case Done => true case Chunk(_, items, rest) => NeatAll(items) && NeatChunks(rest)
  }

  lemma {:induction false} NeatCode(p: Plan)
    ensures Unframed(Code(p)) && (Neat(p) ==> AllEncodable(Code(p)))
    decreases p, 0
  {
    match p
    case Lit(_) =>
    case Global(mod, attr) => NeatCode(mod); NeatCode(attr);
    case Tup(items, _) => NeatCodeAll(items);
    case Obj(cls, args, _) => NeatCode(cls); NeatCode(args);
    case Container(kind, _, chunks) => NeatCodeChunks(kind, chunks);
    case Memo(q) => NeatCode(q);
    case Get(_, _) =>
  }

  lemma {:induction false} NeatCodeAll(ps: Plans)
    ensures Unframed(CodeAll(ps)) && (NeatAll(ps) ==> AllEncodable(CodeAll(ps)))
    decreases ps, 0
  {
    match ps
    case End =>
    case More(head, tail) => NeatCode(head); NeatCodeAll(tail);
  }

  lemma {:induction false} NeatCodeChunks(kind: Kind, chunks: Chunks)
    ensures Unframed(CodeChunks(kind, chunks)) && (NeatChunks(chunks) ==> AllEncodable(CodeChunks(kind, chunks)))
    decreases chunks, 0
  {
    match chunks
    case Done =>
    case Chunk(single, items, rest) =>
      NeatCodeAll(items);
      NeatCodeChunks(kind, rest);
      var first := CodeChunk(kind, single, items);
      assert Unframed(first) && (NeatAll(items) ==> AllEncodable(first));
  }

  lemma {:induction false} ValuePlanNeat(v: Value)
    requires Writable(v)
    ensures Neat(PlanOfValue(v))
    decreases v
  {
    match v
    case Str(s) => StrPlanNeat(s);
    case Symbol(mod, attr) =>
      StrPlanNeat(mod);
      StrPlanNeat(attr);
      assert Neat(Global(StrPlan(mod), StrPlan(attr)));
    case Tuple(items) =>
      ValuePlansNeat(items);
      assert Neat(Tup(PlansOfValues(items), |items| <= 3));
    case Object(cls, args) =>
      ValuePlanNeat(cls);
      ValuePlansNeat(args);
      var tup := Tup(PlansOfValues(args), |args| <= 3);
      assert Neat(tup) && Neat(Obj(PlanOfValue(cls), tup, true));
    case _ =>
  }

  lemma StrPlanNeat(s: seq<byte>)
    requires |s| < TWO_63
    ensures Neat(StrPlan(s))
  {
    assert Neat(Lit(StrOp(s)));
  }

  lemma {:induction false} ValuePlansNeat(vs: seq<Value>)
    requires forall i :: 0 <= i < |vs| ==> Writable(vs[i])
    ensures NeatAll(PlansOfValues(vs))
    decreases vs
  {
    if vs != [] {
      ValuePlanNeat(vs[0]);
      ValuePlansNeat(vs[1..]);
    }
  }

  lemma {:induction false} PlansNeat(parent: Tree, ts: seq<Tree>)
    requires forall i :: 0 <= i < |ts| ==> ts[i] < parent && WritableTree(ts[i])
    ensures NeatAll(PlansOf(parent, ts))
    decreases parent, -1, |ts|
  {
    if ts != [] {
      PlanNeat(ts[0]);
      PlansNeat(parent, ts[1..]);
    }
  }

  lemma {:induction false} PairsNeat(parent: Tree, dict: map<Value, Tree>)
    requires forall k :: k in dict ==> dict[k] < parent && Writable(k) && WritableTree(dict[k])
    ensures NeatAll(PairPlans(parent, dict))
    decreases parent, -1, |dict|
  {
    if dict != map[] {
      var k := PickKey(dict);
      ValuePlanNeat(k);
      PlanNeat(dict[k]);
      PairsNeat(parent, dict - {k});
      assert NeatAll(More(PlanOf(dict[k]), PairPlans(parent, dict - {k})));
    }
  }

  lemma {:induction false} MembersNeat(members: set<Value>)
    requires forall x :: x in members ==> Writable(x)
    ensures NeatAll(MemberPlans(members))
    decreases |members|
  {
    if members != {} {
      var x := PickMember(members);
      ValuePlanNeat(x);
      MembersNeat(members - {x});
    }
  }

  lemma BatchNeat(kind: Kind, items: Plans)
    requires NeatAll(items)
    ensures Neat(Container(kind, true, Batch(items)))
  {
    assert NeatChunks(Done);
  }

  lemma {:induction false} PlanNeat(t: Tree)
    requires WritableTree(t)
    ensures Neat(PlanOf(t))
    decreases t, 0, 0
  {
    match t
    case Leaf(v) => ValuePlanNeat(v);
    case TTuple(items) =>
      PlansNeat(t, items);
      assert Neat(Tup(PlansOf(t, items), |items| <= 3));
    case TObject(cls, args) =>
      PlanNeat(cls);
      PlansNeat(t, args);
      var tup := Tup(PlansOf(t, args), |args| <= 3);
      assert Neat(tup) && Neat(Obj(PlanOf(cls), tup, false));
    case TList(elems) => PlansNeat(t, elems); BatchNeat(KList, PlansOf(t, elems));
    case TDict(dict) => PairsNeat(t, dict); BatchNeat(KDict, PairPlans(t, dict));
    case TSet(members) => MembersNeat(members); BatchNeat(KSet, MemberPlans(members));
  }

  /* The theorems */

  /** A pickle: header with a version from 4 on, instructions, STOP, and whatever follows
      in the file. */
  function PickleBytes(version: byte, ops: seq<Op>, rest: seq<byte>): seq<byte>
    requires AllEncodable(ops)
  {
    [0x80, version] + (Assemble(ops) + ([Opcode(OpStop)] + rest))
  }

  /** Decoding any way of writing down a tree, with sharing through the memo, any
      batches and FRAME instructions anywhere, gives exactly that tree. */
  lemma DecodeGivesTree(p: Plan, version: byte, ops: seq<Op>, rest: seq<byte>)
    requires version >= 4 && Eval(p, []).Some? && NoStop(ops) && WithoutFrames(ops) == Code(p) && AllEncodable(ops)
    ensures Decode(PickleBytes(version, ops, rest)).Ok?
    ensures var r := Decode(PickleBytes(version, ops, rest)).value;
            Denotes(r.heap, r.value, Eval(p, []).value.0, {}) && r.rest == rest
  {
    var t, env := Eval(p, []).value.0, Eval(p, []).value.1;
    DecodeSkipsHeader(version, ops, rest);
    RunAssembled(START, ops, [Opcode(OpStop)] + rest);
    FramesDoNothing(START, ops);
    Compile(p, [], START, {});
    StopOnOne(RunOps(START, ops).value, t, env, rest);
  }

  lemma AfterHeader(a: byte, b: byte, s: seq<byte>)
    ensures var t := [a, b] + s; |t| >= 2 && t[0] == a && t[1] == b && t[2..] == s
  {
  }

  lemma DecodeSkipsHeader(version: byte, ops: seq<Op>, rest: seq<byte>)
    requires version >= 4 && AllEncodable(ops)
    ensures Decode(PickleBytes(version, ops, rest)) == Run(START, Assemble(ops) + ([Opcode(OpStop)] + rest))
  {
    AfterHeader(0x80, version, Assemble(ops) + ([Opcode(OpStop)] + rest));
  }

  lemma StopOnOne(m: Machine, t: Tree, env: Env, rest: seq<byte>)
    requires Pushed(START, Ok(m), [t], env, {})
    ensures Run(m, [Opcode(OpStop)] + rest) == Ok(Final(m.stack[0], m.heap, rest))
    ensures Denotes(m.heap, m.stack[0], t, {})
  {
    var ts := [t];
    assert Denotes(m.heap, m.stack[|START.stack| + 0], ts[0], {});
    DenotesIsNotMark(m.heap, m.stack[0], t, {});
    FetchEncode(OpStop, rest);
    assert Encode(OpStop) == [Opcode(OpStop)];
  }

  /** Every finite value has a pickle that decodes to it. */
  lemma EveryTreeRoundTrips(t: Tree, version: byte, rest: seq<byte>)
    requires version >= 4 && WritableTree(t)
    ensures AllEncodable(Code(PlanOf(t)))
    ensures var r := Decode(PickleBytes(version, Code(PlanOf(t)), rest));
            r.Ok? && Denotes(r.value.heap, r.value.value, t, {}) && r.value.rest == rest
  {
    PlanNeat(t);
    NeatCode(PlanOf(t));
    FrameFree(Code(PlanOf(t)));
    PlanMeans(t, []);
    DecodeGivesTree(PlanOf(t), version, Code(PlanOf(t)), rest);
  }

  lemma {:induction false} FrameFree(ops: seq<Op>)
    requires Unframed(ops)
    ensures WithoutFrames(ops) == ops
  {
    if ops != [] { FrameFree(ops[1..]); }
  }

  /** Anything else at the start is refused. */
  lemma HeaderIff(input: seq<byte>)
    ensures |input| < 2 ==> Decode(input) == Err(Eof)
    ensures |input| >= 2 && !(input[0] == 0x80 && input[1] >= 4) ==> Decode(input) == Err(BadHeader)
    ensures |input| >= 2 && input[0] == 0x80 && input[1] >= 4 ==> Decode(input) == Run(START, input[2..])
  {
  }
}

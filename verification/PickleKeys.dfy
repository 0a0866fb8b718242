/** Which keys and members the machine takes, and how it refuses the others
    (internal/pickle/vm.go). */
module PickleKeys {
  import opened Bytes
  import opened PickleMachine
  import opened PickleAssembler
  import opened PickleCompiler

  /* Dict keys */

  /** The first key that is not allowed comes at i, and all before it can be inserted. */
  ghost predicate BadKeyAt(kvs: seq<Value>, i: int) {
    && 0 <= i < |kvs| && i % 2 == 0 && !MayBeKey(kvs[i])
    && forall j :: 0 <= j < i && j % 2 == 0 ==> MayBeKey(kvs[j]) && Hashable(kvs[j])
  }

  ghost predicate AllKeysFit(kvs: seq<Value>) {
    forall j :: 0 <= j < |kvs| && j % 2 == 0 ==> MayBeKey(kvs[j]) && Hashable(kvs[j])
  }

  lemma BadKeyFurther(kvs: seq<Value>, i: int)
    requires |kvs| >= 2 && MayBeKey(kvs[0]) && Hashable(kvs[0])
    ensures BadKeyAt(kvs[2..], i) <==> i >= 0 && BadKeyAt(kvs, i + 2)
  {
    var rest := kvs[2..];
    if BadKeyAt(rest, i) {
      forall j | 0 <= j < i + 2 && j % 2 == 0
        ensures MayBeKey(kvs[j]) && Hashable(kvs[j])
      {
        if j >= 2 { assert rest[j - 2] == kvs[j]; }
      }
    }
    if i >= 0 && BadKeyAt(kvs, i + 2) {
      forall j | 0 <= j < i && j % 2 == 0
        ensures MayBeKey(rest[j]) && Hashable(rest[j])
      {
        assert rest[j] == kvs[j + 2];
      }
    }
  }

  lemma KeysFitFurther(kvs: seq<Value>)
    requires |kvs| >= 2 && MayBeKey(kvs[0]) && Hashable(kvs[0])
    ensures AllKeysFit(kvs) <==> AllKeysFit(kvs[2..])
  {
    var rest := kvs[2..];
    assert forall j :: 0 <= j < |rest| ==> rest[j] == kvs[j + 2];
    if AllKeysFit(rest) {
      forall j | 0 <= j < |kvs| && j % 2 == 0
        ensures MayBeKey(kvs[j]) && Hashable(kvs[j])
      {
        if j >= 2 { assert rest[j - 2] == kvs[j]; }
      }
    }
  }

  /** Inserting pairs is refused for a bad key exactly when one comes before any key that
      cannot be hashed, and goes through exactly when all keys are good. */
  lemma {:induction false} InsertAllIff(dict: map<Value, Value>, kvs: seq<Value>)
    requires |kvs| % 2 == 0
    ensures InsertAll(dict, kvs) == Err(BadKey) <==> exists i :: BadKeyAt(kvs, i)
    ensures InsertAll(dict, kvs).Ok? <==> AllKeysFit(kvs)
    ensures InsertAll(dict, kvs).Err? ==> InsertAll(dict, kvs).error == BadKey || InsertAll(dict, kvs).error == Panic
    decreases |kvs|
  {
    if kvs != [] {
      if !MayBeKey(kvs[0]) {
        assert BadKeyAt(kvs, 0);
      } else if Hashable(kvs[0]) {
        InsertAllIff(dict[kvs[0] := kvs[1]], kvs[2..]);
        KeysFitFurther(kvs);
        if i :| BadKeyAt(kvs, i) { BadKeyFurther(kvs, i - 2); }
        if i :| BadKeyAt(kvs[2..], i) { BadKeyFurther(kvs, i); }
      }
    }
  }

  /** SETITEMS on a dict, with the pairs above a mark. */
  lemma SetItemsIff(m: Machine, below: seq<Value>, kvs: seq<Value>)
    requires m.stack == below + [Mark] + kvs && forall i :: 0 <= i < |kvs| ==> !kvs[i].Mark?
    requires |kvs| % 2 == 0 && below != [] && IsDict(m.heap, Top(below))
    ensures Step(m, OpSetItems) == Err(BadKey) <==> exists i :: BadKeyAt(kvs, i)
    ensures Step(m, OpSetItems).Ok? <==> AllKeysFit(kvs)
  {
    MarkBelow(below, kvs);
    GatherExtends(KDict, m, below, kvs);
    InsertAllIff(m.heap[Top(below).id].dict, kvs);
  }

  /** SETITEM: the key is looked at before the dict. */
  lemma SetItemIff(m: Machine, below: seq<Value>, key: Value, value: Value)
    requires m.stack == below + [key] + [value] && !key.Mark? && !value.Mark?
    ensures Step(m, OpSetItem) == Err(BadKey) <==> !MayBeKey(key)
    ensures below != [] && IsDict(m.heap, Top(below)) ==>
              (Step(m, OpSetItem).Ok? <==> MayBeKey(key) && Hashable(key))
  {
    PopPushed(below + [key], value);
    PopPushed(below, key);
    assert DropLast(m.stack, 2) == below;
    if below != [] && IsDict(m.heap, Top(below)) && MayBeKey(key) {
      InsertAllIff(m.heap[Top(below).id].dict, [key, value]);
      assert [key, value][0] == key;
      if below != [] { assert AllKeysFit([key, value]) <==> Hashable(key); }
    }
    if below != [] && IsDict(m.heap, Top(below)) && !MayBeKey(key) { assert Step(m, OpSetItem).Err?; }
    if i :| BadKeyAt([key, value], i) { assert i == 0; }
  }

  /* What can be hashed */

  /** w is v, or occurs in it through tuples and objects. */
  ghost predicate Inside(w: Value, v: Value)
    decreases v
  {
    || w == v
    || match v
       case Tuple(items) => exists i :: 0 <= i < |items| && Inside(w, items[i])
       case Object(cls, args) => Inside(w, cls) || exists i :: 0 <= i < |args| && Inside(w, args[i])
       case _ => false
  }

  /** A value can be hashed exactly when no dict and no set is inside it; lists may be. */
  lemma {:induction false} HashableIff(v: Value)
    ensures Hashable(v) <==> forall w :: Inside(w, v) ==> !w.DictRef? && !w.SetRef? && !w.StrDictRef?
    decreases v
  {
    match v
    case Tuple(items) =>
      forall i | 0 <= i < |items|
        ensures Hashable(items[i]) <==>
                forall w :: Inside(w, items[i]) ==> !w.DictRef? && !w.SetRef? && !w.StrDictRef?
      {
        HashableIff(items[i]);
      }
    case Object(cls, args) =>
      HashableIff(cls);
      forall i | 0 <= i < |args|
        ensures Hashable(args[i]) <==>
                forall w :: Inside(w, args[i]) ==> !w.DictRef? && !w.SetRef? && !w.StrDictRef?
      {
        HashableIff(args[i]);
      }
    case _ => assert Inside(v, v);
  }

  /* Opcodes */

  /** The instructions the machine knows are exactly those of these bytes. */
  lemma KnownOpcodes(b: byte, rest: seq<byte>)
    ensures Fetch([b] + rest) == Err(BadOpcode) <==>
            b !in {0x28, 0x29, 0x2e, 0x4a, 0x4b, 0x4d, 0x4e, 0x52, 0x58, 0x5d, 0x61, 0x65, 0x68, 0x6a, 0x73, 0x74,
                   0x75, 0x7d, 0x81, 0x85, 0x86, 0x87, 0x88, 0x89, 0x8c, 0x8d, 0x8f, 0x90, 0x93, 0x94, 0x95}
  {
    assert ([b] + rest)[0] == b;
  }

  /** The size in bytes of an instruction's number, or of the length of its string. */
  function ArgumentSize(b: byte): nat {
    if b in {0x4b, 0x68, 0x8c} then 1
    else if b == 0x4d then 2
    else if b in {0x4a, 0x58, 0x6a} then 4
    else if b in {0x8d, 0x95} then 8
    else 0
  }

  /** An instruction whose argument is cut short is the end of the input. */
  lemma ShortArgument(b: byte, rest: seq<byte>)
    requires |rest| < ArgumentSize(b)
    ensures Fetch([b] + rest) == Err(Eof)
  {
    assert ([b] + rest)[1..] == rest;
  }

  /** A string that is declared longer than 63 bits is refused; one longer than the input
      is its end; any other is taken, and leaves what follows. */
  lemma StringFetch(b: byte, n: nat, text: seq<byte>)
    requires b in {0x8c, 0x58, 0x8d} && n < Pow256(ArgumentSize(b))
    ensures var r := Fetch([b] + (LittleEndian(n, ArgumentSize(b)) + text));
            if n >= 0x8000_0000_0000_0000 then r == Err(StringTooLong)
            else if |text| < n then r == Err(Eof)
            else r.Ok? && r.value.rest == text[n..] && (r.value.op == OpStr1(text[..n])
                 || r.value.op == OpStr4(text[..n]) || r.value.op == OpStr8(text[..n]))
  {
    var rest := LittleEndian(n, ArgumentSize(b)) + text;
    assert ([b] + rest)[1..] == rest;
    StringRead(n, ArgumentSize(b), text);
  }

  lemma StringRead(n: nat, k: nat, text: seq<byte>)
    requires n < Pow256(k)
    ensures ReadString(LittleEndian(n, k) + text, k) ==
            if n >= 0x8000_0000_0000_0000 then Err(StringTooLong)
            else if |text| < n then Err(Eof)
            else Ok((text[..n], text[n..]))
  {
    ReadUintBack(n, k, text);
    if n <= |text| { SliceBehind(LittleEndian(n, k), text, n); }
  }

  lemma SliceBehind(a: seq<byte>, b: seq<byte>, n: nat)
    requires n <= |b|
    ensures (a + b)[|a|..|a| + n] == b[..n] && (a + b)[|a| + n..] == b[n..]
  {
  }
}

/** The MultiWorld wire format (internal/mwproto/write.go, internal/mwproto/read.go):
    a 24-byte header, then the fields of the message in order. */
module Wire {
  import opened Bytes
  import opened Collections
  import opened Options

  /* Messages */

  datatype Kind = U8 | I32 | U32 | Text | Json

  /** JSON values are opaque: they stand for the bytes they are marshalled to. */
  datatype Field =
    | FU8(b: byte)
    | FI32(n: int)
    | FU32(u: nat)
    | FText(s: seq<byte>)
    | FJson(raw: seq<byte>)

  datatype Message = Message(code: nat, fields: seq<Field>)

  const CONNECT := 2
  const DISCONNECT := 3
  const JOIN := 4
  const JOIN_CONFIRM := 5
  const DATA_RECEIVE := 6
  const DATA_RECEIVE_CONFIRM := 7
  const DATA_SEND := 8
  const DATA_SEND_CONFIRM := 9
  const READY_CONFIRM := 10
  const READY_DENY := 11
  const PING := 12
  const READY := 13
  const RESULT := 14
  const SAVE := 15
  const RANDO_GENERATED := 16
  const UNREADY := 17
  const INITIATE_GAME := 18
  const REQUEST_RANDO := 19
  const ANNOUNCE_NOTCH_COSTS := 20
  const REQUEST_NOTCH_COSTS := 21
  const CONFIRM_NOTCH_COSTS := 22
  const DATAS_RECEIVE := 29
  const DATAS_RECEIVE_CONFIRM := 30

  /** The field kinds of each message struct, in order. */
  function Schema(code: nat): Option<seq<Kind>> {
    if code == CONNECT || code == READY_DENY then Some([Text])
    else if code == PING then Some([U32])
    else if code in {DISCONNECT, JOIN_CONFIRM, UNREADY, REQUEST_RANDO, SAVE, REQUEST_NOTCH_COSTS} then Some([])
    else if code == JOIN then Some([Text, I32, I32, U8])
    else if code == READY then Some([Text, Text, U8, Json])
    else if code == READY_CONFIRM || code == ANNOUNCE_NOTCH_COSTS then Some([I32, Json])
    else if code == INITIATE_GAME then Some([Json])
    else if code == RANDO_GENERATED then Some([Json, I32])
    else if code == RESULT then Some([I32, I32, Json, Json, Json, Json, Json, Text])
    else if code == DATA_RECEIVE then Some([Text, Text, Text, I32])
    else if code == DATAS_RECEIVE then Some([Json, Text])
    else if code == DATA_RECEIVE_CONFIRM then Some([Text, Text, Text])
    else if code == DATAS_RECEIVE_CONFIRM then Some([I32, Text])
    else if code == DATA_SEND then Some([Text, Text, I32, I32])
    else if code == DATA_SEND_CONFIRM then Some([Text, Text, I32])
    else if code == CONFIRM_NOTCH_COSTS then Some([I32])
    else None
  }

  /** Types that Read returns without looking at the payload. */
  predicate Bare(code: nat) {
    code in {JOIN_CONFIRM, UNREADY, REQUEST_RANDO, REQUEST_NOTCH_COSTS, CONFIRM_NOTCH_COSTS}
  }

  /** Types whose payload Read decodes. */
  predicate Decoded(code: nat) {
    code in {CONNECT, DISCONNECT, PING, READY, READY_CONFIRM, JOIN, INITIATE_GAME, RANDO_GENERATED, RESULT,
             DATA_RECEIVE, DATAS_RECEIVE, DATA_SEND_CONFIRM, ANNOUNCE_NOTCH_COSTS}
  }

  lemma DecodedHaveSchema(code: nat)
    requires Decoded(code) || Bare(code)
    ensures Schema(code).Some?
  {
  }

  function Zero(k: Kind): Field {
    match k case U8 => FU8(0) case I32 => FI32(0) case U32 => FU32(0) case Text => FText([]) case Json => FJson([])
  }

  function Zeros(ks: seq<Kind>): seq<Field> {
    seq(|ks|, i requires 0 <= i < |ks| => Zero(ks[i]))
  }

  function KindOf(f: Field): Kind {
    match f case FU8(_) => U8 case FI32(_) => I32 case FU32(_) => U32 case FText(_) => Text case FJson(_) => Json
  }

  /** The values a Go field of that kind can hold. */
  predicate InRange(f: Field) {
    match f
    case FI32(n) => IsInt32(n)
    case FU32(u) => u < TWO_32
    case _ => true
  }

  predicate Typed(m: Message) {
    && Schema(m.code).Some?
    && |m.fields| == |Schema(m.code).value|
    && forall i :: 0 <= i < |m.fields| ==> KindOf(m.fields[i]) == Schema(m.code).value[i] && InRange(m.fields[i])
  }

  /* String lengths: seven bits at a time, lowest first */

  function Varint(u: nat): (bs: seq<byte>)
    ensures bs != []
  {
    if u < 128 then [u] else [128 + u % 128] + Varint(u / 128)
  }

  /** appendVarint32; None where it panics. */
  method AppendVarint32(out: seq<byte>, x: nat) returns (r: Option<seq<byte>>)
    ensures r == if x < TWO_31 then Some(out + Varint(x)) else None
  {
    if x >= TWO_31 { return None; }
    var u := x;
    var buf := out;
    while true
      invariant buf + Varint(u) == out + Varint(x)
      decreases u
    {
      var b := u % 128;
      if u / 128 == 0 { return Some(buf + [b]); }
      assert buf + [128 + b] + Varint(u / 128) == buf + ([128 + b] + Varint(u / 128));
      buf := buf + [128 + b];
      u := u / 128;
    }
  }

  function Pow128(k: nat): (p: nat)
    ensures p >= 1
  {
    if k == 0 then 1 else 128 * Pow128(k - 1)
  }

  /** What byte i of a prefix adds to a 64-bit length: the tenth byte reaches the sign
      bit, later bytes are shifted out. */
  function Weight(b: byte, i: nat): int {
    if i <= 8 then b % 128 * Pow128(i)
    else if i == 9 && b % 2 == 1 then -TWO_63
    else 0
  }

  datatype Prefix = Unterminated | Prefix(length: int, start: nat)

  /** Reads a length prefix from position i on. */
  function ReadPrefix(payload: seq<byte>, i: nat, length: int): (r: Prefix)
    ensures r.Prefix? ==> i < r.start <= |payload|
    decreases |payload| - i
  {
    if i >= |payload| then Unterminated
    else
      var sum := length + Weight(payload[i], i);
      if payload[i] >= 128 then ReadPrefix(payload, i + 1, sum) else Prefix(sum, i + 1)
  }

  datatype Split = Split(value: seq<byte>, rest: seq<byte>) | SplitError | SplitPanic

  /** A sum of a 64-bit integer and a smaller non-negative one, in 64 bits. */
  function Wrap64(n: int): int {
    if n >= TWO_63 then n - 2 * TWO_63 else n
  }

  /** unmarshalBytes: the end of the string is computed in 64 bits; an end before the
      start makes the slice expression panic. */
  function UnmarshalBytes(payload: seq<byte>): Split {
    var p := ReadPrefix(payload, 0, 0);
    if p.Unterminated? then SplitError
    else
      var end := Wrap64(p.start + p.length);
      if end > |payload| then SplitError
      else if end < p.start then SplitPanic
      else Split(payload[p.start..end], payload[end..])
  }

  /** The loop of unmarshalBytes. */
  method UnmarshalBytesLoop(payload: seq<byte>) returns (r: Split)
    ensures r == UnmarshalBytes(payload)
  {
    var length := 0;
    for i := 0 to |payload|
      invariant ReadPrefix(payload, 0, 0) == ReadPrefix(payload, i, length)
    {
      length := length + Weight(payload[i], i);
      if payload[i] >= 128 { continue; }
      var start := i + 1;
      var end := Wrap64(start + length);
      if end > |payload| { return SplitError; }
      if end < start { return SplitPanic; }
      return Split(payload[start..end], payload[end..]);
    }
    r := SplitError;
  }

  lemma {:induction false} VarintLength(u: nat, k: nat)
    requires 1 <= k && u < Pow128(k)
    ensures |Varint(u)| <= k
    decreases k
  {
    if u >= 128 { VarintLength(u / 128, k - 1); }
  }

  lemma SplitDigit(u: nat, p: nat)
    ensures u * p == u % 128 * p + u / 128 * (128 * p)
  {
    var q, m := u / 128, u % 128;
    assert u == m + 128 * q;
    assert (m + 128 * q) * p == m * p + q * (128 * p);
  }

  lemma DigitWeight(u: nat, i: nat)
    requires i <= 8
    ensures Weight(128 + u % 128, i) == u % 128 * Pow128(i)
    ensures u < 128 ==> Weight(u, i) == u * Pow128(i)
  {
    assert (128 + u % 128) % 128 == u % 128;
  }

  lemma {:induction false} ReadPrefixVarint(before: seq<byte>, u: nat, rest: seq<byte>, length: int)
    requires |before| + |Varint(u)| <= 9
    ensures var i := |before|;
            ReadPrefix(before + Varint(u) + rest, i, length) == Prefix(length + u * Pow128(i), i + |Varint(u)|)
    decreases u
  {
    var payload := before + Varint(u) + rest;
    var i := |before|;
    assert payload[i] == Varint(u)[0];
    DigitWeight(u, i);
    if u >= 128 {
      var b: byte := 128 + u % 128;
      assert payload == before + [b] + Varint(u / 128) + rest;
      ReadPrefixVarint(before + [b], u / 128, rest, length + Weight(b, i));
      SplitDigit(u, Pow128(i));
    }
  }

  /** For every length a string can have, the prefix takes one to five bytes, reads
      back as that length and leaves what follows. */
  lemma VarintRoundTrip(x: nat, rest: seq<byte>)
    requires x < TWO_31
    ensures 1 <= |Varint(x)| <= 5
    ensures ReadPrefix(Varint(x) + rest, 0, 0) == Prefix(x, |Varint(x)|)
  {
    assert Pow128(5) == 128 * Pow128(4) && Pow128(4) == 128 * Pow128(3) && Pow128(3) == 128 * Pow128(2);
    assert Pow128(2) == 128 * Pow128(1) && Pow128(1) == 128 * Pow128(0);
    VarintLength(x, 5);
    ReadPrefixVarint([], x, rest, 0);
    assert [] + Varint(x) + rest == Varint(x) + rest;
  }

  lemma BytesBehind(prefix: seq<byte>, s: seq<byte>, rest: seq<byte>)
    requires ReadPrefix(prefix + (s + rest), 0, 0) == Prefix(|s|, |prefix|) && |prefix| + |s| < TWO_63
    ensures UnmarshalBytes(prefix + (s + rest)) == Split(s, rest)
  {
    Middle(prefix, s, rest);
  }

  lemma Middle(a: seq<byte>, b: seq<byte>, c: seq<byte>)
    ensures var s := a + (b + c); s[|a|..|a| + |b|] == b && s[|a| + |b|..] == c
  {
  }

  lemma BytesRoundTrip(s: seq<byte>, rest: seq<byte>)
    requires |s| < TWO_31
    ensures UnmarshalBytes(Varint(|s|) + s + rest) == Split(s, rest)
  {
    VarintRoundTrip(|s|, s + rest);
    BytesBehind(Varint(|s|), s, rest);
    Regroup(Varint(|s|), s, rest);
  }

  /** Prefixes of at most eight bytes never make the slice expression panic. */
  lemma {:induction false} ShortPrefixBound(payload: seq<byte>, i: nat, length: int)
    requires 0 <= length < Pow128(i) && ReadPrefix(payload, i, length).Prefix?
    requires ReadPrefix(payload, i, length).start <= 8
    ensures 0 <= ReadPrefix(payload, i, length).length < Pow128(ReadPrefix(payload, i, length).start)
    decreases |payload| - i
  {
    var b := payload[i];
    DigitBound(b % 128, Pow128(i), length);
    if b >= 128 { ShortPrefixBound(payload, i + 1, length + Weight(b, i)); }
  }

  lemma DigitBound(m: nat, p: nat, length: int)
    requires 0 <= length < p && m <= 127
    ensures 0 <= length + m * p < 128 * p
  {
    MulMonotone(m, 127, p);
  }

  lemma MulMonotone(m: nat, k: nat, p: nat)
    requires m <= k
    ensures 0 <= m * p <= k * p
  {
    assert k * p == m * p + (k - m) * p;
  }

  lemma Pow128Values()
    ensures Pow128(8) == 0x100_0000_0000_0000 && Pow128(9) == TWO_63
  {
    assert Pow128(9) == 128 * Pow128(8) && Pow128(8) == 128 * Pow128(7) && Pow128(7) == 128 * Pow128(6);
    assert Pow128(6) == 128 * Pow128(5) && Pow128(5) == 128 * Pow128(4) && Pow128(4) == 128 * Pow128(3);
    assert Pow128(3) == 128 * Pow128(2) && Pow128(2) == 128 * Pow128(1) && Pow128(1) == 128 * Pow128(0);
  }

  /** The length always fits in 64 bits. */
  lemma {:induction false} PrefixBounds(payload: seq<byte>, i: nat, length: int)
    requires if i <= 9 then 0 <= length < Pow128(i) else -TWO_63 <= length < TWO_63
    requires ReadPrefix(payload, i, length).Prefix?
    ensures -TWO_63 <= ReadPrefix(payload, i, length).length < TWO_63
    decreases |payload| - i
  {
    var b := payload[i];
    Pow128Values();
    if i <= 8 {
      DigitBound(b % 128, Pow128(i), length);
      Pow128Monotone(i + 1, 9);
    }
    if b >= 128 { PrefixBounds(payload, i + 1, length + Weight(b, i)); }
  }

  /** Decoding a string makes the slice expression panic exactly when the declared
      length is negative or its end does not fit in 64 bits. */
  lemma PanicsIff(payload: seq<byte>)
    requires |payload| < TWO_63
    ensures UnmarshalBytes(payload).SplitPanic? <==>
            var p := ReadPrefix(payload, 0, 0);
            p.Prefix? && (p.length < 0 || p.start + p.length >= TWO_63)
  {
    var p := ReadPrefix(payload, 0, 0);
    if p.Prefix? { PrefixBounds(payload, 0, 0); }
  }

  /** For example: nine continued bytes and a tenth that reaches the sign bit. */
  lemma NegativeLengthPanics(rest: seq<byte>)
    requires |rest| < TWO_31
    ensures UnmarshalBytes([128, 128, 128, 128, 128, 128, 128, 128, 128, 1] + rest).SplitPanic?
  {
    var payload: seq<byte> := [128, 128, 128, 128, 128, 128, 128, 128, 128, 1] + rest;
    ContinuedPrefix(payload, 0);
    PanicsIff(payload);
  }

  lemma {:induction false} ContinuedPrefix(payload: seq<byte>, i: nat)
    requires i <= 9 < |payload| && payload[9] == 1 && forall k :: 0 <= k < 9 ==> payload[k] == 128
    ensures ReadPrefix(payload, i, 0) == Prefix(-TWO_63, 10)
    decreases 9 - i
  {
    if i < 9 { ContinuedPrefix(payload, i + 1); }
  }

  lemma ShortPrefixNeverPanics(payload: seq<byte>)
    requires |payload| < TWO_63
    requires ReadPrefix(payload, 0, 0).Prefix? ==> ReadPrefix(payload, 0, 0).start <= 8
    ensures !UnmarshalBytes(payload).SplitPanic?
  {
    var p := ReadPrefix(payload, 0, 0);
    if p.Prefix? {
      ShortPrefixBound(payload, 0, 0);
      Pow128Monotone(p.start, 8);
      Pow128Values();
    }
    PanicsIff(payload);
  }

  lemma {:induction false} Pow128Monotone(a: nat, b: nat)
    requires a <= b
    ensures Pow128(a) <= Pow128(b)
    decreases b - a
  {
    if a < b { Pow128Monotone(a, b - 1); }
  }

  /* Fields */

  /** A string too long for its prefix makes the writer panic. */
  predicate Writable(f: Field) {
    InRange(f) && (f.FText? ==> |f.s| < TWO_31) && (f.FJson? ==> |f.raw| < TWO_31)
  }

  function EncodeField(f: Field): seq<byte>
    requires Writable(f)
  {
    match f
    case FU8(b) => [b]
    case FI32(n) => LittleEndian(ToUint32(n), 4)
    case FU32(u) => LittleEndian(u, 4)
    case FText(s) => Varint(|s|) + s
    case FJson(raw) => Varint(|raw|) + raw
  }

  predicate AllWritable(fs: seq<Field>) {
    forall i :: 0 <= i < |fs| ==> Writable(fs[i])
  }

  function EncodeFields(fs: seq<Field>): seq<byte>
    requires AllWritable(fs)
  {
    if fs == [] then [] else EncodeField(fs[0]) + EncodeFields(fs[1..])
  }

  /** Whether json.Unmarshal accepts these bytes for this field of this message type. */
  type JsonCheck = (nat, nat, seq<byte>) -> bool

  datatype Parsed = Parsed(field: Field, rest: seq<byte>) | ParseError | ParsePanic

  function ParseField(k: Kind, payload: seq<byte>, jsonOk: seq<byte> -> bool): Parsed {
    match k
    case U8 => if |payload| == 0 then ParseError else Parsed(FU8(payload[0]), payload[1..])
    case I32 =>
      if |payload| < 4 then ParseError
      else Pow256Values(); Parsed(FI32(ToInt32(FromLittleEndian(payload[..4]))), payload[4..])
    case U32 =>
      if |payload| < 4 then ParseError else Parsed(FU32(FromLittleEndian(payload[..4])), payload[4..])
    case Text =>
      var s := UnmarshalBytes(payload);
      if s.Split? then Parsed(FText(s.value), s.rest) else if s.SplitPanic? then ParsePanic else ParseError
    case Json =>
      var s := UnmarshalBytes(payload);
      if s.Split? then (if jsonOk(s.value) then Parsed(FJson(s.value), s.rest) else ParseError)
      else if s.SplitPanic? then ParsePanic else ParseError
  }

  datatype Fields = Fields(fields: seq<Field>) | FieldsError | FieldsPanic

  /** unmarshalInto for the kinds from index i on. Bytes after the last field are
      ignored. */
  function ParseFields(ks: seq<Kind>, i: nat, payload: seq<byte>, code: nat, jsonOk: JsonCheck): Fields
    requires i <= |ks|
    decreases |ks| - i
  {
    if i == |ks| then Fields([])
    else
      var p := ParseField(ks[i], payload, raw => jsonOk(code, i, raw));
      if p.ParseError? then FieldsError
      else if p.ParsePanic? then FieldsPanic
      else
        Behind([p.field], ParseFields(ks, i + 1, p.rest, code, jsonOk))
  }

  function Behind(fields: seq<Field>, more: Fields): Fields {
    if more.Fields? then Fields(fields + more.fields) else more
  }

  lemma BehindOne(fields: seq<Field>, f: Field, more: Fields)
    ensures Behind(fields, Behind([f], more)) == Behind(fields + [f], more)
  {
    if more.Fields? { assert fields + ([f] + more.fields) == fields + [f] + more.fields; }
  }

  /** The loop of unmarshalInto. */
  method UnmarshalInto(ks: seq<Kind>, payload: seq<byte>, code: nat, jsonOk: JsonCheck) returns (r: Fields)
    ensures r == ParseFields(ks, 0, payload, code, jsonOk)
  {
    var left, fields := payload, [];
    for i := 0 to |ks|
      invariant ParseFields(ks, 0, payload, code, jsonOk) == Behind(fields, ParseFields(ks, i, left, code, jsonOk))
    {
      var p := ParseField(ks[i], left, raw => jsonOk(code, i, raw));
      if p.ParseError? { return FieldsError; }
      if p.ParsePanic? { return FieldsPanic; }
      BehindOne(fields, p.field, ParseFields(ks, i + 1, p.rest, code, jsonOk));
      fields, left := fields + [p.field], p.rest;
    }
    assert fields + [] == fields;
    r := Fields(fields);
  }

  lemma FieldRoundTrip(f: Field, rest: seq<byte>, jsonOk: seq<byte> -> bool)
    requires Writable(f) && (f.FJson? ==> jsonOk(f.raw))
    ensures ParseField(KindOf(f), EncodeField(f) + rest, jsonOk) == Parsed(f, rest)
  {
    var payload := EncodeField(f) + rest;
    Pow256Values();
    match f
    case FU8(b) =>
    case FI32(n) =>
      LittleEndianRoundTrip(ToUint32(n), 4);
      assert payload[..4] == LittleEndian(ToUint32(n), 4) && payload[4..] == rest;
    case FU32(u) =>
      LittleEndianRoundTrip(u, 4);
      assert payload[..4] == LittleEndian(u, 4) && payload[4..] == rest;
    case FText(s) => BytesRoundTrip(s, rest);
    case FJson(raw) => BytesRoundTrip(raw, rest);
  }

  predicate KindsMatch(ks: seq<Kind>, i: nat, fs: seq<Field>) {
    i + |fs| == |ks| && forall j :: 0 <= j < |fs| ==> KindOf(fs[j]) == ks[i + j]
  }

  predicate JsonAccepted(fs: seq<Field>, i: nat, code: nat, jsonOk: JsonCheck) {
    forall j :: 0 <= j < |fs| && fs[j].FJson? ==> jsonOk(code, i + j, fs[j].raw)
  }

  lemma TailMatches(ks: seq<Kind>, i: nat, fs: seq<Field>, code: nat, jsonOk: JsonCheck)
    requires fs != [] && KindsMatch(ks, i, fs) && JsonAccepted(fs, i, code, jsonOk)
    ensures KindsMatch(ks, i + 1, fs[1..]) && JsonAccepted(fs[1..], i + 1, code, jsonOk)
    ensures KindOf(fs[0]) == ks[i] && (fs[0].FJson? ==> jsonOk(code, i, fs[0].raw))
  {
    assert ks[i + 0] == KindOf(fs[0]);
    forall j | 0 <= j < |fs[1..]|
      ensures KindOf(fs[1..][j]) == ks[i + 1 + j]
      ensures fs[1..][j].FJson? ==> jsonOk(code, i + 1 + j, fs[1..][j].raw)
    {
      assert fs[1..][j] == fs[j + 1] && ks[i + (j + 1)] == KindOf(fs[j + 1]);
    }
  }

  lemma {:induction false} FieldsRoundTrip(ks: seq<Kind>, i: nat, fs: seq<Field>, rest: seq<byte>, code: nat,
                                           jsonOk: JsonCheck)
    requires AllWritable(fs) && KindsMatch(ks, i, fs) && JsonAccepted(fs, i, code, jsonOk)
    ensures ParseFields(ks, i, EncodeFields(fs) + rest, code, jsonOk) == Fields(fs)
    decreases |fs|
  {
    if fs != [] {
      assert EncodeFields(fs) + rest == EncodeField(fs[0]) + (EncodeFields(fs[1..]) + rest);
      TailMatches(ks, i, fs, code, jsonOk);
      FieldRoundTrip(fs[0], EncodeFields(fs[1..]) + rest, raw => jsonOk(code, i, raw));
      FieldsRoundTrip(ks, i + 1, fs[1..], rest, code, jsonOk);
      assert fs == [fs[0]] + fs[1..];
    }
  }

  /* Frames */

  const HEADER := 24
  const MAX_SIZE := 0x100_0000

  method AppendField(out: seq<byte>, f: Field) returns (r: Option<seq<byte>>)
    requires InRange(f)
    ensures r == if Writable(f) then Some(out + EncodeField(f)) else None
  {
    match f
    case FU8(b) => r := Some(out + [b]);
    case FI32(n) => r := Some(out + LittleEndian(ToUint32(n), 4));
    case FU32(u) => r := Some(out + LittleEndian(u, 4));
    case FText(s) =>
      r := AppendVarint32(out, |s|);
      if r.Some? {
        assert out + Varint(|s|) + s == out + (Varint(|s|) + s);
        r := Some(r.value + s);
      }
    case FJson(raw) =>
      r := AppendVarint32(out, |raw|);
      if r.Some? {
        assert out + Varint(|raw|) + raw == out + (Varint(|raw|) + raw);
        r := Some(r.value + raw);
      }
  }

  /** appendMessage: field after field. */
  method AppendMessage(out: seq<byte>, fs: seq<Field>) returns (r: Option<seq<byte>>)
    requires forall i :: 0 <= i < |fs| ==> InRange(fs[i])
    ensures r == if AllWritable(fs) then Some(out + EncodeFields(fs)) else None
  {
    var encoded := out;
    for i := 0 to |fs|
      invariant AllWritable(fs[..i]) && encoded == out + EncodeFields(fs[..i])
    {
      assert fs[..i + 1] == fs[..i] + [fs[i]];
      EncodeFieldsSnoc(fs[..i], fs[i]);
      var more := AppendField(encoded, fs[i]);
      if more.None? { return None; }
      Regroup(out, EncodeFields(fs[..i]), EncodeField(fs[i]));
      encoded := more.value;
    }
    assert fs[..|fs|] == fs;
    r := Some(encoded);
  }

  /** Write; None where it panics because a length does not fit. */
  method Write(m: Message) returns (r: Option<seq<byte>>)
    requires Typed(m)
    ensures r == Encoded(m)
  {
    var out := AppendMessage(Blank(HEADER), m.fields);
    if out.None? { return None; }
    var encoded := out.value;
    if |encoded| >= TWO_32 { return None; }
    PatchHeader(LittleEndian(|encoded|, 4), LittleEndian(m.code, 4), Blank(HEADER), EncodeFields(m.fields));
    assert Blank(HEADER)[8..] == Blank(16);
    encoded := LittleEndian(|encoded|, 4) + encoded[4..];
    encoded := encoded[..4] + LittleEndian(m.code, 4) + encoded[8..];
    r := Some(encoded);
  }

  function Blank(n: nat): (bs: seq<byte>)
    ensures |bs| == n
  {
    seq(n, _ => 0)
  }

  lemma PatchHeader(size: seq<byte>, code: seq<byte>, header: seq<byte>, payload: seq<byte>)
    requires |size| == |code| == 4 && |header| == HEADER
    ensures var sized := size + (header + payload)[4..];
            sized[..4] + code + sized[8..] == size + code + header[8..] + payload
  {
    var sized := size + (header + payload)[4..];
    assert sized[..4] == size;
    assert sized[8..] == header[8..] + payload;
  }

  lemma {:induction false} EncodeFieldsSnoc(fs: seq<Field>, f: Field)
    requires AllWritable(fs)
    ensures Writable(f) ==> AllWritable(fs + [f]) && EncodeFields(fs + [f]) == EncodeFields(fs) + EncodeField(f)
    decreases |fs|
  {
    if Writable(f) {
      if fs == [] {
        assert [f][1..] == [] && EncodeField(f) + [] == [] + EncodeField(f);
      } else {
        assert (fs + [f])[1..] == fs[1..] + [f];
        EncodeFieldsSnoc(fs[1..], f);
        Regroup(EncodeField(fs[0]), EncodeFields(fs[1..]), EncodeField(f));
      }
    }
  }

  /** A frame: size, type, sixteen unused bytes, fields. */
  function Encoded(m: Message): Option<seq<byte>> {
    if !AllWritable(m.fields) then None
    else
      var payload := EncodeFields(m.fields);
      var size := HEADER + |payload|;
      if size >= TWO_32 then None
      else Some(LittleEndian(size, 4) + LittleEndian(m.code, 4) + Blank(16) + payload)
  }

  datatype Outcome = Got(m: Message) | Bad | Eof | Crash

  datatype Reading = Reading(outcome: Outcome, rest: seq<byte>)

  function DecodeBody(code: nat, payload: seq<byte>, jsonOk: JsonCheck): Outcome {
    if Bare(code) then
      DecodedHaveSchema(code); Got(Message(code, Zeros(Schema(code).value)))
    else if Decoded(code) then
      DecodedHaveSchema(code);
      var r := ParseFields(Schema(code).value, 0, payload, code, jsonOk);
      if r.Fields? then Got(Message(code, r.fields)) else if r.FieldsPanic? then Crash else Bad
    else Bad
  }

  /** Read on a stream that ends after the given bytes. */
  function Read(s: seq<byte>, jsonOk: JsonCheck): Reading {
    if s == [] then Reading(Eof, [])
    else if |s| < 4 then Reading(Bad, [])
    else
      var length := FromLittleEndian(s[..4]);
      if length < HEADER || length > MAX_SIZE then
        var skip := if length < 4 then 4 else if length > |s| then |s| else length;
        Reading(Bad, s[skip..])
      else if |s| == 4 then Reading(Eof, [])
      else if |s| < length then Reading(Bad, [])
      else
        var code := FromLittleEndian(s[4..8]);
        Reading(DecodeBody(code, s[HEADER..length], jsonOk), s[length..])
  }

  /* Round trip */

  lemma Parts(a: seq<byte>, b: seq<byte>, c: seq<byte>, d: seq<byte>)
    requires |a| == |b| == 4 && |c| == 16
    ensures var e := a + b + c + d; e[..4] == a && e[4..8] == b && e[HEADER..] == d
  {
  }

  lemma EncodedLayout(m: Message)
    requires Encoded(m).Some? && m.code < TWO_32
    ensures var e := Encoded(m).value;
            && |e| >= HEADER && FromLittleEndian(e[..4]) == |e| && FromLittleEndian(e[4..8]) == m.code
            && e[HEADER..] == EncodeFields(m.fields)
  {
    var e := Encoded(m).value;
    Pow256Values();
    LittleEndianRoundTrip(|e|, 4);
    LittleEndianRoundTrip(m.code, 4);
    Parts(LittleEndian(|e|, 4), LittleEndian(m.code, 4), Blank(16), EncodeFields(m.fields));
  }

  /** What survives the trip: types that Read knows, within the size limit, except
      that a notch cost confirmation loses its player. */
  predicate Survives(m: Message) {
    && Encoded(m).Some? && |Encoded(m).value| <= MAX_SIZE
    && (Decoded(m.code) || Bare(m.code))
    && (m.code == CONFIRM_NOTCH_COSTS ==> m.fields == [FI32(0)])
  }

  lemma BareFields(m: Message)
    requires Typed(m) && Bare(m.code)
    ensures m.fields == Zeros(Schema(m.code).value) <==>
            (m.code == CONFIRM_NOTCH_COSTS ==> m.fields == [FI32(0)])
  {
    if m.code == CONFIRM_NOTCH_COSTS {
      assert Zeros([I32]) == [FI32(0)];
    }
  }

  lemma ReadEncoded(m: Message, rest: seq<byte>, jsonOk: JsonCheck)
    requires Encoded(m).Some? && m.code < TWO_32 && |Encoded(m).value| <= MAX_SIZE
    ensures Read(Encoded(m).value + rest, jsonOk) ==
            Reading(DecodeBody(m.code, EncodeFields(m.fields), jsonOk), rest)
  {
    var e := Encoded(m).value;
    EncodedLayout(m);
    var s := e + rest;
    assert s[..4] == e[..4] && s[4..8] == e[4..8];
    assert s[HEADER..|e|] == e[HEADER..] && s[|e|..] == rest;
  }

  /** Reading what Write produced returns the same message and leaves what follows, in
      exactly these cases. */
  lemma RoundTripIff(m: Message, rest: seq<byte>, jsonOk: JsonCheck)
    requires Typed(m) && Encoded(m).Some? && JsonAccepted(m.fields, 0, m.code, jsonOk)
    ensures Read(Encoded(m).value + rest, jsonOk) == Reading(Got(m), rest) <==> Survives(m)
  {
    var e := Encoded(m).value;
    EncodedLayout(m);
    if |e| <= MAX_SIZE {
      ReadEncoded(m, rest, jsonOk);
      if Bare(m.code) {
        BareFields(m);
      } else if Decoded(m.code) {
        FieldsRoundTrip(Schema(m.code).value, 0, m.fields, [], m.code, jsonOk);
        assert EncodeFields(m.fields) + [] == EncodeFields(m.fields);
      }
    } else {
      assert (e + rest)[..4] == e[..4];
    }
  }
}

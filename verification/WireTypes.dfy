/** The message types of the MultiWorld protocol by number (internal/mwproto/schema.go,
    internal/mwproto/read.go): their fields, and which of them can be read. */
module WireTypes {
  import opened Bytes
  import opened Collections
  import opened Options
  import opened Wire
  import opened WireStream

  /** The fields of every type, in order. */
  lemma FieldKinds()
    ensures Schema(2) == Some([Text])                       // Connect
    ensures Schema(3) == Some([])                           // Disconnect
    ensures Schema(4) == Some([Text, I32, I32, U8])         // Join
    ensures Schema(5) == Some([])                           // JoinConfirm
    ensures Schema(6) == Some([Text, Text, Text, I32])      // DataReceive
    ensures Schema(7) == Some([Text, Text, Text])           // DataReceiveConfirm
    ensures Schema(8) == Some([Text, Text, I32, I32])       // DataSend
    ensures Schema(9) == Some([Text, Text, I32])            // DataSendConfirm
    ensures Schema(10) == Some([I32, Json])                 // ReadyConfirm
    ensures Schema(11) == Some([Text])                      // ReadyDeny
    ensures Schema(12) == Some([U32])                       // Ping
    ensures Schema(13) == Some([Text, Text, U8, Json])      // Ready
    ensures Schema(14) == Some([I32, I32, Json, Json, Json, Json, Json, Text]) // Result
  {
  }

  lemma MoreFieldKinds()
    ensures Schema(15) == Some([])                          // Save
    ensures Schema(16) == Some([Json, I32])                 // RandoGenerated
    ensures Schema(17) == Some([])                          // Unready
    ensures Schema(18) == Some([Json])                      // InitiateGame
    ensures Schema(19) == Some([])                          // RequestRando
    ensures Schema(20) == Some([I32, Json])                 // AnnounceCharmNotchCosts
    ensures Schema(21) == Some([])                          // RequestCharmNotchCosts
    ensures Schema(22) == Some([I32])                       // ConfirmCharmNotchCostsReceived
    ensures Schema(29) == Some([Json, Text])                // DatasReceive
    ensures Schema(30) == Some([I32, Text])                 // DatasReceiveConfirm
  {
  }

  lemma NoOtherTypes(code: nat)
    ensures Schema(code).Some? <==>
            code in {2, 3, 4, 5, 6, 7, 8, 9, 10, 11, 12, 13, 14, 15, 16, 17, 18, 19, 20, 21, 22, 29, 30}
  {
  }

  /** A frame: its size and its type in four bytes each, lowest first, sixteen zeros, and
      the fields from byte 24 on. */
  lemma FrameLayout(m: Message)
    requires Encoded(m).Some? && m.code < 0x1_0000_0000
    ensures var e := Encoded(m).value;
            && |e| >= 24 && FromLittleEndian(e[..4]) == |e| && FromLittleEndian(e[4..8]) == m.code
            && (forall i :: 8 <= i < 24 ==> e[i] == 0) && e[24..] == EncodeFields(m.fields)
  {
    EncodedLayout(m);
  }

  /** Up to 2^24 bytes, a message of one of these types reads back as itself; the
      confirmation of charm notch costs loses its player; every other type is refused. */
  lemma ReadByType(m: Message, rest: seq<byte>, jsonOk: JsonCheck)
    requires Typed(m) && Encoded(m).Some? && |Encoded(m).value| <= 0x100_0000
    requires JsonAccepted(m.fields, 0, m.code, jsonOk)
    ensures var r := Read(Encoded(m).value + rest, jsonOk);
            if m.code in {2, 3, 4, 5, 6, 9, 10, 12, 13, 14, 16, 17, 18, 19, 20, 21, 29} then r == Reading(Got(m), rest)
            else if m.code == 22 then r == Reading(Got(Message(22, [FI32(0)])), rest)
            else r == Reading(Bad, rest)
  {
    ReadEncoded(m, rest, jsonOk);
    if m.code in {2, 3, 4, 5, 6, 9, 10, 12, 13, 14, 16, 17, 18, 19, 20, 21, 29} {
      RoundTripIff(m, rest, jsonOk);
    } else if m.code == 22 {
      assert Zeros([I32]) == [FI32(0)];
    }
  }

  /** Frames larger than that, or shorter than a header, are refused. */
  lemma SizesRefused(f: seq<byte>, rest: seq<byte>, jsonOk: JsonCheck)
    requires WellFramed(f) && (|f| < 24 || |f| > 0x100_0000)
    ensures Read(f + rest, jsonOk) == Reading(Bad, rest)
  {
    ReadTakesFrame(f, rest, jsonOk);
  }

  /** A frame of any other type is refused, whatever it holds. */
  lemma OtherTypesRefused(f: seq<byte>, rest: seq<byte>, jsonOk: JsonCheck)
    requires WellFramed(f) && |f| >= 24
    requires FromLittleEndian(f[4..8]) !in {2, 3, 4, 5, 6, 9, 10, 12, 13, 14, 16, 17, 18, 19, 20, 21, 22, 29}
    ensures Read(f + rest, jsonOk) == Reading(Bad, rest)
  {
    ReadTakesFrame(f, rest, jsonOk);
  }

  /** What is left at the end of a stream: nothing, or a whole size field and no more, is
      its end; any other part of a frame is an error. Both take all of it. */
  lemma TruncatedRead(tail: seq<byte>, jsonOk: JsonCheck)
    requires Truncated(tail)
    ensures var ended := tail == [] || (|tail| == 4 && 24 <= FromLittleEndian(tail) <= 0x100_0000);
            Read(tail, jsonOk) == Reading(if ended then Eof else Bad, [])
  {
    if |tail| >= 4 { assert |tail| == 4 ==> tail[..4] == tail; }
  }

  /* String lengths in 64 bits */

  /** Each byte adds its low seven bits, shifted by seven more than the last, in 64-bit
      two's complement: its weight is that product, up to multiples of 2^64. */
  lemma WeightIsShifted(b: byte, i: nat)
    ensures -0x8000_0000_0000_0000 <= Weight(b, i) < 0x8000_0000_0000_0000
    ensures exists q :: b % 128 * Pow128(i) == Weight(b, i) + q * 0x1_0000_0000_0000_0000
  {
    Pow128Values();
    if i <= 8 {
      SmallWeight(b % 128, i);
      assert b % 128 * Pow128(i) == Weight(b, i) + 0 * 0x1_0000_0000_0000_0000;
    } else if i == 9 {
      var q := b % 128 / 2 + b % 2;
      assert b % 128 * Pow128(9) == Weight(b, 9) + q * 0x1_0000_0000_0000_0000;
    } else {
      var r := HighPower(i);
      MulAssociates(b % 128, r, 0x1_0000_0000_0000_0000);
      assert b % 128 * Pow128(i) == Weight(b, i) + (b % 128 * r) * 0x1_0000_0000_0000_0000;
    }
  }

  lemma SmallWeight(m: nat, i: nat)
    requires m < 128 && i <= 8
    ensures 0 <= m * Pow128(i) < 0x8000_0000_0000_0000
  {
    Pow128Values();
    Pow128Monotone(i, 8);
    MulMonotone(m, 127, Pow128(i));
    MulMonotone(Pow128(i), Pow128(8), 127);
  }

  lemma MulAssociates(a: int, b: int, c: int)
    ensures a * (b * c) == a * b * c
  {
  }

  lemma {:induction false} HighPower(i: nat) returns (r: nat)
    requires i >= 10
    ensures Pow128(i) == r * 0x1_0000_0000_0000_0000
    decreases i
  {
    if i == 10 {
      Pow128Values();
      r := 64;
    } else {
      var q := HighPower(i - 1);
      r := 128 * q;
    }
  }
}

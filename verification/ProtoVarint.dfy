/** Base 128 varints as the native Meshtastic codec reads and writes them (Protocol Buffers Encoding, "Base 128 Varints"). */
module ProtoVarint {
  import opened Common

  const WORD: nat := 0x1_0000_0000_0000_0000
  const LONGEST: nat := 10

  type uint64 = v: nat | v < WORD

  datatype Decoded = Value(value: uint64, length: nat) | UnexpectedEOF | InvalidVarint

  function Power(n: nat): (p: nat)
    ensures p > 0
  {
    if n == 0 then 1 else 128 * Power(n - 1)
  }

  /** The number the first n groups of seven bits spell, least significant first. */
  function Groups(p: seq<byte>, n: nat): nat
    requires n <= |p|
  {
    if n == 0 then 0 else p[0] % 128 + 128 * Groups(p[1..], n - 1)
  }

  /** The position of the first byte without a continuation bit, or the number of bytes looked at. */
  function Stop(p: seq<byte>, limit: nat): (n: nat)
    ensures n <= limit && n <= |p|
    ensures n < limit && n < |p| ==> p[n] < 128
    ensures forall i | 0 <= i < n :: p[i] >= 128
  {
    if limit == 0 || p == [] || p[0] < 128 then 0 else 1 + Stop(p[1..], limit - 1)
  }

  /** Groups beyond the sixty-fourth bit are dropped. */
  function Decode(p: seq<byte>): (d: Decoded)
    ensures d.Value? ==> 0 < d.length <= |p| && d.length <= LONGEST
  {
    var n := Stop(p, LONGEST);
    if n < LONGEST && n < |p| then Value(Groups(p, n + 1) % WORD, n + 1)
    else if p == [] then UnexpectedEOF
    else InvalidVarint
  }

  function Encode(v: nat): (p: seq<byte>)
    ensures |p| > 0
  {
    if v < 128 then [v] else [v % 128 + 128] + Encode(v / 128)
  }

  // Reading back

  lemma {:induction false} EncodedStops(v: nat, rest: seq<byte>, limit: nat)
    requires |Encode(v)| <= limit
    ensures Stop(Encode(v) + rest, limit) == |Encode(v)| - 1
    ensures Groups(Encode(v) + rest, |Encode(v)|) == v
    decreases v
  {
    if v >= 128 {
      EncodedStops(v / 128, rest, limit - 1);
      assert (Encode(v) + rest)[1..] == Encode(v / 128) + rest;
    }
  }

  lemma {:induction false} EncodedLength(v: nat, n: nat)
    requires v < Power(n) && n > 0
    ensures |Encode(v)| <= n
    decreases n
  {
    if v >= 128 {
      EncodedLength(v / 128, n - 1);
    }
  }

  lemma WordFits()
    ensures WORD <= Power(LONGEST) && Power(9) * 2 == WORD
  {
    assert Power(2) == 16384;
    assert Power(4) == 16384 * 16384;
    assert Power(6) == 16384 * Power(4);
    assert Power(8) == 16384 * Power(6);
  }

  /** Every 64-bit value is read back from its encoding, whatever bytes follow. */
  lemma DecodeUndoesEncode(v: uint64, rest: seq<byte>)
    ensures |Encode(v)| <= LONGEST
    ensures Decode(Encode(v) + rest) == Value(v, |Encode(v)|)
  {
    WordFits();
    EncodedLength(v, LONGEST);
    EncodedStops(v, rest, LONGEST);
  }

  lemma {:induction false} GroupsBound(p: seq<byte>, n: nat)
    requires n <= |p|
    ensures Groups(p, n) < Power(n)
  {
    if n > 0 {
      GroupsBound(p[1..], n - 1);
    }
  }

  lemma {:induction false} ModIsSmaller(a: nat)
    ensures a % WORD <= a
  {
  }

  /** No decodable spelling of a value is shorter than the one the encoder writes. */
  lemma EncodeIsShortest(p: seq<byte>)
    requires Decode(p).Value?
    ensures |Encode(Decode(p).value)| <= Decode(p).length <= |p|
  {
    var d := Decode(p);
    GroupsBound(p, d.length);
    ModIsSmaller(Groups(p, d.length));
    EncodedLength(d.value, d.length);
  }

  /** A varint is read exactly when one of the first ten bytes has no continuation bit; what is empty and what is too long differ. */
  lemma DecodesExactly(p: seq<byte>)
    ensures var d := Decode(p);
            && (d.UnexpectedEOF? <==> p == [])
            && (d.Value? <==> exists n :: 0 <= n < |p| && n < 10 && p[n] < 128)
            && (d.Value? ==> p[d.length - 1] < 128 && forall i | 0 <= i < d.length - 1 :: p[i] >= 128)
  {
    hide Stop, Groups;
    var n := Stop(p, LONGEST);
    if n < LONGEST && n < |p| {
      assert 0 <= n < |p| && n < 10 && p[n] < 128;
    }
  }

  // The loops

  lemma {:induction false} GroupsMore(p: seq<byte>, n: nat)
    requires n < |p|
    ensures Groups(p, n + 1) == Groups(p, n) + p[n] % 128 * Power(n)
  {
    if n > 0 {
      GroupsMore(p[1..], n - 1);
      Scaled(Groups(p[1..], n - 1), p[n] % 128, Power(n - 1));
    }
  }

  lemma Scaled(low: nat, b: nat, power: nat)
    ensures 128 * (low + b * power) == 128 * low + b * (128 * power)
  {
  }

  lemma {:induction false} StopIs(p: seq<byte>, limit: nat, n: nat)
    requires n <= |p| && n <= limit && forall i | 0 <= i < n :: p[i] >= 128
    requires n == |p| || n == limit || p[n] < 128
    ensures Stop(p, limit) == n
  {
    if n > 0 {
      StopIs(p[1..], limit - 1, n - 1);
    }
  }

  /** Seven bits moved to their place; what leaves the word is lost. */
  function Shifted(b: byte, index: nat): uint64 {
    b % 128 * Power(index) % WORD
  }

  lemma ShiftedFits(p: seq<byte>, n: nat)
    requires n < |p| && n < LONGEST
    ensures Groups(p, n) < WORD
    ensures Groups(p, n) + Shifted(p[n], n) < WORD
    ensures Groups(p, n) + Shifted(p[n], n) == Groups(p, n + 1) % WORD
  {
    hide Groups, Power;
    GroupsBound(p, n);
    GroupsMore(p, n);
    WordFits();
    PowerGrows(n, 9);
    if n < 9 {
      PowerGrows(n + 1, 9);
      GroupsBound(p, n + 1);
      EarlyGroup(p[n] % 128 * Power(n), Groups(p, n));
    } else {
      LastGroup(p[n] % 128, Groups(p, n));
      Remains(Groups(p, n) + p[n] % 128 * Power(9));
    }
  }

  lemma EarlyGroup(high: nat, low: nat)
    requires low + high < WORD
    ensures high % WORD == high && (low + high) % WORD == low + high
  {
  }

  lemma Remains(a: nat)
    ensures a % WORD < WORD
  {
  }

  lemma LastGroup(b: nat, low: nat)
    requires b < 128 && low < Power(9)
    ensures b * Power(9) % WORD == b % 2 * Power(9)
    ensures low + b * Power(9) % WORD == (low + b * Power(9)) % WORD
  {
    WordFits();
    var half := Power(9);
    hide Power;
    assert b == b / 2 * 2 + b % 2;
    assert b * half == b / 2 * WORD + b % 2 * half;
    assert 0 <= b % 2 * half <= half;
    Remainder(b * half, b / 2, b % 2 * half);
    Remainder(low + b * half, b / 2, low + b % 2 * half);
  }

  lemma Remainder(a: nat, q: nat, r: nat)
    requires a == q * WORD + r && r < WORD
    ensures a % WORD == r
  {
  }

  lemma {:induction false} PowerGrows(m: nat, n: nat)
    requires m <= n
    ensures Power(m) <= Power(n)
    decreases n
  {
    if m < n {
      PowerGrows(m, n - 1);
    }
  }

  /** The bits of the groups read so far and of the next one do not overlap, so the source's OR is this sum. */
  method DecodeVarint(payload: seq<byte>) returns (r: Decoded)
    ensures r == Decode(payload)
  {
    hide Power, Stop, Groups, Shifted;
    NoGroups(payload);
    var out := 0;
    for index := 0 to Min(|payload|, LONGEST)
      invariant forall i | 0 <= i < index :: payload[i] >= 128
      invariant index < LONGEST ==> out == Groups(payload, index) && out < WORD
    {
      var b := payload[index];
      ShiftedFits(payload, index);
      out := out + Shifted(b, index);
      if b < 128 {
        StopIs(payload, LONGEST, index);
        return Value(out, index + 1);
      }
      if index + 1 < LONGEST {
        WholeGroups(payload, index + 1);
      }
    }
    StopIs(payload, LONGEST, Min(|payload|, LONGEST));
    r := if |payload| == 0 then UnexpectedEOF else InvalidVarint;
  }

  lemma NoGroups(p: seq<byte>)
    ensures Groups(p, 0) == 0
  {
  }

  lemma WholeGroups(p: seq<byte>, n: nat)
    requires n <= |p| && n < LONGEST
    ensures Groups(p, n) < WORD && Groups(p, n) % WORD == Groups(p, n)
  {
    WordFits();
    GroupsBound(p, n);
    PowerGrows(n, 9);
  }

  method EncodeVarint(value: uint64) returns (out: seq<byte>)
    ensures out == Encode(value)
  {
    if value == 0 {
      return [0];
    }
    out := [];
    var left: nat := value;
    while left >= 128
      invariant out + Encode(left) == Encode(value)
    {
      out := out + [left % 128 + 128];
      assert Encode(left) == [left % 128 + 128] + Encode(left / 128);
      left := left / 128;
    }
    out := out + [left];
  }
}

/** Decoding a message into its fields (Protocol Buffers Encoding, "Message Structure"). */
module ProtoFields {
  import opened Common
  import opened ProtoVarint
  import B = BucketOrder

  const NUMBER_LIMIT: nat := 0x2000_0000_0000_0000

  datatype Field =
    | Varint(number: nat, value: nat)
    | Fixed64(number: nat, value: nat)
    | Bytes(number: nat, bytes: seq<byte>)
    | Fixed32(number: nat, value: nat)

  datatype Error = Eof | BadVarint | KeyZero | UnsupportedWireType(wire: nat)

  datatype Result = Ok(fields: seq<Field>) | Failed(error: Error)

  /** One field and the number of bytes it took. */
  datatype One = Read(field: Field, length: nat) | Bad(error: Error)

  // Fixed-width numbers

  function Little(p: seq<byte>): nat {
    if p == [] then 0 else p[0] + 256 * Little(p[1..])
  }

  function LittleBytes(v: nat, n: nat): (p: seq<byte>)
    ensures |p| == n
  {
    if n == 0 then [] else [v % 256] + LittleBytes(v / 256, n - 1)
  }

  lemma {:induction false} LittleUndoesBytes(v: nat, n: nat)
    requires v < B.Pow256(n)
    ensures Little(LittleBytes(v, n)) == v
    decreases n
  {
    if n > 0 {
      LittleUndoesBytes(v / 256, n - 1);
    }
  }

  lemma {:induction false} LittleBound(p: seq<byte>)
    ensures Little(p) < B.Pow256(|p|)
  {
    if p != [] {
      LittleBound(p[1..]);
    }
  }

  const HALF: nat := 0x1_0000_0000

  lemma Spans()
    ensures B.Pow256(4) == HALF && B.Pow256(8) == WORD
  {
    assert B.Pow256(2) == 65536;
    assert B.Pow256(4) == 65536 * 65536;
    assert B.Pow256(6) == 65536 * B.Pow256(4);
  }

  // Decoding

  function ErrorOf(d: Decoded): Error
    requires !d.Value?
  {
    if d.UnexpectedEOF? then Eof else BadVarint
  }

  /** The body of a field whose key has been read. */
  function DecodeBody(number: nat, wire: nat, body: seq<byte>): (r: One)
    ensures r.Read? ==> r.length <= |body|
  {
    if wire == 0 then
      var d := Decode(body);
      if d.Value? then Read(Varint(number, d.value), d.length) else Bad(ErrorOf(d))
    else if wire == 1 then
      if |body| < 8 then Bad(Eof) else Read(Fixed64(number, Little(body[..8])), 8)
    else if wire == 2 then
      var d := Decode(body);
      if !d.Value? then Bad(ErrorOf(d))
      else if d.value > |body| - d.length then Bad(Eof)
      else Read(Bytes(number, body[d.length..d.length + d.value]), d.length + d.value)
    else if wire == 5 then
      if |body| < 4 then Bad(Eof) else Read(Fixed32(number, Little(body[..4])), 4)
    else Bad(UnsupportedWireType(wire))
  }

  function DecodeOne(p: seq<byte>): (r: One)
    ensures r.Read? ==> 0 < r.length <= |p|
  {
    var key := Decode(p);
    if !key.Value? then Bad(ErrorOf(key))
    else if key.value == 0 then Bad(KeyZero)
    else
      var one := DecodeBody(key.value / 8, key.value % 8, p[key.length..]);
      if one.Bad? then one else Read(one.field, key.length + one.length)
  }

  function Before(fields: seq<Field>, r: Result): Result {
    if r.Ok? then Ok(fields + r.fields) else r
  }

  function DecodeAll(p: seq<byte>): Result
    decreases |p|
  {
    if p == [] then Ok([]) else
      var one := DecodeOne(p);
      if one.Bad? then Failed(one.error) else Before([one.field], DecodeAll(p[one.length..]))
  }

  // A specification encoder

  function WireOf(f: Field): nat {
    match f
    case Varint(_, _) => 0
    case Fixed64(_, _) => 1
    case Bytes(_, _) => 2
    case Fixed32(_, _) => 5
  }

  predicate Encodable(f: Field) {
    && f.number < NUMBER_LIMIT && (f.number == 0 ==> WireOf(f) != 0)
    && match f
       case Varint(_, value) => value < WORD
       case Fixed64(_, value) => value < WORD
       case Bytes(_, bytes) => |bytes| < WORD
       case Fixed32(_, value) => value < HALF
  }

  function EncodeBody(f: Field): seq<byte> {
    match f
    case Varint(_, value) => Encode(value)
    case Fixed64(_, value) => LittleBytes(value, 8)
    case Bytes(_, bytes) => Encode(|bytes|) + bytes
    case Fixed32(_, value) => LittleBytes(value, 4)
  }

  function EncodeField(f: Field): seq<byte> {
    Encode(f.number * 8 + WireOf(f)) + EncodeBody(f)
  }

  function EncodeAll(fields: seq<Field>): seq<byte> {
    if fields == [] then [] else EncodeField(fields[0]) + EncodeAll(fields[1..])
  }

  lemma BytesUndo(number: nat, bytes: seq<byte>, rest: seq<byte>)
    requires |bytes| < WORD
    ensures DecodeBody(number, 2, Encode(|bytes|) + bytes + rest) == Read(Bytes(number, bytes), |Encode(|bytes|) + bytes|)
  {
    hide Encode, Decode, Little;
    var size := Encode(|bytes|);
    DecodeUndoesEncode(|bytes|, bytes + rest);
    assert size + bytes + rest == size + (bytes + rest);
    assert (size + bytes + rest)[|size|..|size| + |bytes|] == bytes;
  }

  lemma FixedUndo(number: nat, value: nat, rest: seq<byte>)
    ensures value < WORD ==> DecodeBody(number, 1, LittleBytes(value, 8) + rest) == Read(Fixed64(number, value), 8)
    ensures value < HALF ==> DecodeBody(number, 5, LittleBytes(value, 4) + rest) == Read(Fixed32(number, value), 4)
  {
    Spans();
    hide Decode, Little, LittleBytes, B.Pow256;
    assert (LittleBytes(value, 8) + rest)[..8] == LittleBytes(value, 8);
    assert (LittleBytes(value, 4) + rest)[..4] == LittleBytes(value, 4);
    if value < WORD {
      LittleUndoesBytes(value, 8);
    }
    if value < HALF {
      LittleUndoesBytes(value, 4);
    }
  }

  lemma BodyUndoes(f: Field, rest: seq<byte>)
    requires Encodable(f)
    ensures DecodeBody(f.number, WireOf(f), EncodeBody(f) + rest) == Read(f, |EncodeBody(f)|)
  {
    hide Encode, Decode, Little, LittleBytes;
    match f
    case Varint(_, value) => DecodeUndoesEncode(value, rest);
    case Fixed64(number, value) => FixedUndo(number, value, rest);
    case Bytes(number, bytes) => BytesUndo(number, bytes, rest);
    case Fixed32(number, value) => FixedUndo(number, value, rest);
  }

  lemma KeyParts(number: nat, wire: nat)
    requires number < NUMBER_LIMIT && wire < 8
    ensures number * 8 + wire < WORD && (number * 8 + wire) / 8 == number && (number * 8 + wire) % 8 == wire
  {
  }

  /** A field is read back from its encoding, whatever follows. */
  lemma FieldUndoes(f: Field, rest: seq<byte>)
    requires Encodable(f)
    ensures DecodeOne(EncodeField(f) + rest) == Read(f, |EncodeField(f)|)
  {
    hide DecodeBody, EncodeBody, Encode, Decode;
    var key := Encode(f.number * 8 + WireOf(f));
    KeyParts(f.number, WireOf(f));
    DecodeUndoesEncode(f.number * 8 + WireOf(f), EncodeBody(f) + rest);
    BodyUndoes(f, rest);
    assert EncodeField(f) + rest == key + (EncodeBody(f) + rest);
    assert (key + (EncodeBody(f) + rest))[|key|..] == EncodeBody(f) + rest;
  }

  /** Decoding undoes encoding for every list of fields, and leaves what follows them to be decoded as it is. */
  lemma {:induction false} DecodeAllUndoesEncodeAll(fields: seq<Field>, rest: seq<byte>)
    requires forall i | 0 <= i < |fields| :: Encodable(fields[i])
    ensures DecodeAll(EncodeAll(fields) + rest) == Before(fields, DecodeAll(rest))
    decreases |fields|
  {
    hide DecodeOne, EncodeField, DecodeAll, Before;
    if fields == [] {
      assert EncodeAll(fields) + rest == rest;
      BeforeNothing(DecodeAll(rest));
    } else {
      var head, tail := EncodeField(fields[0]), EncodeAll(fields[1..]);
      FieldUndoes(fields[0], tail + rest);
      DecodeAllUndoesEncodeAll(fields[1..], rest);
      assert EncodeAll(fields) + rest == head + (tail + rest);
      OneThenRest(fields[0], head, tail + rest);
      Prepended([fields[0]], fields[1..], DecodeAll(rest));
      assert [fields[0]] + fields[1..] == fields;
    }
  }

  lemma BeforeNothing(r: Result)
    ensures Before([], r) == r
  {
    if r.Ok? {
      assert [] + r.fields == r.fields;
    }
  }

  lemma OneThenRest(f: Field, head: seq<byte>, after: seq<byte>)
    requires DecodeOne(head + after) == Read(f, |head|)
    ensures DecodeAll(head + after) == Before([f], DecodeAll(after))
  {
    hide DecodeOne;
    assert (head + after)[|head|..] == after;
    assert DecodeOne(head + after).length > 0;
  }

  lemma RoundTrip(fields: seq<Field>)
    requires forall i | 0 <= i < |fields| :: Encodable(fields[i])
    ensures DecodeAll(EncodeAll(fields)) == Ok(fields)
  {
    DecodeAllUndoesEncodeAll(fields, []);
    assert EncodeAll(fields) + [] == EncodeAll(fields);
  }

  /** What decoding accepts is within the encoder's reach. */
  lemma DecodedIsEncodable(p: seq<byte>)
    ensures DecodeOne(p).Read? ==> Encodable(DecodeOne(p).field)
  {
    hide Decode;
    Spans();
    var key := Decode(p);
    if key.Value? {
      var body := p[key.length..];
      if |body| >= 8 {
        LittleBound(body[..8]);
      }
      if |body| >= 4 {
        LittleBound(body[..4]);
      }
    }
  }

  /** Encoding what was decoded and decoding it again changes nothing, even when the input was not minimal. */
  lemma {:induction false} DecodingIsStable(p: seq<byte>)
    ensures DecodeAll(p).Ok? ==> DecodeAll(EncodeAll(DecodeAll(p).fields)) == DecodeAll(p)
    ensures DecodeAll(p).Ok? ==> forall i | 0 <= i < |DecodeAll(p).fields| :: Encodable(DecodeAll(p).fields[i])
    decreases |p|
  {
    hide DecodeOne, EncodeAll;
    if p != [] && DecodeAll(p).Ok? {
      DecodedIsEncodable(p);
      DecodingIsStable(p[DecodeOne(p).length..]);
    }
    if DecodeAll(p).Ok? {
      RoundTrip(DecodeAll(p).fields);
    }
  }

  predicate Supported(wire: nat) {
    wire == 0 || wire == 1 || wire == 2 || wire == 5
  }

  /** A field that is read has the number and the wire type of its key, and every refusal has its own cause. */
  lemma ReadsExactly(p: seq<byte>)
    ensures var key, one := Decode(p), DecodeOne(p);
            if p == [] then one == Bad(Eof)
            else if !key.Value? then one == Bad(BadVarint)
            else if key.value == 0 then one == Bad(KeyZero)
            else if !Supported(key.value % 8) then one == Bad(UnsupportedWireType(key.value % 8))
            else
              var body := p[key.length..];
              var head := Decode(body);
              && (one.Read? ==> WireOf(one.field) == key.value % 8 && one.field.number == key.value / 8)
              && (key.value % 8 == 0 ==> (one.Read? <==> head.Value?) && (one.Bad? ==> one.error == if body == [] then Eof else BadVarint))
              && (key.value % 8 == 1 ==> (one.Read? <==> |body| >= 8) && (one.Bad? ==> one.error == Eof))
              && (key.value % 8 == 5 ==> (one.Read? <==> |body| >= 4) && (one.Bad? ==> one.error == Eof))
              && (key.value % 8 == 2 ==>
                    && (one.Read? <==> head.Value? && head.value + head.length <= |body|)
                    && (one.Bad? && head.Value? ==> one.error == Eof)
                    && (one.Read? ==> one.field.bytes == body[head.length..head.length + head.value]))
  {
    DecodesExactly(p);
    if Decode(p).Value? {
      DecodesExactly(p[Decode(p).length..]);
    }
    hide Decode, Little;
  }

  // The loop

  method DecodeProtoFields(payload: seq<byte>) returns (r: Result)
    ensures r == DecodeAll(payload)
  {
    hide Decode, Little, DecodeBody;
    var fields: seq<Field> := [];
    var index := 0;
    while index < |payload|
      invariant index <= |payload|
      invariant DecodeAll(payload) == Before(fields, DecodeAll(payload[index..]))
    {
      ghost var rest := payload[index..];
      var key := DecodeVarint(payload[index..]);
      if !key.Value? {
        return Failed(ErrorOf(key));
      }
      index := index + key.length;
      if key.value == 0 {
        return Failed(KeyZero);
      }
      var number, wire := key.value / 8, key.value % 8;
      var one := DecodeFieldBody(number, wire, payload[index..]);
      assert rest[key.length..] == payload[index..];
      if one.Bad? {
        return Failed(one.error);
      }
      index := index + one.length;
      assert rest[key.length + one.length..] == payload[index..];
      Prepended(fields, [one.field], DecodeAll(payload[index..]));
      fields := fields + [one.field];
    }
    assert payload[index..] == [];
    r := Ok(fields);
  }

  lemma Prepended(a: seq<Field>, b: seq<Field>, r: Result)
    ensures Before(a, Before(b, r)) == Before(a + b, r)
  {
    if r.Ok? {
      assert a + (b + r.fields) == a + b + r.fields;
    }
  }

  /** The switch on the wire type. */
  method DecodeFieldBody(number: nat, wire: nat, body: seq<byte>) returns (one: One)
    ensures one == DecodeBody(number, wire, body)
  {
    hide Decode, Little;
    if wire == 0 {
      var d := DecodeVarint(body);
      if !d.Value? {
        return Bad(ErrorOf(d));
      }
      return Read(Varint(number, d.value), d.length);
    }
    if wire == 1 {
      if |body| < 8 {
        return Bad(Eof);
      }
      return Read(Fixed64(number, Little(body[..8])), 8);
    }
    if wire == 2 {
      var d := DecodeVarint(body);
      if !d.Value? {
        return Bad(ErrorOf(d));
      }
      if d.value > |body| - d.length {
        return Bad(Eof);
      }
      return Read(Bytes(number, body[d.length..d.length + d.value]), d.length + d.value);
    }
    if wire == 5 {
      if |body| < 4 {
        return Bad(Eof);
      }
      return Read(Fixed32(number, Little(body[..4])), 4);
    }
    one := Bad(UnsupportedWireType(wire));
  }
}

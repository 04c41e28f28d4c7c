/** The compact path encoding in which the Companion stores a contact's outgoing route. */
module RoutePath {
  import opened Common

  const UNKNOWN_PATH: byte := 255

  datatype Route = Flood | Invalid | ZeroHop | Explicit(path: seq<seq<byte>>)

  function HashCount(encoding: byte): nat {
    (encoding as int) % 64
  }

  function HashSize(encoding: byte): nat {
    (encoding as int) / 64 + 1
  }

  /** The bytes cut into pieces of one size. */
  function Pieces(bytes: seq<byte>, size: nat): (r: seq<seq<byte>>)
    requires size > 0
    decreases |bytes|
  {
    if |bytes| < size then [] else [bytes[..size]] + Pieces(bytes[size..], size)
  }

  function Flat(path: seq<seq<byte>>): seq<byte> {
    if path == [] then [] else path[0] + Flat(path[1..])
  }

  function RouteOf(encoding: byte, bytes: seq<byte>): Route {
    var count, size := HashCount(encoding), HashSize(encoding);
    if encoding == UNKNOWN_PATH then Flood
    else if size == 4 || count * size > |bytes| then Invalid
    else if count == 0 then ZeroHop
    else Explicit(Pieces(bytes[..count * size], size))
  }

  /** Which encodings stand for what: the two top bits are the hash size less one, the other six the number of hashes. */
  lemma KindsExactly(encoding: byte, bytes: seq<byte>)
    ensures var r := RouteOf(encoding, bytes);
            && (r.Flood? <==> encoding == 255)
            && (r.Invalid? <==> encoding != 255 && (encoding >= 192 || HashCount(encoding) * HashSize(encoding) > |bytes|))
            && (r.ZeroHop? <==> encoding in {0, 64, 128})
            && (r.Explicit? ==> encoding < 192)
  {
  }

  predicate AllOfSize(path: seq<seq<byte>>, size: nat) {
    forall i | 0 <= i < |path| :: |path[i]| == size
  }

  lemma {:induction false} FlatLength(path: seq<seq<byte>>, size: nat)
    requires AllOfSize(path, size)
    ensures |Flat(path)| == |path| * size
  {
    if path != [] {
      FlatLength(path[1..], size);
      assert |path| * size == size + (|path| - 1) * size;
    }
  }

  lemma {:induction false} PiecesUndoFlat(path: seq<seq<byte>>, size: nat)
    requires AllOfSize(path, size) && size > 0
    ensures Pieces(Flat(path), size) == path
  {
    if path != [] {
      PiecesUndoFlat(path[1..], size);
      assert Flat(path)[..size] == path[0] && Flat(path)[size..] == Flat(path[1..]);
    }
  }

  /** Cutting whole pieces loses nothing. */
  lemma {:induction false} FlatUndoesPieces(bytes: seq<byte>, size: nat, n: nat)
    requires size > 0 && |bytes| == n * size
    ensures Flat(Pieces(bytes, size)) == bytes && |Pieces(bytes, size)| == n && AllOfSize(Pieces(bytes, size), size)
    decreases n
  {
    if n > 0 {
      assert n * size == size + (n - 1) * size;
      FlatUndoesPieces(bytes[size..], size, n - 1);
      assert bytes == bytes[..size] + bytes[size..];
    }
  }

  function EncodingByte(count: nat, size: nat): byte
    requires count < 64 && 1 <= size <= 3
  {
    (size - 1) * 64 + count
  }

  lemma EncodingParts(count: nat, size: nat)
    requires count < 64 && 1 <= size <= 3
    ensures HashCount(EncodingByte(count, size)) == count && HashSize(EncodingByte(count, size)) == size
    ensures EncodingByte(count, size) != UNKNOWN_PATH
  {
  }

  /** Every path the encoding can hold is read back, whatever fills the rest of the buffer. */
  lemma RouteIsReadBack(path: seq<seq<byte>>, size: nat, filler: seq<byte>)
    requires |path| < 64 && 1 <= size <= 3 && AllOfSize(path, size)
    ensures RouteOf(EncodingByte(|path|, size), Flat(path) + filler) == if path == [] then ZeroHop else Explicit(path)
  {
    hide HashCount, HashSize, EncodingByte, Pieces, Flat;
    EncodingParts(|path|, size);
    FlatLength(path, size);
    PiecesUndoFlat(path, size);
    assert (Flat(path) + filler)[..|path| * size] == Flat(path);
  }

  /** An accepted path re-encodes to the bytes it was read from. */
  lemma AcceptedPathReencodes(encoding: byte, bytes: seq<byte>)
    requires RouteOf(encoding, bytes).Explicit?
    ensures var path := RouteOf(encoding, bytes).path;
            && 0 < |path| < 64 && Flat(path) == bytes[..HashCount(encoding) * HashSize(encoding)]
            && 1 <= HashSize(encoding) <= 3 && encoding == EncodingByte(|path|, HashSize(encoding))
  {
    var count, size := HashCount(encoding), HashSize(encoding);
    hide Pieces, Flat;
    FlatUndoesPieces(bytes[..count * size], size, count);
  }

  lemma {:induction false} PiecesMore(bytes: seq<byte>, size: nat, offset: nat, n: nat)
    requires size > 0 && offset == n * size && offset + size <= |bytes|
    ensures Pieces(bytes[..offset + size], size) == Pieces(bytes[..offset], size) + [bytes[offset..offset + size]]
    decreases n
  {
    var longer := bytes[..offset + size];
    if n == 0 {
      assert longer[size..] == [] && bytes[..0] == [];
      assert longer[..size] == bytes[0..size];
    } else {
      var rest := bytes[size..];
      assert offset - size == (n - 1) * size;
      PiecesMore(rest, size, offset - size, n - 1);
      assert longer[..size] == bytes[..size] && longer[size..] == rest[..offset];
      assert bytes[..offset][..size] == bytes[..size] && bytes[..offset][size..] == rest[..offset - size];
      assert rest[offset - size..offset] == bytes[offset..offset + size];
    }
  }

  lemma NextFits(n: nat, count: nat, size: nat)
    requires n * size < count * size
    ensures n < count && n * size + size == (n + 1) * size <= count * size
  {
    var gap := count - n;
    assert count * size == n * size + gap * size;
    assert gap >= 1;
    assert gap * size == size + (gap - 1) * size;
  }

  /** The loop over the path bytes. */
  method DecodeRoute(encoding: byte, bytes: seq<byte>) returns (r: Route)
    ensures r == RouteOf(encoding, bytes)
  {
    hide HashCount, Pieces;
    if encoding == UNKNOWN_PATH {
      return Flood;
    }
    var count, size := HashCount(encoding), HashSize(encoding);
    if size == 4 || count * size > |bytes| {
      return Invalid;
    }
    if count == 0 {
      return ZeroHop;
    }
    var path, offset: nat, n: nat := [], 0, 0;
    NoPieces(bytes, size);
    while offset < count * size
      invariant offset == n * size && offset <= count * size
      invariant path == Pieces(bytes[..offset], size)
      decreases count * size - offset
    {
      NextFits(n, count, size);
      PiecesMore(bytes, size, offset, n);
      path := path + [bytes[offset..offset + size]];
      offset, n := offset + size, n + 1;
    }
    r := Explicit(path);
  }

  lemma NoPieces(bytes: seq<byte>, size: nat)
    requires size > 0
    ensures Pieces(bytes[..0], size) == []
  {
  }
}

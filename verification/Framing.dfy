/** The pipe buffer of the orderer and the hole punchers: fixed-size records cut
    out of a byte stream that arrives in arbitrary pieces. */
module Framing {

  /** The whole records at the front of a byte stream. */
  function Records(bytes: seq<bv8>, width: nat): seq<seq<bv8>>
    requires width > 0
  {
    if |bytes| < width then [] else [bytes[..width]] + Records(bytes[width..], width)
  }

  /** The bytes of an unfinished record. */
  function Rest(bytes: seq<bv8>, width: nat): (rest: seq<bv8>)
    requires width > 0
    ensures |rest| < width
  {
    if |bytes| < width then bytes else Rest(bytes[width..], width)
  }

  /** Cutting what is left over together with the next piece continues the cut
      of the whole stream. */
  lemma {:induction false} RecordsAppend(bytes: seq<bv8>, piece: seq<bv8>, width: nat)
    requires width > 0
    ensures Records(bytes + piece, width) == Records(bytes, width) + Records(Rest(bytes, width) + piece, width)
    ensures Rest(bytes + piece, width) == Rest(Rest(bytes, width) + piece, width)
  {
    if |bytes| >= width {
      assert (bytes + piece)[..width] == bytes[..width];
      assert (bytes + piece)[width..] == bytes[width..] + piece;
      RecordsAppend(bytes[width..], piece, width);
    }
  }

  /** However a stream is split into reads, the same records come out. */
  lemma {:induction false} SplitIrrelevant(pieces: seq<seq<bv8>>, width: nat)
    requires width > 0
    ensures Fed([], pieces, width) == Records(Joined(pieces), width)
  {
    FedIs([], pieces, width);
    assert [] + Joined(pieces) == Joined(pieces);
  }

  function Joined(pieces: seq<seq<bv8>>): seq<bv8> {
    if pieces == [] then [] else pieces[0] + Joined(pieces[1..])
  }

  /** The records handed on when the pieces are read one after the other. */
  function Fed(left: seq<bv8>, pieces: seq<seq<bv8>>, width: nat): seq<seq<bv8>>
    requires width > 0
    decreases |pieces|
  {
    if pieces == [] then []
    else Records(left + pieces[0], width) + Fed(Rest(left + pieces[0], width), pieces[1..], width)
  }

  lemma {:induction false} FedIs(left: seq<bv8>, pieces: seq<seq<bv8>>, width: nat)
    requires width > 0 && |left| < width
    ensures Fed(left, pieces, width) == Records(left + Joined(pieces), width)
    decreases |pieces|
  {
    if pieces != [] {
      assert left + Joined(pieces) == (left + pieces[0]) + Joined(pieces[1..]);
      RecordsAppend(left + pieces[0], Joined(pieces[1..]), width);
      FedIs(Rest(left + pieces[0], width), pieces[1..], width);
    }
  }

  const BUFFER: nat := 4096

  /** The buffer and its fill level, with the stream so far as history. */
  class PipeBuffer {
    const width: nat
    const bytes: array<bv8>
    var buffered: nat
    ghost var stream: seq<bv8>

    ghost predicate Valid()
      reads this, bytes
    {
      && 0 < width && bytes.Length == BUFFER && buffered < width <= BUFFER
      && bytes[..buffered] == Rest(stream, width)
    }

    constructor (width: nat)
      requires 0 < width <= BUFFER
      ensures Valid() && stream == [] && this.width == width && fresh(bytes)
    {
      this.width := width;
      bytes := new bv8[BUFFER];
      buffered := 0;
      stream := [];
    }

    /** One read of the pipe: `piece` lands behind the buffered bytes, whole
        records are handed on, the rest moves to the front. */
    method Read(piece: seq<bv8>) returns (records: seq<seq<bv8>>)
      requires Valid() && buffered + |piece| <= BUFFER
      modifies this`buffered, this`stream, bytes
      ensures Valid() && stream == old(stream) + piece
      ensures Records(stream, width) == Records(old(stream), width) + records
    {
      RecordsAppend(stream, piece, width);
      Land(piece);
      stream := stream + piece;
      var at;
      records, at := CutAll();
      MoveDown(at);
    }

    /** The record loop: everything up to `at` is handed on. */
    method CutAll() returns (records: seq<seq<bv8>>, at: nat)
      requires 0 < width && buffered <= bytes.Length
      ensures at <= buffered && records == Records(bytes[..buffered], width)
      ensures bytes[at..buffered] == Rest(bytes[..buffered], width)
    {
      at := 0;
      records := [];
      while at + width <= buffered
        invariant at <= buffered
        invariant records + Records(bytes[at..buffered], width) == Records(bytes[..buffered], width)
        invariant Rest(bytes[at..buffered], width) == Rest(bytes[..buffered], width)
      {
        Cut(bytes[at..buffered], width);
        assert bytes[at..buffered][..width] == bytes[at..at + width];
        assert bytes[at..buffered][width..] == bytes[at + width..buffered];
        records := records + [bytes[at..at + width]];
        at := at + width;
      }
    }

    method Land(piece: seq<bv8>)
      requires buffered + |piece| <= bytes.Length
      modifies this`buffered, bytes
      ensures buffered == old(buffered) + |piece| <= bytes.Length && bytes[..buffered] == old(bytes[..buffered]) + piece
    {
      forall k | 0 <= k < |piece| { bytes[buffered + k] := piece[k]; }
      buffered := buffered + |piece|;
    }

    /** memmove of the unconsumed bytes to the front. */
    method MoveDown(consumed: nat)
      requires consumed <= buffered <= bytes.Length
      modifies this`buffered, bytes
      ensures buffered == old(buffered) - consumed <= bytes.Length
      ensures bytes[..buffered] == old(bytes[consumed..buffered])
    {
      forall k | 0 <= k < buffered - consumed { bytes[k] := bytes[consumed + k]; }
      buffered := buffered - consumed;
    }
  }

  lemma Cut(bytes: seq<bv8>, width: nat)
    requires 0 < width <= |bytes|
    ensures Records(bytes, width) == [bytes[..width]] + Records(bytes[width..], width)
    ensures Rest(bytes, width) == Rest(bytes[width..], width)
  {
  }
}

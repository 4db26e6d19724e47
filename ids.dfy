/**
 * Overlay identifiers and the name-to-identifier derivation used for chat
 * participants (HashNodeIdFactory).
 */
module Ids {

  /** A Java `int`: a 32-bit two's-complement value. */
  newtype int32 = x: int | -0x8000_0000 <= x < 0x8000_0000

  const TwoTo31: int := 0x8000_0000
  const TwoTo32: int := 0x1_0000_0000

  /** Width of an overlay identifier in bits (the overlay's `Id.IdBitLength`). */
  const IdBitLength: nat := 160

  /** Words of hash material: `IdBitLength >> 5`, i.e. one 32-bit word per 32 bits. */
  const WordCount: nat := IdBitLength / 32

  /** An overlay identifier, represented by the word array it is built from. */
  type Id = seq<int32>

  /** Java's narrowing of an integer result to `int`: keep the low 32 bits, read them signed. */
  function Wrap32(x: int): int32
  {
    ((x + TwoTo31) % TwoTo32 - TwoTo31) as int32
  }

  /** Narrowing only subtracts a multiple of 2^32. */
  lemma Wrap32Offset(x: int)
    ensures Wrap32(x) as int == x - TwoTo32 * ((x + TwoTo31) / TwoTo32)
  {
  }

  /** Adding a multiple of 2^32 does not change the narrowed value. */
  lemma Wrap32Shift(x: int, k: int)
    ensures Wrap32(x + TwoTo32 * k) == Wrap32(x)
  {
    var a := x + TwoTo31;
    assert (a + TwoTo32 * k) % TwoTo32 == a % TwoTo32 by {
      var q, r := a / TwoTo32, a % TwoTo32;
      assert a + TwoTo32 * k == TwoTo32 * (q + k) + r;
    }
  }

  /** The unwrapped polynomial s[0]*31^(n-1) + ... + s[n-1]. */
  function Polynomial(s: string): int
  {
    if |s| == 0 then 0 else 31 * Polynomial(s[..|s| - 1]) + s[|s| - 1] as int
  }

  /**
   * Java's `String.hashCode`: h := 31 * h + c over the characters, with
   * 32-bit wrap-around at every step. Each character counts as one code unit.
   * Wrapping at every step gives the same word as wrapping the exact polynomial once.
   */
  function HashCode(s: string): (h: int32)
    ensures h == Wrap32(Polynomial(s))
  {
    if |s| == 0 then 0
    else
      var p := s[..|s| - 1];
      var c := s[|s| - 1] as int;
      var q := Polynomial(p);
      var j := (q + TwoTo31) / TwoTo32;
      Wrap32Offset(q);
      assert 31 * (HashCode(p) as int) + c == (31 * q + c) + TwoTo32 * (-31 * j);
      Wrap32Shift(31 * q + c, -31 * j);
      Wrap32(31 * HashCode(p) as int + c)
  }

  /** The identifier a HashNodeIdFactory built from `feed` generates: every word is the feed's hash. */
  function HashNodeId(feed: string): (id: Id)
  {
    seq(WordCount, _ => HashCode(feed))
  }

  /** Two feeds give the same identifier exactly when their hash codes agree. */
  lemma HashNodeIdMatchesHashCode(s: string, t: string)
    ensures HashNodeId(s) == HashNodeId(t) <==> HashCode(s) == HashCode(t)
  {
    if HashNodeId(s) == HashNodeId(t) {
      assert HashNodeId(s)[0] == HashNodeId(t)[0];
    }
  }

  /** Distinct names can collide: "Aa" and "BB" hash alike, so they share an identifier. */
  lemma HashNodeIdCollides()
    ensures "Aa" != "BB" && HashNodeId("Aa") == HashNodeId("BB")
  {
    assert "Aa"[..1] == "A" && "BB"[..1] == "B";
    assert HashCode("A") == 65 && HashCode("B") == 66;
    assert HashCode("Aa") == 2112 == HashCode("BB");
    HashNodeIdMatchesHashCode("Aa", "BB");
  }

  /** Derives a node identifier from a fixed feed, the same one every time. */
  class HashNodeIdFactory {
    const feed: string

    constructor (feed: string)
      ensures this.feed == feed
    {
      this.feed := feed;
    }

    /** Fills IdBitLength >> 5 words with the feed's hash and builds the identifier from them. */
    method GenerateNodeId() returns (id: Id)
      ensures |id| == WordCount
      ensures forall i :: 0 <= i < |id| ==> id[i] == HashCode(feed)
      ensures id == HashNodeId(feed)
    {
      var material := new int32[WordCount];
      for i := 0 to material.Length
        invariant forall j :: 0 <= j < i ==> material[j] == HashCode(feed)
      {
        material[i] := HashCode(feed);
      }
      id := material[..];
    }
  }

  /** Two factories built from equal feeds generate equal identifiers, call after call. */
  method GenerationIsDeterministic(f: HashNodeIdFactory, g: HashNodeIdFactory) returns (a: Id, b: Id, c: Id)
    requires f.feed == g.feed
    ensures a == b == c
  {
    a := f.GenerateNodeId();
    b := g.GenerateNodeId();
    c := f.GenerateNodeId();
  }
}

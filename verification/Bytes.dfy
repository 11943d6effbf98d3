/** Bytes, four-byte words and sixteen-byte blocks, and where they sit in a byte buffer. */
module Bytes {
  type byte = bv8

  /** Four consecutive bytes, in memory order.  The C code reads them as one UINT32. */
  datatype Word = Word(b0: byte, b1: byte, b2: byte, b3: byte)

  /** Sixteen consecutive bytes: the four columns of a cipher state. */
  datatype Block = Block(c0: Word, c1: Word, c2: Word, c3: Word)

  const ZeroWord := Word(0, 0, 0, 0)

  // Exclusive-or of two bytes: addition in GF(2^8).
  function Add(x: byte, y: byte): byte {
    x ^ y
  }

  // A UINT32 exclusive-or works on the four bytes separately.
  function XorWord(u: Word, v: Word): Word {
    Word(Add(u.b0, v.b0), Add(u.b1, v.b1), Add(u.b2, v.b2), Add(u.b3, v.b3))
  }

  function XorBlock(x: Block, y: Block): Block {
    Block(XorWord(x.c0, y.c0), XorWord(x.c1, y.c1), XorWord(x.c2, y.c2), XorWord(x.c3, y.c3))
  }

  lemma AddCancels(x: byte, y: byte)
    ensures Add(Add(x, y), y) == x
  {
  }

  lemma XorWordCancels(u: Word, v: Word)
    ensures XorWord(XorWord(u, v), v) == u
  {
    hide Add;
    AddCancels(u.b0, v.b0);
    AddCancels(u.b1, v.b1);
    AddCancels(u.b2, v.b2);
    AddCancels(u.b3, v.b3);
  }

  lemma XorBlockCancels(x: Block, y: Block)
    ensures XorBlock(XorBlock(x, y), y) == x
  {
    hide XorWord;
    XorWordCancels(x.c0, y.c0);
    XorWordCancels(x.c1, y.c1);
    XorWordCancels(x.c2, y.c2);
    XorWordCancels(x.c3, y.c3);
  }

  // The table entry { p, q, r, s }, given as the number 0xpqrs.
  function Entry(v: bv32): Word {
    Word((v >> 24) as byte, ((v >> 16) & 0xff) as byte, ((v >> 8) & 0xff) as byte, (v & 0xff) as byte)
  }

  function WordAt(s: seq<byte>, i: nat): Word
    requires i + 4 <= |s|
  {
    Word(s[i], s[i + 1], s[i + 2], s[i + 3])
  }

  function BlockAt(s: seq<byte>, i: nat): Block
    requires i + 16 <= |s|
  {
    Block(WordAt(s, i), WordAt(s, i + 4), WordAt(s, i + 8), WordAt(s, i + 12))
  }

  function WordBytes(w: Word): (s: seq<byte>)
    ensures |s| == 4
  {
    [w.b0, w.b1, w.b2, w.b3]
  }

  function BlockBytes(b: Block): (s: seq<byte>)
    ensures |s| == 16
  {
    WordBytes(b.c0) + WordBytes(b.c1) + WordBytes(b.c2) + WordBytes(b.c3)
  }

  // The buffer s with sixteen bytes overwritten at i.
  function Put(s: seq<byte>, i: nat, b: Block): (t: seq<byte>)
    requires i + 16 <= |s|
    ensures |t| == |s|
  {
    s[..i] + BlockBytes(b) + s[i + 16..]
  }

  lemma PutSame(s: seq<byte>, i: nat, b: Block)
    requires i + 16 <= |s|
    ensures BlockAt(Put(s, i, b), i) == b
  {
  }

  lemma PutTwice(s: seq<byte>, i: nat, a: Block, b: Block)
    requires i + 16 <= |s|
    ensures Put(Put(s, i, a), i, b) == Put(s, i, b)
  {
  }

  lemma NextByteValue(b: byte)
    requires b != 255
    ensures (b + 1) as int == b as int + 1
  {
  }

  lemma ValueOfByte(b: byte)
    ensures (b as int) as byte == b
  {
  }

  // The byte of a number below 256.
  lemma {:induction false} ByteWithValue(v: int) returns (b: byte)
    requires 0 <= v < 256
    ensures b as int == v
  {
    if v == 0 {
      b := 0;
    } else {
      b := ByteWithValue(v - 1);
      NextByteValue(b);
      b := b + 1;
    }
  }

  /** A number below 256 survives its conversion to a byte. */
  lemma SmallByte(v: int)
    requires 0 <= v < 256
    ensures (v as byte) as int == v
  {
    var b := ByteWithValue(v);
    ValueOfByte(b);
  }

  function Repeat(v: byte, n: nat): (s: seq<byte>)
    ensures |s| == n
  {
    seq(n, _ => v)
  }
}

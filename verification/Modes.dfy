/** Electronic codebook and cipher block chaining over byte buffers (sections 6.1 and 6.2 of
    NIST SP 800-38A), and the padding that fills the last block (section 6.3 of RFC 5652). */
module Modes {
  import opened Wrappers
  import opened Bytes
  import opened Aes
  import opened KeySchedule

  // ---- chaining ----------------------------------------------------------------

  // Bytes after the last whole block are left as they are.
  function CbcEncrypt(w: seq<Word>, nr: nat, iv: Block, p: seq<byte>): (c: seq<byte>)
    requires Enough(w, nr)
    ensures |c| == |p|
    decreases |p|
  {
    hide *;
    if |p| < 16 then p else
      var y := Cipher(w, nr, XorBlock(BlockAt(p, 0), iv));
      BlockBytes(y) + CbcEncrypt(w, nr, y, p[16..])
  }

  function CbcDecrypt(dw: seq<Word>, nr: nat, iv: Block, c: seq<byte>): (p: seq<byte>)
    requires Enough(dw, nr)
    ensures |p| == |c|
    decreases |c|
  {
    hide *;
    if |c| < 16 then c else
      var y := BlockAt(c, 0);
      BlockBytes(XorBlock(EqInvCipher(dw, nr, y), iv)) + CbcDecrypt(dw, nr, y, c[16..])
  }

  function EcbEncrypt(w: seq<Word>, nr: nat, p: seq<byte>): (c: seq<byte>)
    requires Enough(w, nr)
    ensures |c| == |p|
    decreases |p|
  {
    hide *;
    if |p| < 16 then p else BlockBytes(Cipher(w, nr, BlockAt(p, 0))) + EcbEncrypt(w, nr, p[16..])
  }

  function EcbDecrypt(dw: seq<Word>, nr: nat, c: seq<byte>): (p: seq<byte>)
    requires Enough(dw, nr)
    ensures |p| == |c|
    decreases |c|
  {
    hide *;
    if |c| < 16 then c else BlockBytes(EqInvCipher(dw, nr, BlockAt(c, 0))) + EcbDecrypt(dw, nr, c[16..])
  }

  lemma BytesThenRest(b: Block, t: seq<byte>)
    ensures BlockAt(BlockBytes(b) + t, 0) == b && (BlockBytes(b) + t)[16..] == t
  {
  }

  lemma SplitFirst(s: seq<byte>)
    requires |s| >= 16
    ensures s == BlockBytes(BlockAt(s, 0)) + s[16..]
  {
  }

  /** Chained decryption undoes chained encryption under the same key and vector. */
  lemma {:induction false} CbcRoundTrip(key: seq<Word>, iv: Block, p: seq<byte>)
    requires KeyLength(|key|)
    ensures var nr := Rounds(|key|);
            CbcDecrypt(DecSchedule(key), nr, iv, CbcEncrypt(EncSchedule(key), nr, iv, p)) == p
    decreases |p|
  {
    hide EncSchedule;
    hide DecSchedule;
    hide Cipher;
    hide EqInvCipher;
    hide XorBlock;
    hide BlockAt;
    if |p| >= 16 {
      var nr := Rounds(|key|);
      var x := XorBlock(BlockAt(p, 0), iv);
      var y := Cipher(EncSchedule(key), nr, x);
      var rest := CbcEncrypt(EncSchedule(key), nr, y, p[16..]);
      BytesThenRest(y, rest);
      KeyedCipherInverse(key, x);
      XorBlockCancels(BlockAt(p, 0), iv);
      CbcRoundTrip(key, y, p[16..]);
      SplitFirst(p);
    }
  }

  /** ... and the reverse: every ciphertext is the encryption of its decryption. */
  lemma {:induction false} CbcRoundTripBack(key: seq<Word>, iv: Block, c: seq<byte>)
    requires KeyLength(|key|)
    ensures var nr := Rounds(|key|);
            CbcEncrypt(EncSchedule(key), nr, iv, CbcDecrypt(DecSchedule(key), nr, iv, c)) == c
    decreases |c|
  {
    hide EncSchedule;
    hide DecSchedule;
    hide Cipher;
    hide EqInvCipher;
    hide XorBlock;
    hide BlockAt;
    if |c| >= 16 {
      var nr := Rounds(|key|);
      var y := BlockAt(c, 0);
      var x := EqInvCipher(DecSchedule(key), nr, y);
      var rest := CbcDecrypt(DecSchedule(key), nr, y, c[16..]);
      BytesThenRest(XorBlock(x, iv), rest);
      KeyedCipherInverse(key, y);
      XorBlockCancels(x, iv);
      CbcRoundTripBack(key, y, c[16..]);
      SplitFirst(c);
    }
  }

  lemma {:induction false} EcbRoundTrip(key: seq<Word>, p: seq<byte>)
    requires KeyLength(|key|)
    ensures var nr := Rounds(|key|); EcbDecrypt(DecSchedule(key), nr, EcbEncrypt(EncSchedule(key), nr, p)) == p
    decreases |p|
  {
    hide EncSchedule;
    hide DecSchedule;
    hide Cipher;
    hide EqInvCipher;
    hide BlockAt;
    if |p| >= 16 {
      var nr := Rounds(|key|);
      var x := BlockAt(p, 0);
      BytesThenRest(Cipher(EncSchedule(key), nr, x), EcbEncrypt(EncSchedule(key), nr, p[16..]));
      KeyedCipherInverse(key, x);
      EcbRoundTrip(key, p[16..]);
      SplitFirst(p);
    }
  }

  lemma BlockInTail(s: seq<byte>, i: nat)
    requires 16 <= i && i + 16 <= |s|
    ensures BlockAt(s, i) == BlockAt(s[16..], i - 16)
  {
  }

  function CbcLink(iv: Block, c: seq<byte>, j: nat): Block
    requires 16 * j <= |c|
  {
    if j == 0 then iv else BlockAt(c, 16 * (j - 1))
  }

  /** Each ciphertext block is CIPH(P_j xor C_{j-1}), as section 6.2 writes it. */
  lemma {:induction false} CbcBlocks(w: seq<Word>, nr: nat, iv: Block, p: seq<byte>, j: nat)
    requires Enough(w, nr) && 16 * j + 16 <= |p|
    ensures BlockAt(CbcEncrypt(w, nr, iv, p), 16 * j)
         == Cipher(w, nr, XorBlock(BlockAt(p, 16 * j), CbcLink(iv, CbcEncrypt(w, nr, iv, p), j)))
    decreases j
  {
    hide Cipher;
    hide XorBlock;
    hide BlockAt;
    var y := Cipher(w, nr, XorBlock(BlockAt(p, 0), iv));
    var rest := CbcEncrypt(w, nr, y, p[16..]);
    var c := CbcEncrypt(w, nr, iv, p);
    BytesThenRest(y, rest);
    if j > 0 {
      CbcBlocks(w, nr, y, p[16..], j - 1);
      BlockInTail(p, 16 * j);
      BlockInTail(c, 16 * j);
      if j > 1 {
        BlockInTail(c, 16 * (j - 1));
      }
    }
  }

  /** In codebook mode each block is enciphered by itself. */
  lemma {:induction false} EcbBlocks(w: seq<Word>, nr: nat, p: seq<byte>, j: nat)
    requires Enough(w, nr) && 16 * j + 16 <= |p|
    ensures BlockAt(EcbEncrypt(w, nr, p), 16 * j) == Cipher(w, nr, BlockAt(p, 16 * j))
    decreases j
  {
    hide Cipher;
    hide BlockAt;
    var y := Cipher(w, nr, BlockAt(p, 0));
    BytesThenRest(y, EcbEncrypt(w, nr, p[16..]));
    if j > 0 {
      EcbBlocks(w, nr, p[16..], j - 1);
      BlockInTail(p, 16 * j);
      BlockInTail(EcbEncrypt(w, nr, p), 16 * j);
    }
  }

  // ---- padding -----------------------------------------------------------------

  function PadLength(n: nat): (k: nat)
    ensures 1 <= k <= 16 && (n + k) % 16 == 0
  {
    16 - n % 16
  }

  function Pad(d: seq<byte>): (p: seq<byte>)
    ensures |p| % 16 == 0 && |p| == 16 * (|d| / 16 + 1)
  {
    d + Repeat(PadLength(|d|) as byte, PadLength(|d|))
  }

  // The last k bytes of p all have the value k.
  predicate EndsWith(p: seq<byte>, k: nat)
    requires k <= |p| && k <= 255
  {
    forall i :: |p| - k <= i < |p| ==> p[i] == k as byte
  }

  /** What the padded decryptions make of the decrypted buffer; the two modes differ on pads of 0 and 16. */
  function Unpad(chained: bool, p: seq<byte>): (r: Option<seq<byte>>)
    requires |p| >= 16
    ensures r.Some? ==> r.value <= p
  {
    var k := p[|p| - 1] as int;
    if (if chained then k <= 0 || k > 16 else k >= 16) then None
    else if !EndsWith(p, k) then None
    else Some(p[..|p| - k])
  }

  lemma PaddingEnds(d: seq<byte>)
    ensures var p, k := Pad(d), PadLength(|d|);
      && p[|p| - 1] as int == k && EndsWith(p, k) && p[..|p| - k] == d
  {
    SmallByte(PadLength(|d|));
  }

  lemma EndedIsPadded(p: seq<byte>, k: nat)
    requires 1 <= k <= 16 <= |p| && |p| % 16 == 0 && EndsWith(p, k)
    ensures p == Pad(p[..|p| - k])
  {
    var d := p[..|p| - k];
    assert PadLength(|d|) == k;
    assert p[|p| - k..] == Repeat(k as byte, k);
    assert p == d + p[|p| - k..];
  }

  /** In chaining mode a buffer is accepted exactly when it is the padding of the bytes returned. */
  lemma UnpadExact(p: seq<byte>, d: seq<byte>)
    requires |p| >= 16 && |p| % 16 == 0
    ensures Unpad(true, p) == Some(d) <==> p == Pad(d)
  {
    hide Pad;
    hide EndsWith;
    if p == Pad(d) {
      PaddingEnds(d);
    }
    if Unpad(true, p) == Some(d) {
      EndedIsPadded(p, p[|p| - 1] as int);
    }
  }

  /** In codebook mode the same holds only while the padding is shorter than a block. */
  lemma UnpadCodebook(d: seq<byte>)
    ensures Unpad(false, Pad(d)) == Some(d) <==> |d| % 16 != 0
  {
    hide EndsWith;
    PaddingEnds(d);
    hide Pad;
  }

  // The verdict depends only on the last block.
  lemma UnpadLastBlock(chained: bool, front: seq<byte>, last: seq<byte>)
    requires |last| == 16
    ensures Unpad(chained, front + last) == match Unpad(chained, last) case None => None case Some(d) => Some(front + d)
  {
    var p := front + last;
    var k := last[15] as int;
    assert p[|p| - 1] == last[15];
    if k <= 16 {
      assert EndsWith(p, k) <==> EndsWith(last, k) by {
        assert forall i :: 16 - k <= i < 16 ==> last[i] == p[|front| + i];
      }
      assert p[..|p| - k] == front + last[..16 - k];
    }
  }
}

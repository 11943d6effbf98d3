/** The calls of rijndael.c that take a key or a buffer. */
module RijndaelApi {
  import opened Wrappers
  import opened Bytes
  import Field
  import opened Aes
  import opened KeySchedule
  import opened Modes
  import opened RijndaelObject

  function KeyWords(key: seq<byte>, nk: nat): (w: seq<Word>)
    requires 4 * nk <= |key|
    ensures |w| == nk
  {
    seq(nk, j requires 0 <= j < nk => WordAt(key, 4 * j))
  }

  predicate WellFormed(rj: Rijndael)
    reads rj
  {
    && rj.initVector.Length == 16 && rj.expandedKey.Length0 == 15 && rj.expandedKey.Length1 == 4
    && (rj.valid ==> rj.Ready() && (rj.mode == ECB || rj.mode == CBC || rj.mode == CFB1))
  }

  // A missing vector means zeros.
  method SetVector(rj: Rijndael, initVector: array?<byte>)
    requires rj.initVector.Length == 16 && (initVector != null ==> 16 <= initVector.Length)
    modifies rj.initVector
    ensures rj.initVector[..] == if initVector == null then Repeat(0, 16) else old(initVector[..16])
  {
    if initVector != null {
      for i := 0 to 16
        invariant forall k :: 0 <= k < i ==> rj.initVector[k] == old(initVector[k])
        invariant forall k :: i <= k < 16 ==> initVector[k] == old(initVector[k])
      {
        rj.initVector[i] := initVector[i];
      }
    } else {
      for i := 0 to 16
        invariant forall k :: 0 <= k < i ==> rj.initVector[k] == 0
      {
        rj.initVector[i] := 0;
      }
    }
  }

  /** Sets up a cipher object; on any error it is left unusable. */
  method Init(rj: Rijndael, mode: int, dir: int, key: array?<byte>, keyLen: int, initVector: array?<byte>)
    returns (rc: int)
    requires WellFormed(rj)
    requires key != null && 0 <= keyLen <= 2 ==> 16 + 8 * keyLen <= key.Length
    requires initVector != null ==> 16 <= initVector.Length
    requires key != rj.initVector
    modifies rj, rj.initVector, rj.expandedKey
    ensures WellFormed(rj)
    ensures rc == if !(0 <= mode <= 2) then -1 else if !(0 <= dir <= 1) then -2 else if !(0 <= keyLen <= 2) then -3
                  else if key == null then -4 else 0
    ensures rj.valid == (rc == 0)
    ensures rc == 0 ==>
      && rj.mode == mode && rj.direction == dir
      && rj.initVector[..] == (if initVector == null then Repeat(0, 16) else old(initVector[..16]))
      && rj.rounds == 10 + 2 * keyLen
      && var words := KeyWords(old(key[..]), 4 + 2 * keyLen);
         rj.Schedule() == if dir == ENCRYPT then EncSchedule(words) else DecSchedule(words)
  {
    hide EncSchedule;
    hide DecSchedule;
    hide KeyWords;
    hide Repeat;
    rj.valid := false;
    if mode != CBC && mode != ECB && mode != CFB1 {
      return UNSUPPORTED_MODE;
    }
    rj.mode := mode;
    if dir != ENCRYPT && dir != DECRYPT {
      return UNSUPPORTED_DIRECTION;
    }
    rj.direction := dir;
    SetVector(rj, initVector);
    assert key != null ==> key[..] == old(key[..]);
    rc := Prepare(rj, key, keyLen);
  }

  // What follows once mode, direction and vector are set: the number of rounds and the schedule.
  method Prepare(rj: Rijndael, key: array?<byte>, keyLen: int) returns (rc: int)
    requires WellFormed(rj) && !rj.valid && (rj.direction == ENCRYPT || rj.direction == DECRYPT)
    requires key != null && 0 <= keyLen <= 2 ==> 16 + 8 * keyLen <= key.Length
    modifies rj`rounds, rj`valid, rj.expandedKey
    ensures rc == if !(0 <= keyLen <= 2) then -3 else if key == null then -4 else 0
    ensures rj.valid == (rc == 0)
    ensures rc == 0 ==>
      && rj.Ready() && rj.rounds == 10 + 2 * keyLen
      && var words := KeyWords(old(key[..]), 4 + 2 * keyLen);
         rj.Schedule() == if rj.direction == ENCRYPT then EncSchedule(words) else DecSchedule(words)
  {
    hide EncSchedule;
    hide DecSchedule;
    hide KeyWords;
    match keyLen {
      case 0 => rj.rounds := 10;
      case 1 => rj.rounds := 12;
      case 2 => rj.rounds := 14;
      case _ => return UNSUPPORTED_KEY_LENGTH;
    }
    if key == null {
      return BAD_KEY;
    }
    MakeValid(rj, key, keyLen);
    rc := SUCCESS;
  }

  // The last step: the object gets its schedule and becomes usable.
  method MakeValid(rj: Rijndael, key: array<byte>, keyLen: nat)
    requires rj.Ready() && rj.rounds == 10 + 2 * keyLen && 16 + 8 * keyLen <= key.Length
    requires rj.direction == ENCRYPT || rj.direction == DECRYPT
    modifies rj`valid, rj.expandedKey
    ensures rj.valid && rj.Ready()
    ensures var words := KeyWords(old(key[..]), 4 + 2 * keyLen);
            rj.Schedule() == if rj.direction == ENCRYPT then EncSchedule(words) else DecSchedule(words)
  {
    hide KeyWords;
    hide EncSchedule;
    hide DecSchedule;
    assert rj.rounds - 6 == 4 + 2 * keyLen;
    ScheduleKey(rj, key);
    rj.valid := true;
  }

  // The key as words, with room for the longest.
  method KeyMatrix(key: array<byte>, nk: nat) returns (keyMatrix: array<Word>)
    requires nk <= 8 && 4 * nk <= key.Length
    ensures fresh(keyMatrix) && keyMatrix.Length == 8 && keyMatrix[..nk] == KeyWords(key[..], nk)
  {
    keyMatrix := new Word[8](i => ZeroWord);
    for i := 0 to nk
      invariant forall j :: 0 <= j < i ==> keyMatrix[j] == WordAt(key[..], 4 * j)
    {
      keyMatrix[i] := Word(key[4 * i], key[4 * i + 1], key[4 * i + 2], key[4 * i + 3]);
    }
  }

  method ScheduleKey(rj: Rijndael, key: array<byte>)
    requires rj.Ready() && 4 * (rj.rounds - 6) <= key.Length && (rj.direction == ENCRYPT || rj.direction == DECRYPT)
    modifies rj.expandedKey
    ensures var words := KeyWords(key[..], rj.rounds - 6);
            rj.Schedule() == if rj.direction == ENCRYPT then EncSchedule(words) else DecSchedule(words)
  {
    hide KeyWords;
    hide EncSchedule;
    hide DecSchedule;
    hide DecryptionSchedule;
    ghost var words := KeyWords(key[..], rj.rounds - 6);
    var keyMatrix := KeyMatrix(key, rj.rounds - 6);
    ghost var constants := rj.KeySched(keyMatrix);
    if rj.direction == DECRYPT {
      rj.KeyEncToDec();
      DecScheduleIs(words, rj.Schedule());
    }
  }

  // A decryption schedule is determined by the schedule it comes from.
  lemma DecScheduleIs(words: seq<Word>, dw: seq<Word>)
    requires KeyLength(|words|) && |dw| == 4 * (Rounds(|words|) + 1)
    requires DecryptionSchedule(EncSchedule(words), dw, Rounds(|words|))
    ensures dw == DecSchedule(words)
  {
    hide EncSchedule;
  }

  // ---- encryption --------------------------------------------------------------

  lemma PutParts(s: seq<byte>, i: nat, b: Block)
    requires i + 16 <= |s|
    ensures Put(s, i, b)[..i] == s[..i] && Put(s, i, b)[..i + 16] == s[..i] + BlockBytes(b)
    ensures Put(s, i, b)[i + 16..] == s[i + 16..]
  {
  }

  // Enciphers one block, exclusive-ored with the vector, into the output at o.
  method ChainBlock(rj: Rijndael, x: Block, out: array<byte>, o: nat)
    requires rj.Ready() && o + 16 <= out.Length
    modifies out
    ensures out[..] == Put(old(out[..]), o, Cipher(rj.Schedule(), rj.rounds, x))
  {
    hide Cipher;
    hide Put;
    hide BlockAt;
    var block := new byte[16](i => 0);
    PutSame(block[..], 0, x);
    StoreBlock(block, 0, x);
    assert BlockAt(block[..], 0) == x;
    assert rj.Schedule() == old(rj.Schedule());
    rj.Encrypt(block, 0, out, o);
  }

  lemma EncryptStep(w: seq<Word>, nr: nat, prev: Block, src: seq<byte>, out: seq<byte>, i: nat, x: Block)
    requires Enough(w, nr) && 16 * i + 16 <= |src| && 16 * i + 16 <= |out|
    requires x == XorBlock(BlockAt(src, 16 * i), prev)
    ensures var y := Cipher(w, nr, x);
      var next := Put(out, 16 * i, y);
      && out[..16 * i] + CbcEncrypt(w, nr, prev, src[16 * i..])
         == next[..16 * (i + 1)] + CbcEncrypt(w, nr, y, src[16 * (i + 1)..])
      && next[16 * (i + 1)..] == out[16 * (i + 1)..] && BlockAt(next, 16 * i) == y
  {
    hide Cipher;
    hide XorBlock;
    var y := Cipher(w, nr, x);
    PutParts(out, 16 * i, y);
    PutSame(out, 16 * i, y);
    SameTail(src, 16 * i);
    hide BlockAt;
    hide Put;
    var rest := CbcEncrypt(w, nr, y, src[16 * (i + 1)..]);
    assert src[16 * i..][16..] == src[16 * (i + 1)..];
    assert out[..16 * i] + (BlockBytes(y) + rest) == (out[..16 * i] + BlockBytes(y)) + rest;
  }

  // The bytes of the input from i on have not been overwritten.
  ghost predicate Unread(input: array<byte>, out: array<byte>, src: seq<byte>, was: seq<byte>, i: nat)
    requires i <= out.Length == |was|
    reads input, out
  {
    && |src| <= input.Length
    && out[i..] == was[i..]
    && if input == out then src == was[..|src|] else src == input[..|src|]
  }

  lemma StillThere(input: array<byte>, out: array<byte>, src: seq<byte>, was: seq<byte>, i: nat)
    requires i + 16 <= |src| && |was| == out.Length && i <= out.Length && Unread(input, out, src, was, i)
    ensures BlockAt(input[..], i) == BlockAt(src, i)
  {
    if input == out {
      SameTail(out[..], i);
      SameTail(was, i);
      SameBlock(was, src, i);
    } else {
      SameBlock(input[..], src, i);
    }
  }

  // The chaining loop over the first m blocks of src; prev stands for the vector the pointer iv designates.
  method CbcEncryptLoop(rj: Rijndael, input: array<byte>, m: nat, out: array<byte>, ghost src: seq<byte>)
    returns (prev: Block)
    requires rj.Ready() && out != rj.initVector && 16 * m <= input.Length && 16 * m <= out.Length
    requires 16 * m <= |src| && input[..16 * m] == src[..16 * m]
    modifies out
    ensures CbcEncrypt(rj.Schedule(), rj.rounds, BlockAt(rj.initVector[..], 0), src)
         == out[..16 * m] + CbcEncrypt(rj.Schedule(), rj.rounds, prev, src[16 * m..])
    ensures out[16 * m..] == old(out[16 * m..])
  {
    hide Cipher;
    hide BlockAt;
    hide XorBlock;
    hide Put;
    hide CbcEncrypt;
    ghost var w, nr, was := rj.Schedule(), rj.rounds, out[..];
    ghost var iv := BlockAt(rj.initVector[..], 0);
    prev := LoadBlock(rj.initVector, 0);
    for i := 0 to m
      invariant rj.Schedule() == w && BlockAt(rj.initVector[..], 0) == iv
      invariant CbcEncrypt(w, nr, iv, src) == out[..16 * i] + CbcEncrypt(w, nr, prev, src[16 * i..])
      invariant Unread(input, out, src[..16 * m], was, 16 * i)
    {
      StillThere(input, out, src[..16 * m], was, 16 * i);
      SameBlock(src, src[..16 * m], 16 * i);
      ghost var before := out[..];
      var x := XorBlock(LoadBlock(input, 16 * i), prev);
      EncryptStep(w, nr, prev, src, before, i, x);
      ChainBlock(rj, x, out, 16 * i);
      prev := LoadBlock(out, 16 * i);
      NextTail(before, was, 16 * i);
    }
  }

  lemma NextTail(before: seq<byte>, was: seq<byte>, i: nat)
    requires i + 16 <= |before| == |was| && before[i..] == was[i..]
    ensures before[i + 16..] == was[i + 16..]
  {
    assert before[i + 16..] == before[i..][16..];
    assert was[i + 16..] == was[i..][16..];
  }

  method EcbEncryptLoop(rj: Rijndael, input: array<byte>, m: nat, out: array<byte>, ghost src: seq<byte>)
    requires rj.Ready() && 16 * m <= input.Length && 16 * m <= out.Length
    requires 16 * m <= |src| && input[..16 * m] == src[..16 * m]
    modifies out
    ensures EcbEncrypt(rj.Schedule(), rj.rounds, src) == out[..16 * m] + EcbEncrypt(rj.Schedule(), rj.rounds, src[16 * m..])
    ensures out[16 * m..] == old(out[16 * m..])
  {
    hide Cipher;
    hide BlockAt;
    hide Put;
    hide EcbEncrypt;
    ghost var w, nr, was := rj.Schedule(), rj.rounds, out[..];
    for i := 0 to m
      invariant rj.Schedule() == w
      invariant EcbEncrypt(w, nr, src) == out[..16 * i] + EcbEncrypt(w, nr, src[16 * i..])
      invariant Unread(input, out, src[..16 * m], was, 16 * i)
    {
      StillThere(input, out, src[..16 * m], was, 16 * i);
      SameBlock(src, src[..16 * m], 16 * i);
      ghost var before := out[..];
      EcbEncryptStep(w, nr, src, before, i);
      rj.Encrypt(input, 16 * i, out, 16 * i);
      NextTail(before, was, 16 * i);
    }
  }

  lemma EcbEncryptStep(w: seq<Word>, nr: nat, src: seq<byte>, out: seq<byte>, i: nat)
    requires Enough(w, nr) && 16 * i + 16 <= |src| && 16 * i + 16 <= |out|
    ensures var next := Put(out, 16 * i, Cipher(w, nr, BlockAt(src, 16 * i)));
      && out[..16 * i] + EcbEncrypt(w, nr, src[16 * i..]) == next[..16 * (i + 1)] + EcbEncrypt(w, nr, src[16 * (i + 1)..])
      && next[16 * (i + 1)..] == out[16 * (i + 1)..]
  {
    hide Cipher;
    var y := Cipher(w, nr, BlockAt(src, 16 * i));
    PutParts(out, 16 * i, y);
    SameTail(src, 16 * i);
    hide BlockAt;
    hide Put;
    var rest := EcbEncrypt(w, nr, src[16 * (i + 1)..]);
    assert src[16 * i..][16..] == src[16 * (i + 1)..];
    assert out[..16 * i] + (BlockBytes(y) + rest) == (out[..16 * i] + BlockBytes(y)) + rest;
  }

  function EncryptBytes(mode: int, w: seq<Word>, nr: nat, iv: Block, p: seq<byte>): (c: seq<byte>)
    requires Enough(w, nr)
    ensures |c| == |p|
  {
    if mode == ECB then EcbEncrypt(w, nr, p) else CbcEncrypt(w, nr, iv, p)
  }

  // The chaining branch enciphers its first block before it looks at the count.
  function BlocksEncrypted(mode: int, bits: int): nat
    requires bits > 0
  {
    if mode == CBC && bits < 128 then 1 else bits / 128
  }

  ghost predicate Runs(rj: Rijndael, direction: int, input: array?<byte>, length: int)
    reads rj
  {
    rj.valid && rj.direction == direction && input != null && length > 0
  }

  /** Enciphers whole blocks; input and out may be the same buffer.  Lengths are in bits. */
  method BlockEncrypt(rj: Rijndael, input: array?<byte>, inputLen: int, out: array<byte>) returns (n: int)
    requires WellFormed(rj) && rj.mode != CFB1 && out != rj.initVector
    requires Runs(rj, ENCRYPT, input, inputLen) ==> 16 * BlocksEncrypted(rj.mode, inputLen) <= input.Length
    requires Runs(rj, ENCRYPT, input, inputLen) ==> 16 * BlocksEncrypted(rj.mode, inputLen) <= out.Length
    modifies out
    ensures n == if !rj.valid then -5 else if rj.direction != 0 then -6
                 else if input == null || inputLen <= 0 then 0 else 128 * (inputLen / 128)
    ensures !Runs(rj, ENCRYPT, input, inputLen) ==> out[..] == old(out[..])
    ensures Runs(rj, ENCRYPT, input, inputLen) ==>
      var m, iv := 16 * BlocksEncrypted(rj.mode, inputLen), BlockAt(rj.initVector[..], 0);
      && out[..m] == EncryptBytes(rj.mode, rj.Schedule(), rj.rounds, iv, old(input[..m]))
      && out[m..] == old(out[m..])
  {
    if !rj.valid {
      return NOT_INITIALIZED;
    }
    if rj.direction != ENCRYPT {
      return BAD_DIRECTION;
    }
    if input == null || inputLen <= 0 {
      return 0;
    }
    hide CbcEncrypt;
    hide EcbEncrypt;
    hide BlockAt;
    ghost var iv := BlockAt(rj.initVector[..], 0);
    var numBlocks := inputLen / 128;
    if rj.mode == ECB {
      EcbEncryptLoop(rj, input, numBlocks, out, input[..16 * numBlocks]);
      NothingLeft(rj.Schedule(), rj.rounds, iv, old(input[..16 * numBlocks])[16 * numBlocks..]);
    } else {
      var m := if numBlocks == 0 then 1 else numBlocks;
      var prev := CbcEncryptLoop(rj, input, m, out, input[..16 * m]);
      NothingLeft(rj.Schedule(), rj.rounds, prev, old(input[..16 * m])[16 * m..]);
    }
    return 128 * numBlocks;
  }

  lemma SameBlock(s: seq<byte>, t: seq<byte>, i: nat)
    requires i + 16 <= |s| && i + 16 <= |t|
    requires forall k :: i <= k < i + 16 ==> s[k] == t[k]
    ensures BlockAt(s, i) == BlockAt(t, i)
  {
  }

  lemma SameTail(s: seq<byte>, i: nat)
    requires i + 16 <= |s|
    ensures BlockAt(s[i..], 0) == BlockAt(s, i)
  {
  }

  lemma PadAt(d: seq<byte>, i: nat)
    requires i < |Pad(d)|
    ensures Pad(d)[i] == if i < |d| then d[i] else PadLength(|d|) as byte
  {
  }

  lemma XorBytes(s: seq<byte>, p: seq<byte>, from: nat, iv: Block)
    requires |s| == 16 && from + 16 <= |p|
    requires forall k :: 0 <= k < 16 ==> s[k] == Add(p[from + k], BlockBytes(iv)[k])
    ensures BlockAt(s, 0) == XorBlock(BlockAt(p, from), iv)
  {
    hide Add;
  }

  lemma PadSizes(d: seq<byte>, from: nat)
    requires from <= |d| && |d| - from < 16 && from % 16 == 0
    ensures |Pad(d)| == from + 16 && PadLength(|d|) == 16 - (|d| - from)
  {
  }

  // One block: the input from `from` on, filled up with the length of the padding, and XORed with v.
  method FillBlock(input: array<byte>, from: nat, count: nat, v: seq<byte>, block: array<byte>)
    requires count < 16 && from + count <= input.Length && |v| == 16 && block.Length == 16 && block != input
    modifies block
    ensures forall k :: 0 <= k < 16 ==> block[k] == Add(if k < count then input[from + k] else (16 - count) as byte, v[k])
  {
    hide Add;
    for i := 0 to count
      invariant forall k :: 0 <= k < i ==> block[k] == Add(input[from + k], v[k])
    {
      block[i] := Add(input[from + i], v[i]);
    }
    for i := count to 16
      invariant forall k :: 0 <= k < i ==> block[k] == Add(if k < count then input[from + k] else (16 - count) as byte, v[k])
    {
      block[i] := Add((16 - count) as byte, v[i]);
    }
  }

  lemma PaddedBlock(d: seq<byte>, from: nat, rest: seq<byte>, b: seq<byte>, iv: Block)
    requires from % 16 == 0 && from <= |d| && rest == d[from..] && |rest| < 16 && |b| == 16
    requires forall k :: 0 <= k < 16 ==> b[k] == Add(if k < |rest| then rest[k] else (16 - |rest|) as byte, BlockBytes(iv)[k])
    ensures |Pad(d)| == from + 16 && BlockAt(b, 0) == XorBlock(BlockAt(Pad(d), from), iv)
  {
    var p := Pad(d);
    PadSizes(d, from);
    hide Add;
    hide Pad;
    hide PadLength;
    hide BlockBytes;
    hide BlockAt;
    hide XorBlock;
    forall k | 0 <= k < 16 ensures b[k] == Add(p[from + k], BlockBytes(iv)[k]) {
      PadAt(d, from + k);
    }
    XorBytes(b, p, from, iv);
  }

  // The last block of the padded bytes d, of which the input still holds those from `from` on.
  method LastBlock(input: array<byte>, from: nat, length: nat, iv: Block, ghost d: seq<byte>) returns (x: Block)
    requires from <= length <= input.Length && length - from < 16 && from % 16 == 0
    requires |d| == length && input[from..length] == d[from..]
    ensures |Pad(d)| == from + 16 && x == XorBlock(BlockAt(Pad(d), from), iv)
  {
    hide Add;
    hide Pad;
    hide BlockBytes;
    hide BlockAt;
    hide XorBlock;
    var block := new byte[16](i => 0);
    FillBlock(input, from, length - from, BlockBytes(iv), block);
    PaddedBlock(d, from, input[from..length], block[..], iv);
    x := LoadBlock(block, 0);
  }

  /** Enciphers any number of bytes, filling the last block.  Lengths are in bytes. */
  method PadEncrypt(rj: Rijndael, input: array?<byte>, inputOctets: int, out: array<byte>) returns (n: int)
    requires WellFormed(rj) && out != rj.initVector
    requires Runs(rj, ENCRYPT, input, inputOctets) && rj.mode != CFB1 ==>
      inputOctets <= input.Length && 16 * (inputOctets / 16 + 1) <= out.Length
    modifies out
    ensures n == if !rj.valid || rj.direction != 0 then -5
                 else if input == null || inputOctets <= 0 then 0 else if rj.mode == CFB1 then -1 else 16 * (inputOctets / 16 + 1)
    ensures !Runs(rj, ENCRYPT, input, inputOctets) || rj.mode == CFB1 ==> out[..] == old(out[..])
    ensures Runs(rj, ENCRYPT, input, inputOctets) && rj.mode != CFB1 ==>
      var iv := BlockAt(rj.initVector[..], 0);
      && out[..n] == EncryptBytes(rj.mode, rj.Schedule(), rj.rounds, iv, Pad(old(input[..inputOctets])))
      && out[n..] == old(out[n..])
  {
    if !rj.valid {
      return NOT_INITIALIZED;
    }
    if rj.direction != ENCRYPT {
      return NOT_INITIALIZED;
    }
    if input == null || inputOctets <= 0 {
      return 0;
    }
    var numBlocks := inputOctets / 16;
    if rj.mode == ECB {
      PadEncryptEcb(rj, input, inputOctets, out);
    } else if rj.mode == CBC {
      PadEncryptCbc(rj, input, inputOctets, out);
    } else {
      return -1;
    }
    return 16 * (numBlocks + 1);
  }

  method PadEncryptEcb(rj: Rijndael, input: array<byte>, octets: nat, out: array<byte>)
    requires rj.Ready() && octets <= input.Length && 16 * (octets / 16 + 1) <= out.Length
    modifies out
    ensures var n := 16 * (octets / 16 + 1);
      && out[..n] == EcbEncrypt(rj.Schedule(), rj.rounds, Pad(old(input[..octets]))) && out[n..] == old(out[n..])
  {
    hide Cipher;
    hide BlockAt;
    hide XorBlock;
    hide Put;
    hide Pad;
    hide EcbEncrypt;
    ghost var w, nr, d, was := rj.Schedule(), rj.rounds, input[..octets], out[..];
    var m := octets / 16;
    ghost var p := Pad(d);
    PadParts(d);
    assert input[..16 * m] == p[..16 * m];
    EcbEncryptLoop(rj, input, m, out, p);
    TailStillThere(input, out, d, was, 16 * m);
    var zero := Block(ZeroWord, ZeroWord, ZeroWord, ZeroWord);
    var x := LastBlock(input, 16 * m, octets, zero, d);
    XorZero(BlockAt(p, 16 * m));
    ghost var before := out[..];
    ChainBlock(rj, x, out, 16 * m);
    EcbEncryptStep(w, nr, p, before, m);
    NothingLeft(w, nr, x, p[16 * (m + 1)..]);
    FinishPad(before, was, out[..], 16 * m, Cipher(w, nr, x));
  }

  method PadEncryptCbc(rj: Rijndael, input: array<byte>, octets: nat, out: array<byte>)
    requires rj.Ready() && out != rj.initVector && octets <= input.Length && 16 * (octets / 16 + 1) <= out.Length
    modifies out
    ensures var n, iv := 16 * (octets / 16 + 1), BlockAt(rj.initVector[..], 0);
      && out[..n] == CbcEncrypt(rj.Schedule(), rj.rounds, iv, Pad(old(input[..octets])))
      && out[n..] == old(out[n..])
  {
    hide Cipher;
    hide BlockAt;
    hide XorBlock;
    hide Put;
    hide Pad;
    hide CbcEncrypt;
    ghost var w, nr, d, was := rj.Schedule(), rj.rounds, input[..octets], out[..];
    var m := octets / 16;
    ghost var p := Pad(d);
    PadParts(d);
    assert input[..16 * m] == p[..16 * m];
    var prev := CbcEncryptLoop(rj, input, m, out, p);
    TailStillThere(input, out, d, was, 16 * m);
    var x := LastBlock(input, 16 * m, octets, prev, d);
    ghost var before := out[..];
    ChainBlock(rj, x, out, 16 * m);
    EncryptStep(w, nr, prev, p, before, m, x);
    NothingLeft(w, nr, Cipher(w, nr, x), p[16 * (m + 1)..]);
    FinishPad(before, was, out[..], 16 * m, Cipher(w, nr, x));
  }

  lemma XorZero(x: Block)
    ensures XorBlock(x, Block(ZeroWord, ZeroWord, ZeroWord, ZeroWord)) == x
  {
    hide Add;
    forall b: byte { Field.AddLaws(b, 0); }
  }

  lemma NothingLeft(w: seq<Word>, nr: nat, y: Block, t: seq<byte>)
    requires Enough(w, nr) && |t| == 0
    ensures CbcEncrypt(w, nr, y, t) == [] && EcbEncrypt(w, nr, t) == []
  {
  }

  lemma FinishPad(before: seq<byte>, was: seq<byte>, out: seq<byte>, i: nat, y: Block)
    requires i + 16 <= |before| == |was| && before[i..] == was[i..] && out == Put(before, i, y)
    ensures out[i + 16..] == was[i + 16..]
  {
    PutParts(before, i, y);
    hide Put;
    assert before[i + 16..] == before[i..][16..];
    assert was[i + 16..] == was[i..][16..];
  }

  lemma PadParts(d: seq<byte>)
    ensures var m := |d| / 16; 16 * m <= |d| && |Pad(d)| == 16 * (m + 1) && Pad(d)[..16 * m] == d[..16 * m]
  {
  }

  lemma TailStillThere(input: array<byte>, out: array<byte>, d: seq<byte>, was: seq<byte>, i: nat)
    requires i <= |d| <= input.Length && |was| == out.Length && i <= out.Length
    requires if input == out then out[i..] == was[i..] && d == was[..|d|] else d == input[..|d|]
    ensures input[i..|d|] == d[i..]
  {
  }

  // ---- decryption --------------------------------------------------------------

  lemma DecryptStep(w: seq<Word>, nr: nat, iv: Block, src: seq<byte>, out: seq<byte>, i: nat)
    requires Enough(w, nr) && 16 * i + 16 <= |src| && 16 * i + 16 <= |out|
    ensures var y := BlockAt(src, 16 * i);
            var next := Put(out, 16 * i, XorBlock(EqInvCipher(w, nr, y), iv));
      && out[..16 * i] + CbcDecrypt(w, nr, iv, src[16 * i..])
         == next[..16 * (i + 1)] + CbcDecrypt(w, nr, y, src[16 * (i + 1)..])
      && next[16 * (i + 1)..] == out[16 * (i + 1)..]
  {
    hide EqInvCipher;
    hide XorBlock;
    var y := BlockAt(src, 16 * i);
    var x := XorBlock(EqInvCipher(w, nr, y), iv);
    PutParts(out, 16 * i, x);
    SameTail(src, 16 * i);
    hide BlockAt;
    hide Put;
    var rest := CbcDecrypt(w, nr, y, src[16 * (i + 1)..]);
    assert src[16 * i..][16..] == src[16 * (i + 1)..];
    assert out[..16 * i] + (BlockBytes(x) + rest) == (out[..16 * i] + BlockBytes(x)) + rest;
  }

  // One chained block of plaintext: the input block at i, deciphered and unchained.
  method UnchainBlock(rj: Rijndael, input: array<byte>, i: nat, iv: Block) returns (x: Block)
    requires rj.Ready() && i + 16 <= input.Length
    ensures x == XorBlock(EqInvCipher(rj.Schedule(), rj.rounds, BlockAt(input[..], i)), iv)
  {
    hide EqInvCipher;
    hide Put;
    hide BlockAt;
    hide XorBlock;
    var block := new byte[16](k => 0);
    ghost var was := block[..];
    assert BlockAt(input[..], i) == old(BlockAt(input[..], i));
    rj.Decrypt(input, i, block, 0);
    PutSame(was, 0, EqInvCipher(rj.Schedule(), rj.rounds, BlockAt(input[..], i)));
    x := XorBlock(LoadBlock(block, 0), iv);
  }

  // The unchaining loop over the first m blocks of src; iv is saved from the input before it is overwritten.
  method CbcDecryptLoop(rj: Rijndael, input: array<byte>, m: nat, out: array<byte>, ghost src: seq<byte>)
    returns (iv: Block)
    requires rj.Ready() && out != rj.initVector && 16 * m <= input.Length && 16 * m <= out.Length
    requires 16 * m <= |src| && input[..16 * m] == src[..16 * m]
    modifies out
    ensures CbcDecrypt(rj.Schedule(), rj.rounds, BlockAt(rj.initVector[..], 0), src)
         == out[..16 * m] + CbcDecrypt(rj.Schedule(), rj.rounds, iv, src[16 * m..])
    ensures out[16 * m..] == old(out[16 * m..])
  {
    hide EqInvCipher;
    hide BlockAt;
    hide XorBlock;
    hide Put;
    hide CbcDecrypt;
    ghost var w, nr, was := rj.Schedule(), rj.rounds, out[..];
    ghost var iv0 := BlockAt(rj.initVector[..], 0);
    iv := LoadBlock(rj.initVector, 0);
    for i := 0 to m
      invariant rj.Schedule() == w && BlockAt(rj.initVector[..], 0) == iv0
      invariant CbcDecrypt(w, nr, iv0, src) == out[..16 * i] + CbcDecrypt(w, nr, iv, src[16 * i..])
      invariant Unread(input, out, src[..16 * m], was, 16 * i)
    {
      StillThere(input, out, src[..16 * m], was, 16 * i);
      SameBlock(src, src[..16 * m], 16 * i);
      ghost var before := out[..];
      var x := UnchainBlock(rj, input, 16 * i, iv);
      DecryptStep(w, nr, iv, src, before, i);
      iv := LoadBlock(input, 16 * i);
      StoreBlock(out, 16 * i, x);
      NextTail(before, was, 16 * i);
    }
  }

  lemma EcbDecryptStep(w: seq<Word>, nr: nat, src: seq<byte>, out: seq<byte>, i: nat)
    requires Enough(w, nr) && 16 * i + 16 <= |src| && 16 * i + 16 <= |out|
    ensures var next := Put(out, 16 * i, EqInvCipher(w, nr, BlockAt(src, 16 * i)));
      && out[..16 * i] + EcbDecrypt(w, nr, src[16 * i..]) == next[..16 * (i + 1)] + EcbDecrypt(w, nr, src[16 * (i + 1)..])
      && next[16 * (i + 1)..] == out[16 * (i + 1)..]
  {
    hide EqInvCipher;
    var y := EqInvCipher(w, nr, BlockAt(src, 16 * i));
    PutParts(out, 16 * i, y);
    SameTail(src, 16 * i);
    hide BlockAt;
    hide Put;
    var rest := EcbDecrypt(w, nr, src[16 * (i + 1)..]);
    assert src[16 * i..][16..] == src[16 * (i + 1)..];
    assert out[..16 * i] + (BlockBytes(y) + rest) == (out[..16 * i] + BlockBytes(y)) + rest;
  }

  method EcbDecryptLoop(rj: Rijndael, input: array<byte>, m: nat, out: array<byte>, ghost src: seq<byte>)
    requires rj.Ready() && 16 * m <= input.Length && 16 * m <= out.Length
    requires 16 * m <= |src| && input[..16 * m] == src[..16 * m]
    modifies out
    ensures EcbDecrypt(rj.Schedule(), rj.rounds, src) == out[..16 * m] + EcbDecrypt(rj.Schedule(), rj.rounds, src[16 * m..])
    ensures out[16 * m..] == old(out[16 * m..])
  {
    hide EqInvCipher;
    hide BlockAt;
    hide Put;
    hide EcbDecrypt;
    ghost var w, nr, was := rj.Schedule(), rj.rounds, out[..];
    for i := 0 to m
      invariant rj.Schedule() == w
      invariant EcbDecrypt(w, nr, src) == out[..16 * i] + EcbDecrypt(w, nr, src[16 * i..])
      invariant Unread(input, out, src[..16 * m], was, 16 * i)
    {
      StillThere(input, out, src[..16 * m], was, 16 * i);
      SameBlock(src, src[..16 * m], 16 * i);
      ghost var before := out[..];
      EcbDecryptStep(w, nr, src, before, i);
      rj.Decrypt(input, 16 * i, out, 16 * i);
      NextTail(before, was, 16 * i);
    }
  }

  function DecryptBytes(mode: int, dw: seq<Word>, nr: nat, iv: Block, c: seq<byte>): (p: seq<byte>)
    requires Enough(dw, nr)
    ensures |p| == |c|
  {
    if mode == ECB then EcbDecrypt(dw, nr, c) else CbcDecrypt(dw, nr, iv, c)
  }

  /** Deciphers whole blocks; input and out may be the same buffer.  Lengths are in bits. */
  method BlockDecrypt(rj: Rijndael, input: array?<byte>, inputLen: int, out: array<byte>) returns (n: int)
    requires WellFormed(rj) && rj.mode != CFB1 && out != rj.initVector
    requires Runs(rj, rj.direction, input, inputLen) && rj.direction != ENCRYPT ==>
      16 * (inputLen / 128) <= input.Length && 16 * (inputLen / 128) <= out.Length
    modifies out
    ensures n == if !rj.valid then -5 else if rj.direction == 0 then -6
                 else if input == null || inputLen <= 0 then 0 else 128 * (inputLen / 128)
    ensures !(Runs(rj, rj.direction, input, inputLen) && rj.direction != ENCRYPT) ==> out[..] == old(out[..])
    ensures Runs(rj, rj.direction, input, inputLen) && rj.direction != ENCRYPT ==>
      var m, iv := 16 * (inputLen / 128), BlockAt(rj.initVector[..], 0);
      && out[..m] == DecryptBytes(rj.mode, rj.Schedule(), rj.rounds, iv, old(input[..m]))
      && out[m..] == old(out[m..])
  {
    if !rj.valid {
      return NOT_INITIALIZED;
    }
    if rj.direction == ENCRYPT {
      return BAD_DIRECTION;
    }
    if input == null || inputLen <= 0 {
      return 0;
    }
    var numBlocks := inputLen / 128;
    if rj.mode == ECB {
      EcbDecryptLoop(rj, input, numBlocks, out, input[..16 * numBlocks]);
    } else {
      var iv := CbcDecryptLoop(rj, input, numBlocks, out, input[..16 * numBlocks]);
    }
    assert |old(input[..16 * numBlocks])[16 * numBlocks..]| == 0;
    return 128 * numBlocks;
  }

  // Takes the padding off the last plaintext block; -1 if there is none.
  method PadOf(last: Block, chained: bool) returns (padLen: int)
    ensures match Unpad(chained, BlockBytes(last))
            case None => padLen == -1
            case Some(d) => 0 <= padLen <= 16 && d == BlockBytes(last)[..16 - padLen]
  {
    var block := BlockBytes(last);
    hide BlockBytes;
    padLen := block[15] as int;
    if (if chained then padLen <= 0 || padLen > 16 else padLen >= 16) {
      return -1;
    }
    for i := 16 - padLen to 16
      invariant forall k :: 16 - padLen <= k < i ==> block[k] == padLen as byte
    {
      if block[i] != padLen as byte {
        return -1;
      }
    }
  }

  method CopyLast(last: Block, count: nat, out: array<byte>, o: nat)
    requires count <= 16 && o + count <= out.Length
    modifies out
    ensures out[..] == old(out[..o]) + BlockBytes(last)[..count] + old(out[o + count..])
  {
    var block := BlockBytes(last);
    hide BlockBytes;
    forall k | 0 <= k < count {
      out[o + k] := block[k];
    }
  }

  // The plaintext of all blocks but the last goes to the output; the last one is returned.
  method DecryptAllButLast(rj: Rijndael, input: array<byte>, octets: nat, out: array<byte>) returns (last: Block)
    requires rj.Ready() && (rj.mode == ECB || rj.mode == CBC) && out != rj.initVector
    requires octets > 0 && octets % 16 == 0 && octets <= input.Length && octets - 16 <= out.Length
    modifies out
    ensures out[..octets - 16] + BlockBytes(last)
         == DecryptBytes(rj.mode, rj.Schedule(), rj.rounds, BlockAt(rj.initVector[..], 0), old(input[..octets]))
    ensures out[octets - 16..] == old(out[octets - 16..])
  {
    hide EqInvCipher;
    hide BlockAt;
    hide XorBlock;
    hide CbcDecrypt;
    hide EcbDecrypt;
    ghost var w, nr, c, was := rj.Schedule(), rj.rounds, input[..octets], out[..];
    var m := octets / 16 - 1;
    assert input[..16 * m] == c[..16 * m];
    if rj.mode == ECB {
      EcbDecryptLoop(rj, input, m, out, c);
      StillThere(input, out, c, was, 16 * m);
      last := UnchainBlock(rj, input, 16 * m, Block(ZeroWord, ZeroWord, ZeroWord, ZeroWord));
      XorZero(EqInvCipher(w, nr, BlockAt(c, 16 * m)));
      OneBlock(w, nr, last, c, 16 * m);
    } else {
      var iv := CbcDecryptLoop(rj, input, m, out, c);
      StillThere(input, out, c, was, 16 * m);
      last := UnchainBlock(rj, input, 16 * m, iv);
      OneBlock(w, nr, iv, c, 16 * m);
    }
  }

  lemma OneBlock(w: seq<Word>, nr: nat, iv: Block, c: seq<byte>, i: nat)
    requires Enough(w, nr) && i + 16 == |c|
    ensures EcbDecrypt(w, nr, c[i..]) == BlockBytes(EqInvCipher(w, nr, BlockAt(c, i)))
    ensures CbcDecrypt(w, nr, iv, c[i..]) == BlockBytes(XorBlock(EqInvCipher(w, nr, BlockAt(c, i)), iv))
  {
    hide EqInvCipher;
    hide XorBlock;
    SameTail(c, i);
    hide BlockAt;
    assert c[i..][16..] == [];
  }

  // The plaintext of a padded buffer, or None if it does not end in padding.
  ghost function Unpadded(rj: Rijndael, input: array<byte>, octets: nat): Option<seq<byte>>
    requires rj.Ready() && rj.initVector.Length == 16 && 16 <= octets <= input.Length
    reads rj, rj.initVector, rj.expandedKey, input
  {
    Unpad(rj.mode == CBC, DecryptBytes(rj.mode, rj.Schedule(), rj.rounds, BlockAt(rj.initVector[..], 0), input[..octets]))
  }

  // The output has room for all that is written: every block but the last, and what is left of that.
  ghost predicate HasRoom(rj: Rijndael, input: array<byte>, octets: nat, room: nat)
    requires rj.Ready() && rj.initVector.Length == 16 && 16 <= octets <= input.Length
    reads rj, rj.initVector, rj.expandedKey, input
  {
    octets - 16 <= room && (octets <= room || Unpadded(rj, input, octets).None? || |Unpadded(rj, input, octets).value| <= room)
  }

  // Writes what is left of the last block behind the others.
  method UnpadLast(last: Block, chained: bool, octets: nat, out: array<byte>) returns (n: int)
    requires 16 <= octets && octets - 16 <= out.Length
    requires match Unpad(chained, BlockBytes(last)) case None => true case Some(d) => octets - 16 + |d| <= out.Length
    modifies out
    ensures match Unpad(chained, BlockBytes(last))
      case None => n == CORRUPTED_DATA && out[..] == old(out[..])
      case Some(d) => n == octets - 16 + |d| && out[..n] == old(out[..octets - 16]) + d && out[n..] == old(out[n..])
  {
    hide BlockBytes;
    hide Unpad;
    var padLen := PadOf(last, chained);
    if padLen < 0 {
      return CORRUPTED_DATA;
    }
    CopyLast(last, 16 - padLen, out, octets - 16);
    n := octets - padLen;
  }

  method UnpadInto(rj: Rijndael, input: array<byte>, octets: nat, out: array<byte>) returns (n: int)
    requires rj.Ready() && (rj.mode == ECB || rj.mode == CBC) && out != rj.initVector
    requires octets > 0 && octets % 16 == 0 && octets <= input.Length && HasRoom(rj, input, octets, out.Length)
    modifies out
    ensures
      var p := DecryptBytes(rj.mode, rj.Schedule(), rj.rounds, BlockAt(rj.initVector[..], 0), old(input[..octets]));
      match Unpad(rj.mode == CBC, p)
      case None => n == CORRUPTED_DATA && out[..octets - 16] == p[..octets - 16] && out[octets - 16..] == old(out[octets - 16..])
      case Some(d) => n == |d| <= out.Length && out[..n] == d && out[n..] == old(out[n..])
  {
    hide BlockBytes;
    hide DecryptBytes;
    hide Unpad;
    hide BlockAt;
    var last := DecryptAllButLast(rj, input, octets, out);
    UnpadLastBlock(rj.mode == CBC, out[..octets - 16], BlockBytes(last));
    n := UnpadLast(last, rj.mode == CBC, octets, out);
  }

  /** Deciphers a padded buffer and takes the padding off.  Lengths are in bytes. */
  method PadDecrypt(rj: Rijndael, input: array?<byte>, inputOctets: int, out: array<byte>) returns (n: int)
    requires WellFormed(rj) && out != rj.initVector
    requires Runs(rj, DECRYPT, input, inputOctets) && inputOctets % 16 == 0 && rj.mode != CFB1 ==>
      inputOctets <= input.Length && HasRoom(rj, input, inputOctets, out.Length)
    modifies out
    ensures !Runs(rj, DECRYPT, input, inputOctets) ==>
      n == (if !rj.valid then -5 else if rj.direction != 1 then -6 else 0)
    ensures Runs(rj, DECRYPT, input, inputOctets) && inputOctets % 16 != 0 ==> n == -7
    ensures Runs(rj, DECRYPT, input, inputOctets) && inputOctets % 16 == 0 && rj.mode == CFB1 ==> n == -1
    ensures !Runs(rj, DECRYPT, input, inputOctets) || inputOctets % 16 != 0 || rj.mode == CFB1 ==> out[..] == old(out[..])
    ensures Runs(rj, DECRYPT, input, inputOctets) && inputOctets % 16 == 0 && rj.mode != CFB1 ==>
      var p := DecryptBytes(rj.mode, rj.Schedule(), rj.rounds, BlockAt(rj.initVector[..], 0), old(input[..inputOctets]));
      var o := inputOctets - 16;
      match Unpad(rj.mode == CBC, p)
      case None => n == -7 && out[..o] == p[..o] && out[o..] == old(out[o..])
      case Some(d) => n == |d| <= out.Length && out[..n] == d && out[n..] == old(out[n..])
  {
    if !rj.valid {
      return NOT_INITIALIZED;
    }
    if rj.direction != DECRYPT {
      return BAD_DIRECTION;
    }
    if input == null || inputOctets <= 0 {
      return 0;
    }
    if inputOctets % 16 != 0 {
      return CORRUPTED_DATA;
    }
    if rj.mode != ECB && rj.mode != CBC {
      return -1;
    }
    hide DecryptBytes;
    hide Unpad;
    hide HasRoom;
    n := UnpadInto(rj, input, inputOctets, out);
  }

  /** Padded chaining gives every byte string back; padded codebook only those that do not fill their blocks. */
  lemma PadRoundTrip(mode: int, key: seq<Word>, iv: Block, d: seq<byte>)
    requires KeyLength(|key|) && (mode == ECB || mode == CBC)
    ensures var nr := Rounds(|key|);
            var p := DecryptBytes(mode, DecSchedule(key), nr, iv, EncryptBytes(mode, EncSchedule(key), nr, iv, Pad(d)));
            |p| == 16 * (|d| / 16 + 1) && (Unpad(mode == CBC, p) == Some(d) <==> mode == CBC || |d| % 16 != 0)
  {
    CbcRoundTrip(key, iv, Pad(d));
    EcbRoundTrip(key, Pad(d));
    UnpadExact(Pad(d), d);
    UnpadCodebook(d);
    hide Pad;
    hide Unpad;
    hide CbcEncrypt;
    hide CbcDecrypt;
    hide EcbEncrypt;
    hide EcbDecrypt;
    hide EncSchedule;
    hide DecSchedule;
  }
}

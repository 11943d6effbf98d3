/** The codec object of codec.c: the cipher of one database page, and the keys of a database. */
module PageCipher {
  import opened Bytes
  import opened Aes
  import opened KeySchedule
  import opened Modes
  import opened RijndaelApi
  import opened Md5
  import opened InitialVector
  import Rc4

  const KEYLENGTH := 16
  const SALT: seq<byte> := [0x73, 0x41, 0x6c, 0x54]

  type Key = k: seq<byte> | |k| == KEYLENGTH witness Repeat(0, KEYLENGTH)

  // ---- the cipher of a page ----------------------------------------------------

  // What the key of a page is the digest of.
  function SaltedKey(key: Key, page: int): (s: seq<byte>)
    requires 0 <= page < MAX_INT
    ensures |s| == KEYLENGTH + 8
  {
    key + Le32(page) + SALT
  }

  /** The salted key: the database key, the page number with its low byte first, and the salt. */
  lemma SaltedKeyBytes(key: Key, page: int)
    requires 0 <= page < MAX_INT
    ensures var s := SaltedKey(key, page);
      s[..16] == key && NumberAt(s, 16) == page && s[20..] == [0x73, 0x41, 0x6c, 0x54]
  {
    Le32Value(page);
    hide Value;
    hide Le32;
  }

  /** What is digested for a page differs for every other page and for every other key. */
  lemma SaltedKeysDistinct(key: Key, page: int, key': Key, page': int)
    requires 0 <= page < MAX_INT && 0 <= page' < MAX_INT
    ensures SaltedKey(key, page) == SaltedKey(key', page') <==> key == key' && page == page'
  {
    SaltedKeyBytes(key, page);
    SaltedKeyBytes(key', page');
    hide SaltedKey;
    hide NumberAt;
  }

  function PageWords(key: Key, page: int): (w: seq<Word>)
    requires 0 <= page < MAX_INT
    ensures |w| == 4
  {
    KeyWords(Digest(SaltedKey(key, page)), 4)
  }

  // The schedule a page is processed with.
  function PageSchedule(key: Key, page: int, encrypt: bool): (w: seq<Word>)
    requires 0 <= page < MAX_INT
    ensures |w| == 44
  {
    if encrypt then EncSchedule(PageWords(key, page)) else DecSchedule(PageWords(key, page))
  }

  function PageVector(page: int): Block
    requires 0 <= page < MAX_INT
  {
    BlockAt(Digest(InitKey(page)), 0)
  }

  function PageEncrypt(key: Key, page: int, data: seq<byte>): (c: seq<byte>)
    requires 0 <= page < MAX_INT
    ensures |c| == |data|
  {
    CbcEncrypt(EncSchedule(PageWords(key, page)), 10, PageVector(page), data)
  }

  function PageDecrypt(key: Key, page: int, c: seq<byte>): (data: seq<byte>)
    requires 0 <= page < MAX_INT
    ensures |data| == |c|
  {
    CbcDecrypt(DecSchedule(PageWords(key, page)), 10, PageVector(page), c)
  }

  /** For each key and page number, encryption and decryption are inverse on data of every length. */
  lemma PageRoundTrip(key: Key, page: int, data: seq<byte>)
    requires 0 <= page < MAX_INT
    ensures PageDecrypt(key, page, PageEncrypt(key, page, data)) == data
    ensures PageEncrypt(key, page, PageDecrypt(key, page, data)) == data
  {
    CbcRoundTrip(PageWords(key, page), PageVector(page), data);
    CbcRoundTripBack(PageWords(key, page), PageVector(page), data);
    hide PageWords;
    hide PageVector;
    hide EncSchedule;
    hide DecSchedule;
    hide CbcEncrypt;
    hide CbcDecrypt;
  }

  /**
   * Every whole block of an encrypted page: the AES-128 cipher, under the digest of the salted key, of the
   * plaintext block combined with the block enciphered before it, or with the digest of the page's initkey.
   */
  lemma PageBlocks(key: Key, page: int, data: seq<byte>, i: nat)
    requires 0 <= page < MAX_INT && 16 * i + 16 <= |data|
    ensures var c := PageEncrypt(key, page, data);
      var before := if i == 0 then BlockAt(Digest(InitKey(page)), 0) else BlockAt(c, 16 * i - 16);
      BlockAt(c, 16 * i)
        == Cipher(EncSchedule(KeyWords(Digest(SaltedKey(key, page)), 4)), 10, XorBlock(BlockAt(data, 16 * i), before))
  {
    hide Cipher;
    hide CbcEncrypt;
    hide EncSchedule;
    hide KeyWords;
    hide Digest;
    hide SaltedKey;
    hide InitKey;
    hide BlockAt;
    hide XorBlock;
    CbcBlocks(EncSchedule(PageWords(key, page)), 10, PageVector(page), data, i);
  }

  // Two pages of two blocks whose second blocks reach the block cipher alike if the first blocks are fixed points.
  function Witness(second: byte): (s: seq<byte>)
    ensures |s| == 32
  {
    [second] + Repeat(0, 15) + [second] + Repeat(0, 15)
  }

  lemma WitnessBlocks(v: byte, rest: seq<byte>)
    ensures var p := Witness(v) + rest; BlockAt(p, 0) == BlockAt(p, 16) && BlockAt(p, 16).c0.b0 == v
  {
  }

  lemma FixedPointLink(w: seq<Word>, iv: Block, p: seq<byte>)
    requires Enough(w, 10) && |p| >= 32
    ensures CbcEncrypt(w, 10, iv, p) == p ==> BlockAt(p, 16) == Cipher(w, 10, XorBlock(BlockAt(p, 16), BlockAt(p, 0)))
  {
    hide Cipher;
    hide CbcEncrypt;
    CbcBlocks(w, 10, iv, p, 1);
  }

  lemma NotBothFixed(w: seq<Word>, iv: Block, p: seq<byte>, q: seq<byte>)
    requires Enough(w, 10) && |p| >= 32 && |q| >= 32
    requires BlockAt(p, 0) == BlockAt(p, 16) != BlockAt(q, 16) == BlockAt(q, 0)
    ensures CbcEncrypt(w, 10, iv, p) != p || CbcEncrypt(w, 10, iv, q) != q
  {
    hide *;
    XorSelf(BlockAt(p, 16), BlockAt(q, 16));
    if CbcEncrypt(w, 10, iv, p) == p && CbcEncrypt(w, 10, iv, q) == q {
      FixedPointLink(w, iv, p);
      FixedPointLink(w, iv, q);
    }
  }

  /** Chaining cannot leave all data unchanged: of these two pages, encryption changes at least one. */
  lemma EncryptionChangesData(key: Key, page: int, rest: seq<byte>)
    requires 0 <= page < MAX_INT
    ensures PageEncrypt(key, page, Witness(0) + rest) != Witness(0) + rest
         || PageEncrypt(key, page, Witness(1) + rest) != Witness(1) + rest
  {
    var w, iv := EncSchedule(PageWords(key, page)), PageVector(page);
    WitnessBlocks(0, rest);
    WitnessBlocks(1, rest);
    hide Witness;
    hide PageWords;
    hide PageVector;
    hide EncSchedule;
    hide CbcEncrypt;
    hide BlockAt;
    NotBothFixed(w, iv, Witness(0) + rest, Witness(1) + rest);
  }

  /** So for every key, page number and page size of at least two blocks, some page image is not its own plaintext. */
  lemma DecryptionChangesData(key: Key, page: int, rest: seq<byte>) returns (image: seq<byte>)
    requires 0 <= page < MAX_INT
    ensures |image| == 32 + |rest| && PageDecrypt(key, page, image) != image
  {
    hide *;
    EncryptionChangesData(key, page, rest);
    PageRoundTrip(key, page, Witness(0) + rest);
    PageRoundTrip(key, page, Witness(1) + rest);
    if PageEncrypt(key, page, Witness(0) + rest) != Witness(0) + rest {
      image := PageEncrypt(key, page, Witness(0) + rest);
    } else {
      image := PageEncrypt(key, page, Witness(1) + rest);
    }
  }

  lemma XorSelf(x: Block, y: Block)
    ensures XorBlock(x, x) == XorBlock(y, y)
  {
  }

  // ---- keys from passwords -----------------------------------------------------

  type Key32 = k: seq<byte> | |k| == 32 witness Repeat(0, 32)

  function PasswordPadding(): Key32 {
    [0x28, 0xBF, 0x4E, 0x5E, 0x4E, 0x75, 0x8A, 0x41, 0x64, 0x00, 0x4E, 0x56, 0xFF, 0xFA, 0x01, 0x08,
     0x2E, 0x2E, 0x00, 0xB6, 0xD0, 0x68, 0x3E, 0x80, 0x2F, 0x0C, 0xA9, 0xFE, 0x64, 0x53, 0x69, 0x7A]
  }

  function PadPassword(password: seq<byte>): Key32 {
    (password + PasswordPadding())[..32]
  }

  lemma PaddingByByte()
    ensures PasswordPadding() ==
      [0x28, 0xBF, 0x4E, 0x5E, 0x4E, 0x75, 0x8A, 0x41, 0x64, 0x00, 0x4E, 0x56, 0xFF, 0xFA, 0x01, 0x08,
       0x2E, 0x2E, 0x00, 0xB6, 0xD0, 0x68, 0x3E, 0x80, 0x2F, 0x0C, 0xA9, 0xFE, 0x64, 0x53, 0x69, 0x7A]
  {
  }

  // The bytes of a password that reach its key.
  function Front(password: seq<byte>): (p: seq<byte>)
    ensures |p| <= 32
  {
    if |password| <= 32 then password else password[..32]
  }

  // A password padded out by hand: the password and the start of the padding, filling the 32 bytes exactly.
  ghost predicate PaddedOut(p: seq<byte>, q: seq<byte>) {
    |p| <= 32 && q == p + PasswordPadding()[..32 - |p|]
  }

  // The first byte of the padding does not occur in it again.
  lemma PaddingStart(k: nat)
    requires 0 < k < 32
    ensures PasswordPadding()[k] != PasswordPadding()[0]
  {
  }

  lemma FrontPads(password: seq<byte>)
    ensures PaddedOut(Front(password), PadPassword(password))
  {
    hide PasswordPadding;
  }

  // A shorter front that pads like a longer one was padded out by hand in the longer one.
  lemma PadLonger(p: seq<byte>, q: seq<byte>)
    requires |p| < |q| <= 32
    ensures p + PasswordPadding()[..32 - |p|] == q + PasswordPadding()[..32 - |q|] <==> |q| == 32 && PaddedOut(p, q)
  {
    var pad := PasswordPadding();
    if |q| < 32 {
      PaddingStart(|q| - |p|);
      hide PasswordPadding;
      assert (p + pad[..32 - |p|])[|q|] == pad[|q| - |p|] != pad[0] == (q + pad[..32 - |q|])[|q|];
    }
  }

  /**
   * Two passwords are padded alike exactly when their first 32 bytes agree, or when one of the two
   * fills the 32 bytes and is the other one padded out by hand.  Short passwords never are, unless equal.
   */
  lemma PadAlike(p: seq<byte>, q: seq<byte>)
    ensures PadPassword(p) == PadPassword(q) <==>
      Front(p) == Front(q) || PaddedOut(Front(p), Front(q)) || PaddedOut(Front(q), Front(p))
    ensures |p| < 32 && |q| < 32 ==> (PadPassword(p) == PadPassword(q) <==> p == q)
  {
    hide PasswordPadding;
    FrontPads(p);
    FrontPads(q);
    hide PadPassword;
    var x, y, pad := Front(p), Front(q), PasswordPadding();
    if |x| == |y| {
      assert (x + pad[..32 - |x|])[..|x|] == x && (y + pad[..32 - |y|])[..|x|] == y;
    } else if |x| < |y| {
      PadLonger(x, y);
    } else {
      PadLonger(y, x);
    }
  }

  // Digests the digest n times more.
  function Rehash(d: Key, n: nat): Key {
    if n == 0 then d else Digest(Rehash(d, n - 1))
  }

  // The key of round i of the owner key.
  function RoundKeyOf(d: Key, i: nat): Key
    requires i < 256
  {
    seq(16, j requires 0 <= j < 16 => Add(d[j], i as byte))
  }

  /** Byte j of the key of round i is byte j of the digest with the round number combined into it. */
  lemma RoundKeyBytes(d: Key, i: nat, j: nat)
    requires i < 256 && j < 16
    ensures RoundKeyOf(d, i)[j] == d[j] ^ (i as bv8)
  {
  }

  function OwnerKey(d: Key, user: Key32, n: nat): Key32
    requires n <= 20
  {
    if n == 0 then user else Rc4.Cipher(RoundKeyOf(d, n - 1), OwnerKey(d, user, n - 1))
  }

  function OwnerDigest(): Key {
    Rehash(Digest(PasswordPadding()), 50)
  }

  /** The key of a database, from its password. */
  function DeriveKey(password: seq<byte>): Key {
    var user := PadPassword(password);
    Rehash(Digest(user + OwnerKey(OwnerDigest(), user, 20)), 50)
  }

  // The results of digesting a digest n times more, one after the other.
  lemma Digests(d: Key, n: nat) returns (chain: seq<Key>)
    ensures |chain| == n + 1 && chain[0] == d && chain[n] == Rehash(d, n)
    ensures forall k :: 0 <= k < n ==> chain[k + 1] == Digest(chain[k])
  {
    hide Digest;
    chain := [d];
    for k := 0 to n
      invariant |chain| == k + 1 && chain[0] == d && chain[k] == Rehash(d, k)
      invariant forall m :: 0 <= m < k ==> chain[m + 1] == Digest(chain[m])
    {
      chain := chain + [Digest(chain[k])];
    }
  }

  // The owner key after each of its rounds, with the key of each round byte by byte.
  lemma Rounds(d: Key, user: Key32, n: nat) returns (owner: seq<Key32>)
    requires n <= 20
    ensures |owner| == n + 1 && owner[0] == user && owner[n] == OwnerKey(d, user, n)
    ensures forall i :: 0 <= i < n ==>
      owner[i + 1] == Rc4.Cipher(seq(16, j requires 0 <= j < 16 => d[j] ^ (i as bv8)), owner[i])
  {
    hide Rc4.Cipher;
    owner := [user];
    for i := 0 to n
      invariant |owner| == i + 1 && owner[0] == user && owner[i] == OwnerKey(d, user, i)
      invariant forall m :: 0 <= m < i ==>
        owner[m + 1] == Rc4.Cipher(seq(16, j requires 0 <= j < 16 => d[j] ^ (m as bv8)), owner[m])
    {
      assert RoundKeyOf(d, i) == seq(16, j requires 0 <= j < 16 => d[j] ^ (i as bv8));
      owner := owner + [Rc4.Cipher(RoundKeyOf(d, i), owner[i])];
    }
  }

  /**
   * How a database key comes about, step by step: 51 digests from the padding string on; twenty rounds
   * over the padded password, each under the last of those digests with the round number combined into every
   * byte; and 51 digests from the padded password and the owner key on.
   */
  lemma KeyChains(password: seq<byte>) returns (first: seq<Key>, owner: seq<Key32>, last: seq<Key>)
    ensures |first| == 51 && forall k :: 0 <= k < 50 ==> first[k + 1] == Digest(first[k])
    ensures first[0] == Digest(PadPassword([]))
    ensures |owner| == 21 && forall i :: 0 <= i < 20 ==>
      owner[i + 1] == Rc4.Cipher(seq(16, j requires 0 <= j < 16 => first[50][j] ^ (i as bv8)), owner[i])
    ensures owner[0] == PadPassword(password)
    ensures |last| == 51 && forall k :: 0 <= k < 50 ==> last[k + 1] == Digest(last[k])
    ensures last[0] == Digest(PadPassword(password) + owner[20])
    ensures DeriveKey(password) == last[50]
  {
    hide Digest;
    hide Rc4.Cipher;
    hide RoundKeyOf;
    assert PadPassword([]) == PasswordPadding() by {
      hide PasswordPadding;
      assert ([] + PasswordPadding())[..32] == PasswordPadding();
    }
    hide PasswordPadding;
    hide PadPassword;
    first := Digests(Digest(PasswordPadding()), 50);
    owner := Rounds(first[50], PadPassword(password), 20);
    last := Digests(Digest(PadPassword(password) + owner[20]), 50);
    hide Rehash;
    hide OwnerKey;
  }

  // The rounds of the owner key, taken off in the reverse order.
  function Unwrap(d: Key, owner: Key32, n: nat): Key32
    requires n <= 20
    decreases n
  {
    if n == 0 then owner else Unwrap(d, Rc4.Cipher(RoundKeyOf(d, n - 1), owner), n - 1)
  }

  /** The twenty rounds lose nothing: the padded password can be recovered from the owner key. */
  lemma {:induction false} OwnerKeyReversible(d: Key, user: Key32, n: nat)
    requires n <= 20
    ensures Unwrap(d, OwnerKey(d, user, n), n) == user
  {
    if n > 0 {
      Rc4.CipherTwice(RoundKeyOf(d, n - 1), OwnerKey(d, user, n - 1));
      hide RoundKeyOf;
      OwnerKeyReversible(d, user, n - 1);
    }
  }
}

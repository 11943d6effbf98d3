/** The codec object of codec.c, with its keys in place. */
module CodecObject {
  import opened Bytes
  import opened KeySchedule
  import opened Modes
  import opened RijndaelObject
  import opened RijndaelApi
  import opened Md5
  import opened InitialVector
  import opened PageCipher
  import Rc4

  // ---- one page ----------------------------------------------------------------

  // Writes the page number, low byte first, behind the database key.
  method PutPage(nkey: array<byte>, page: int)
    requires nkey.Length == KEYLENGTH + 8 && 0 <= page < MAX_INT
    modifies nkey
    ensures nkey[..KEYLENGTH + 4] == old(nkey[..KEYLENGTH]) + Le32(page)
  {
    hide ByteOf;
    nkey[KEYLENGTH + 0] := ByteOf(page);
    nkey[KEYLENGTH + 1] := ByteOf(page / 0x100);
    nkey[KEYLENGTH + 2] := ByteOf(page / 0x1_0000);
    nkey[KEYLENGTH + 3] := ByteOf(page / 0x100_0000);
  }

  method PutSalt(nkey: array<byte>)
    requires nkey.Length == KEYLENGTH + 8
    modifies nkey
    ensures nkey[..] == old(nkey[..KEYLENGTH + 4]) + SALT
  {
    nkey[KEYLENGTH + 4] := 0x73;
    nkey[KEYLENGTH + 5] := 0x41;
    nkey[KEYLENGTH + 6] := 0x6c;
    nkey[KEYLENGTH + 7] := 0x54;
  }

  method SaltKey(encryptionKey: array<byte>, page: int) returns (nkey: array<byte>)
    requires encryptionKey.Length == KEYLENGTH && 0 <= page < MAX_INT
    ensures fresh(nkey) && nkey[..] == SaltedKey(encryptionKey[..], page)
  {
    hide Le32;
    nkey := new byte[KEYLENGTH + 8](i => 0);
    for j := 0 to KEYLENGTH
      invariant nkey[..j] == encryptionKey[..j]
    {
      nkey[j] := encryptionKey[j];
    }
    assert nkey[..KEYLENGTH] == encryptionKey[..];
    PutPage(nkey, page);
    PutSalt(nkey);
  }

  // The key and the vector of a page.
  method PageMaterial(page: int, encryptionKey: array<byte>) returns (pagekey: array<byte>, initial: array<byte>)
    requires encryptionKey.Length == KEYLENGTH && 0 <= page < MAX_INT
    ensures fresh(pagekey) && pagekey.Length == 16 && pagekey[..] == Digest(SaltedKey(encryptionKey[..], page))
    ensures fresh(initial) && initial.Length == 16 && initial[..] == Digest(InitKey(page))
  {
    hide SaltedKey;
    hide InitKey;
    hide Digest;
    var nkey := SaltKey(encryptionKey, page);
    pagekey, initial := new byte[16](i => 0), new byte[16](i => 0);
    GetMD5Binary(nkey, KEYLENGTH + 8, pagekey);
    assert nkey[..KEYLENGTH + 8] == nkey[..] && pagekey[..] == pagekey[..16];
    GenerateInitialVector(page, initial);
    assert initial[..] == initial[..16];
  }

  // Sets the cipher up for the page.
  method SetUpPage(aes: Rijndael, page: int, encrypt: bool, encryptionKey: array<byte>)
    requires WellFormed(aes) && encryptionKey.Length == KEYLENGTH && 0 <= page < MAX_INT
    modifies aes, aes.initVector, aes.expandedKey
    ensures WellFormed(aes) && aes.valid && aes.mode == CBC && aes.rounds == 10
    ensures aes.direction == if encrypt then ENCRYPT else DECRYPT
    ensures BlockAt(aes.initVector[..], 0) == PageVector(page)
    ensures aes.Schedule() == PageSchedule(old(encryptionKey[..]), page, encrypt)
  {
    hide SaltedKey;
    hide InitKey;
    hide Digest;
    hide EncSchedule;
    hide DecSchedule;
    hide KeyWords;
    hide BlockAt;
    var pagekey, initial := PageMaterial(page, encryptionKey);
    assert initial[..16] == initial[..];
    var rc := Init(aes, CBC, if encrypt then ENCRYPT else DECRYPT, pagekey, 0, initial);
  }

  // The bytes at the front of a buffer that the cipher works on: its whole blocks, and for encryption at least one.
  function Processed(encrypt: bool, datalen: int): nat {
    if datalen <= 0 then 0 else if encrypt && datalen < 16 then 16 else 16 * (datalen / 16)
  }

  lemma BitBlocks(datalen: int)
    requires datalen > 0
    ensures datalen * 8 > 0 && datalen * 8 / 128 == datalen / 16
    ensures 16 * BlocksEncrypted(CBC, datalen * 8) == Processed(true, datalen)
  {
  }

  // Runs the cipher, once set up.
  method RunCipher(aes: Rijndael, encrypt: bool, datain: array<byte>, datalen: int, dataout: array<byte>)
    requires WellFormed(aes) && aes.valid && aes.mode == CBC && aes.direction == (if encrypt then ENCRYPT else DECRYPT)
    requires Processed(encrypt, datalen) <= datain.Length && Processed(encrypt, datalen) <= dataout.Length
    requires aes.initVector != dataout
    modifies dataout
    ensures var m := Processed(encrypt, datalen);
      var w, nr, iv, data := aes.Schedule(), aes.rounds, BlockAt(aes.initVector[..], 0), old(datain[..m]);
      && dataout[..m] == (if encrypt then CbcEncrypt(w, nr, iv, data) else CbcDecrypt(w, nr, iv, data))
      && dataout[m..] == old(dataout[m..])
  {
    hide CbcEncrypt;
    hide CbcDecrypt;
    hide BlockAt;
    if datalen > 0 {
      BitBlocks(datalen);
    } else {
      NothingLeft(aes.Schedule(), aes.rounds, BlockAt(aes.initVector[..], 0), []);
    }
    hide Processed;
    var len;
    if encrypt {
      len := BlockEncrypt(aes, datain, datalen * 8, dataout);
    } else {
      len := BlockDecrypt(aes, datain, datalen * 8, dataout);
    }
  }

  /** Enciphers or deciphers one page; datain and dataout may be the same buffer. */
  method CodecAES(aes: Rijndael, page: int, encrypt: bool, encryptionKey: array<byte>,
                  datain: array<byte>, datalen: int, dataout: array<byte>)
    requires WellFormed(aes) && encryptionKey.Length == KEYLENGTH && 0 <= page < MAX_INT
    requires Processed(encrypt, datalen) <= datain.Length && Processed(encrypt, datalen) <= dataout.Length
    requires aes.initVector != datain && aes.initVector != dataout
    modifies aes, aes.initVector, aes.expandedKey, dataout
    ensures WellFormed(aes)
    ensures var m := Processed(encrypt, datalen);
      && dataout[..m] == old(if encrypt then PageEncrypt(encryptionKey[..], page, datain[..m])
                             else PageDecrypt(encryptionKey[..], page, datain[..m]))
      && dataout[m..] == old(dataout[m..])
  {
    hide PageWords;
    hide PageVector;
    hide EncSchedule;
    hide DecSchedule;
    hide CbcEncrypt;
    hide CbcDecrypt;
    hide BlockAt;
    hide Processed;
    ghost var data := datain[..Processed(encrypt, datalen)];
    SetUpPage(aes, page, encrypt, encryptionKey);
    assert datain[..Processed(encrypt, datalen)] == data;
    RunCipher(aes, encrypt, datain, datalen, dataout);
  }

  // ---- keys from passwords -----------------------------------------------------

  method PadInto(password: array<byte>, pswdlen: int, pswd: array<byte>)
    requires pswdlen <= password.Length && pswd.Length == 32 && password != pswd
    modifies pswd
    ensures pswd[..] == PadPassword(if pswdlen < 0 then [] else password[..pswdlen])
    ensures var m := if pswdlen < 0 then 0 else if pswdlen > 32 then 32 else pswdlen;
      && pswd[..m] == password[..m]
      && pswd[m..] == [0x28, 0xBF, 0x4E, 0x5E, 0x4E, 0x75, 0x8A, 0x41, 0x64, 0x00, 0x4E, 0x56, 0xFF, 0xFA, 0x01, 0x08,
                       0x2E, 0x2E, 0x00, 0xB6, 0xD0, 0x68, 0x3E, 0x80, 0x2F, 0x0C, 0xA9, 0xFE, 0x64, 0x53, 0x69, 0x7A][..32 - m]
  {
    hide PasswordPadding;
    var padding := PasswordPadding();
    ghost var target := (if pswdlen < 0 then [] else password[..pswdlen]) + padding;
    var m := if pswdlen > 32 then 32 else pswdlen;
    var p := 0;
    for j := 0 to if m < 0 then 0 else m
      invariant p == j && forall k :: 0 <= k < p ==> pswd[k] == target[k]
    {
      pswd[p] := password[j];
      p := p + 1;
    }
    ghost var n := p;
    var j := 0;
    while p < 32 && j < 32
      invariant n <= p == n + j <= 32 && j <= 32 && forall k :: 0 <= k < p ==> pswd[k] == target[k]
    {
      pswd[p] := padding[j];
      p, j := p + 1, j + 1;
    }
    assert pswd[..n] == password[..n] && pswd[n..] == padding[..32 - n];
    PaddingByByte();
  }

  // Digests the sixteen bytes n times over, in place.
  method RehashInPlace(digest: array<byte>, n: nat)
    requires digest.Length == 16
    modifies digest
    ensures digest[..] == Rehash(old(digest[..]), n)
  {
    hide Digest;
    ghost var d := digest[..];
    for k := 0 to n
      invariant digest[..] == Rehash(d, k)
    {
      assert digest[..16] == digest[..];
      GetMD5Binary(digest, 16, digest);
      assert digest[..16] == digest[..];
    }
  }

  // The twenty rounds over the padded password, in place.
  method WrapOwnerKey(digest: array<byte>, ownerKey: array<byte>)
    requires digest.Length == 16 && ownerKey.Length == 32 && digest != ownerKey
    modifies ownerKey
    ensures ownerKey[..] == OwnerKey(digest[..], old(ownerKey[..]), 20)
  {
    hide Add;
    hide Rc4.Cipher;
    ghost var d, user := digest[..], ownerKey[..];
    var mkey := new byte[16](i => 0);
    for i := 0 to 20
      invariant digest[..] == d && ownerKey[..] == OwnerKey(d, user, i)
    {
      for j := 0 to 16
        invariant forall k :: 0 <= k < j ==> mkey[k] == Add(digest[k], i as byte)
        invariant digest[..] == d && ownerKey[..] == OwnerKey(d, user, i)
      {
        mkey[j] := Add(digest[j], i as byte);
      }
      assert mkey[..16] == RoundKeyOf(d, i);
      assert ownerKey[..32] == ownerKey[..];
      Rc4.CodecRC4(mkey, 16, ownerKey, 32, ownerKey);
      assert ownerKey[..32] == ownerKey[..];
    }
  }

  // The digest of the padded empty password, digested 50 times more.
  method DigestOwner(password: array<byte>, digest: array<byte>)
    requires digest.Length == 16
    modifies digest
    ensures digest[..] == OwnerDigest()
  {
    hide Digest;
    hide PadPassword;
    hide Rehash;
    var ownerPad := new byte[32](i => 0);
    PadInto(password, 0, ownerPad);
    EmptyPassword();
    assert password[..0] == [];
    assert ownerPad[..32] == ownerPad[..] == PasswordPadding();
    GetMD5Binary(ownerPad, 32, digest);
    assert digest[..16] == digest[..];
    RehashInPlace(digest, 50);
  }

  // The digest of two buffers, fed one after the other ...
  method DigestTwoBuffers(userPad: array<byte>, ownerKey: array<byte>, digest: array<byte>)
    requires userPad.Length == 32 && ownerKey.Length == 32 && digest.Length == 16
    modifies digest
    ensures digest[..] == Digest(old(userPad[..]) + old(ownerKey[..]))
  {
    hide Digest;
    hide Context.Valid;
    var ctx := new Context();
    ctx.Update(userPad, 32);
    ctx.Update(ownerKey, 32);
    assert ctx.data == userPad[..] + ownerKey[..];
    ctx.Final(digest);
    assert digest[..16] == digest[..];
  }

  // ... and digested 50 times more.
  method DigestBoth(userPad: array<byte>, ownerKey: array<byte>, digest: array<byte>)
    requires userPad.Length == 32 && ownerKey.Length == 32 && digest.Length == 16
    modifies digest
    ensures digest[..] == Rehash(Digest(old(userPad[..]) + old(ownerKey[..])), 50)
  {
    hide Digest;
    hide Rehash;
    DigestTwoBuffers(userPad, ownerKey, digest);
    RehashInPlace(digest, 50);
  }

  method CopyBytes(source: array<byte>, n: nat, target: array<byte>)
    requires source.Length == n == target.Length
    modifies target
    ensures target[..] == old(source[..])
  {
    forall k | 0 <= k < n {
      target[k] := source[k];
    }
  }

  /** Derives the key of a database from a password of any length. */
  method GenerateEncryptionKey(password: array<byte>, passwordLength: int, encryptionKey: array<byte>)
    requires passwordLength <= password.Length && encryptionKey.Length == KEYLENGTH
    modifies encryptionKey
    ensures encryptionKey[..] == DeriveKey(old(if passwordLength < 0 then [] else password[..passwordLength]))
  {
    hide Digest;
    hide PadPassword;
    hide OwnerKey;
    hide OwnerDigest;
    hide Rehash;
    var userPad, ownerKey, digest := new byte[32](i => 0), new byte[32](i => 0), new byte[16](i => 0);
    PadInto(password, passwordLength, userPad);
    DigestOwner(password, digest);
    CopyBytes(userPad, 32, ownerKey);
    WrapOwnerKey(digest, ownerKey);
    DigestBoth(userPad, ownerKey, digest);
    CopyBytes(digest, KEYLENGTH, encryptionKey);
  }

  lemma EmptyPassword()
    ensures PadPassword([]) == PasswordPadding()
  {
    assert ([] + PasswordPadding())[..32] == PasswordPadding();
  }

  // ---- the codec object --------------------------------------------------------

  // The bytes of a key that was never set; the code does not look at them.
  const NO_KEY: Key := Repeat(0, KEYLENGTH)

  /** What the codec knows about a database. */
  datatype CodecState = CodecState(isEncrypted: bool, hasReadKey: bool, readKey: Key, hasWriteKey: bool, writeKey: Key)

  // What a codec needs to know of the B-tree of its database.
  class Btree {
    const pageSize: nat

    constructor (pageSize: nat)
      ensures this.pageSize == pageSize
    {
      this.pageSize := pageSize;
    }
  }

  class Codec {
    var isEncrypted: bool
    var hasReadKey: bool
    const readKey: array<byte>
    var hasWriteKey: bool
    const writeKey: array<byte>
    const aes: Rijndael
    var bt: Btree?
    const pageBuffer: array<byte>

    ghost predicate Valid()
      reads this, aes
    {
      && readKey.Length == KEYLENGTH && writeKey.Length == KEYLENGTH && readKey != writeKey
      && WellFormed(aes)
      && aes.initVector != readKey && aes.initVector != writeKey && aes.initVector != pageBuffer
      && pageBuffer != readKey && pageBuffer != writeKey
    }

    // Everything a codec owns.
    ghost function Repr(): set<object> {
      {this, readKey, writeKey, aes, aes.initVector, aes.expandedKey, pageBuffer}
    }

    function State(): CodecState
      requires Valid()
      reads this, aes, readKey, writeKey
    {
      CodecState(isEncrypted, hasReadKey, readKey[..], hasWriteKey, writeKey[..])
    }

    constructor (bufferSize: nat)
      ensures Valid() && fresh(Repr()) && pageBuffer.Length == bufferSize
      ensures bt == null && State() == CodecState(false, false, NO_KEY, false, NO_KEY)
    {
      isEncrypted, hasReadKey, hasWriteKey, bt := false, false, false, null;
      readKey := new byte[KEYLENGTH](i => 0);
      writeKey := new byte[KEYLENGTH](i => 0);
      aes := new Rijndael();
      pageBuffer := new byte[bufferSize](i => 0);
      new;
      assert readKey[..] == NO_KEY && writeKey[..] == NO_KEY;
    }

    /** Makes one key a copy of the other. */
    method CopyKey(read2write: bool)
      requires Valid()
      modifies readKey, writeKey
      ensures Valid()
      ensures State() == if read2write then old(State()).(writeKey := old(State()).readKey)
                         else old(State()).(readKey := old(State()).writeKey)
    {
      if read2write {
        for j := 0 to KEYLENGTH
          invariant writeKey[..j] == readKey[..j] && readKey[..] == old(readKey[..])
        {
          writeKey[j] := readKey[j];
        }
        assert writeKey[..] == writeKey[..KEYLENGTH] == readKey[..];
      } else {
        for j := 0 to KEYLENGTH
          invariant readKey[..j] == writeKey[..j] && writeKey[..] == old(writeKey[..])
        {
          readKey[j] := writeKey[j];
        }
        assert readKey[..] == readKey[..KEYLENGTH] == writeKey[..];
      }
    }

    /** Takes over the flags, keys and database of another codec. */
    method Copy(other: Codec)
      requires Valid() && other.Valid() && Repr() !! other.Repr()
      modifies this, readKey, writeKey, aes
      ensures Valid() && State() == old(other.State()) && bt == other.bt && !aes.valid
    {
      isEncrypted, hasReadKey, hasWriteKey := other.isEncrypted, other.hasReadKey, other.hasWriteKey;
      forall j | 0 <= j < KEYLENGTH {
        readKey[j] := other.readKey[j];
      }
      forall j | 0 <= j < KEYLENGTH {
        writeKey[j] := other.writeKey[j];
      }
      assert readKey[..] == other.readKey[..] && writeKey[..] == other.writeKey[..];
      bt := other.bt;
      aes.valid := false;
    }

    method GenerateReadKey(password: array<byte>, passwordLength: int)
      requires Valid() && passwordLength <= password.Length
      modifies readKey
      ensures Valid()
      ensures State() == old(State()).(readKey := DeriveKey(old(if passwordLength < 0 then [] else password[..passwordLength])))
    {
      hide DeriveKey;
      GenerateEncryptionKey(password, passwordLength, readKey);
    }

    method GenerateWriteKey(password: array<byte>, passwordLength: int)
      requires Valid() && passwordLength <= password.Length
      modifies writeKey
      ensures Valid()
      ensures State() == old(State()).(writeKey := DeriveKey(old(if passwordLength < 0 then [] else password[..passwordLength])))
    {
      hide DeriveKey;
      GenerateEncryptionKey(password, passwordLength, writeKey);
    }

    /** Enciphers the blocks at the front of data in place. */
    method Encrypt(page: int, data: array<byte>, len: int, useWriteKey: bool)
      requires Valid() && 0 <= page < MAX_INT && Processed(true, len) <= data.Length
      requires data !in {aes.initVector, readKey, writeKey}
      modifies aes, aes.initVector, aes.expandedKey, data
      ensures Valid() && State() == old(State())
      ensures var m := Processed(true, len);
        && data[..m] == PageEncrypt(if useWriteKey then State().writeKey else State().readKey, page, old(data[..m]))
        && data[m..] == old(data[m..])
    {
      hide PageEncrypt;
      hide PageDecrypt;
      hide Processed;
      var key := if useWriteKey then writeKey else readKey;
      CodecAES(aes, page, true, key, data, len, data);
    }

    /** Deciphers the blocks at the front of data in place, under the read key. */
    method Decrypt(page: int, data: array<byte>, len: int)
      requires Valid() && 0 <= page < MAX_INT && Processed(false, len) <= data.Length
      requires data !in {aes.initVector, readKey, writeKey}
      modifies aes, aes.initVector, aes.expandedKey, data
      ensures Valid() && State() == old(State())
      ensures var m := Processed(false, len);
        && data[..m] == PageDecrypt(State().readKey, page, old(data[..m]))
        && data[m..] == old(data[m..])
    {
      hide PageEncrypt;
      hide PageDecrypt;
      hide Processed;
      CodecAES(aes, page, false, readKey, data, len, data);
    }
  }
}

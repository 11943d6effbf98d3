/** codecext.c: the codec at the pager's boundary, and changing the key of a database in use. */
module CodecExt {
  import opened Wrappers
  import opened Bytes
  import opened RekeyRuns
  import opened InitialVector
  import opened PageCipher
  import opened CodecObject
  import opened PagerModel

  const PENDING_BYTE := 0x4000_0000
  const MAX_PAGE_SIZE := 65536

  // The part of a codec's page buffer that is used: all but its first four bytes.
  const PAGE_BUFFER := MAX_PAGE_SIZE + 4

  /** Passes one page through the codec.  Reading modes work in place; writing modes leave the data
      alone and return the codec's own page buffer. */
  method Sqlite3Codec(codec: Codec?, data: array<byte>, n: int, mode: int) returns (r: array<byte>)
    requires codec != null ==> codec.Valid() && data !in codec.Repr()
    requires codec != null && codec.isEncrypted ==>
      && codec.bt != null && 0 < codec.bt.pageSize <= data.Length && codec.bt.pageSize % 16 == 0
      && codec.bt.pageSize <= codec.pageBuffer.Length && 0 <= n < MAX_INT
    modifies data, if codec == null then {} else codec.Repr()
    ensures codec != null ==> codec.Valid() && codec.State() == old(codec.State())
    ensures codec == null || !codec.isEncrypted ==> r == data && data[..] == old(data[..])
    ensures codec != null && codec.isEncrypted ==>
      var size := old(codec.bt.pageSize);
      && codec.bt == old(codec.bt) && r.Length >= size && r[..size] == Transform(codec.State(), n, mode, old(data[..size]))
      && data[size..] == old(data[size..])
      && (r == if (mode == WRITE_PAGE && codec.hasWriteKey) || (mode == WRITE_JOURNAL && codec.hasReadKey) then codec.pageBuffer else data)
      && (r == codec.pageBuffer ==> data[..] == old(data[..]))
    // by the numbers that SQLite passes
    ensures codec != null && codec.isEncrypted ==>
      var size := old(codec.bt.pageSize);
      && (mode == 6 && codec.hasWriteKey ==>
        r == codec.pageBuffer && PageDecrypt(codec.writeKey[..], n, r[..size]) == old(data[..size]))
      && (mode == 7 && codec.hasReadKey ==>
        r == codec.pageBuffer && PageDecrypt(codec.readKey[..], n, r[..size]) == old(data[..size]))
      && ((mode == 0 || mode == 2 || mode == 3) && codec.hasReadKey ==>
        r == data && PageEncrypt(codec.readKey[..], n, data[..size]) == old(data[..size]))
      && (mode != 0 && mode != 2 && mode != 3 && mode != 6 && mode != 7 ==> r == data && data[..] == old(data[..]))
      && ((if mode == 6 then !codec.hasWriteKey else !codec.hasReadKey) ==> r == data && data[..] == old(data[..]))
  {
    hide PageEncrypt;
    hide PageDecrypt;
    r := data;
    if codec == null {
      return;
    }
    if !codec.isEncrypted {
      return;
    }
    var pageSize := codec.bt.pageSize;
    PageRoundTrip(codec.readKey[..], n, data[..pageSize]);
    PageRoundTrip(codec.writeKey[..], n, data[..pageSize]);
    if mode == RELOAD_UNDO || mode == RELOAD || mode == LOAD {
      if codec.hasReadKey {
        codec.Decrypt(n, data, pageSize);
      }
    } else if mode == WRITE_PAGE {
      if codec.hasWriteKey {
        r := CopyToBuffer(codec, data, pageSize);
        codec.Encrypt(n, r, pageSize, true);
      }
    } else if mode == WRITE_JOURNAL {
      if codec.hasReadKey {
        r := CopyToBuffer(codec, data, pageSize);
        codec.Encrypt(n, r, pageSize, false);
      }
    }
  }

  method CopyToBuffer(codec: Codec, data: array<byte>, pageSize: nat) returns (r: array<byte>)
    requires codec.Valid() && data !in codec.Repr() && pageSize <= data.Length && pageSize <= codec.pageBuffer.Length
    modifies codec.pageBuffer
    ensures r == codec.pageBuffer && r[..pageSize] == data[..pageSize]
    ensures codec.Valid() && codec.State() == old(codec.State())
  {
    r := codec.pageBuffer;
    forall k | 0 <= k < pageSize {
      r[k] := data[k];
    }
  }

  // ---- the page that is skipped ------------------------------------------------

  /** The skipped page is the one that holds the byte at 0x4000_0000. */
  lemma LockPage(pageSize: nat, n: int)
    requires pageSize > 0
    ensures n == PENDING_BYTE / pageSize + 1 <==> (n - 1) * pageSize <= 0x4000_0000 < n * pageSize
  {
    var q := 0x4000_0000 / pageSize;
    assert q * pageSize <= 0x4000_0000 < (q + 1) * pageSize;
    if n - 1 < q {
      Monotone(n, q, pageSize);
    } else if q < n - 1 {
      Monotone(q + 1, n - 1, pageSize);
    }
  }

  lemma Monotone(a: int, b: int, k: nat)
    requires a <= b
    ensures a * k <= b * k
  {
  }

  lemma AllButTheLockPage(c0: Option<CodecState>, p0: Pager, c1: Option<CodecState>, p: Pager, pages: nat, pageSize: nat)
    requires HasPages(p0, pages) && HasPages(p, pages) && pageSize > 0
    requires Carried(c0, p0, c1, p, pages, PENDING_BYTE / pageSize + 1)
    ensures forall n :: 1 <= n <= pages ==>
      if n * pageSize <= 0x4000_0000 || (n - 1) * pageSize > 0x4000_0000 then
        Code(c1, n, LOAD, p.disk[n]) == Code(c0, n, LOAD, p0.disk[n])
      else p.disk[n] == p0.disk[n]
    ensures pages * pageSize <= 0x4000_0000 ==>
      forall n :: 1 <= n <= pages ==> Code(c1, n, LOAD, p.disk[n]) == Code(c0, n, LOAD, p0.disk[n])
  {
    hide Code;
    forall n | 1 <= n <= pages
      ensures n == PENDING_BYTE / pageSize + 1 <==> (n - 1) * pageSize <= 0x4000_0000 < n * pageSize
      ensures n * pageSize <= pages * pageSize
    {
      LockPage(pageSize, n);
      Monotone(n, pages, pageSize);
    }
  }

  // ---- the database ------------------------------------------------------------

  /** One open database: its B-tree and pager, and the codec installed there, if any.  The pager answers
      its calls as the choices say, one after the other. */
  class Database {
    var codec: Codec?
    var pager: Pager
    var clock: nat
    const pages: nat
    const bt: Btree
    const choices: nat -> Choice

    ghost predicate Valid()
      reads this, if codec == null then {} else codec.Repr()
    {
      && 0 < bt.pageSize <= MAX_PAGE_SIZE && bt.pageSize % 16 == 0 && HasPages(pager, pages)
      && (codec != null ==> codec.Valid() && this !in codec.Repr() && codec.pageBuffer.Length >= bt.pageSize)
      && (codec != null && codec.isEncrypted ==> codec.bt == bt)
    }

    constructor (pages: nat, bt: Btree, pager: Pager, choices: nat -> Choice)
      requires 0 < bt.pageSize <= MAX_PAGE_SIZE && bt.pageSize % 16 == 0 && HasPages(pager, pages)
      ensures Valid() && codec == null && this.pager == pager && clock == 0
      ensures this.pages == pages && this.bt == bt && this.choices == choices
    {
      this.codec, this.pager, this.clock, this.pages, this.bt, this.choices := null, pager, 0, pages, bt, choices;
    }

    // What the pager hands its pages to.
    function Coder(): Option<CodecState>
      requires Valid()
      reads this, if codec == null then {} else codec.Repr()
    {
      if codec == null then None else Some(codec.State())
    }

    method PageGet(n: int) returns (rc: int)
      requires Valid() && 1 <= n <= pages
      modifies this`pager, this`clock
      ensures Valid() && Coder() == old(Coder()) && rc == old(choices(clock)).code && clock == old(clock) + 1
      ensures pager == old(AfterGet(pager, Coder(), choices(clock), n))
    {
      hide AfterGet;
      pager := AfterGet(pager, Coder(), choices(clock), n);
      rc := choices(clock).code;
      clock := clock + 1;
    }

    method PageWrite(n: int) returns (rc: int)
      requires Valid() && n in pager.cache
      modifies this`pager, this`clock
      ensures Valid() && Coder() == old(Coder()) && rc == old(choices(clock)).code && clock == old(clock) + 1
      ensures pager == old(AfterWrite(pager, Coder(), choices(clock), n))
    {
      hide AfterWrite;
      pager := AfterWrite(pager, Coder(), choices(clock), n);
      rc := choices(clock).code;
      clock := clock + 1;
    }

    method BeginTrans() returns (rc: int)
      modifies this`clock
      ensures rc == old(choices(clock)).code && clock == old(clock) + 1
    {
      rc := choices(clock).code;
      clock := clock + 1;
    }

    method Commit() returns (rc: int)
      requires Valid()
      modifies this`pager, this`clock
      ensures Valid() && Coder() == old(Coder()) && rc == old(choices(clock)).code && clock == old(clock) + 1
      ensures pager == old(AfterCommit(pager, Coder(), choices(clock)))
    {
      hide AfterCommit;
      pager := AfterCommit(pager, Coder(), choices(clock));
      rc := choices(clock).code;
      clock := clock + 1;
    }

    method Rollback()
      requires Valid()
      modifies this`pager, this`clock
      ensures Valid() && Coder() == old(Coder())
      ensures pager == old(AfterRollback(pager, Coder(), choices(clock))) && clock == old(clock) + 1
    {
      hide AfterRollback;
      pager := AfterRollback(pager, Coder(), choices(clock));
      clock := clock + 1;
    }

    // The loop over the pages.
    method RewritePages(nSkip: int) returns (rc: int, ghost done: nat)
      requires Valid()
      modifies this`pager, this`clock
      ensures Valid() && Coder() == old(Coder())
      ensures Control(rc, done, clock) == old(Loop(choices, clock, 1, pages, nSkip))
      ensures pager == old(LoopPager(pager, Coder(), choices, clock, 1, pages, nSkip))
    {
      hide Code;
      hide AfterGet;
      hide AfterWrite;
      hide Loop;
      hide LoopPager;
      rc, done := SQLITE_OK, 0;
      ghost var c, control, after := Coder(), Loop(choices, clock, 1, pages, nSkip), LoopPager(pager, Coder(), choices, clock, 1, pages, nSkip);
      var n := 1;
      while rc == SQLITE_OK && n <= pages
        invariant Valid() && Coder() == c && 1 <= n <= pages + 1
        invariant if rc == SQLITE_OK then
            done == n - 1 && Loop(choices, clock, n, pages, nSkip) == control && LoopPager(pager, c, choices, clock, n, pages, nSkip) == after
          else Control(rc, done, clock) == control && pager == after
        decreases if rc == SQLITE_OK then 1 else 0, pages - n
      {
        LoopTurns(pager, c, choices, clock, n, pages, nSkip);
        if n == nSkip {
          done := n;
          n := n + 1;
          continue;
        }
        rc := PageGet(n);
        if rc == SQLITE_OK {
          rc := PageWrite(n);
          if rc == SQLITE_OK {
            done := n;
          }
        }
        n := n + 1;
      }
      if rc == SQLITE_OK {
        LoopTurns(pager, c, choices, clock, n, pages, nSkip);
      }
    }

    // ---- attaching a key ---------------------------------------------------------

    // Takes the codec over for this database.
    method Install(other: Codec)
      requires Valid() && other.Valid() && this !in other.Repr() && other.pageBuffer.Length >= bt.pageSize
      modifies this`codec, other`bt
      ensures Valid() && codec == other && Coder() == Some(old(other.State()))
    {
      other.bt := bt;
      codec := other;
    }

    /** sqlite3CodecAttach for database number nDb: installs a codec for the key, or without a key a
        copy of the main database's codec if that is asked for and that database is encrypted. */
    method Attach(main: Database, nDb: nat, zKey: array?<byte>, nKey: int) returns (rc: int)
      requires Valid() && main.Valid()
      requires zKey != null ==> nKey <= zKey.Length
      modifies this`codec
      ensures Valid() && rc == SQLITE_OK
      ensures codec == old(codec) || (codec != null && fresh(codec.Repr()))
      ensures Coder() ==
        if zKey != null && nKey > 0 then
          var key := DeriveKey(zKey[..nKey]);
          Some(CodecState(true, true, key, true, key))
        else if nDb != 0 && nKey < 0 && Encrypted(old(main.Coder())) then old(main.Coder())
        else old(Coder())
    {
      hide DeriveKey;
      rc := SQLITE_OK;
      if zKey == null || nKey <= 0 {
        if nDb != 0 && nKey < 0 {
          if main.codec != null && main.codec.isEncrypted {
            var other := new Codec(PAGE_BUFFER);
            other.Copy(main.codec);
            Install(other);
          }
        }
      } else {
        var other := new Codec(PAGE_BUFFER);
        other.isEncrypted, other.hasReadKey, other.hasWriteKey := true, true, true;
        other.GenerateReadKey(zKey, nKey);
        other.CopyKey(true);
        Install(other);
      }
    }

    // ---- changing the key --------------------------------------------------------

    // Page number of the lock bytes; the database never uses it.
    function SkippedPage(): int
      requires bt.pageSize > 0
    {
      PENDING_BYTE / bt.pageSize + 1
    }

    /** sqlite3_rekey.  From version 3006000 on the page loop counts errors in a variable of its own,
        so they do not reach the test before the commit; done says how many pages it got through. */
    method Rekey(version: nat, zKey: array?<byte>, nKey: int) returns (rc: int, ghost done: nat)
      requires Valid() && Idle(pager, Coder())
      requires zKey != null ==> nKey <= zKey.Length
      modifies this`codec, this`pager, this`clock, if codec == null then {} else codec.Repr()
      ensures Valid() && done <= pages
      // the whole outcome, as a function of the answers of the pager
      ensures Outcome(rc, done, clock, Coder(), pager) ==
        old(Rekeyed(Coder(), pager, NewKey(zKey, nKey), choices, clock, version, pages, SkippedPage()))
      // every page is rewritten and committed exactly when no call of the pager fails
      ensures rc == SQLITE_OK && done == pages <==> NoError(choices, old(clock), clock)
      ensures rc == SQLITE_OK && version < 3006000 ==> done == pages
      // with nothing to do, nothing changes
      ensures old(NewKey(zKey, nKey)).None? && !Encrypted(old(Coder())) ==>
        rc == SQLITE_OK && done == pages && pager == old(pager) && Coder() == old(Coder())
      // success: the pages the loop got through read as before under the codec left behind, and the others keep their images
      ensures rc == SQLITE_OK ==> Carried(old(Coder()), old(pager), Coder(), pager, done, SkippedPage())
      ensures rc == SQLITE_OK ==>
        match old(NewKey(zKey, nKey))
        case Some(key) => Keyed(Coder(), key)
        case None => !Encrypted(Coder())
      // so if the loop got through all of them, every page reads as before but the one that holds the lock byte
      ensures rc == SQLITE_OK && done == pages ==> forall n :: 1 <= n <= pages ==>
        if n * bt.pageSize <= 0x4000_0000 || (n - 1) * bt.pageSize > 0x4000_0000 then
          Code(Coder(), n, LOAD, pager.disk[n]) == old(Code(Coder(), n, LOAD, pager.disk[n]))
        else pager.disk[n] == old(pager.disk[n])
      ensures rc == SQLITE_OK && done == pages && pages * bt.pageSize <= 0x4000_0000 ==>
        forall n :: 1 <= n <= pages ==> Code(Coder(), n, LOAD, pager.disk[n]) == old(Code(Coder(), n, LOAD, pager.disk[n]))
      // failure: the disk is as it was, and reads as it did
      ensures rc != SQLITE_OK ==> Undone(old(Coder()), old(pager), Coder(), pager)
      // a codec left behind reads back what it writes, unless decryption was asked for and failed
      ensures old(NewKey(zKey, nKey)).Some? || (rc == SQLITE_OK && Encrypted(old(Coder()))) ==> ReadsBack(Coder())
      ensures old(NewKey(zKey, nKey)).None? && rc != SQLITE_OK ==> ReadsBack(Coder()) == !old(Coder()).value.hasReadKey
    {
      hide Code;
      hide Carried;
      hide Undone;
      hide Idle;
      hide ReadsBack;
      hide Finished;
      hide DeriveKey;
      hide Verdict;
      hide Transacted;
      ghost var c0, p0, key, t0 := Coder(), pager, NewKey(zKey, nKey), clock;
      RekeyedKeeps(c0, p0, key, choices, t0, version, pages, SkippedPage());
      ghost var outcome := Rekeyed(c0, p0, key, choices, t0, version, pages, SkippedPage());
      if outcome.rc == SQLITE_OK && outcome.done == pages {
        AllButTheLockPage(c0, p0, outcome.codec, outcome.pager, pages, bt.pageSize);
      }
      VerdictMeaning(choices, t0, version, pages, SkippedPage());
      if (zKey == null || nKey == 0) && (codec == null || !codec.isEncrypted) {
        return SQLITE_OK, pages;
      }
      RekeyedReadsBack(c0, p0, key, choices, t0, version, pages, SkippedPage());
      PrepareCodec(zKey, nKey);
      rc, done := Transaction(version);
      FinishCodec(rc == SQLITE_OK);
    }

    // The key asked for, if any.
    ghost function NewKey(zKey: array?<byte>, nKey: int): Option<Key>
      requires zKey != null ==> nKey <= zKey.Length
      reads zKey
    {
      if zKey == null || nKey == 0 then None else Some(DeriveKey(if nKey < 0 then [] else zKey[..nKey]))
    }

    // None without a password, or with one of length 0; otherwise the key that the bytes of the password derive.
    lemma NewKeyMeans(zKey: array?<byte>, nKey: int)
      requires zKey != null ==> nKey <= zKey.Length
      ensures zKey == null || nKey == 0 <==> NewKey(zKey, nKey).None?
      ensures zKey != null && nKey > 0 ==> NewKey(zKey, nKey).value == DeriveKey(zKey[..nKey])
      ensures zKey != null && nKey < 0 ==> NewKey(zKey, nKey).value == DeriveKey([])
    {
      hide DeriveKey;
    }

    // Everything between the two settings of the codec.
    method Transaction(version: nat) returns (rc: int, ghost done: nat)
      requires Valid()
      modifies this`pager, this`clock
      ensures Valid() && Coder() == old(Coder())
      ensures Control(rc, done, clock) == old(Verdict(choices, clock, version, pages, SkippedPage()))
      ensures pager == old(Transacted(pager, Coder(), choices, clock, version, pages, SkippedPage()))
    {
      hide Code;
      hide Loop;
      hide LoopPager;
      hide AfterCommit;
      hide AfterRollback;
      done := 0;
      rc := BeginTrans();
      if rc == SQLITE_OK {
        var loopRc;
        loopRc, done := RewritePages(SkippedPage());
        if version < SHADOWED_FROM {
          rc := loopRc;
        }
      }
      if rc == SQLITE_OK {
        rc := Commit();
      }
      if rc != SQLITE_OK {
        Rollback();
      }
    }

    // Sets the codec up for the transaction: the pages are read as before, and written as asked for.
    method PrepareCodec(zKey: array?<byte>, nKey: int)
      requires Valid() && (zKey != null ==> nKey <= zKey.Length)
      requires NewKey(zKey, nKey).None? ==> Encrypted(Coder())
      modifies this`codec, if codec == null then {} else codec.Repr()
      ensures Valid() && Coder() == Some(Prepared(old(Coder()), old(NewKey(zKey, nKey))))
      ensures codec == old(codec) || fresh(codec.Repr())
    {
      hide DeriveKey;
      if codec == null || !codec.isEncrypted {
        if codec == null {
          codec := new Codec(PAGE_BUFFER);
        }
        codec.isEncrypted, codec.hasReadKey, codec.hasWriteKey := true, false, true;
        codec.GenerateWriteKey(zKey, nKey);
        codec.bt := bt;
      } else if zKey == null || nKey == 0 {
        codec.hasWriteKey := false;
      } else {
        codec.GenerateWriteKey(zKey, nKey);
        codec.hasWriteKey := true;
      }
    }

    // Settles the keys once the transaction has ended, and removes the codec of an unencrypted database.
    method FinishCodec(committed: bool)
      requires Valid() && codec != null && codec.isEncrypted
      modifies this`codec, codec.Repr()
      ensures Valid() && Coder() == Finished(old(codec.State()), committed)
    {
      if committed {
        if codec.hasWriteKey {
          codec.CopyKey(false);
          codec.hasReadKey := true;
        } else {
          codec.isEncrypted := false;
        }
      } else {
        if codec.hasReadKey {
          codec.CopyKey(true);
        } else {
          codec.isEncrypted := false;
        }
      }
      if !codec.isEncrypted {
        codec := null;
      }
    }
  }

  // ---- two runs on a database ----------------------------------------------------

  // A database of one page that was just opened.
  method OpenOnePage(image: Image, choices: nat -> Choice) returns (d: Database)
    ensures fresh(d) && d.Valid() && d.codec == null && d.clock == 0 && d.pages == 1 && d.bt.pageSize == 512 && d.choices == choices
    ensures d.pager == Pager(map[1 := image], map[], {}, map[])
  {
    var bt := new Btree(512);
    d := new Database(1, bt, Pager(map[1 := image], map[], {}, map[]), choices);
  }

  lemma OnePageIsIdle(image: Image, c: Option<CodecState>)
    ensures Idle(Pager(map[1 := image], map[], {}, map[]), c)
  {
    hide Code;
  }

  /** Encryption reports success although its only page could not be read; that page is now lost to the
      codec.  ChangedReading gives such an image for each key. */
  method EncryptInVain(zKey: array<byte>, nKey: int, image: Image) returns (d: Database, rc: int)
    requires 0 < nKey <= zKey.Length
    ensures fresh(d) && d.Valid() && rc == SQLITE_OK && d.pager.disk == map[1 := image]
    ensures PageDecrypt(DeriveKey(zKey[..nKey]), 1, image) != image ==> Code(d.Coder(), 1, LOAD, d.pager.disk[1]) != image
  {
    hide DeriveKey;
    hide PageDecrypt;
    hide PageEncrypt;
    hide Idle;
    hide Verdict;
    hide Answers;
    hide ReadsBack;
    d := OpenOnePage(image, Answers([SQLITE_OK, SQLITE_IOERR, SQLITE_OK]));
    OnePageIsIdle(image, None);
    HiddenPageErrorVerdict(3006020, d.SkippedPage());
    ghost var done;
    rc, done := d.Rekey(3006020, zKey, nKey);
  }

  /** Decryption that cannot begin: the codec stays, and no longer reads back what it writes. */
  method DecryptInVain(zKey: array<byte>, nKey: int, image: Image) returns (d: Database, rc: int)
    requires 0 < nKey <= zKey.Length
    ensures fresh(d) && d.Valid() && rc == SQLITE_BUSY && d.pager.disk == map[1 := image]
    ensures Encrypted(d.Coder()) && !ReadsBack(d.Coder())
  {
    hide DeriveKey;
    hide Code;
    hide Idle;
    hide ReadsBack;
    hide Transacted;
    d := OpenOnePage(image, Answers([SQLITE_BUSY]));
    rc := d.Attach(d, 0, zKey, nKey);
    OnePageIsIdle(image, d.Coder());
    ghost var done;
    rc, done := d.Rekey(3006020, null, 0);
  }
}

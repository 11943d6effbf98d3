/** codecext.c: a change of key as a function of what the pager answers, and what it keeps. */
module RekeyRuns {
  import opened Wrappers
  import opened Bytes
  import opened InitialVector
  import opened PageCipher
  import opened CodecObject
  import opened PagerModel

  const SQLITE_OK := 0

  // From this version of SQLite on the page loop counts its errors in a variable of its own.
  const SHADOWED_FROM := 3006000

  // ---- codec states around a change of key --------------------------------------

  predicate Encrypted(c: Option<CodecState>) {
    c.Some? && c.value.isEncrypted
  }

  // A codec at rest: every page is read and written under one key.
  predicate Keyed(c: Option<CodecState>, key: Key) {
    Encrypted(c) && c.value.hasReadKey && c.value.hasWriteKey && c.value.readKey == key && c.value.writeKey == key
  }

  // The pages read alike under c and d, and their journal records are written alike.
  predicate SameReading(c: Option<CodecState>, d: CodecState) {
    d.isEncrypted && if Encrypted(c) then d.hasReadKey == c.value.hasReadKey && d.readKey == c.value.readKey else !d.hasReadKey
  }

  // The codec once the change is committed, or abandoned; None stands for its removal.
  function Finished(c: CodecState, committed: bool): Option<CodecState> {
    if committed then
      if c.hasWriteKey then Some(c.(readKey := c.writeKey, hasReadKey := true)) else None
    else
      if c.hasReadKey then Some(c.(writeKey := c.readKey)) else None
  }

  lemma SameReadingLoads(c: Option<CodecState>, d: CodecState, n: int, image: Image)
    requires SameReading(c, d) && 0 <= n < MAX_INT
    ensures Code(c, n, LOAD, image) == Code(Some(d), n, LOAD, image)
  {
    hide PageDecrypt;
    hide PageEncrypt;
  }

  /** What was written during the change is read back after it. */
  lemma CommittedReads(d: CodecState, n: int, data: Image)
    requires d.isEncrypted && 0 <= n < MAX_INT
    ensures Code(Finished(d, true), n, LOAD, Code(Some(d), n, WRITE_PAGE, data)) == data
  {
    hide PageDecrypt;
    hide PageEncrypt;
    PageRoundTrip(d.writeKey, n, data);
  }

  /** What was there before the change is read as before after it is abandoned. */
  lemma AbandonedReads(d: CodecState, n: int, image: Image)
    requires d.isEncrypted && 0 <= n < MAX_INT
    ensures Code(Finished(d, false), n, LOAD, image) == Code(Some(d), n, LOAD, image)
  {
    hide PageDecrypt;
    hide PageEncrypt;
  }

  /** A codec under which every page written is read back. */
  ghost predicate ReadsBack(c: Option<CodecState>) {
    forall n: int, data: Image :: 0 <= n < MAX_INT ==> Code(c, n, LOAD, Code(c, n, WRITE_PAGE, data)) == data
  }

  /** A finished codec reads back what it writes, unless decryption was asked for and abandoned. */
  lemma ReadsBackAfter(d: CodecState, committed: bool)
    requires d.isEncrypted
    ensures ReadsBack(Finished(d, committed)) <==> committed || d.hasWriteKey || !d.hasReadKey
    ensures if d.hasWriteKey then Keyed(Finished(d, true), d.writeKey) else Finished(d, true).None?
  {
    hide PageDecrypt;
    hide PageEncrypt;
    var c := Finished(d, committed);
    if committed || d.hasWriteKey || !d.hasReadKey {
      forall n: int, data: Image | 0 <= n < MAX_INT
        ensures Code(c, n, LOAD, Code(c, n, WRITE_PAGE, data)) == data
      {
        PageRoundTrip(if committed then d.writeKey else d.readKey, n, data);
      }
    } else {
      var image := DecryptionChangesData(d.readKey, 1, []);
      assert Code(c, 1, LOAD, Code(c, 1, WRITE_PAGE, image)) != image;
    }
  }

  lemma KeyedReadsBack(c: Option<CodecState>, key: Key)
    requires Keyed(c, key)
    ensures ReadsBack(c)
  {
    hide ReadsBack;
    ReadsBackAfter(c.value, true);
    assert Finished(c.value, true) == c;
  }

  // The outcome of a commit after pages 1 to k were rewritten.
  ghost predicate Committed(p: Pager, c: Option<CodecState>, start: map<int, Image>, k: int, skip: int) {
    && p.dirty == {} && p.journal == map[] && p.disk.Keys == start.Keys && WellFormed(p)
    && (forall n :: n in p.cache ==> p.cache[n] == Code(c, n, LOAD, start[n]))
    && forall n :: n in p.disk ==> p.disk[n] == PagerModel.Rewritten(c, start, k, skip, n)
  }

  /** After a successful change: the pages that were rewritten read as before, from the disk and from
      the cache; the others have kept their images. */
  ghost predicate Carried(c0: Option<CodecState>, p0: Pager, c1: Option<CodecState>, p: Pager, k: int, skip: int)
    requires WellFormed(p0)
  {
    && WellFormed(p) && p.dirty == {} && p.journal == map[] && p.disk.Keys == p0.disk.Keys
    && (forall n :: n in p.cache ==> p.cache[n] == Code(c0, n, LOAD, p0.disk[n]))
    && forall n :: n in p.disk ==>
      if 1 <= n <= k && n != skip then Code(c1, n, LOAD, p.disk[n]) == Code(c0, n, LOAD, p0.disk[n]) else p.disk[n] == p0.disk[n]
  }

  /** After a failed one: the disk is what it was, and the codec left behind reads it as before. */
  ghost predicate Undone(c0: Option<CodecState>, p0: Pager, c1: Option<CodecState>, p: Pager)
    requires WellFormed(p0)
  {
    && Idle(p, c1) && p.disk == p0.disk
    && forall n :: n in p.disk ==> Code(c1, n, LOAD, p.disk[n]) == Code(c0, n, LOAD, p0.disk[n])
  }

  lemma Conclude(c0: Option<CodecState>, p0: Pager, d: CodecState, p: Pager, committed: bool, k: int, skip: int)
    requires WellFormed(p0) && d.isEncrypted && SameReading(c0, d)
    requires committed ==> Committed(p, Some(d), p0.disk, k, skip)
    requires !committed ==> p.disk == p0.disk && Idle(p, Some(d))
    ensures committed ==> Carried(c0, p0, Finished(d, true), p, k, skip)
    ensures !committed ==> Undone(c0, p0, Finished(d, false), p)
  {
    forall n: int, image: Image | 0 <= n < MAX_INT
      ensures Code(c0, n, LOAD, image) == Code(Some(d), n, LOAD, image)
      ensures Code(Finished(d, false), n, LOAD, image) == Code(Some(d), n, LOAD, image)
      ensures Code(Finished(d, true), n, LOAD, Code(Some(d), n, WRITE_PAGE, image)) == image
    {
      SameReadingLoads(c0, d, n, image);
      AbandonedReads(d, n, image);
      CommittedReads(d, n, image);
    }
    hide Code;
    hide Finished;
  }

  // Without anything to do, everything reads as before.
  lemma NothingToDo(p: Pager, c: Option<CodecState>, k: int, skip: int)
    requires Idle(p, c)
    ensures Carried(c, p, c, p, k, skip)
  {
    hide Code;
  }

  lemma StartProgress(p: Pager, c0: Option<CodecState>, d: CodecState, skip: int)
    requires Idle(p, c0) && SameReading(c0, d)
    ensures Progress(p, Some(d), p.disk, 0, skip) && Ahead(p, 0)
  {
    forall n: int, image: Image | 0 <= n < MAX_INT
      ensures Code(c0, n, LOAD, image) == Code(Some(d), n, LOAD, image)
    {
      SameReadingLoads(c0, d, n, image);
    }
    hide Code;
  }

  lemma RestorableIn(p: Pager, c: Option<CodecState>, start: map<int, Image>, k: int, skip: int)
    requires Progress(p, c, start, k, skip)
    ensures Restorable(p, c, start)
  {
  }

  // ---- what the answers decide ---------------------------------------------------

  /** What the calls of a run amount to, whatever the pages hold: the return code, the pages that the
      loop got through, and the time after the last call. */
  datatype Control = Control(rc: int, done: nat, clock: nat)

  // The page loop from page n on.
  function Loop(choices: nat -> Choice, clock: nat, n: nat, pages: nat, skip: int): (r: Control)
    requires 1 <= n <= pages + 1
    decreases pages + 1 - n
  {
    if n == pages + 1 then Control(SQLITE_OK, pages, clock)
    else if n == skip then Loop(choices, clock, n + 1, pages, skip)
    else if choices(clock).code != SQLITE_OK then Control(choices(clock).code, n - 1, clock + 1)
    else if choices(clock + 1).code != SQLITE_OK then Control(choices(clock + 1).code, n - 1, clock + 2)
    else Loop(choices, clock + 2, n + 1, pages, skip)
  }

  // The calls that the loop makes from page n on if all of them succeed.
  function PageCalls(n: nat, pages: nat, skip: int): nat
    requires n <= pages + 1
  {
    2 * (pages + 1 - n) - if n <= skip <= pages then 2 else 0
  }

  ghost predicate NoError(choices: nat -> Choice, from: nat, to: nat) {
    forall i :: from <= i < to ==> choices(i).code == SQLITE_OK
  }

  /** The loop gets through all pages if and only if no call fails; otherwise it stops right after the
      first that does, and returns its code, having got through the pages before. */
  lemma {:induction false} LoopStopsAtFirstError(choices: nat -> Choice, clock: nat, n: nat, pages: nat, skip: int)
    requires 1 <= n <= pages + 1
    ensures var r, all := Loop(choices, clock, n, pages, skip), clock + PageCalls(n, pages, skip);
      && (r.rc == SQLITE_OK <==> r.done == pages) && (r.rc == SQLITE_OK <==> NoError(choices, clock, all))
      && (r.rc == SQLITE_OK ==> r.clock == all)
      && (r.rc != SQLITE_OK ==>
        && n - 1 <= r.done < pages && r.done + 1 != skip && clock < r.clock <= all
        && choices(r.clock - 1).code == r.rc && NoError(choices, clock, r.clock - 1)
        && 1 <= r.clock - (clock + PageCalls(n, pages, skip) - PageCalls(r.done + 1, pages, skip)) <= 2)
    decreases pages + 1 - n
  {
    if n == pages + 1 {
    } else if n == skip {
      LoopStopsAtFirstError(choices, clock, n + 1, pages, skip);
    } else if choices(clock).code == SQLITE_OK && choices(clock + 1).code == SQLITE_OK {
      LoopStopsAtFirstError(choices, clock + 2, n + 1, pages, skip);
      assert PageCalls(n, pages, skip) == 2 + PageCalls(n + 1, pages, skip);
    }
  }

  /** The whole transaction: begin, the page loop, and commit or rollback. */
  function Verdict(choices: nat -> Choice, clock: nat, version: nat, pages: nat, skip: int): Control {
    var begin := choices(clock).code;
    if begin != SQLITE_OK then Control(begin, 0, clock + 2)
    else
      var loop := Loop(choices, clock + 1, 1, pages, skip);
      var commit := choices(loop.clock).code;
      if version < SHADOWED_FROM && loop.rc != SQLITE_OK then Control(loop.rc, loop.done, loop.clock + 1)
      else if commit == SQLITE_OK then Control(SQLITE_OK, loop.done, loop.clock + 1)
      else Control(commit, loop.done, loop.clock + 2)
  }

  // The answers to begin and to commit, if the commit is reached in spite of page errors.
  ghost predicate BeginAndCommitSucceed(choices: nat -> Choice, clock: nat, pages: nat, skip: int) {
    && choices(clock).code == SQLITE_OK
    && choices(Loop(choices, clock + 1, 1, pages, skip).clock).code == SQLITE_OK
  }

  // No page is reported as unreadable or unwritable.
  ghost predicate PagesSucceed(choices: nat -> Choice, clock: nat, pages: nat, skip: int) {
    NoError(choices, clock + 1, clock + 1 + PageCalls(1, pages, skip))
  }

  /** Success is reported if and only if begin and commit succeed and, up to version 3005999, every page
      does; the pages are all done if and only if every page call succeeds. */
  lemma VerdictMeaning(choices: nat -> Choice, clock: nat, version: nat, pages: nat, skip: int)
    ensures var v := Verdict(choices, clock, version, pages, skip);
      && v.done <= pages && clock < v.clock
      && (v.rc == SQLITE_OK <==>
        BeginAndCommitSucceed(choices, clock, pages, skip) && (version < 3006000 ==> PagesSucceed(choices, clock, pages, skip)))
      && (v.rc == SQLITE_OK ==> (v.done == pages <==> PagesSucceed(choices, clock, pages, skip)))
      && (v.rc == SQLITE_OK && v.done < pages ==> v.done + 1 != skip)
      && (v.rc == SQLITE_OK && v.done == pages <==> NoError(choices, clock, v.clock))
  {
    LoopStopsAtFirstError(choices, clock + 1, 1, pages, skip);
  }

  // ---- what becomes of the pages -------------------------------------------------

  ghost predicate HasPages(p: Pager, pages: nat) {
    WellFormed(p) && pages < MAX_INT && forall n :: n in p.disk <==> 1 <= n <= pages
  }

  function LoopPager(p: Pager, c: Option<CodecState>, choices: nat -> Choice, clock: nat, n: nat, pages: nat, skip: int): (q: Pager)
    requires HasPages(p, pages) && 1 <= n <= pages + 1
    ensures HasPages(q, pages)
    decreases pages + 1 - n
  {
    if n == pages + 1 then p
    else if n == skip then LoopPager(p, c, choices, clock, n + 1, pages, skip)
    else
      var q := AfterGet(p, c, choices(clock), n);
      if choices(clock).code != SQLITE_OK then q
      else
        var r := AfterWrite(q, c, choices(clock + 1), n);
        if choices(clock + 1).code != SQLITE_OK then r else LoopPager(r, c, choices, clock + 2, n + 1, pages, skip)
  }

  // One turn of the loop.
  lemma LoopTurns(p: Pager, c: Option<CodecState>, choices: nat -> Choice, clock: nat, n: nat, pages: nat, skip: int)
    requires HasPages(p, pages) && 1 <= n <= pages + 1
    ensures n == pages + 1 ==> Loop(choices, clock, n, pages, skip) == Control(SQLITE_OK, pages, clock)
    ensures n == pages + 1 ==> LoopPager(p, c, choices, clock, n, pages, skip) == p
    ensures n <= pages && n == skip ==> Loop(choices, clock, n, pages, skip) == Loop(choices, clock, n + 1, pages, skip)
    ensures n <= pages && n == skip ==> LoopPager(p, c, choices, clock, n, pages, skip) == LoopPager(p, c, choices, clock, n + 1, pages, skip)
    ensures n <= pages && n != skip ==>
      var get, write, q := choices(clock).code, choices(clock + 1).code, AfterGet(p, c, choices(clock), n);
      if get != SQLITE_OK then
        && Loop(choices, clock, n, pages, skip) == Control(get, n - 1, clock + 1)
        && LoopPager(p, c, choices, clock, n, pages, skip) == q
      else
        var r := AfterWrite(q, c, choices(clock + 1), n);
        if write != SQLITE_OK then
          && Loop(choices, clock, n, pages, skip) == Control(write, n - 1, clock + 2)
          && LoopPager(p, c, choices, clock, n, pages, skip) == r
        else
          && Loop(choices, clock, n, pages, skip) == Loop(choices, clock + 2, n + 1, pages, skip)
          && LoopPager(p, c, choices, clock, n, pages, skip) == LoopPager(r, c, choices, clock + 2, n + 1, pages, skip)
  {
    hide AfterGet;
    hide AfterWrite;
  }

  function Transacted(p: Pager, c: Option<CodecState>, choices: nat -> Choice, clock: nat, version: nat, pages: nat, skip: int): (q: Pager)
    requires HasPages(p, pages)
    ensures HasPages(q, pages)
  {
    if choices(clock).code != SQLITE_OK then AfterRollback(p, c, choices(clock + 1))
    else
      var loop := Loop(choices, clock + 1, 1, pages, skip);
      var q := LoopPager(p, c, choices, clock + 1, 1, pages, skip);
      if version < SHADOWED_FROM && loop.rc != SQLITE_OK then AfterRollback(q, c, choices(loop.clock))
      else
        var r := AfterCommit(q, c, choices(loop.clock));
        if choices(loop.clock).code == SQLITE_OK then r else AfterRollback(r, c, choices(loop.clock + 1))
  }

  lemma {:induction false} LoopKeepsProgress(p: Pager, c: Option<CodecState>, start: map<int, Image>, choices: nat -> Choice, clock: nat,
                                             n: nat, pages: nat, skip: int)
    requires HasPages(p, pages) && 1 <= n <= pages + 1 && Progress(p, c, start, n - 1, skip) && Ahead(p, n - 1)
    ensures Progress(LoopPager(p, c, choices, clock, n, pages, skip), c, start, Loop(choices, clock, n, pages, skip).done, skip)
    decreases pages + 1 - n
  {
    hide Progress;
    hide AfterGet;
    hide AfterWrite;
    if n == pages + 1 {
    } else if n == skip {
      SkipAdvances(p, c, start, n - 1);
      LoopKeepsProgress(p, c, start, choices, clock, n + 1, pages, skip);
    } else {
      var q := AfterGet(p, c, choices(clock), n);
      GetKeepsProgress(p, c, start, n - 1, skip, choices(clock), n);
      if choices(clock).code == SQLITE_OK {
        var r := AfterWrite(q, c, choices(clock + 1), n);
        WriteAdvances(q, c, start, n - 1, skip, choices(clock + 1));
        if choices(clock + 1).code == SQLITE_OK {
          LoopKeepsProgress(r, c, start, choices, clock + 2, n + 1, pages, skip);
        }
      }
    }
  }

  lemma RollsBack(p: Pager, c: Option<CodecState>, start: map<int, Image>, k: nat, skip: int, ch: Choice)
    requires Progress(p, c, start, k, skip)
    ensures AfterRollback(p, c, ch).disk == start && Idle(AfterRollback(p, c, ch), c)
  {
    hide *;
    RestorableIn(p, c, start, k, skip);
    RollbackRestores(p, c, start, ch);
  }

  lemma Commits(p: Pager, c: Option<CodecState>, start: map<int, Image>, k: nat, skip: int, ch: Choice)
    requires Progress(p, c, start, k, skip)
    ensures var q := AfterCommit(p, c, ch);
      if ch.code == SQLITE_OK then Committed(q, c, start, k, skip) else Progress(q, c, start, k, skip)
  {
    hide Code;
    hide Progress;
    hide AfterCommit;
    CommitWrites(p, c, start, k, skip, ch);
  }

  /** Either all pages that the loop got through are rewritten and committed, or the disk is as before. */
  lemma TransactionKeeps(p: Pager, c: Option<CodecState>, choices: nat -> Choice, clock: nat, version: nat, pages: nat, skip: int)
    requires HasPages(p, pages) && Progress(p, c, p.disk, 0, skip) && Ahead(p, 0)
    ensures var v, q := Verdict(choices, clock, version, pages, skip), Transacted(p, c, choices, clock, version, pages, skip);
      if v.rc == SQLITE_OK then Committed(q, c, p.disk, v.done, skip) else q.disk == p.disk && Idle(q, c)
  {
    hide Code;
    hide Progress;
    hide Committed;
    hide Idle;
    hide AfterCommit;
    hide AfterRollback;
    hide Loop;
    hide LoopPager;
    RollsBack(p, c, p.disk, 0, skip, choices(clock + 1));
    var loop := Loop(choices, clock + 1, 1, pages, skip);
    var q := LoopPager(p, c, choices, clock + 1, 1, pages, skip);
    LoopKeepsProgress(p, c, p.disk, choices, clock + 1, 1, pages, skip);
    RollsBack(q, c, p.disk, loop.done, skip, choices(loop.clock));
    Commits(q, c, p.disk, loop.done, skip, choices(loop.clock));
    if choices(loop.clock).code != SQLITE_OK {
      RollsBack(AfterCommit(q, c, choices(loop.clock)), c, p.disk, loop.done, skip, choices(loop.clock + 1));
    }
  }

  // ---- the change of key ---------------------------------------------------------

  // The codec during the change: it reads as before and writes as asked for.  A new codec has no keys.
  function Prepared(c: Option<CodecState>, key: Option<Key>): (d: CodecState)
    ensures Encrypted(c) || key.Some? ==> SameReading(c, d)
  {
    if Encrypted(c) then
      match key
      case None => c.value.(hasWriteKey := false)
      case Some(k) => c.value.(hasWriteKey := true, writeKey := k)
    else
      CodecState(true, false, if c.Some? then c.value.readKey else NO_KEY, true, if key.Some? then key.value else NO_KEY)
  }

  datatype Outcome = Outcome(rc: int, done: nat, clock: nat, codec: Option<CodecState>, pager: Pager)

  /** sqlite3_rekey: its result, the codec it leaves behind, and what becomes of the database. */
  function Rekeyed(c: Option<CodecState>, p: Pager, key: Option<Key>, choices: nat -> Choice, clock: nat, version: nat,
                   pages: nat, skip: int): (r: Outcome)
    requires HasPages(p, pages)
    ensures HasPages(r.pager, pages)
  {
    if key.None? && !Encrypted(c) then Outcome(SQLITE_OK, pages, clock, c, p)
    else
      var d, v := Prepared(c, key), Verdict(choices, clock, version, pages, skip);
      Outcome(v.rc, v.done, v.clock, Finished(d, v.rc == SQLITE_OK),
              Transacted(p, Some(d), choices, clock, version, pages, skip))
  }

  /** Success: each page the loop got through reads as before, and the codec holds the new key or is gone.
      Failure: the disk is byte for byte what it was, and reads as it did. */
  lemma RekeyedKeeps(c: Option<CodecState>, p: Pager, key: Option<Key>, choices: nat -> Choice, clock: nat, version: nat,
                     pages: nat, skip: int)
    requires HasPages(p, pages) && Idle(p, c)
    ensures var r := Rekeyed(c, p, key, choices, clock, version, pages, skip);
      if r.rc == SQLITE_OK then
        && Carried(c, p, r.codec, r.pager, r.done, skip)
        && if key.Some? then Keyed(r.codec, key.value) else !Encrypted(r.codec)
      else Undone(c, p, r.codec, r.pager)
  {
    hide Code;
    hide Carried;
    hide Undone;
    hide Committed;
    hide Progress;
    hide Transacted;
    hide Verdict;
    hide Idle;
    hide ReadsBack;
    if key.None? && !Encrypted(c) {
      NothingToDo(p, c, pages, skip);
    } else {
      var d, v := Prepared(c, key), Verdict(choices, clock, version, pages, skip);
      StartProgress(p, c, d, skip);
      TransactionKeeps(p, Some(d), choices, clock, version, pages, skip);
      ReadsBackAfter(d, true);
      Conclude(c, p, d, Transacted(p, Some(d), choices, clock, version, pages, skip), v.rc == SQLITE_OK, v.done, skip);
    }
  }

  /** The codec left behind reads back what it writes, except after an abandoned decryption. */
  lemma RekeyedReadsBack(c: Option<CodecState>, p: Pager, key: Option<Key>, choices: nat -> Choice, clock: nat, version: nat,
                         pages: nat, skip: int)
    requires HasPages(p, pages) && (key.Some? || Encrypted(c))
    ensures var r := Rekeyed(c, p, key, choices, clock, version, pages, skip);
      ReadsBack(r.codec) <==> key.Some? || r.rc == SQLITE_OK || !ReadsKeyed(c)
  {
    hide ReadsBack;
    hide Transacted;
    hide Verdict;
    hide Finished;
    ReadsBackAfter(Prepared(c, key), Verdict(choices, clock, version, pages, skip).rc == SQLITE_OK);
  }

  // ---- when the meaning is kept --------------------------------------------------

  predicate ReadsKeyed(c: Option<CodecState>) {
    Encrypted(c) && c.value.hasReadKey
  }

  // Every page but the skipped one reads as it did.
  ghost predicate ReadsAlike(c0: Option<CodecState>, p0: Pager, c1: Option<CodecState>, p: Pager, pages: nat, skip: int)
    requires HasPages(p0, pages) && HasPages(p, pages)
  {
    forall n :: n in p.disk && n != skip ==> Code(c1, n, LOAD, p.disk[n]) == Code(c0, n, LOAD, p0.disk[n])
  }

  ghost predicate PageSize(p: Pager, size: nat) {
    forall n :: n in p.disk ==> |p.disk[n]| == size
  }

  /** The run preserves every idle database of this many pages of this size. */
  ghost predicate KeepsEveryDatabase(c: Option<CodecState>, key: Option<Key>, choices: nat -> Choice, clock: nat, version: nat,
                                     pages: nat, size: nat, skip: int) {
    forall p :: HasPages(p, pages) && PageSize(p, size) && Idle(p, c) ==>
      var r := Rekeyed(c, p, key, choices, clock, version, pages, skip);
      ReadsAlike(c, p, r.codec, r.pager, pages, skip)
  }

  // What an unreached page of a successful run reads as, before and after.
  ghost predicate ReadsUnchanged(c0: Option<CodecState>, c1: Option<CodecState>, n: int, size: nat)
    requires 0 <= n < MAX_INT
  {
    forall image: Image :: |image| == size ==> Code(c1, n, LOAD, image) == Code(c0, n, LOAD, image)
  }

  // The codec after a successful change.
  function Changed(c: Option<CodecState>, key: Option<Key>): Option<CodecState> {
    Finished(Prepared(c, key), true)
  }

  lemma KeptAfterFailure(c: Option<CodecState>, p: Pager, key: Option<Key>, choices: nat -> Choice, clock: nat, version: nat,
                         pages: nat, skip: int)
    requires HasPages(p, pages) && Idle(p, c)
    ensures var r := Rekeyed(c, p, key, choices, clock, version, pages, skip);
      r.rc != SQLITE_OK || r.done == pages ==> ReadsAlike(c, p, r.codec, r.pager, pages, skip)
  {
    hide Code;
    hide Rekeyed;
    RekeyedKeeps(c, p, key, choices, clock, version, pages, skip);
  }

  /** Exactly when a successful change preserves every database: when each page that the loop did not
      reach reads under the new codec as it did under the old one. */
  lemma KeptBySuccess(c: Option<CodecState>, key: Option<Key>, choices: nat -> Choice, clock: nat, version: nat,
                      pages: nat, size: nat, skip: int)
    requires pages < MAX_INT && (key.Some? || Encrypted(c))
    requires Verdict(choices, clock, version, pages, skip).rc == SQLITE_OK
    ensures KeepsEveryDatabase(c, key, choices, clock, version, pages, size, skip) <==>
      forall n :: Verdict(choices, clock, version, pages, skip).done < n <= pages && n != skip ==>
        ReadsUnchanged(c, Changed(c, key), n, size)
  {
    var done := Verdict(choices, clock, version, pages, skip).done;
    hide Code;
    hide Verdict;
    hide Transacted;
    hide Carried;
    hide Undone;
    hide Idle;
    if n :| done < n <= pages && n != skip && !ReadsUnchanged(c, Changed(c, key), n, size) {
      var image: Image :| |image| == size && Code(Changed(c, key), n, LOAD, image) != Code(c, n, LOAD, image);
      var p := FreshDatabase(c, pages, image);
      Unreached(c, p, key, choices, clock, version, pages, skip, n);
    } else {
      forall p | HasPages(p, pages) && PageSize(p, size) && Idle(p, c)
        ensures var r := Rekeyed(c, p, key, choices, clock, version, pages, skip); ReadsAlike(c, p, r.codec, r.pager, pages, skip)
      {
        AllAlike(c, p, key, choices, clock, version, pages, size, skip);
      }
    }
  }

  lemma AllAlike(c: Option<CodecState>, p: Pager, key: Option<Key>, choices: nat -> Choice, clock: nat, version: nat,
                 pages: nat, size: nat, skip: int)
    requires HasPages(p, pages) && PageSize(p, size) && Idle(p, c) && (key.Some? || Encrypted(c))
    requires var v := Verdict(choices, clock, version, pages, skip);
      v.rc == SQLITE_OK && forall n :: v.done < n <= pages && n != skip ==> ReadsUnchanged(c, Changed(c, key), n, size)
    ensures var r := Rekeyed(c, p, key, choices, clock, version, pages, skip); ReadsAlike(c, p, r.codec, r.pager, pages, skip)
  {
    hide Code;
    hide Verdict;
    hide Transacted;
    hide Finished;
    hide Prepared;
    RekeyedKeeps(c, p, key, choices, clock, version, pages, skip);
    var v, r := Verdict(choices, clock, version, pages, skip), Rekeyed(c, p, key, choices, clock, version, pages, skip);
    forall n | n in p.disk && n != skip ensures Code(r.codec, n, LOAD, r.pager.disk[n]) == Code(c, n, LOAD, p.disk[n]) {
      if v.done < n {
        assert ReadsUnchanged(c, Changed(c, key), n, size) && r.pager.disk[n] == p.disk[n] && |p.disk[n]| == size;
      }
    }
  }

  // An unreached page keeps its image.
  lemma Unreached(c: Option<CodecState>, p: Pager, key: Option<Key>, choices: nat -> Choice, clock: nat, version: nat,
                  pages: nat, skip: int, n: int)
    requires HasPages(p, pages) && Idle(p, c) && (key.Some? || Encrypted(c))
    requires Verdict(choices, clock, version, pages, skip).rc == SQLITE_OK
    requires Verdict(choices, clock, version, pages, skip).done < n <= pages && n != skip
    ensures var r := Rekeyed(c, p, key, choices, clock, version, pages, skip);
      && r.rc == SQLITE_OK && r.codec == Changed(c, key) && r.pager.disk[n] == p.disk[n]
      && (Code(r.codec, n, LOAD, p.disk[n]) != Code(c, n, LOAD, p.disk[n]) ==> !ReadsAlike(c, p, r.codec, r.pager, pages, skip))
  {
    hide Code;
    hide Verdict;
    hide Transacted;
    hide Finished;
    hide Prepared;
    RekeyedKeeps(c, p, key, choices, clock, version, pages, skip);
  }

  function Filled(pages: nat, image: Image): (disk: map<int, Image>)
    ensures forall m :: m in disk <==> 1 <= m <= pages
    ensures forall m :: m in disk ==> disk[m] == image
  {
    if pages == 0 then map[] else Filled(pages - 1, image)[pages := image]
  }

  // A database that was just opened, with this image on every page.
  lemma FreshDatabase(c: Option<CodecState>, pages: nat, image: Image) returns (p: Pager)
    requires pages < MAX_INT
    ensures HasPages(p, pages) && PageSize(p, |image|) && Idle(p, c) && forall n :: n in p.disk ==> p.disk[n] == image
  {
    hide Code;
    p := Pager(Filled(pages, image), map[], {}, map[]);
  }

  /** An image that reads differently before and after a change between an encrypted and a plain database. */
  lemma ChangedReading(c0: Option<CodecState>, c1: Option<CodecState>, n: int, size: nat) returns (image: Image)
    requires 0 <= n < MAX_INT && ReadsKeyed(c0) != ReadsKeyed(c1) && size >= 32
    ensures |image| == size && Code(c1, n, LOAD, image) != Code(c0, n, LOAD, image)
  {
    hide PageDecrypt;
    image := DecryptionChangesData(if ReadsKeyed(c0) then c0.value.readKey else c1.value.readKey, n, Repeat(0, size - 32));
  }

  // The result, the reach of the loop and the time do not depend on the pages, nor the codec's key on anything but the key.
  lemma RekeyedControl(c: Option<CodecState>, key: Option<Key>, choices: nat -> Choice, clock: nat, version: nat, pages: nat, skip: int)
    requires key.Some? || Encrypted(c)
    ensures forall p :: HasPages(p, pages) ==>
      var r, v := Rekeyed(c, p, key, choices, clock, version, pages, skip), Verdict(choices, clock, version, pages, skip);
      r.rc == v.rc && r.done == v.done && r.clock == v.clock
    ensures ReadsKeyed(Changed(c, key)) == key.Some?
  {
  }

  /** Exactly when a change between plain and encrypted preserves every database: before version 3006000
      always, and from then on if begin or commit fails, or no page call does. */
  lemma KeptExactly(c: Option<CodecState>, key: Option<Key>, choices: nat -> Choice, clock: nat, version: nat,
                    pages: nat, size: nat, skip: int)
    requires pages < MAX_INT && size >= 32 && ReadsKeyed(c) != key.Some?
    ensures KeepsEveryDatabase(c, key, choices, clock, version, pages, size, skip) <==>
      || version < 3006000
      || !BeginAndCommitSucceed(choices, clock, pages, skip)
      || PagesSucceed(choices, clock, pages, skip)
  {
    hide Code;
    hide Rekeyed;
    hide Loop;
    hide ReadsAlike;
    hide Idle;
    VerdictMeaning(choices, clock, version, pages, skip);
    var v := Verdict(choices, clock, version, pages, skip);
    hide Verdict;
    RekeyedControl(c, key, choices, clock, version, pages, skip);
    if v.rc != SQLITE_OK || v.done == pages {
      forall p | HasPages(p, pages) && PageSize(p, size) && Idle(p, c)
        ensures var r := Rekeyed(c, p, key, choices, clock, version, pages, skip); ReadsAlike(c, p, r.codec, r.pager, pages, skip)
      {
        KeptAfterFailure(c, p, key, choices, clock, version, pages, skip);
      }
    } else {
      var image := ChangedReading(c, Changed(c, key), v.done + 1, size);
      assert !ReadsUnchanged(c, Changed(c, key), v.done + 1, size);
      KeptBySuccess(c, key, choices, clock, version, pages, size, skip);
    }
  }

  // ---- two runs ------------------------------------------------------------------

  const SQLITE_BUSY := 5
  const SQLITE_IOERR := 10

  // A pager that gives these answers, one after the other, and then succeeds.
  function Answers(codes: seq<int>): nat -> Choice {
    (i: nat) => Choice(if i < |codes| then codes[i] else SQLITE_OK, false, {}, {})
  }

  lemma HiddenPageErrorVerdict(version: nat, skip: int)
    requires skip != 1
    ensures Verdict(Answers([SQLITE_OK, SQLITE_IOERR, SQLITE_OK]), 0, version, 1, skip)
         == Control(if version >= 3006000 then SQLITE_OK else SQLITE_IOERR, 0, 3)
  {
    assert Loop(Answers([SQLITE_OK, SQLITE_IOERR, SQLITE_OK]), 1, 1, 1, skip) == Control(SQLITE_IOERR, 0, 2);
  }

  /** Begin and commit succeed and the only page cannot be read.  From version 3006000 on the run reports
      success, and the page reads differently afterwards; before, it reports the error and nothing changes. */
  lemma HiddenPageError(key: Key, version: nat, size: nat, skip: int) returns (p: Pager)
    requires size >= 32 && skip != 1
    ensures HasPages(p, 1) && PageSize(p, size) && Idle(p, None)
    ensures var r := Rekeyed(None, p, Some(key), Answers([SQLITE_OK, SQLITE_IOERR, SQLITE_OK]), 0, version, 1, skip);
      if version >= 3006000 then
        r.rc == SQLITE_OK && Code(r.codec, 1, LOAD, r.pager.disk[1]) != Code(None, 1, LOAD, p.disk[1])
      else
        r.rc == SQLITE_IOERR && r.codec == None && r.pager.disk == p.disk
  {
    var choices := Answers([SQLITE_OK, SQLITE_IOERR, SQLITE_OK]);
    hide Code;
    hide Changed;
    hide Verdict;
    hide Rekeyed;
    hide Answers;
    hide ReadsAlike;
    hide Idle;
    HiddenPageErrorVerdict(version, skip);
    RekeyedControl(None, Some(key), choices, 0, version, 1, skip);
    var image := ChangedReading(None, Changed(None, Some(key)), 1, size);
    p := FreshDatabase(None, 1, image);
    if version >= 3006000 {
      Unreached(None, p, Some(key), choices, 0, version, 1, skip, 1);
    } else {
      EncryptionFails(p, key, choices, 0, version, 1, skip);
    }
  }

  // A failed encryption leaves no codec, and the disk as it was.
  lemma EncryptionFails(p: Pager, key: Key, choices: nat -> Choice, clock: nat, version: nat, pages: nat, skip: int)
    requires HasPages(p, pages) && Idle(p, None)
    requires Verdict(choices, clock, version, pages, skip).rc != SQLITE_OK
    ensures var r := Rekeyed(None, p, Some(key), choices, clock, version, pages, skip); r.codec == None && r.pager.disk == p.disk
  {
    hide Code;
    hide Verdict;
    hide Transacted;
    hide Carried;
    hide Idle;
    RekeyedKeeps(None, p, Some(key), choices, clock, version, pages, skip);
  }

  /** A decryption whose transaction cannot begin: the database reads as before, but the codec, which
      read back all it wrote, no longer does. */
  lemma AbandonedDecryption(key: Key, p: Pager, version: nat, pages: nat, skip: int)
    requires var c := Some(CodecState(true, true, key, true, key)); HasPages(p, pages) && Idle(p, c)
    ensures var c := Some(CodecState(true, true, key, true, key));
      var r := Rekeyed(c, p, None, Answers([SQLITE_BUSY]), 0, version, pages, skip);
      && ReadsBack(c) && r.rc == SQLITE_BUSY && r.codec == Some(c.value.(hasWriteKey := false))
      && Undone(c, p, r.codec, r.pager) && !ReadsBack(r.codec)
  {
    hide Code;
    hide ReadsBack;
    hide Undone;
    hide Transacted;
    var c := Some(CodecState(true, true, key, true, key));
    KeyedReadsBack(c, key);
    RekeyedKeeps(c, p, None, Answers([SQLITE_BUSY]), 0, version, pages, skip);
    RekeyedReadsBack(c, p, None, Answers([SQLITE_BUSY]), 0, version, pages, skip);
  }
}

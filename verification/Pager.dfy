/** The pager around the codec, as an abstract environment: a paged disk, a cache of plaintext pages,
    the set of cached pages not yet written out, and a rollback journal of page images. */
module PagerModel {
  import opened Wrappers
  import opened Bytes
  import opened InitialVector
  import opened PageCipher
  import opened CodecObject

  type Image = seq<byte>

  // ---- what the codec does at the boundary -------------------------------------

  const RELOAD_UNDO := 0
  const RELOAD := 2
  const LOAD := 3
  const WRITE_PAGE := 6
  const WRITE_JOURNAL := 7

  /** What sqlite3Codec makes of a page in each mode. */
  function Transform(c: CodecState, n: int, mode: int, data: Image): (r: Image)
    requires 0 <= n < MAX_INT
    ensures |r| == |data|
  {
    if !c.isEncrypted then data
    else if mode == RELOAD_UNDO || mode == RELOAD || mode == LOAD then
      if c.hasReadKey then PageDecrypt(c.readKey, n, data) else data
    else if mode == WRITE_PAGE then
      if c.hasWriteKey then PageEncrypt(c.writeKey, n, data) else data
    else if mode == WRITE_JOURNAL then
      if c.hasReadKey then PageEncrypt(c.readKey, n, data) else data
    else data
  }

  function Code(c: Option<CodecState>, n: int, mode: int, data: Image): (r: Image)
    requires 0 <= n < MAX_INT
    ensures |r| == |data|
  {
    match c
    case None => data
    case Some(s) => Transform(s, n, mode, data)
  }

  /** What the numbers mean: 6 codes a page so that the write key decodes it, 7 so that the read key does
      and each of 0, 2 and 3 undoes it; any other number, or a missing key, leaves the page alone. */
  lemma ModesByNumber(c: CodecState, n: int, mode: int, data: Image)
    requires 0 <= n < MAX_INT && c.isEncrypted
    ensures mode == 6 && c.hasWriteKey ==> PageDecrypt(c.writeKey, n, Transform(c, n, mode, data)) == data
    ensures mode == 7 && c.hasReadKey ==> PageDecrypt(c.readKey, n, Transform(c, n, mode, data)) == data
    ensures mode == 0 || mode == 2 || mode == 3 ==>
      Transform(c, n, mode, Transform(c, n, 7, data)) == data && Transform(c, n, 7, Transform(c, n, mode, data)) == data
    ensures (mode != 0 && mode != 2 && mode != 3 && mode != 6 && mode != 7) || (if mode == 6 then !c.hasWriteKey else !c.hasReadKey) ==>
      Transform(c, n, mode, data) == data
  {
    hide PageEncrypt;
    hide PageDecrypt;
    PageRoundTrip(c.readKey, n, data);
    PageRoundTrip(c.writeKey, n, data);
  }

  /** A journal record is the image the page was loaded from, whatever the write key is. */
  lemma JournalUndoesLoad(c: Option<CodecState>, n: int, image: Image)
    requires 0 <= n < MAX_INT
    ensures Code(c, n, WRITE_JOURNAL, Code(c, n, LOAD, image)) == image
  {
    hide PageEncrypt;
    hide PageDecrypt;
    if c.Some? {
      PageRoundTrip(c.value.readKey, n, image);
    }
  }

  // ---- the pager ---------------------------------------------------------------

  datatype Pager = Pager(disk: map<int, Image>, cache: map<int, Image>, dirty: set<int>, journal: map<int, Image>)

  ghost predicate WellFormed(p: Pager) {
    && p.dirty <= p.cache.Keys <= p.disk.Keys && p.journal.Keys <= p.disk.Keys
    && forall n :: n in p.disk ==> 0 <= n < MAX_INT
  }

  // Brings a page into the cache.
  function Load(p: Pager, c: Option<CodecState>, n: int): (q: Pager)
    requires WellFormed(p) && n in p.disk
    ensures WellFormed(q)
  {
    if n in p.cache then p else p.(cache := p.cache[n := Code(c, n, LOAD, p.disk[n])])
  }

  // Writes the journal record of a cached page, the first time only.
  function Record(p: Pager, c: Option<CodecState>, n: int): (q: Pager)
    requires WellFormed(p) && n in p.cache
    ensures WellFormed(q)
  {
    if n in p.journal then p else p.(journal := p.journal[n := Code(c, n, WRITE_JOURNAL, p.cache[n])])
  }

  // Makes a cached page writable.
  function Touch(p: Pager, c: Option<CodecState>, n: int): (q: Pager)
    requires WellFormed(p) && n in p.cache
    ensures WellFormed(q)
  {
    var r := Record(p, c, n);
    r.(dirty := r.dirty + {n})
  }

  // Writes out the dirty pages among ns.
  function Spill(p: Pager, c: Option<CodecState>, ns: set<int>): (q: Pager)
    requires WellFormed(p)
    ensures WellFormed(q)
  {
    p.(disk := map n | n in p.disk :: if n in ns && n in p.dirty then Code(c, n, WRITE_PAGE, p.cache[n]) else p.disk[n],
       dirty := p.dirty - ns)
  }

  // Drops the clean pages among ns from the cache.
  function Evict(p: Pager, ns: set<int>): (q: Pager)
    requires WellFormed(p)
    ensures WellFormed(q)
  {
    p.(cache := map n | n in p.cache && (n !in ns || n in p.dirty) :: p.cache[n])
  }

  // Ends the transaction: the journal is deleted.
  function Close(p: Pager): (q: Pager)
    requires WellFormed(p)
    ensures WellFormed(q)
  {
    p.(journal := map[])
  }

  // Plays the journal back over the disk, and reloads the cached pages it restores.
  function Playback(p: Pager, c: Option<CodecState>): (q: Pager)
    requires WellFormed(p)
    ensures WellFormed(q)
  {
    Pager(map n | n in p.disk :: if n in p.journal then p.journal[n] else p.disk[n],
          map n | n in p.cache :: if n in p.journal then Code(c, n, LOAD, p.journal[n]) else p.cache[n],
          {}, map[])
  }

  // ---- one transaction ---------------------------------------------------------

  /** Whatever the order of loads, writes, spills and evictions, the journal and the disk still hold
      the images of the start of the transaction. */
  ghost predicate Restorable(p: Pager, c: Option<CodecState>, start: map<int, Image>) {
    && WellFormed(p) && p.disk.Keys == start.Keys
    && (forall n :: n in p.journal ==> p.journal[n] == start[n])
    && (forall n :: n in p.disk && n !in p.journal ==> p.disk[n] == start[n])
    && (forall n :: n in p.cache && n !in p.journal ==> p.cache[n] == Code(c, n, LOAD, start[n]))
    && p.dirty <= p.journal.Keys
  }

  datatype Action = ALoad(n: int) | ARecord(n: int) | ATouch(n: int) | ASpill(ns: set<int>) | AEvict(ns: set<int>)

  // What the pager may do next.
  ghost predicate Enabled(p: Pager, a: Action) {
    match a
    case ALoad(n) => n in p.disk
    case ARecord(n) => n in p.cache
    case ATouch(n) => n in p.cache
    case _ => true
  }

  function Do(p: Pager, c: Option<CodecState>, a: Action): (q: Pager)
    requires WellFormed(p) && Enabled(p, a)
    ensures WellFormed(q)
  {
    match a
    case ALoad(n) => Load(p, c, n)
    case ARecord(n) => Record(p, c, n)
    case ATouch(n) => Touch(p, c, n)
    case ASpill(ns) => Spill(p, c, ns)
    case AEvict(ns) => Evict(p, ns)
  }

  lemma StepKeepsRestorable(p: Pager, c: Option<CodecState>, start: map<int, Image>, a: Action)
    requires Restorable(p, c, start) && Enabled(p, a)
    ensures Restorable(Do(p, c, a), c, start)
  {
    hide Code;
    match a {
      case ARecord(n) => JournalUndoesLoad(c, n, start[n]);
      case ATouch(n) => JournalUndoesLoad(c, n, start[n]);
      case _ =>
    }
  }

  lemma PlaybackRestores(p: Pager, c: Option<CodecState>, start: map<int, Image>)
    requires Restorable(p, c, start)
    ensures var q := Playback(p, c);
      && q.disk == start && q.dirty == {} && q.journal == map[]
      && forall n :: n in q.cache ==> q.cache[n] == Code(c, n, LOAD, start[n])
  {
    hide Code;
    forall n | n in start ensures Playback(p, c).disk[n] == start[n] {
      if n !in p.journal {
        assert n in p.disk;
      }
    }
  }

  /** A run of the pager: every action is one it may take in the state the actions before it lead to. */
  ghost predicate CanRun(p: Pager, c: Option<CodecState>, run: seq<Action>)
    requires WellFormed(p)
    decreases |run|
  {
    run != [] ==> Enabled(p, run[0]) && CanRun(Do(p, c, run[0]), c, run[1..])
  }

  function Run(p: Pager, c: Option<CodecState>, run: seq<Action>): (q: Pager)
    requires WellFormed(p) && CanRun(p, c, run)
    ensures WellFormed(q)
    decreases |run|
  {
    if run == [] then p else Run(Do(p, c, run[0]), c, run[1..])
  }

  // No transaction is open, and cached pages are what the codec reads.
  ghost predicate Idle(p: Pager, c: Option<CodecState>) {
    && WellFormed(p) && p.dirty == {} && p.journal == map[]
    && forall n :: n in p.cache ==> p.cache[n] == Code(c, n, LOAD, p.disk[n])
  }

  lemma {:induction false} RunKeepsRestorable(p: Pager, c: Option<CodecState>, start: map<int, Image>, run: seq<Action>)
    requires Restorable(p, c, start) && CanRun(p, c, run)
    ensures Restorable(Run(p, c, run), c, start)
    decreases |run|
  {
    hide Do;
    hide Restorable;
    assert WellFormed(p) by { RestorableIsWellFormed(p, c, start); }
    if run != [] {
      StepKeepsRestorable(p, c, start, run[0]);
      RunKeepsRestorable(Do(p, c, run[0]), c, start, run[1..]);
    }
  }

  lemma RestorableIsWellFormed(p: Pager, c: Option<CodecState>, start: map<int, Image>)
    requires Restorable(p, c, start)
    ensures WellFormed(p)
  {
  }

  /** After any run from an idle pager, playing the journal back restores the disk byte for byte, and
      every page still cached is what the codec reads there. */
  lemma RollbackRestoresDisk(p: Pager, c: Option<CodecState>, run: seq<Action>)
    requires Idle(p, c) && CanRun(p, c, run)
    ensures Playback(Run(p, c, run), c).disk == p.disk && Idle(Playback(Run(p, c, run), c), c)
  {
    hide Code;
    RunKeepsRestorable(p, c, p.disk, run);
    PlaybackRestores(Run(p, c, run), c, p.disk);
  }

  // ---- rewriting every page ----------------------------------------------------

  /** Pages 1 to k, but not the skipped one, have been made writable; the others are untouched.
      Cached pages hold the plaintext read at the start; those written out are coded for writing. */
  ghost predicate Progress(p: Pager, c: Option<CodecState>, start: map<int, Image>, k: int, skip: int) {
    && Restorable(p, c, start)
    && (forall n :: n in p.cache ==> p.cache[n] == Code(c, n, LOAD, start[n]))
    && (forall n :: n in p.dirty ==> 1 <= n <= k && n != skip)
    && forall n :: n in p.disk && n !in p.dirty ==>
      p.disk[n] == if 1 <= n <= k && n != skip then Code(c, n, WRITE_PAGE, Code(c, n, LOAD, start[n])) else start[n]
  }

  // Pages after k have no journal record yet.
  ghost predicate Ahead(p: Pager, k: int) {
    forall n :: n in p.journal ==> n <= k
  }

  lemma SpillKeepsProgress(p: Pager, c: Option<CodecState>, start: map<int, Image>, k: int, skip: int, ns: set<int>)
    requires Progress(p, c, start, k, skip)
    ensures Progress(Spill(p, c, ns), c, start, k, skip)
  {
    hide Code;
    StepKeepsRestorable(p, c, start, ASpill(ns));
  }

  lemma EvictKeepsProgress(p: Pager, c: Option<CodecState>, start: map<int, Image>, k: int, skip: int, ns: set<int>)
    requires Progress(p, c, start, k, skip)
    ensures Progress(Evict(p, ns), c, start, k, skip)
  {
    hide Code;
    StepKeepsRestorable(p, c, start, AEvict(ns));
  }

  lemma LoadKeepsProgress(p: Pager, c: Option<CodecState>, start: map<int, Image>, k: int, skip: int, n: int)
    requires Progress(p, c, start, k, skip) && Ahead(p, k) && k < n && n in p.disk
    ensures Progress(Load(p, c, n), c, start, k, skip)
  {
    hide Code;
    StepKeepsRestorable(p, c, start, ALoad(n));
  }

  lemma RecordKeepsProgress(p: Pager, c: Option<CodecState>, start: map<int, Image>, k: int, skip: int, n: int)
    requires Progress(p, c, start, k, skip) && n in p.cache
    ensures Progress(Record(p, c, n), c, start, k, skip)
  {
    hide Code;
    StepKeepsRestorable(p, c, start, ARecord(n));
  }

  lemma TouchAdvances(p: Pager, c: Option<CodecState>, start: map<int, Image>, k: int, skip: int)
    requires Progress(p, c, start, k, skip) && Ahead(p, k) && k + 1 in p.cache && k + 1 != skip && 0 <= k
    ensures Progress(Touch(p, c, k + 1), c, start, k + 1, skip) && Ahead(Touch(p, c, k + 1), k + 1)
  {
    hide Code;
    StepKeepsRestorable(p, c, start, ATouch(k + 1));
  }

  lemma SkipAdvances(p: Pager, c: Option<CodecState>, start: map<int, Image>, k: int)
    requires Progress(p, c, start, k, k + 1) && Ahead(p, k)
    ensures Progress(p, c, start, k + 1, k + 1) && Ahead(p, k + 1)
  {
    hide Code;
  }

  // ---- the calls that rekeying makes -------------------------------------------

  /** What may happen in one call of the pager: pages spilled and dropped first, then success (code 0)
      or an error, which for a page write may come after its journal record. */
  datatype Choice = Choice(code: int, recorded: bool, spill: set<int>, evict: set<int>)

  // The pager makes room as it sees fit; pinned pages stay in the cache.
  function Disturb(p: Pager, c: Option<CodecState>, ch: Choice, pinned: set<int>): (q: Pager)
    requires WellFormed(p) && pinned <= p.cache.Keys
    ensures WellFormed(q) && pinned <= q.cache.Keys && q.disk.Keys == p.disk.Keys
  {
    Evict(Spill(p, c, ch.spill), ch.evict - pinned)
  }

  // sqlite3PagerGet
  function AfterGet(p: Pager, c: Option<CodecState>, ch: Choice, n: int): (q: Pager)
    requires WellFormed(p) && n in p.disk
    ensures WellFormed(q) && q.disk.Keys == p.disk.Keys && (ch.code == 0 ==> n in q.cache)
  {
    var r := Disturb(p, c, ch, {});
    if ch.code == 0 then Load(r, c, n) else r
  }

  // sqlite3PagerWrite
  function AfterWrite(p: Pager, c: Option<CodecState>, ch: Choice, n: int): (q: Pager)
    requires WellFormed(p) && n in p.cache
    ensures WellFormed(q) && q.disk.Keys == p.disk.Keys
  {
    var r := Disturb(p, c, ch, {n});
    if ch.code == 0 then Touch(r, c, n) else if ch.recorded then Record(r, c, n) else r
  }

  // sqlite3BtreeCommit: on failure some of the dirty pages may already be on the disk.
  function AfterCommit(p: Pager, c: Option<CodecState>, ch: Choice): (q: Pager)
    requires WellFormed(p)
    ensures WellFormed(q) && q.disk.Keys == p.disk.Keys
  {
    if ch.code == 0 then Close(Spill(p, c, p.dirty)) else Spill(p, c, ch.spill)
  }

  // sqlite3BtreeRollback
  function AfterRollback(p: Pager, c: Option<CodecState>, ch: Choice): (q: Pager)
    requires WellFormed(p)
    ensures WellFormed(q) && q.disk.Keys == p.disk.Keys
  {
    Evict(Playback(p, c), ch.evict)
  }

  lemma DisturbKeepsProgress(p: Pager, c: Option<CodecState>, start: map<int, Image>, k: int, skip: int, ch: Choice, pinned: set<int>)
    requires Progress(p, c, start, k, skip) && Ahead(p, k) && pinned <= p.cache.Keys
    ensures Progress(Disturb(p, c, ch, pinned), c, start, k, skip) && Ahead(Disturb(p, c, ch, pinned), k)
  {
    SpillKeepsProgress(p, c, start, k, skip, ch.spill);
    EvictKeepsProgress(Spill(p, c, ch.spill), c, start, k, skip, ch.evict - pinned);
    hide Code;
    hide Progress;
  }

  lemma GetKeepsProgress(p: Pager, c: Option<CodecState>, start: map<int, Image>, k: int, skip: int, ch: Choice, n: int)
    requires Progress(p, c, start, k, skip) && Ahead(p, k) && k < n && n in p.disk
    ensures var q := AfterGet(p, c, ch, n); Progress(q, c, start, k, skip) && Ahead(q, k)
  {
    DisturbKeepsProgress(p, c, start, k, skip, ch, {});
    LoadKeepsProgress(Disturb(p, c, ch, {}), c, start, k, skip, n);
    hide Code;
    hide Progress;
    hide Disturb;
  }

  lemma WriteAdvances(p: Pager, c: Option<CodecState>, start: map<int, Image>, k: int, skip: int, ch: Choice)
    requires 0 <= k && Progress(p, c, start, k, skip) && Ahead(p, k) && k + 1 in p.cache && k + 1 != skip
    ensures var q := AfterWrite(p, c, ch, k + 1);
            if ch.code == 0 then Progress(q, c, start, k + 1, skip) && Ahead(q, k + 1) else Progress(q, c, start, k, skip)
  {
    var r := Disturb(p, c, ch, {k + 1});
    DisturbKeepsProgress(p, c, start, k, skip, ch, {k + 1});
    hide Code;
    hide Progress;
    hide Disturb;
    if ch.code == 0 {
      TouchAdvances(r, c, start, k, skip);
    } else if ch.recorded {
      RecordKeepsProgress(r, c, start, k, skip, k + 1);
    }
  }

  // What the disk holds of page n once pages 1 to k have been rewritten.
  function Rewritten(c: Option<CodecState>, start: map<int, Image>, k: int, skip: int, n: int): Image
    requires n in start && 0 <= n < MAX_INT
  {
    if 1 <= n <= k && n != skip then Code(c, n, WRITE_PAGE, Code(c, n, LOAD, start[n])) else start[n]
  }

  lemma CommitWrites(p: Pager, c: Option<CodecState>, start: map<int, Image>, k: int, skip: int, ch: Choice)
    requires Progress(p, c, start, k, skip)
    ensures var q := AfterCommit(p, c, ch);
      if ch.code == 0 then
        && q.dirty == {} && q.journal == map[] && q.disk.Keys == start.Keys
        && (forall n :: n in q.cache ==> q.cache[n] == Code(c, n, LOAD, start[n]))
        && forall n :: n in q.disk ==> q.disk[n] == Rewritten(c, start, k, skip, n)
      else Progress(q, c, start, k, skip)
  {
    hide Code;
    if ch.code == 0 {
      SpillKeepsProgress(p, c, start, k, skip, p.dirty);
    } else {
      SpillKeepsProgress(p, c, start, k, skip, ch.spill);
    }
  }

  lemma RollbackRestores(p: Pager, c: Option<CodecState>, start: map<int, Image>, ch: Choice)
    requires Restorable(p, c, start)
    ensures var q := AfterRollback(p, c, ch); q.disk == start && Idle(q, c)
  {
    hide Code;
    PlaybackRestores(p, c, start);
  }
}

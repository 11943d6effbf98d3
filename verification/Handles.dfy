/** sqlite3_jni.c: database handles, the open blobs and backups that they list, and the Java objects
    that refer to either. */
module Handles {

  datatype Kind = Blob | Backup

  /** hbl and hbk: one open blob or backup.  native is the SQLite object, 0 once that is closed. */
  class Child {
    const kind: Kind
    var next: Child?
    var native: nat
    var h: Handle?
    ghost const holder: JavaChild

    constructor (kind: Kind, native: nat, h: Handle, next: Child?, ghost holder: JavaChild)
      ensures this.kind == kind && this.native == native && this.h == h && this.next == next && this.holder == holder
    {
      this.kind, this.native, this.h, this.next := kind, native, h, next;
      this.holder := holder;
    }
  }

  /** What the native side keeps for one Java Database.  sqlite is the connection, 0 when there is none. */
  class Handle {
    var sqlite: nat
    var blobs: Child?
    var backups: Child?
    ghost const holder: JavaDatabase

    constructor (sqlite: nat, ghost holder: JavaDatabase)
      ensures this.sqlite == sqlite && blobs == null && backups == null && this.holder == holder
    {
      this.sqlite, blobs, backups := sqlite, null, null;
      this.holder := holder;
    }

    function First(kind: Kind): Child?
      reads this`blobs, this`backups
    {
      if kind == Blob then blobs else backups
    }

    method SetFirst(kind: Kind, c: Child?)
      modifies this`blobs, this`backups
      ensures First(kind) == c && forall k :: k != kind ==> First(k) == old(First(k))
    {
      if kind == Blob {
        blobs := c;
      } else {
        backups := c;
      }
    }
  }

  class JavaDatabase {
    var handle: Handle?

    constructor ()
      ensures handle == null
    {
      handle := null;
    }
  }

  // A Java Blob or Backup object.
  class JavaChild {
    const kind: Kind
    var handle: Child?

    constructor (kind: Kind)
      ensures this.kind == kind && handle == null
    {
      this.kind, handle := kind, null;
    }
  }

  // ---- one list ----------------------------------------------------------------

  function At(items: seq<Child>, i: nat): Child? {
    if i < |items| then items[i] else null
  }

  /** The list that starts at first runs through items and ends. */
  ghost predicate Linked(first: Child?, items: seq<Child>)
    reads (set c | c in items)`next
  {
    first == At(items, 0) && forall i {:trigger items[i].next} :: 0 <= i < |items| ==> items[i].next == At(items, i + 1)
  }

  ghost predicate Distinct(items: seq<Child>) {
    forall i, j :: 0 <= i < j < |items| ==> items[i] != items[j]
  }

  lemma Pushed(c: Child, first: Child?, items: seq<Child>)
    requires Linked(first, items) && Distinct(items) && c !in items && c.next == first
    ensures Linked(c, [c] + items) && Distinct([c] + items)
  {
  }

  function Without(items: seq<Child>, c: Child): (r: seq<Child>)
    ensures c !in items ==> r == items
  {
    if items == [] then [] else if items[0] == c then items[1..] else [items[0]] + Without(items[1..], c)
  }

  lemma DistinctRest(items: seq<Child>, i: nat)
    requires Distinct(items) && 0 < i < |items|
    ensures Distinct(items[1..]) && items[0] != items[i] && items[1..][i - 1] == items[i]
  {
  }

  lemma DistinctWithout(items: seq<Child>, i: nat)
    requires Distinct(items) && i < |items|
    ensures Distinct(items[..i] + items[i + 1..])
  {
  }

  lemma {:induction false} WithoutAt(items: seq<Child>, i: nat)
    requires Distinct(items) && i < |items|
    ensures Without(items, items[i]) == items[..i] + items[i + 1..]
    ensures Distinct(Without(items, items[i]))
  {
    DistinctWithout(items, i);
    if i > 0 {
      DistinctRest(items, i);
      hide Distinct;
      WithoutAt(items[1..], i - 1);
      assert items[1..][..i - 1] == items[1..i] && items[1..][i..] == items[i + 1..];
      assert items[..i] == [items[0]] + items[1..i];
    }
  }

  lemma WithoutRest(items: seq<Child>, c: Child)
    requires Distinct(items) && c in items
    ensures Distinct(Without(items, c)) && forall j :: 0 <= j < |Without(items, c)| ==> Without(items, c)[j] in items && Without(items, c)[j] != c
  {
    var i :| 0 <= i < |items| && items[i] == c;
    WithoutAt(items, i);
  }

  lemma {:induction false} WithoutMember(items: seq<Child>, c: Child, x: Child)
    requires Distinct(items)
    ensures x in Without(items, c) <==> x in items && x != c
  {
    if items != [] && items[0] != c {
      WithoutMember(items[1..], c, x);
    }
  }

  // Points what comes before item i to what comes after it.
  method CutOut(h: Handle, kind: Kind, before: Child?, ghost items: seq<Child>, ghost i: nat)
    requires Linked(h.First(kind), items) && Distinct(items) && i < |items|
    requires before == if i == 0 then null else items[i - 1]
    modifies h`blobs, h`backups, (set x | x in items)`next
    ensures Linked(h.First(kind), items[..i] + items[i + 1..])
    ensures forall k :: k != kind ==> h.First(k) == old(h.First(k))
  {
    ghost var rest := items[..i] + items[i + 1..];
    if before == null {
      h.SetFirst(kind, h.First(kind).next);
    } else {
      before.next := before.next.next;
    }
    assert forall k :: 0 <= k < |rest| ==> rest[k] == if k < i then items[k] else items[k + 1];
  }

  /** Takes a child out of a list, if it is there. */
  method Unlink(h: Handle, kind: Kind, c: Child, ghost items: seq<Child>)
    requires Linked(h.First(kind), items) && Distinct(items)
    modifies h`blobs, h`backups, (set x | x in items)`next
    ensures Linked(h.First(kind), Without(items, c)) && Distinct(Without(items, c))
    ensures forall k :: k != kind ==> h.First(k) == old(h.First(k))
  {
    var before: Child? := null;
    var current := h.First(kind);
    ghost var i := 0;
    while current != null
      invariant i <= |items| && current == At(items, i) && before == (if i == 0 then null else items[i - 1])
      invariant c !in items[..i] && Linked(h.First(kind), items)
      invariant h.blobs == old(h.blobs) && h.backups == old(h.backups)
      decreases |items| - i
    {
      if current == c {
        WithoutAt(items, i);
        CutOut(h, kind, before, items, i);
        return;
      }
      before := current;
      current := before.next;
      i := i + 1;
    }
    assert items[..i] == items;
  }

  // ---- the library -------------------------------------------------------------

  // One of the lists of a handle.
  datatype Slot = Slot(h: Handle, kind: Kind)

  /** Everything the native side has allocated.  lists gives the contents of each list of a live handle,
      holds and conns say whose the open SQLite objects are, and lost has the connections that nobody can close. */
  class Library {
    var natives: set<nat>
    var users: map<nat, nat>
    var issued: nat
    ghost var handles: set<Handle>
    ghost var children: set<Child>
    ghost var lists: map<Slot, seq<Child>>
    ghost var holds: map<nat, Child>
    ghost var conns: map<nat, Handle>
    ghost var lost: set<nat>
    ghost var databases: set<JavaDatabase>
    ghost var wrappers: set<JavaChild>

    ghost function Items(s: Slot): seq<Child>
      reads this`lists
    {
      if s in lists then lists[s] else []
    }

    // Each list of a live handle runs through children of that handle, and ends.
    ghost predicate SlotOk(s: Slot)
      reads this`handles, this`children, this`lists, s.h`blobs, s.h`backups, Items(s)
    {
      && s.h in handles && Linked(s.h.First(s.kind), Items(s)) && Distinct(Items(s))
      && forall i :: 0 <= i < |Items(s)| ==> Items(s)[i] in children && Items(s)[i].h == s.h && Items(s)[i].kind == s.kind
    }

    // A child is listed and has an open SQLite object of its own; once its database is closed it has neither.
    ghost predicate ChildOk(c: Child)
      reads this`handles, this`lists, this`holds, c
    {
      if c.h == null then c.native == 0
      else c.h in handles && c in Items(Slot(c.h, c.kind)) && c.native in holds && holds[c.native] == c
    }

    ghost predicate NativeOk(n: nat)
      reads this`issued, this`holds, this`children, if n in holds then {holds[n]} else {}
    {
      0 < n <= issued && n in holds && holds[n] in children && holds[n].native == n
    }

    // Java objects refer to what is allocated, no two of them to the same.
    ghost predicate DatabaseOk(d: JavaDatabase)
      reads this`handles, d
    {
      d.handle != null ==> d.handle in handles && d.handle.holder == d
    }

    ghost predicate WrapperOk(w: JavaChild)
      reads this`children, w
    {
      w.handle != null ==> w.handle in children && w.handle.holder == w && w.handle.kind == w.kind
    }

    ghost predicate HandleOk(h: Handle)
      reads this`conns, h`sqlite
    {
      h.sqlite != 0 ==> h.sqlite in conns && conns[h.sqlite] == h
    }

    ghost predicate ConnOk(n: nat)
      reads this`issued, this`conns, this`handles, if n in conns then {conns[n]} else {}
    {
      0 < n <= issued && n in conns && conns[n] in handles && conns[n].sqlite == n
    }

    // The connection of an open blob or backup is still open, and is that of no other handle.
    ghost predicate UserOk(n: nat)
      reads this`issued, this`users, this`holds, this`children, this`conns, this`lost, if n in holds then {holds[n]} else {}
    {
      && 0 < n <= issued && n in users && n in holds && holds[n] in children
      && if users[n] in conns then holds[n].h == conns[users[n]] else users[n] in lost
    }

    // Each open SQLite object is accounted for once, but for loose connections, and loose blobs and
    // backups, that nobody holds yet.
    ghost predicate ConnsOk(loose: set<nat>, pending: set<nat>)
      reads *
    {
      && (forall h {:trigger HandleOk(h)} :: h in handles ==> HandleOk(h))
      && (forall n {:trigger ConnOk(n)} :: n in conns ==> ConnOk(n))
      && (forall n {:trigger UserOk(n)} :: n in holds ==> UserOk(n))
      && users.Keys == holds.Keys + pending && holds.Keys !! pending
      && conns.Keys !! lost && loose !! conns.Keys + lost && users.Keys !! conns.Keys + lost + loose
      && forall n :: n in lost || n in loose || n in pending ==> 0 < n <= issued
    }

    // The lists, the children and the Java objects are in order.
    ghost predicate ObjectsOk()
      reads *
    {
      && (forall h, k: Kind :: h in handles ==> Slot(h, k) in lists)
      && (forall s {:trigger SlotOk(s)} :: s in lists ==> SlotOk(s))
      && (forall c {:trigger ChildOk(c)} :: c in children ==> ChildOk(c))
      && (forall n {:trigger NativeOk(n)} :: n in holds ==> NativeOk(n))
      && (forall d {:trigger DatabaseOk(d)} :: d in databases ==> DatabaseOk(d))
      && (forall w {:trigger WrapperOk(w)} :: w in wrappers ==> WrapperOk(w))
    }

    // Everything is in order, but for some open SQLite objects that nobody holds yet.
    ghost predicate ValidBut(loose: set<nat>, pending: set<nat>)
      reads *
    {
      ObjectsOk() && ConnsOk(loose, pending) && natives == users.Keys + conns.Keys + lost + loose
    }

    ghost predicate Valid()
      reads *
    {
      ValidBut({}, {})
    }

    // None of this depends on the connections.
    twostate lemma ObjectsKept()
      requires old(ObjectsOk()) && issued >= old(issued)
      requires unchanged(this`holds, this`children, this`lists, this`handles, this`databases, this`wrappers)
      requires unchanged(children) && unchanged(databases) && unchanged(wrappers)
      requires forall h :: h in old(handles) ==> h.blobs == old(h.blobs) && h.backups == old(h.backups)
      ensures ObjectsOk()
    {
      forall n | n in holds ensures NativeOk(n) {
        assert old(NativeOk(n));
      }
      forall s | s in lists ensures SlotOk(s) {
        assert old(SlotOk(s));
      }
    }

    // Opening and closing blobs and backups leaves the connections in order.
    twostate lemma ConnsKept(new before: set<nat>, new pending: set<nat>)
      requires old(ConnsOk({}, before))
      requires unchanged(this`handles, this`conns, this`lost) && issued >= old(issued)
      requires forall h :: h in old(handles) ==> h.sqlite == old(h.sqlite)
      requires users.Keys == holds.Keys + pending && holds.Keys !! pending && users.Keys !! conns.Keys + lost
      requires forall n :: n in pending ==> 0 < n <= issued
      requires forall n {:trigger UserOk(n)} :: n in holds ==> UserOk(n)
      ensures ConnsOk({}, pending)
    {
      forall h | h in handles ensures HandleOk(h) {
        assert old(HandleOk(h));
      }
      forall n | n in conns ensures ConnOk(n) {
        assert old(ConnOk(n));
      }
    }

    lemma NumbersIssued(loose: set<nat>, pending: set<nat>)
      requires ValidBut(loose, pending)
      ensures forall n :: n in natives ==> 0 < n <= issued
    {
      hide ObjectsOk;
      forall n | n in natives ensures 0 < n <= issued {
        assert n in holds ==> UserOk(n);
        assert n in conns ==> ConnOk(n);
      }
    }

    // New connections leave the others in order.
    twostate lemma ConnsAdded(new dropped: set<nat>, new loose: set<nat>)
      requires old(ConnsOk({}, {})) && issued >= old(issued)
      requires dropped + loose != {} ==> old(forall n :: n in users || n in conns || n in lost ==> n <= issued)
      requires unchanged(this`users, this`holds, this`conns, this`handles, this`children)
      requires unchanged(old(handles)) && unchanged(old(children)) && lost == old(lost) + dropped && dropped !! loose
      requires forall n :: n in dropped || n in loose ==> old(issued) < n <= issued
      requires old(natives == users.Keys + conns.Keys + lost) && natives == old(natives) + dropped + loose
      ensures ConnsOk(loose, {}) && natives == users.Keys + conns.Keys + lost + loose
    {
      forall n | n in holds ensures UserOk(n) {
        assert old(UserOk(n));
      }
      forall n | n in conns ensures ConnOk(n) {
        assert old(ConnOk(n));
      }
      forall h | h in handles ensures HandleOk(h) {
        assert old(HandleOk(h));
      }
    }

    twostate lemma ConnsUntouched()
      requires old(ConnsOk({}, {}))
      requires unchanged(this`users, this`holds, this`conns, this`lost, this`issued, this`handles, this`children)
      requires unchanged(old(handles)) && unchanged(old(children))
      requires old(natives == users.Keys + conns.Keys + lost) && natives == old(natives)
      ensures ConnsOk({}, {})
    {
      ConnsAdded({}, {});
    }

    // So does taking the connection of a handle away.
    twostate lemma ConnsRemoved(h: Handle)
      requires old(ConnsOk({}, {})) && h in old(handles) && old(h.sqlite) != 0 && h.sqlite == 0
      requires unchanged(this`users, this`holds, this`issued, this`handles, this`children) && unchanged(old(children))
      requires conns == old(conns) - {old(h.sqlite)} && forall g :: g in old(handles) && g != h ==> g.sqlite == old(g.sqlite)
      requires lost == old(lost) + Stranded(old(h.sqlite))
      requires old(natives == users.Keys + conns.Keys + lost) && natives == old(natives) - Closed(old(h.sqlite))
      ensures ConnsOk({}, {}) && natives == users.Keys + conns.Keys + lost
    {
      assert old(HandleOk(h)) && old(ConnOk(h.sqlite));
      forall n | n in holds ensures UserOk(n) {
        assert old(UserOk(n));
      }
      forall n | n in conns ensures ConnOk(n) {
        assert old(ConnOk(n));
      }
      forall g | g in handles ensures HandleOk(g) {
        assert old(HandleOk(g));
      }
    }

    lemma ZeroIsNone()
      requires Valid()
      ensures 0 !in natives && 0 !in users
    {
      hide ObjectsOk;
      assert 0 in holds ==> UserOk(0);
      assert 0 in conns ==> ConnOk(0);
    }

    lemma ValidHandle(d: JavaDatabase)
      requires Valid() && d in databases && d.handle != null
      ensures d.handle in handles && (d.handle.sqlite != 0 ==> d.handle.sqlite in natives)
    {
      assert DatabaseOk(d) && HandleOk(d.handle);
    }

    constructor ()
      ensures Valid() && natives == {} && lost == {} && handles == {} && children == {} && databases == {} && wrappers == {}
    {
      natives, users, issued, handles, children, lists := {}, map[], 0, {}, {}, map[];
      holds, conns, lost, databases, wrappers := map[], map[], {}, {}, {};
    }

    // ---- SQLite ------------------------------------------------------------------

    // sqlite3_blob_open, sqlite3_backup_init: the object uses its connection until it is closed.
    method OpenNative(conn: nat) returns (n: nat)
      modifies this`natives, this`issued, this`users
      ensures n == issued == old(issued) + 1 && natives == old(natives) + {n} && users == old(users)[n := conn]
    {
      issued := issued + 1;
      n := issued;
      natives, users := natives + {n}, users[n := conn];
    }

    // sqlite3_blob_close, sqlite3_backup_finish: only what is open may be closed.
    method CloseNative(n: nat)
      requires n in natives
      modifies this`natives, this`users
      ensures natives == old(natives) - {n} && users == old(users) - {n}
    {
      natives, users := natives - {n}, users - {n};
    }

    // An open blob or backup uses the connection.
    predicate InUse(conn: nat)
      reads this`users
    {
      exists n :: n in users && users[n] == conn
    }

    // What closing a connection closes, and what it leaves open for good.
    ghost function Closed(conn: nat): set<nat>
      reads this`users
    {
      if conn != 0 && !InUse(conn) then {conn} else {}
    }

    ghost function Stranded(conn: nat): set<nat>
      reads this`users
    {
      if conn != 0 && InUse(conn) then {conn} else {}
    }

    // sqlite3_open_v2, where it succeeds
    method OpenConnection() returns (n: nat)
      modifies this`natives, this`issued
      ensures n == issued == old(issued) + 1 && natives == old(natives) + {n}
    {
      issued := issued + 1;
      n := issued;
      natives := natives + {n};
    }

    // sqlite3_close: a connection in use is busy, and stays open.
    method CloseConnection(n: nat)
      requires n in natives
      modifies this`natives
      ensures natives == if InUse(n) then old(natives) else old(natives) - {n}
    {
      if !InUse(n) {
        natives := natives - {n};
      }
    }

    // A list that nothing has touched stays in order, and an empty one is.
    twostate lemma SlotKept(new t: Slot)
      requires t in old(lists) && old(SlotOk(t)) && t.h in handles && children >= old(children) && unchanged(old(children))
      requires Items(t) == old(Items(t)) && t.h.First(t.kind) == old(t.h.First(t.kind))
      ensures SlotOk(t)
    {
    }

    twostate lemma ChildKept(new c: Child)
      requires c in old(children) && old(ChildOk(c)) && unchanged(c) && holds == old(holds) && handles >= old(handles)
      requires c.h != null ==> Items(Slot(c.h, c.kind)) == old(Items(Slot(c.h, c.kind)))
      ensures ChildOk(c)
    {
    }

    lemma EmptySlot(t: Slot)
      requires t.h in handles && Items(t) == [] && t.h.First(t.kind) == null
      ensures SlotOk(t)
    {
    }

    // ---- Java objects ------------------------------------------------------------

    method NewDatabase() returns (d: JavaDatabase)
      requires Valid()
      modifies this`databases
      ensures Valid() && fresh(d) && databases == old(databases) + {d} && d.handle == null
    {
      d := new JavaDatabase();
      databases := databases + {d};
      ConnsUntouched();
      hide ConnsOk;
      forall e | e in databases ensures DatabaseOk(e) {
        assert e != d ==> old(DatabaseOk(e));
      }
      forall s | s in lists ensures SlotOk(s) {
        assert old(SlotOk(s));
      }
    }

    method NewChild(kind: Kind) returns (w: JavaChild)
      requires Valid()
      modifies this`wrappers
      ensures Valid() && fresh(w) && wrappers == old(wrappers) + {w} && w.handle == null && w.kind == kind
    {
      w := new JavaChild(kind);
      wrappers := wrappers + {w};
      ConnsUntouched();
      hide ConnsOk;
      forall v | v in wrappers ensures WrapperOk(v) {
        assert v != w ==> old(WrapperOk(v));
      }
      forall s | s in lists ensures SlotOk(s) {
        assert old(SlotOk(s));
      }
    }

    predicate IsOpen(d: JavaDatabase)
      reads d, if d.handle == null then {} else {d.handle}
    {
      d.handle != null && d.handle.sqlite != 0
    }

    // The connection of a Java object, or 0.
    function Connection(d: JavaDatabase): nat
      reads d, if d.handle == null then {} else {d.handle}
    {
      if d.handle == null then 0 else d.handle.sqlite
    }

    /**
     * Opens a database; a handle that the Java object already has is used again, with its lists, after its
     * connection was closed.  SQLite is asked twice, and the second connection takes the place of the
     * first: nobody can close that one, nor the connection of before if it was in use.
     */
    method Open(d: JavaDatabase, firstOk: bool, secondOk: bool)
      requires Valid() && d in databases
      modifies this`natives, this`issued, this`conns, this`lost, this`handles, this`lists, d, if d.handle == null then {} else {d.handle}
      ensures Valid() && IsOpen(d) == secondOk && (old(d.handle) != null ==> d.handle == old(d.handle) && lists == old(lists))
      ensures d.handle == old(d.handle) ==> handles == old(handles) && lists == old(lists)
      ensures d.handle != old(d.handle) ==> fresh(d.handle) && handles == old(handles) + {d.handle}
      ensures d.handle != old(d.handle) ==> lists == old(lists)[Slot(d.handle, Blob) := []][Slot(d.handle, Backup) := []]
      ensures Connection(d) == if !secondOk then 0 else old(issued) + if firstOk then 2 else 1
      ensures lost == old(lost) + old(Stranded(Connection(d))) + (if firstOk then {old(issued) + 1} else {})
      ensures natives == old(natives) - old(Closed(Connection(d)))
                         + (if firstOk then {old(issued) + 1} else {}) + (if secondOk then {Connection(d)} else {})
    {
      hide ValidBut;
      if d.handle != null {
        ValidHandle(d);
        Reopen(d.handle, firstOk, secondOk);
      } else {
        var n := OpenTwice(firstOk, secondOk);
        if n != 0 {
          AddHandle(d, n);
        }
      }
    }

    // The part of a handle that is used again.
    method Reopen(h: Handle, firstOk: bool, secondOk: bool)
      requires Valid() && h in handles
      modifies this`natives, this`issued, this`conns, this`lost, h`sqlite
      ensures Valid() && h.sqlite == if !secondOk then 0 else old(issued) + if firstOk then 2 else 1
      ensures lost == old(lost) + old(Stranded(h.sqlite)) + (if firstOk then {old(issued) + 1} else {})
      ensures natives == old(natives) - old(Closed(h.sqlite))
                         + (if firstOk then {old(issued) + 1} else {}) + (if secondOk then {h.sqlite} else {})
    {
      hide ValidBut;
      hide Closed;
      hide Stranded;
      CloseSqlite(h);
      var n := OpenTwice(firstOk, secondOk);
      Connect(h, n);
    }

    // The two calls of sqlite3_open_v2.
    method OpenTwice(firstOk: bool, secondOk: bool) returns (n: nat)
      requires Valid()
      modifies this`natives, this`issued, this`lost
      ensures ValidBut(if secondOk then {n} else {}, {})
      ensures n == if !secondOk then 0 else old(issued) + if firstOk then 2 else 1
      ensures lost == old(lost) + if firstOk then {old(issued) + 1} else {}
      ensures natives == old(natives) + (if firstOk then {old(issued) + 1} else {}) + (if secondOk then {n} else {})
    {
      NumbersIssued({}, {});
      hide ObjectsOk;
      hide ConnsOk;
      ghost var was := issued;
      n := 0;
      if firstOk {
        n := OpenConnection();
      }
      lost := lost + if n == 0 then {} else {n};
      n := 0;
      if secondOk {
        n := OpenConnection();
      }
      ObjectsKept();
      ConnsAdded(if firstOk then {was + 1} else {}, if secondOk then {n} else {});
    }

    // A handle that takes a loose connection leaves the others in order.
    twostate lemma ConnsTaken(h: Handle, new n: nat)
      requires old(ConnsOk({n}, {})) && h in old(handles) && old(h.sqlite) == 0 && h.sqlite == n && conns == old(conns)[n := h]
      requires unchanged(this`users, this`holds, this`lost, this`issued, this`handles, this`children) && unchanged(old(children))
      requires forall g :: g in old(handles) && g != h ==> g.sqlite == old(g.sqlite)
      ensures ConnsOk({}, {})
    {
      forall m | m in holds ensures UserOk(m) {
        assert old(UserOk(m));
      }
      forall m | m in conns ensures ConnOk(m) {
        assert m != n ==> old(ConnOk(m));
      }
      forall g | g in handles ensures HandleOk(g) {
        assert old(HandleOk(g));
      }
    }

    // A handle without a connection takes one, if there is one.
    method Connect(h: Handle, n: nat)
      requires ValidBut(if n == 0 then {} else {n}, {}) && h in handles && h.sqlite == 0
      modifies this`conns, h`sqlite
      ensures Valid() && h.sqlite == n
    {
      hide ObjectsOk;
      hide ConnsOk;
      if n != 0 {
        h.sqlite := n;
        conns := conns[n := h];
        ConnsTaken(h, n);
        ObjectsKept();
      }
    }

    // What adding a handle for d changes.
    twostate predicate Added(new h: Handle, d: JavaDatabase)
      reads *
    {
      && fresh(h) && h.blobs == null && h.backups == null && h.holder == d && d in old(databases) && d.handle == h
      && h.sqlite != 0 && h.sqlite !in old(conns) && conns == old(conns)[h.sqlite := h] && unchanged(this`users, this`lost)
      && handles == old(handles) + {h} && lists == old(lists)[Slot(h, Blob) := []][Slot(h, Backup) := []]
      && unchanged(this`children, this`holds, this`databases, this`wrappers, this`natives, this`issued)
      && unchanged(old(children)) && unchanged(old(handles)) && unchanged(old(wrappers))
      && (forall e :: e in old(databases) && e != d ==> unchanged(e))
    }

    twostate lemma AddedSlots(new h: Handle, d: JavaDatabase)
      requires old(ObjectsOk()) && Added(h, d)
      ensures forall g, k: Kind :: g in handles ==> Slot(g, k) in lists
      ensures forall s {:trigger SlotOk(s)} :: s in lists ==> SlotOk(s)
    {
      forall g, k: Kind | g in handles ensures Slot(g, k) in lists {
        assert g == h ==> k == Blob || k == Backup;
      }
      forall s | s in lists ensures SlotOk(s) {
        if s.h == h {
          EmptySlot(s);
        } else {
          assert old(SlotOk(s));
          SlotKept(s);
        }
      }
    }

    twostate lemma AddedRest(new h: Handle, d: JavaDatabase)
      requires old(ObjectsOk()) && Added(h, d)
      ensures forall c {:trigger ChildOk(c)} :: c in children ==> ChildOk(c)
      ensures forall n {:trigger NativeOk(n)} :: n in holds ==> NativeOk(n)
      ensures forall e {:trigger DatabaseOk(e)} :: e in databases ==> DatabaseOk(e)
      ensures forall w {:trigger WrapperOk(w)} :: w in wrappers ==> WrapperOk(w)
    {
      hide SlotOk;
      forall c | c in children ensures ChildOk(c) {
        assert old(ChildOk(c));
        ChildKept(c);
      }
      forall n | n in holds ensures NativeOk(n) {
        assert old(NativeOk(n));
      }
      forall e | e in databases ensures DatabaseOk(e) {
        assert old(DatabaseOk(e));
      }
      forall w | w in wrappers ensures WrapperOk(w) {
        assert old(WrapperOk(w));
      }
    }

    twostate lemma AddedConns(new n: nat, new h: Handle, d: JavaDatabase)
      requires old(ValidBut({n}, {})) && n == h.sqlite && Added(h, d)
      ensures natives == users.Keys + conns.Keys + lost && ConnsOk({}, {})
    {
      hide ObjectsOk;
      forall m | m in holds ensures UserOk(m) {
        assert old(UserOk(m));
      }
      forall m | m in conns ensures ConnOk(m) {
        assert m != n ==> old(ConnOk(m));
      }
      forall g | g in handles ensures HandleOk(g) {
        assert g != h ==> old(HandleOk(g));
      }
    }

    twostate lemma AddedValid(new n: nat, new h: Handle, d: JavaDatabase)
      requires old(ValidBut({n}, {})) && n == h.sqlite && Added(h, d)
      ensures Valid()
    {
      AddedSlots(h, d);
      AddedRest(h, d);
      AddedConns(n, h, d);
      hide ConnsOk;
      hide SlotOk;
    }

    method AddHandle(d: JavaDatabase, n: nat)
      requires ValidBut({n}, {}) && n != 0 && d in databases && d.handle == null
      modifies this`handles, this`lists, this`conns, d
      ensures Valid() && fresh(d.handle) && d.handle.sqlite == n && handles == old(handles) + {d.handle}
      ensures lists == old(lists)[Slot(d.handle, Blob) := []][Slot(d.handle, Backup) := []]
    {
      assert n !in conns;
      hide ValidBut;
      var h := new Handle(n, d);
      d.handle := h;
      handles, lists := handles + {h}, lists[Slot(h, Blob) := []][Slot(h, Backup) := []];
      conns := conns[n := h];
      AddedValid(n, h, d);
    }

    // ---- opening -----------------------------------------------------------------

    /** open_blob and backup: a new child at the head of the list of the database, which for a backup is
        the source, unless a database is not open, SQLite fails or memory runs out. */
    method OpenChild(d: JavaDatabase, target: JavaDatabase, w: JavaChild, sqliteOk: bool, memoryOk: bool) returns (ok: bool)
      requires Valid() && d in databases && target in databases && w in wrappers
      modifies this`natives, this`issued, this`users, this`children, this`holds, this`lists
      modifies w, if d.handle == null then {} else {d.handle}
      ensures Valid()
      ensures ok <==> IsOpen(d) && (w.kind == Backup ==> IsOpen(target)) && sqliteOk && memoryOk
      ensures ok ==> w.handle != null && fresh(w.handle) && w.handle.h == d.handle && children == old(children) + {w.handle}
      ensures ok ==> natives == old(natives) + {w.handle.native} && w.handle.native !in old(natives)
      ensures ok ==> var s := Slot(d.handle, w.kind); lists == old(lists)[s := [w.handle] + old(Items(s))]
      ensures !ok ==> w.handle == old(w.handle) && children == old(children) && lists == old(lists) && natives == old(natives)
      ensures ok ==> users == old(users)[w.handle.native := d.handle.sqlite]
      ensures forall g :: g in handles ==> g.sqlite == old(g.sqlite)
    {
      var h := d.handle;
      if h != null {
        ValidHandle(d);
      }
      hide ValidBut;
      if h == null || (w.kind == Backup && target.handle == null) || h.sqlite == 0 || (w.kind == Backup && target.handle.sqlite == 0) {
        return false;
      }
      if !sqliteOk {
        return false;
      }
      ok := AddChild(h, w, memoryOk);
    }

    // What follows once SQLite has agreed: memory for the child, and its place in the list.
    method AddChild(h: Handle, w: JavaChild, memoryOk: bool) returns (ok: bool)
      requires Valid() && h in handles && h.sqlite != 0 && w in wrappers
      modifies this`natives, this`issued, this`users, this`children, this`holds, this`lists, w`handle, h`blobs, h`backups
      ensures Valid() && ok == memoryOk
      ensures ok ==> w.handle != null && fresh(w.handle) && w.handle.h == h && children == old(children) + {w.handle}
      ensures ok ==> natives == old(natives) + {w.handle.native} && w.handle.native !in old(natives)
      ensures ok ==> var s := Slot(h, w.kind); lists == old(lists)[s := [w.handle] + old(Items(s))]
      ensures ok ==> users == old(users)[w.handle.native := h.sqlite]
      ensures !ok ==> w.handle == old(w.handle) && children == old(children) && lists == old(lists) && natives == old(natives)
    {
      hide ValidBut;
      var n := AskSqlite(h);
      if memoryOk {
        Register(h, w, n);
      } else {
        GiveBack(n);
      }
      ok := memoryOk;
    }

    method AskSqlite(h: Handle) returns (n: nat)
      requires Valid() && h in handles && h.sqlite != 0
      modifies this`natives, this`issued, this`users
      ensures ValidBut({}, {n}) && 0 < n == issued && n !in holds && n !in old(natives) && natives == old(natives) + {n}
      ensures users == old(users)[n := h.sqlite]
    {
      NumbersIssued({}, {});
      hide ObjectsOk;
      n := OpenNative(h.sqlite);
      ObjectsKept();
      forall m | m in holds ensures UserOk(m) {
        assert old(UserOk(m));
      }
      ConnsKept({}, {n});
    }

    method GiveBack(n: nat)
      requires ValidBut({}, {n})
      modifies this`natives, this`users
      ensures Valid() && natives == old(natives) - {n} && users == old(users) - {n}
    {
      hide ObjectsOk;
      CloseNative(n);
      ObjectsKept();
      forall m | m in holds ensures UserOk(m) {
        assert old(UserOk(m));
      }
      ConnsKept({n}, {});
    }

    // What registering the child c changes.
    twostate predicate Registered(new c: Child, new h: Handle, w: JavaChild)
      reads *
    {
      && h in old(handles) && fresh(c) && c.h == h && c.kind == w.kind && c.holder == w && c.next == old(h.First(w.kind))
      && h.First(c.kind) == c && (forall k :: k != c.kind ==> h.First(k) == old(h.First(k)))
      && (forall g :: g in old(handles) && g != h ==> unchanged(g)) && unchanged(old(children)) && unchanged(old(databases))
      && w.handle == c && (forall v :: v in old(wrappers) && v != w ==> unchanged(v))
      && unchanged(this`handles, this`databases, this`wrappers, this`issued, this`natives)
      && unchanged(this`users, this`conns, this`lost) && h.sqlite == old(h.sqlite) != 0
      && c.native in users && users[c.native] == h.sqlite
      && children == old(children) + {c} && holds == old(holds)[c.native := c]
      && lists == old(lists)[Slot(h, w.kind) := [c] + old(Items(Slot(h, w.kind)))]
      && 0 < c.native <= issued && c.native !in old(holds)
    }

    twostate lemma RegisteredSlots(new n: nat, new c: Child, new h: Handle, w: JavaChild)
      requires old(ObjectsOk()) && n == c.native && Registered(c, h, w)
      ensures forall t {:trigger SlotOk(t)} :: t in lists ==> SlotOk(t)
    {
      hide Linked;
      hide Distinct;
      var s := Slot(h, c.kind);
      assert old(SlotOk(s));
      forall t | t in lists ensures SlotOk(t) {
        assert old(SlotOk(t));
        if t == s {
          Pushed(c, c.next, old(Items(s)));
        }
      }
    }

    twostate lemma RegisteredRest(new n: nat, new c: Child, new h: Handle, w: JavaChild)
      requires old(ObjectsOk()) && n == c.native && Registered(c, h, w)
      ensures forall x {:trigger ChildOk(x)} :: x in children ==> ChildOk(x)
      ensures forall m {:trigger NativeOk(m)} :: m in holds ==> NativeOk(m)
      ensures forall v {:trigger WrapperOk(v)} :: v in wrappers ==> WrapperOk(v)
      ensures forall d {:trigger DatabaseOk(d)} :: d in databases ==> DatabaseOk(d)
    {
      forall x | x in children ensures ChildOk(x) {
        assert x != c ==> old(ChildOk(x));
      }
      forall m | m in holds ensures NativeOk(m) {
        assert m != c.native ==> old(NativeOk(m));
      }
      forall v | v in wrappers ensures WrapperOk(v) {
        assert old(WrapperOk(v));
      }
    }

    twostate lemma RegisteredConns(new n: nat, new c: Child, new h: Handle, w: JavaChild)
      requires old(ValidBut({}, {n})) && n == c.native && Registered(c, h, w)
      ensures natives == users.Keys + conns.Keys + lost && ConnsOk({}, {})
    {
      hide ObjectsOk;
      assert old(HandleOk(h));
      forall m | m in holds ensures UserOk(m) {
        assert m != n ==> old(UserOk(m));
      }
      ConnsKept({n}, {});
    }

    twostate lemma RegisteredValid(new n: nat, new c: Child, new h: Handle, w: JavaChild)
      requires old(ValidBut({}, {n})) && n == c.native && Registered(c, h, w)
      ensures Valid()
    {
      RegisteredSlots(n, c, h, w);
      RegisteredRest(n, c, h, w);
      RegisteredConns(n, c, h, w);
      hide ConnsOk;
      hide SlotOk;
    }

    method Register(h: Handle, w: JavaChild, n: nat)
      requires ValidBut({}, {n}) && 0 < n <= issued && n !in holds && h in handles && w in wrappers
      requires h.sqlite != 0 && n in users && users[n] == h.sqlite
      modifies this`children, this`holds, this`lists, w`handle, h`blobs, h`backups
      ensures Valid()
      ensures w.handle != null && fresh(w.handle) && w.handle.h == h && w.handle.native == n
      ensures children == old(children) + {w.handle}
      ensures var s := Slot(h, w.kind); lists == old(lists)[s := [w.handle] + old(Items(s))]
    {
      hide ValidBut;
      var c := new Child(w.kind, n, h, h.First(w.kind), w);
      h.SetFirst(w.kind, c);
      w.handle := c;
      ghost var s := Slot(h, w.kind);
      children, holds, lists := children + {c}, holds[n := c], lists[s := [c] + Items(s)];
      RegisteredValid(n, c, h, w);
    }

    // ---- closing -----------------------------------------------------------------

    // What taking the child c out of its list, and closing its SQLite object, changes.
    twostate predicate Detached(c: Child)
      reads *
    {
      && unchanged(this`handles, this`databases, this`wrappers, this`issued) && unchanged(old(databases))
      && holds == old(holds) - {old(c.native)} && natives == old(natives) - {old(c.native)} && users == old(users) - {old(c.native)}
      && unchanged(this`conns, this`lost) && (forall h :: h in old(handles) ==> h.sqlite == old(h.sqlite))
      && (forall x :: x in old(children) && x != c ==> x.h == old(x.h) && x.native == old(x.native))
      && if old(c.h) == null then
          lists == old(lists) && unchanged(old(handles))
          && forall x :: x in old(children) && x != c ==> x.next == old(x.next)
        else
          var s := Slot(old(c.h), c.kind);
          && lists == old(lists)[s := Without(old(Items(s)), c)]
          && old(s.h in handles) && Linked(s.h.First(s.kind), Without(old(Items(s)), c))
          && (forall g, k :: g in old(handles) && Slot(g, k) != s ==> g.First(k) == old(g.First(k)))
          && forall x :: x in old(children) && x !in old(Items(s)) ==> x.next == old(x.next)
    }

    // Besides, either the child is freed and no Java object refers to it, or it has lost its database.
    twostate predicate Delisted(c: Child, new freed: bool)
      reads *
    {
      && Detached(c) && c in old(children) && children == (if freed then old(children) - {c} else old(children))
      && (!freed ==> c.h == null && c.native == 0)
      && (forall v :: v in old(wrappers) ==> v.handle == if freed && old(v.handle) == c then null else old(v.handle))
    }

    twostate lemma OtherSlot(c: Child, new freed: bool, new t: Slot)
      requires Delisted(c, freed) && old(ChildOk(c)) && t in old(lists) && old(SlotOk(t)) && t.h in old(handles)
      requires old(c.h != null ==> SlotOk(Slot(c.h, c.kind)))
      requires old(c.h) == null || t != Slot(old(c.h), c.kind)
      ensures SlotOk(t)
    {
      var items := old(Items(t));
      assert Items(t) == items && t.h.First(t.kind) == old(t.h.First(t.kind));
      forall i | 0 <= i < |items| ensures items[i] in children && items[i].h == t.h && items[i].next == old(items[i].next) {
        if old(c.h) != null && items[i] in old(Items(Slot(c.h, c.kind))) {
          assert false;
        }
      }
    }

    twostate lemma SameSlot(c: Child, new freed: bool, new s: Slot)
      requires Delisted(c, freed) && s in old(lists) && old(SlotOk(s)) && old(c.h) != null && s == Slot(old(c.h), c.kind)
      requires c in old(Items(s))
      ensures SlotOk(s)
    {
      var items := old(Items(s));
      var rest := Without(items, c);
      WithoutRest(items, c);
      hide Without;
      hide Distinct;
      forall j | 0 <= j < |rest| ensures rest[j] in children && rest[j].h == s.h && rest[j].kind == s.kind {
        var i :| 0 <= i < |items| && items[i] == rest[j];
      }
    }

    twostate lemma DelistedSlots(c: Child, new freed: bool)
      requires old(ObjectsOk()) && Delisted(c, freed)
      ensures forall t {:trigger SlotOk(t)} :: t in lists ==> SlotOk(t)
    {
      assert old(ChildOk(c));
      assert old(c.h != null ==> SlotOk(Slot(c.h, c.kind)));
      hide Linked;
      hide Distinct;
      forall t | t in lists ensures SlotOk(t) {
        assert old(SlotOk(t));
        if old(c.h) != null && t == Slot(old(c.h), c.kind) {
          SameSlot(c, freed, t);
        } else {
          OtherSlot(c, freed, t);
        }
      }
    }

    twostate lemma DelistedRest(c: Child, new freed: bool)
      requires old(ObjectsOk()) && Delisted(c, freed)
      ensures forall x {:trigger ChildOk(x)} :: x in children ==> ChildOk(x)
      ensures forall m {:trigger NativeOk(m)} :: m in holds ==> NativeOk(m)
      ensures forall v {:trigger WrapperOk(v)} :: v in wrappers ==> WrapperOk(v)
      ensures forall d {:trigger DatabaseOk(d)} :: d in databases ==> DatabaseOk(d)
    {
      assert old(ChildOk(c));
      forall x | x in children ensures ChildOk(x) {
        assert old(ChildOk(x));
        assert old(x.native in holds ==> NativeOk(x.native));
        assert x != c ==> x.h == old(x.h) && x.native == old(x.native);
        if old(c.h) != null {
          assert old(SlotOk(Slot(c.h, c.kind)));
          WithoutMember(old(Items(Slot(c.h, c.kind))), c, x);
        }
      }
      forall m | m in holds ensures NativeOk(m) {
        assert old(NativeOk(m));
      }
      forall v | v in wrappers ensures WrapperOk(v) {
        assert old(WrapperOk(v));
      }
    }

    twostate lemma DelistedConns(c: Child, new freed: bool)
      requires old(Valid()) && Delisted(c, freed)
      ensures natives == users.Keys + conns.Keys + lost && ConnsOk({}, {})
    {
      assert old(ChildOk(c)) && old(0 in conns ==> ConnOk(0));
      forall m | m in holds ensures UserOk(m) {
        assert old(UserOk(m)) && old(NativeOk(m));
      }
      hide ObjectsOk;
      ConnsKept({}, {});
    }

    twostate lemma DelistedValid(c: Child, new freed: bool)
      requires old(Valid()) && Delisted(c, freed)
      ensures Valid()
    {
      assert forall h, k: Kind :: h in handles ==> Slot(h, k) in lists by {
        assert old(ChildOk(c));
        hide SlotOk;
        hide ConnsOk;
      }
      DelistedSlots(c, freed);
      DelistedRest(c, freed);
      DelistedConns(c, freed);
      hide ConnsOk;
      hide SlotOk;
    }

    // Closes the SQLite object of a child, if it is open.
    method CloseChild(c: Child)
      requires 0 !in natives && 0 !in users && (c.native != 0 ==> c.native in natives)
      modifies this`natives, this`users, this`holds, c`native
      ensures c.native == 0 && natives == old(natives) - {old(c.native)} && holds == old(holds) - {old(c.native)}
      ensures users == old(users) - {old(c.native)}
    {
      if c.native != 0 {
        CloseNative(c.native);
      }
      holds := holds - {c.native};
      c.native := 0;
    }

    // What is known of a child that a Java object refers to.
    ghost predicate Held(w: JavaChild, c: Child)
      reads *
    {
      && w in wrappers && w.handle == c && c in children && c.kind == w.kind
      && 0 !in natives && 0 !in users && (c.native != 0 ==> c.native in natives)
      && (c.h != null ==> Listed(Slot(c.h, c.kind)))
      && forall v :: v in wrappers && v.handle == c ==> v == w
    }

    ghost predicate Listed(s: Slot)
      reads *
    {
      && s in lists && s.h in handles && (forall x :: x in Items(s) ==> x in children)
      && Linked(s.h.First(s.kind), Items(s)) && Distinct(Items(s))
    }

    lemma ValidHolds(w: JavaChild, c: Child)
      requires Valid() && w in wrappers && w.handle == c
      ensures Held(w, c)
    {
      assert WrapperOk(w) && ChildOk(c);
      ZeroIsNone();
      assert c.h != null ==> SlotOk(Slot(c.h, c.kind));
      forall v | v in wrappers && v.handle == c ensures v == w {
        assert WrapperOk(v);
      }
    }

    // Takes a child out of its list.
    method TakeOut(c: Child)
      requires c.h != null && Listed(Slot(c.h, c.kind))
      modifies this`lists, children`next, c.h`blobs, c.h`backups
      ensures var s := Slot(c.h, c.kind);
        && lists == old(lists)[s := Without(old(Items(s)), c)] && Linked(s.h.First(s.kind), Without(old(Items(s)), c))
        && (forall x :: x in children && x !in old(Items(s)) ==> x.next == old(x.next))
        && forall k :: k != s.kind ==> s.h.First(k) == old(s.h.First(k))
    {
      ghost var s := Slot(c.h, c.kind);
      Unlink(c.h, c.kind, c, Items(s));
      lists := lists[s := Without(Items(s), c)];
    }

    // Takes a child out of its list, if it still has one, and closes its SQLite object.
    method Detach(c: Child)
      requires 0 !in natives && 0 !in users && (c.native != 0 ==> c.native in natives) && (c.h != null ==> Listed(Slot(c.h, c.kind)))
      modifies this`natives, this`users, this`holds, this`lists, children, handles, c`native
      ensures Detached(c) && children == old(children) && unchanged(wrappers)
    {
      hide Without;
      hide Distinct;
      ghost var rest := if c.h == null then [] else Without(Items(Slot(c.h, c.kind)), c);
      if c.h != null {
        TakeOut(c);
      }
      assert allocated(rest);
      CloseChild(c);
      assert c.h != null ==> Linked(c.h.First(c.kind), rest);
    }

    // The whole release of a child that a Java object refers to.
    method Release(w: JavaChild, c: Child)
      requires Held(w, c)
      modifies this`natives, this`users, this`holds, this`children, this`lists, w, children, handles
      ensures Delisted(c, true) && w.handle == null
    {
      Detach(c);
      children := children - {c};
      w.handle := null;
    }

    /** Closing or finalizing a Java Blob or Backup, at any time and any number of times. */
    method Finalize(w: JavaChild)
      requires Valid() && w in wrappers
      modifies this`natives, this`users, this`holds, this`children, this`lists, w, children, handles
      ensures Valid() && w.handle == null
      ensures old(w.handle) == null ==> natives == old(natives) && children == old(children) && lists == old(lists)
      ensures old(w.handle) != null ==> children == old(children) - {old(w.handle)} && natives == old(natives) - {old(w.handle.native)}
      ensures old(w.handle) != null ==> lists == if old(w.handle.h) == null then old(lists)
        else var s := Slot(old(w.handle.h), w.kind); old(lists)[s := Without(old(Items(s)), old(w.handle))]
    {
      var c := w.handle;
      if c == null {
        return;
      }
      ValidHolds(w, c);
      Release(w, c);
      hide ValidBut;
      hide Without;
      DelistedValid(c, true);
    }

    // What closing the lists of h has done so far: some of its children have lost it.
    twostate predicate Emptying(h: Handle)
      reads *
    {
      && unchanged(this`handles, this`databases, this`wrappers, this`children) && unchanged(old(databases)) && unchanged(old(wrappers))
      && (forall c :: c in children ==> (c.h == old(c.h) && c.native == old(c.native)) || (old(c.h) == h && c.h == null && c.native == 0))
      && (forall g, k :: g in old(handles) && g != h ==> Items(Slot(g, k)) == old(Items(Slot(g, k))))
      && lists.Keys == old(lists.Keys)
      && natives <= old(natives) && unchanged(this`conns, this`lost)
      && forall g :: g in old(handles) ==> g.sqlite == old(g.sqlite)
    }

    // Takes the first child off the list and closes its SQLite object; the child itself stays allocated.
    method Pop(h: Handle, kind: Kind)
      requires Valid() && h in handles && h.First(kind) != null
      modifies this`natives, this`users, this`holds, this`lists, children, handles
      ensures Valid() && Emptying(h) && (forall k :: k != kind ==> Items(Slot(h, k)) == old(Items(Slot(h, k))))
      ensures |Items(Slot(h, kind))| == |old(Items(Slot(h, kind)))| - 1
    {
      var c := h.First(kind);
      PopFirst(h, kind);
      hide ValidBut;
      DelistedValid(c, false);
    }

    lemma FirstOfList(h: Handle, kind: Kind)
      requires Valid() && h in handles && h.First(kind) != null
      ensures var c, items := h.First(kind), Items(Slot(h, kind));
        && c in children && c.h == h && c.kind == kind && (c.native != 0 ==> c.native in natives)
        && items != [] && Without(items, c) == items[1..] && Linked(c.next, items[1..]) && c !in items[1..]
      ensures Slot(h, kind) in lists && 0 !in natives && 0 !in users
    {
      assert SlotOk(Slot(h, kind));
      assert ChildOk(h.First(kind));
      ZeroIsNone();
    }

    method PopFirst(h: Handle, kind: Kind)
      requires Valid() && h in handles && h.First(kind) != null
      modifies this`natives, this`users, this`holds, this`lists, children, handles
      ensures Delisted(old(h.First(kind)), false) && old(h.First(kind).h) == h && old(h.First(kind).kind) == kind
      ensures |Items(Slot(h, kind))| == |old(Items(Slot(h, kind)))| - 1
    {
      hide ValidBut;
      hide Without;
      FirstOfList(h, kind);
      ghost var s := Slot(h, kind);
      var c := h.First(kind);
      ghost var rest := Items(s)[1..];
      h.SetFirst(kind, c.next);
      c.next := null;
      c.h := null;
      lists := lists[s := rest];
      CloseChild(c);
    }

    // The loop over one of the lists.
    method CloseList(h: Handle, kind: Kind)
      requires Valid() && h in handles
      modifies this`natives, this`users, this`holds, this`lists, children, handles
      ensures Valid() && Emptying(h) && Items(Slot(h, kind)) == []
      ensures forall k :: k != kind ==> Items(Slot(h, k)) == old(Items(Slot(h, k)))
    {
      hide ValidBut;
      while h.First(kind) != null
        invariant Valid() && Emptying(h)
        invariant forall k :: k != kind ==> Items(Slot(h, k)) == old(Items(Slot(h, k)))
        decreases |Items(Slot(h, kind))|
      {
        Pop(h, kind);
      }
      EndOfList(h, kind);
    }

    lemma EndOfList(h: Handle, kind: Kind)
      requires Valid() && h in handles && h.First(kind) == null
      ensures Items(Slot(h, kind)) == []
    {
      assert SlotOk(Slot(h, kind));
    }

    /** Closing or finalizing a Java Database: every open blob and backup of it is closed, and keeps no
        reference to the handle, which is freed. */
    method CloseDatabase(d: JavaDatabase) returns (closed: bool)
      requires Valid() && d in databases
      modifies this`natives, this`users, this`holds, this`conns, this`lost, this`lists, this`handles, d, children, handles
      ensures Valid() && d.handle == null && closed == (old(d.handle) == null)
      ensures children == old(children) && handles == old(handles) - {old(d.handle)}
      ensures forall c :: c in children ==> if old(d.handle) != null && old(c.h) == old(d.handle)
        then c.h == null && c.native == 0 else c.h == old(c.h) && c.native == old(c.native)
      ensures forall g, k :: g in handles ==> Items(Slot(g, k)) == old(Items(Slot(g, k)))
      ensures forall g :: g in handles ==> g.sqlite == old(g.sqlite)
      ensures lost == old(lost) + old(Stranded(Connection(d)))
      ensures old(Connection(d)) != 0 ==> (old(Connection(d)) in natives <==> old(InUse(Connection(d))))
    {
      var h := d.handle;
      if h == null {
        return true;
      }
      ValidHandle(d);
      hide ValidBut;
      CloseAll(h);
      LostIsOpen();
      FreeHandle(d, h);
      forall c | c in children ensures if c.h == null then c.native == 0 else c.h in handles {
        HandleIsLive(c);
      }
      closed := false;
    }

    // Closes the connection of a handle, if it has one; one that is in use stays open, and is lost.
    method CloseSqlite(h: Handle)
      requires Valid() && h in handles
      modifies this`natives, this`conns, this`lost, h`sqlite
      ensures Valid() && h.sqlite == 0
      ensures lost == old(lost) + old(Stranded(h.sqlite)) && natives == old(natives) - old(Closed(h.sqlite))
    {
      var n := h.sqlite;
      if n != 0 {
        ConnectionIsOpen(h);
        hide ObjectsOk;
        hide ConnsOk;
        CloseConnection(n);
        lost := lost + if InUse(n) then {n} else {};
        conns := conns - {n};
        h.sqlite := 0;
        ConnsRemoved(h);
        ObjectsKept();
      }
    }

    lemma ConnectionIsOpen(h: Handle)
      requires Valid() && h in handles && h.sqlite != 0
      ensures h.sqlite in natives
    {
      assert HandleOk(h);
    }

    // Closes the connection, then every open blob and backup.
    method CloseAll(h: Handle)
      requires Valid() && h in handles
      modifies this`natives, this`users, this`holds, this`conns, this`lost, this`lists, children, handles
      ensures Valid() && children == old(children) && handles == old(handles) && h.sqlite == 0
      ensures unchanged(this`databases, this`wrappers) && unchanged(old(databases)) && unchanged(old(wrappers))
      ensures Items(Slot(h, Blob)) == [] && Items(Slot(h, Backup)) == []
      ensures forall c :: c in children ==>
        (c.h == old(c.h) && c.native == old(c.native)) || (old(c.h) == h && c.h == null && c.native == 0)
      ensures forall g, k :: g in handles && g != h ==> Items(Slot(g, k)) == old(Items(Slot(g, k)))
      ensures forall g :: g in handles && g != h ==> g.sqlite == old(g.sqlite)
      ensures natives <= old(natives) - old(Closed(h.sqlite)) && lost == old(lost) + old(Stranded(h.sqlite))
    {
      hide ValidBut;
      hide Stranded;
      hide Closed;
      CloseSqlite(h);
      CloseList(h, Blob);
      CloseList(h, Backup);
    }

    lemma LostIsOpen()
      requires Valid()
      ensures lost <= natives
    {
    }

    lemma HandleIsLive(c: Child)
      requires Valid() && c in children
      ensures if c.h == null then c.native == 0 else c.h in handles
    {
      assert ChildOk(c);
    }

    // Freeing a handle without a connection leaves the others in order.
    twostate lemma ConnsFreed(h: Handle)
      requires old(ConnsOk({}, {})) && h in old(handles) && old(h.sqlite) == 0 && handles == old(handles) - {h}
      requires unchanged(this`users, this`holds, this`conns, this`lost, this`issued, this`children)
      requires unchanged(old(handles)) && unchanged(old(children))
      ensures ConnsOk({}, {})
    {
      forall n | n in holds ensures UserOk(n) {
        assert old(UserOk(n));
      }
      forall n | n in conns ensures ConnOk(n) {
        assert old(ConnOk(n));
      }
      forall g | g in handles ensures HandleOk(g) {
        assert old(HandleOk(g));
      }
    }

    twostate lemma ObjectsFreed(h: Handle)
      requires old(ObjectsOk()) && h in old(handles) && h.holder in databases && old(h.holder.handle) == h
      requires handles == old(handles) - {h} && lists == old(lists) - {Slot(h, Blob), Slot(h, Backup)} && h.holder.handle == null
      requires unchanged(this`holds, this`issued, this`children, this`databases, this`wrappers)
      requires unchanged(old(handles)) && unchanged(old(children)) && unchanged(old(wrappers))
      requires forall e :: e in old(databases) && e != h.holder ==> unchanged(e)
      requires forall c :: c in children ==> c.h != h
      ensures ObjectsOk()
    {
      forall c | c in children ensures ChildOk(c) {
        assert old(ChildOk(c));
      }
      forall n | n in holds ensures NativeOk(n) {
        assert old(NativeOk(n));
      }
      forall e | e in databases ensures DatabaseOk(e) {
        assert old(DatabaseOk(e)) && old(DatabaseOk(h.holder));
      }
      forall s | s in lists ensures SlotOk(s) {
        assert old(SlotOk(s));
        assert s.h in handles by {
          assert s.h == h ==> s.kind == Blob || s.kind == Backup;
        }
        SlotKept(s);
      }
    }

    lemma NoneLeft(h: Handle)
      requires Valid() && h in handles && Items(Slot(h, Blob)) == [] && Items(Slot(h, Backup)) == []
      ensures forall c :: c in children ==> c.h != h
    {
      forall c | c in children ensures c.h != h {
        assert ChildOk(c);
        if c.kind == Blob {
          assert c !in Items(Slot(h, Blob));
        }
      }
    }

    method FreeHandle(d: JavaDatabase, h: Handle)
      requires Valid() && d in databases && d.handle == h && h in handles && h.sqlite == 0
      requires Items(Slot(h, Blob)) == [] && Items(Slot(h, Backup)) == []
      modifies this`lists, this`handles, d
      ensures Valid() && d.handle == null && handles == old(handles) - {h}
      ensures forall g, k :: g in handles ==> Items(Slot(g, k)) == old(Items(Slot(g, k)))
    {
      NoneLeft(h);
      assert DatabaseOk(d);
      hide ObjectsOk;
      hide ConnsOk;
      handles := handles - {h};
      lists := lists - {Slot(h, Blob), Slot(h, Backup)};
      d.handle := null;
      ConnsFreed(h);
      ObjectsFreed(h);
    }

    // ---- what the invariant says -------------------------------------------------

    /** Each list of a handle is exactly its open children of that kind, each of them once. */
    lemma ListsAreExact(h: Handle, kind: Kind, c: Child)
      requires Valid() && h in handles
      ensures c in Items(Slot(h, kind)) <==> c in children && c.h == h && c.kind == kind
      ensures Linked(h.First(kind), Items(Slot(h, kind))) && Distinct(Items(Slot(h, kind)))
    {
      assert SlotOk(Slot(h, kind));
      assert c in children ==> ChildOk(c);
    }

    /** Each open SQLite object is that of one attached child, or the connection of one handle, or lost. */
    lemma NativesAreExact(n: nat)
      requires Valid()
      ensures n in natives <==>
        || (exists c :: c in children && c.h != null && c.native == n)
        || (exists h :: h in handles && h.sqlite == n != 0)
        || n in lost
      ensures forall c, e :: c in children && e in children && c.native == e.native != 0 ==> c == e
      ensures forall g, h :: g in handles && h in handles && g.sqlite == h.sqlite != 0 ==> g == h
      ensures forall c, h :: c in children && h in handles && c.native == h.sqlite ==> c.native == 0
      ensures n in lost ==> n != 0 && (forall c :: c in children ==> c.native != n) && forall h :: h in handles ==> h.sqlite != n
    {
      assert n in holds ==> NativeOk(n) && ChildOk(holds[n]);
      assert n in conns ==> ConnOk(n);
      assert 0 in holds ==> NativeOk(0);
      forall c | c in children ensures ChildOk(c) {
      }
      forall h | h in handles ensures HandleOk(h) {
      }
    }

    /** Closing the connection of a handle fails exactly when an open blob or backup of that handle was opened on it,
        and never takes the connection away from under a blob or backup that is still open. */
    lemma InUseMeans(h: Handle)
      requires Valid() && h in handles && h.sqlite != 0
      ensures InUse(h.sqlite) <==>
        exists c :: c in children && c.h == h && c.native in users && users[c.native] == h.sqlite
      ensures forall c :: c in children && c.native != 0 ==> c.native in users && users[c.native] in natives
    {
      assert HandleOk(h);
      forall c | c in children && c.native != 0 ensures c.native in users && users[c.native] in natives {
        assert ChildOk(c) && UserOk(c.native);
      }
      forall n | n in users && users[n] == h.sqlite ensures holds[n] in children && holds[n].h == h && holds[n].native == n {
        assert UserOk(n) && NativeOk(n);
      }
    }

    lemma DatabaseIsAllocated(d: JavaDatabase)
      requires Valid() && d in databases
      ensures d.handle != null ==> d.handle in handles
    {
      assert DatabaseOk(d);
    }

    /** Nothing that is allocated refers to a handle that was freed, or a Java object to a freed child. */
    lemma NothingDangles(c: Child, d: JavaDatabase, w: JavaChild)
      requires Valid() && c in children && d in databases && w in wrappers
      ensures (c.h != null ==> c.h in handles) && (d.handle != null ==> d.handle in handles)
      ensures w.handle != null ==> w.handle in children
    {
      assert ChildOk(c) && DatabaseOk(d) && WrapperOk(w);
    }
  }

  // ---- runs --------------------------------------------------------------------

  datatype Step =
    | MakeDatabase
    | MakeChild(kind: Kind)
    | OpenDatabase(d: nat, firstOk: bool, secondOk: bool)
    | OpenBlobOrBackup(d: nat, target: nat, w: nat, sqliteOk: bool, memoryOk: bool)
    | FinalizeChild(w: nat)
    | FinalizeDatabase(d: nat)

  // One call on Java objects made before; calls on others change nothing.
  method Call(l: Library, ds: seq<JavaDatabase>, ws: seq<JavaChild>, step: Step)
    requires l.Valid() && (forall d :: d in ds ==> d in l.databases) && (forall w :: w in ws ==> w in l.wrappers)
    modifies l, l.children, l.handles, ds, ws
    ensures l.Valid() && l.databases == old(l.databases) && l.wrappers == old(l.wrappers)
    ensures fresh(l.children - old(l.children)) && fresh(l.handles - old(l.handles))
  {
    hide *;
    match step {
      case OpenDatabase(d, firstOk, secondOk) =>
        if d < |ds| {
          l.DatabaseIsAllocated(ds[d]);
          l.Open(ds[d], firstOk, secondOk);
        }
      case OpenBlobOrBackup(d, target, w, sqliteOk, memoryOk) =>
        if d < |ds| && target < |ds| && w < |ws| {
          l.DatabaseIsAllocated(ds[d]);
          var ok := l.OpenChild(ds[d], ds[target], ws[w], sqliteOk, memoryOk);
        }
      case FinalizeChild(w) =>
        if w < |ws| {
          l.Finalize(ws[w]);
        }
      case FinalizeDatabase(d) =>
        if d < |ds| {
          var closed := l.CloseDatabase(ds[d]);
        }
      case _ =>
    }
  }

  /** Any sequence of calls, on any of the Java objects made so far, leaves everything in order. */
  method Run(steps: seq<Step>) returns (l: Library, ds: seq<JavaDatabase>, ws: seq<JavaChild>)
    ensures fresh(l) && l.Valid()
    ensures (forall d :: d in ds ==> d in l.databases) && (forall w :: w in ws ==> w in l.wrappers)
  {
    hide *;
    l := new Library();
    ds, ws := [], [];
    for i := 0 to |steps|
      invariant fresh(l) && l.Valid() && fresh(l.children) && fresh(l.handles)
      invariant fresh(ds) && fresh(ws)
      invariant forall d :: d in ds ==> d in l.databases
      invariant forall w :: w in ws ==> w in l.wrappers
    {
      match steps[i] {
        case MakeDatabase =>
          var d := l.NewDatabase();
          ds := ds + [d];
        case MakeChild(kind) =>
          var w := l.NewChild(kind);
          ws := ws + [w];
        case _ =>
          Call(l, ds, ws, steps[i]);
      }
    }
  }
}

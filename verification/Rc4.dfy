/** The stream cipher of codec.c. */
module Rc4 {
  import opened Bytes

  /** The 256-entry state with its two indices. */
  datatype State = State(s: seq<int>, a: nat, b: nat)

  // The entries are the numbers 0 to 255, each once.
  ghost predicate Permutation(s: seq<int>) {
    && |s| == 256
    && (forall i :: 0 <= i < 256 ==> 0 <= s[i] < 256)
    && forall i, j :: 0 <= i < j < 256 ==> s[i] != s[j]
  }

  function Swap(s: seq<int>, i: nat, j: nat): (t: seq<int>)
    requires Permutation(s) && i < 256 && j < 256
    ensures Permutation(t)
  {
    s[i := s[j]][j := s[i]]
  }

  function Identity(): (s: seq<int>)
    ensures Permutation(s)
  {
    seq(256, i => i)
  }

  // The state and the index j after n steps of the key setup.
  function Setup(key: seq<byte>, n: nat): (r: (seq<int>, nat))
    requires key != [] && n <= 256
    ensures Permutation(r.0) && r.1 < 256
  {
    if n == 0 then (Identity(), 0) else
      var (s, j) := Setup(key, n - 1);
      SetupStep(s, n - 1, j, key[(n - 1) % |key|])
  }

  function SetupStep(s: seq<int>, i: nat, j: nat, k: byte): (r: (seq<int>, nat))
    requires Permutation(s) && i < 256 && j < 256
    ensures Permutation(r.0) && r.1 < 256
  {
    var j' := (j + s[i] + k as int) % 256;
    (Swap(s, i, j'), j')
  }

  // The state after n bytes of key stream.
  function Generator(key: seq<byte>, n: nat): (r: State)
    requires key != []
    ensures Permutation(r.s) && r.a < 256 && r.b < 256
  {
    if n == 0 then State(Setup(key, 256).0, 0, 0) else Advance(Generator(key, n - 1))
  }

  function Advance(g: State): (r: State)
    requires Permutation(g.s) && g.a < 256 && g.b < 256
    ensures Permutation(r.s) && r.a < 256 && r.b < 256
  {
    var a := (g.a + 1) % 256;
    var b := (g.b + g.s[a]) % 256;
    State(Swap(g.s, a, b), a, b)
  }

  lemma EntryRange(s: seq<int>, i: nat)
    requires Permutation(s) && i < 256
    ensures |s| == 256 && 0 <= s[i] < 256
  {
  }

  function AsByte(v: int): byte
    requires 0 <= v < 256
  {
    v as byte
  }

  function Output(g: State): byte
    requires Permutation(g.s) && g.a < 256 && g.b < 256
  {
    AsByte(g.s[(g.s[g.a] + g.s[g.b]) % 256])
  }

  /** The text combined with the key stream. */
  function Cipher(key: seq<byte>, text: seq<byte>): (r: seq<byte>)
    requires key != []
    ensures |r| == |text|
  {
    seq(|text|, i requires 0 <= i < |text| => Add(text[i], Output(Generator(key, i + 1))))
  }

  /** The same key takes the cipher off again. */
  lemma CipherTwice(key: seq<byte>, text: seq<byte>)
    requires key != []
    ensures Cipher(key, Cipher(key, text)) == text
  {
    hide Add;
    hide Generator;
    hide Output;
    forall i | 0 <= i < |text| ensures Cipher(key, Cipher(key, text))[i] == text[i] {
      AddCancels(text[i], Output(Generator(key, i + 1)));
    }
  }

  // One turn of the key setup: j moves by entry i and byte k of the key, and the two entries are exchanged.
  ghost predicate SetupTurn(s: seq<int>, i: nat, j: nat, k: byte, s': seq<int>, j': nat) {
    && |s| == 256 && i < 256 && j' < 256
    && j' == (j + s[i] + k as int) % 256
    && s' == s[i := s[j']][j' := s[i]]
  }

  // One turn of the generator: a moves by one, b by the entry there, and the two entries are exchanged.
  ghost predicate StreamTurn(g: State, g': State) {
    && |g.s| == 256 && g'.a < 256 && g'.b < 256
    && g'.a == (g.a + 1) % 256
    && g'.b == (g.b + g.s[g'.a]) % 256
    && g'.s == g.s[g'.a := g.s[g'.b]][g'.b := g.s[g'.a]]
  }

  // The byte a state gives.
  ghost predicate Selects(g: State, k: byte) {
    |g.s| == 256 && g.a < 256 && g.b < 256 && k as int == g.s[(g.s[g.a] + g.s[g.b]) % 256]
  }

  lemma SetupTurns(key: seq<byte>, i: nat)
    requires key != [] && i < 256
    ensures var r, r' := Setup(key, i), Setup(key, i + 1); SetupTurn(r.0, i, r.1, key[i % |key|], r'.0, r'.1)
  {
    EntryRange(Setup(key, i).0, i);
    hide Permutation;
  }

  lemma AdvanceTurns(g: State)
    requires Permutation(g.s) && g.a < 256 && g.b < 256
    ensures StreamTurn(g, Advance(g))
  {
    EntryRange(g.s, 0);
    hide Permutation;
  }

  lemma OutputSelects(g: State)
    requires Permutation(g.s) && g.a < 256 && g.b < 256
    ensures Selects(g, Output(g))
  {
    EntryRange(g.s, g.a);
    EntryRange(g.s, g.b);
    EntryRange(g.s, (g.s[g.a] + g.s[g.b]) % 256);
    SmallByte(g.s[(g.s[g.a] + g.s[g.b]) % 256]);
    hide Permutation;
  }

  // The states of the key setup, one after the other.
  lemma SetupTrace(key: seq<byte>) returns (s: seq<seq<int>>, j: seq<nat>)
    requires key != []
    ensures |s| == |j| == 257 && s[0] == seq(256, i => i) && j[0] == 0 && s[256] == Setup(key, 256).0
    ensures forall i :: 0 <= i < 256 ==> SetupTurn(s[i], i, j[i], key[i % |key|], s[i + 1], j[i + 1])
  {
    s := seq(257, i requires 0 <= i < 257 => Setup(key, i).0);
    j := seq(257, i requires 0 <= i < 257 => Setup(key, i).1);
    assert Setup(key, 0) == (Identity(), 0);
    hide Setup;
    hide SetupTurn;
    hide Permutation;
    forall i | 0 <= i < 256 ensures SetupTurn(s[i], i, j[i], key[i % |key|], s[i + 1], j[i + 1]) {
      SetupTurns(key, i);
    }
  }

  // The states of the generator, and the bytes they give.
  lemma StreamTrace(key: seq<byte>, n: nat) returns (g: seq<State>, k: seq<byte>)
    requires key != []
    ensures |g| == n + 1 && g[0] == State(Setup(key, 256).0, 0, 0) && |k| == n
    ensures forall i :: 0 <= i < n ==> StreamTurn(g[i], g[i + 1]) && Selects(g[i + 1], k[i])
    ensures forall i :: 0 <= i < n ==> k[i] == Output(Generator(key, i + 1))
  {
    hide Permutation;
    hide StreamTurn;
    hide Selects;
    hide Output;
    hide Advance;
    hide Setup;
    g := seq(n + 1, i requires 0 <= i => Generator(key, i));
    k := seq(n, i requires 0 <= i => Output(Generator(key, i + 1)));
    forall i | 0 <= i < n ensures StreamTurn(g[i], g[i + 1]) && Selects(g[i + 1], k[i]) {
      AdvanceTurns(Generator(key, i));
      OutputSelects(Generator(key, i + 1));
    }
  }

  /**
   * The cipher, turn by turn: 256 turns from the identity set the state up under the key, one turn of the
   * generator precedes every byte of text, and each byte is combined with the entry the two exchanged ones select.
   */
  lemma KeyStream(key: seq<byte>, text: seq<byte>) returns (s: seq<seq<int>>, j: seq<nat>, g: seq<State>, k: seq<byte>)
    requires key != []
    ensures |s| == |j| == 257 && s[0] == seq(256, i => i) && j[0] == 0
    ensures forall i :: 0 <= i < 256 ==> SetupTurn(s[i], i, j[i], key[i % |key|], s[i + 1], j[i + 1])
    ensures |g| == |text| + 1 && g[0] == State(s[256], 0, 0)
    ensures |k| == |text| && forall i :: 0 <= i < |text| ==> StreamTurn(g[i], g[i + 1]) && Selects(g[i + 1], k[i])
    ensures |Cipher(key, text)| == |text| && forall i :: 0 <= i < |text| ==> Cipher(key, text)[i] == text[i] ^ k[i]
  {
    s, j := SetupTrace(key);
    g, k := StreamTrace(key, |text|);
    hide Setup;
    hide Generator;
    hide Permutation;
    hide SetupTurn;
    hide StreamTurn;
    hide Selects;
    hide Output;
  }

  // One exchange of two entries, as the code makes it.
  method Exchange(rc4: array<int>, i: nat, j: nat)
    requires rc4.Length == 256 && Permutation(rc4[..]) && i < 256 && j < 256
    modifies rc4
    ensures Permutation(rc4[..]) && rc4[..] == Swap(old(rc4[..]), i, j)
  {
    var t := rc4[i];
    rc4[i] := rc4[j];
    rc4[j] := t;
  }

  method SetUpOne(rc4: array<int>, i: nat, j: nat, k: byte) returns (j': nat)
    requires rc4.Length == 256 && Permutation(rc4[..]) && i < 256 && j < 256
    modifies rc4
    ensures Permutation(rc4[..]) && (rc4[..], j') == SetupStep(old(rc4[..]), i, j, k)
    ensures j' == (j + old(rc4[i]) + k as int) % 256
    ensures rc4[i] == old(rc4[j']) && rc4[j'] == old(rc4[i])
    ensures forall m :: 0 <= m < 256 && m != i && m != j' ==> rc4[m] == old(rc4[m])
  {
    var t := rc4[i];
    j' := (j + t + k as int) % 256;
    Exchange(rc4, i, j');
  }

  method SetUp(key: array<byte>, keylen: nat) returns (rc4: array<int>)
    requires 0 < keylen <= key.Length
    ensures fresh(rc4) && rc4.Length == 256 && Permutation(rc4[..]) && rc4[..] == Setup(key[..keylen], 256).0
  {
    rc4 := new int[256](i => i);
    assert rc4[..] == Identity();
    hide Permutation;
    hide SetupStep;
    ghost var k := key[..keylen];
    var j := 0;
    for i := 0 to 256
      invariant 0 <= j < 256 && Permutation(rc4[..]) && key[..keylen] == k
      invariant (rc4[..], j) == Setup(k, i)
    {
      assert key[i % keylen] == k[i % |k|];
      j := SetUpOne(rc4, i, j, key[i % keylen]);
    }
  }

  // The next byte of key stream.
  method NextByte(rc4: array<int>, a: nat, b: nat) returns (a': nat, b': nat, k: byte)
    requires rc4.Length == 256 && Permutation(rc4[..]) && a < 256 && b < 256
    modifies rc4
    ensures Permutation(rc4[..]) && a' < 256 && b' < 256
    ensures State(rc4[..], a', b') == Advance(State(old(rc4[..]), a, b)) && k == Output(State(rc4[..], a', b'))
    ensures a' == (a + 1) % 256 && b' == (b + old(rc4[a'])) % 256
    ensures rc4[a'] == old(rc4[b']) && rc4[b'] == old(rc4[a'])
    ensures forall m :: 0 <= m < 256 && m != a' && m != b' ==> rc4[m] == old(rc4[m])
    ensures k as int == rc4[(rc4[a'] + rc4[b']) % 256]
  {
    AdvanceTurns(State(rc4[..], a, b));
    a' := (a + 1) % 256;
    b' := (b + rc4[a']) % 256;
    Exchange(rc4, a', b');
    hide Swap;
    OutputSelects(State(rc4[..], a', b'));
    EntryRange(rc4[..], (rc4[a'] + rc4[b']) % 256);
    hide Permutation;
    hide AsByte;
    k := AsByte(rc4[(rc4[a'] + rc4[b']) % 256]);
  }

  /** Enciphers or deciphers a text; textin and textout may be the same buffer. */
  method CodecRC4(key: array<byte>, keylen: nat, textin: array<byte>, textlen: nat, textout: array<byte>)
    requires 0 < keylen <= key.Length && textlen <= textin.Length && textlen <= textout.Length && key != textout
    modifies textout
    ensures textout[..textlen] == Cipher(key[..keylen], old(textin[..textlen])) && textout[textlen..] == old(textout[textlen..])
  {
    hide Add;
    hide Permutation;
    hide Advance;
    hide Output;
    hide Setup;
    var rc4 := SetUp(key, keylen);
    ghost var stream, text := key[..keylen], textin[..textlen];
    var a, b, k := 0, 0, 0;
    for i := 0 to textlen
      invariant 0 <= a < 256 && 0 <= b < 256 && Permutation(rc4[..])
      invariant State(rc4[..], a, b) == Generator(stream, i)
      invariant forall m :: 0 <= m < i ==> textout[m] == Add(text[m], Output(Generator(stream, m + 1)))
      invariant textout[textlen..] == old(textout[textlen..])
      invariant forall m :: i <= m < textlen ==> textin[m] == text[m]
    {
      a, b, k := NextByte(rc4, a, b);
      textout[i] := Add(textin[i], k);
    }
  }
}

/** StringEncoder.java: byte arrays as text that holds neither a zero nor a quote, or in hexadecimal. */
module StringEncoder {
  import opened Wrappers

  type JByte = b: int | -128 <= b < 128
  type CodeUnit = c: int | 0 <= c < 0x1_0000
  type Text = seq<CodeUnit>

  const QUOTE: CodeUnit := 39
  const CAPITAL_X: CodeUnit := 88
  const SMALL_X: CodeUnit := 120

  // The exceptions that decode may throw.
  datatype Error = NegativeArraySize | ArrayIndexOutOfBounds | StringIndexOutOfBounds | IllegalArgument(position: nat)
  datatype Result<T> = Ok(value: T) | Err(error: Error)

  // The mask 0xff.
  function Low(v: int): (r: int)
    ensures 0 <= r < 256
    ensures -512 <= v < 512 ==> r in {v - 256, v, v + 256, v + 512}
  {
    v % 256
  }

  // The cast to byte.
  function Signed(v: int): JByte {
    if Low(v) < 128 then Low(v) else Low(v) - 256
  }

  // ---- shifts and escapes ------------------------------------------------------

  predicate Allowed(shift: int) {
    1 <= shift < 256 && shift != QUOTE
  }

  function Shifted(b: JByte, shift: int): (c: CodeUnit)
    ensures c < 256
  {
    Low(b - shift)
  }

  predicate NeedsEscape(c: int) {
    c == 0 || c == 1 || c == QUOTE
  }

  function Escaped(c: CodeUnit): Text {
    if c == 0 then [1, 1] else if c == 1 then [1, 2] else if c == QUOTE then [1, 3] else [c]
  }

  function EscapedText(a: seq<JByte>, shift: int): Text {
    if a == [] then [] else Escaped(Shifted(a[0], shift)) + EscapedText(a[1..], shift)
  }

  // How many bytes are escaped under a shift.
  function Escapes(a: seq<JByte>, shift: int): nat {
    if a == [] then 0 else (if NeedsEscape(Shifted(a[0], shift)) then 1 else 0) + Escapes(a[1..], shift)
  }

  lemma {:induction false} EscapedLength(a: seq<JByte>, shift: int)
    ensures |EscapedText(a, shift)| == |a| + Escapes(a, shift)
  {
    if a != [] {
      EscapedLength(a[1..], shift);
    }
  }

  /** One byte more adds one code or two: the difference from the shift, with 0, 1 and 39 written as 1 and their rank. */
  lemma {:induction false} EscapedByCode(a: seq<JByte>, b: JByte, shift: int)
    ensures var c := (b - shift) % 256;
      EscapedText(a + [b], shift)
        == EscapedText(a, shift) + if c == 0 then [1, 1] else if c == 1 then [1, 2] else if c == 39 then [1, 3] else [c]
  {
    if a == [] {
      assert [b][1..] == [];
    } else {
      EscapedByCode(a[1..], b, shift);
      assert (a + [b])[0] == a[0] && (a + [b])[1..] == a[1..] + [b];
    }
  }

  /** Whatever the shift, the escaped bytes contain no zero and no quote, and only codes below 256. */
  lemma {:induction false} EscapedIsClean(a: seq<JByte>, shift: int)
    ensures forall c :: c in EscapedText(a, shift) ==> 0 < c < 256 && c != 39
  {
    if a != [] {
      EscapedIsClean(a[1..], shift);
    }
  }

  // ---- the best shift ----------------------------------------------------------

  // The bytes of one value, read as unsigned.
  function Count(a: seq<JByte>, v: int): nat {
    if a == [] then 0 else (if Low(a[|a| - 1]) == v then 1 else 0) + Count(a[..|a| - 1], v)
  }

  lemma {:induction false} CountFirst(a: seq<JByte>, v: int)
    requires a != []
    ensures Count(a, v) == (if Low(a[0]) == v then 1 else 0) + Count(a[1..], v)
  {
    if |a| > 1 {
      CountFirst(a[..|a| - 1], v);
      assert a[..|a| - 1][1..] == a[1..][..|a| - 2];
    }
  }

  /** The three counts add up to the number of escapes. */
  lemma {:induction false} CountsAreEscapes(a: seq<JByte>, shift: int)
    requires Allowed(shift)
    ensures Count(a, shift) + Count(a, Low(shift + 1)) + Count(a, Low(shift + QUOTE)) == Escapes(a, shift)
  {
    hide Low;
    if a != [] {
      CountsAreEscapes(a[1..], shift);
      CountFirst(a, shift);
      CountFirst(a, Low(shift + 1));
      CountFirst(a, Low(shift + QUOTE));
    }
  }

  // The allowed shifts below a limit under which b is escaped.
  function Hits(b: JByte, limit: nat): nat {
    if limit == 0 then 0
    else (if Allowed(limit - 1) && NeedsEscape(Shifted(b, limit - 1)) then 1 else 0) + Hits(b, limit - 1)
  }

  lemma {:induction false} HitsAtMost(b: JByte, limit: nat)
    requires limit <= 256
    ensures Hits(b, limit) <= (if Low(b) < limit then 1 else 0) + (if Low(b - 1) < limit then 1 else 0)
                              + (if Low(b - QUOTE) < limit then 1 else 0)
  {
    hide Low;
    if limit > 0 {
      HitsAtMost(b, limit - 1);
    }
  }

  // The escapes under all allowed shifts below a limit together.
  function TotalEscapes(a: seq<JByte>, limit: nat): nat {
    if limit == 0 then 0
    else (if Allowed(limit - 1) then Escapes(a, limit - 1) else 0) + TotalEscapes(a, limit - 1)
  }

  lemma {:induction false} TotalFirst(a: seq<JByte>, limit: nat)
    requires a != []
    ensures TotalEscapes(a, limit) == Hits(a[0], limit) + TotalEscapes(a[1..], limit)
  {
    if limit > 0 {
      TotalFirst(a, limit - 1);
    }
  }

  lemma {:induction false} TotalEmpty(limit: nat)
    ensures TotalEscapes([], limit) == 0
  {
    if limit > 0 {
      TotalEmpty(limit - 1);
    }
  }

  lemma {:induction false} TotalAtMost(a: seq<JByte>)
    ensures TotalEscapes(a, 256) <= 3 * |a|
  {
    if a == [] {
      TotalEmpty(256);
    } else {
      TotalAtMost(a[1..]);
      TotalFirst(a, 256);
      HitsAtMost(a[0], 256);
    }
  }

  function AllowedBelow(limit: nat): nat {
    if limit == 0 then 0 else (if Allowed(limit - 1) then 1 else 0) + AllowedBelow(limit - 1)
  }

  lemma {:induction false} AllowedBelowIs(limit: nat)
    requires 0 < limit <= 256
    ensures AllowedBelow(limit) == if limit <= QUOTE then limit - 1 else limit - 2
  {
    if limit > 1 {
      AllowedBelowIs(limit - 1);
    }
  }

  lemma OneMore(e: nat, x: nat)
    ensures e * (1 + x) == e + e * x
  {
  }

  lemma {:induction false} TotalAtLeast(a: seq<JByte>, e: nat, limit: nat)
    requires limit <= 256 && forall i :: Allowed(i) && i < limit ==> e <= Escapes(a, i)
    ensures e * AllowedBelow(limit) <= TotalEscapes(a, limit)
  {
    hide Escapes;
    hide Allowed;
    if limit > 0 {
      TotalAtLeast(a, e, limit - 1);
      OneMore(e, AllowedBelow(limit - 1));
    }
  }

  /** The averaging bound: a number of escapes that no allowed shift undercuts is at most 3 in 254. */
  lemma AveragingBound(a: seq<JByte>, e: nat)
    requires forall i :: Allowed(i) ==> e <= Escapes(a, i)
    ensures e <= 3 * |a| / 254
  {
    hide Escapes;
    hide Allowed;
    TotalAtLeast(a, e, 256);
    TotalAtMost(a);
    AllowedBelowIs(256);
    hide *;
  }

  /** The first of the shifts with the fewest escapes. */
  ghost predicate BestShift(a: seq<JByte>, shift: int) {
    && Allowed(shift)
    && (forall i :: Allowed(i) ==> Escapes(a, shift) <= Escapes(a, i))
    && forall i :: Allowed(i) && i < shift ==> Escapes(a, shift) < Escapes(a, i)
  }

  /** The length of the text under the best shift, as the source's documentation bounds it. */
  lemma BestLength(a: seq<JByte>, shift: int)
    requires BestShift(a, shift)
    ensures Escapes(a, shift) <= 3 * |a| / 254
    ensures 1 + |EscapedText(a, shift)| <= 1 + 257 * |a| / 254
  {
    AveragingBound(a, Escapes(a, shift));
    EscapedLength(a, shift);
  }

  // ---- encode ------------------------------------------------------------------

  method CountBytes(a: array<JByte>) returns (cnt: array<int>)
    ensures fresh(cnt) && cnt.Length == 256 && forall v :: 0 <= v < 256 ==> cnt[v] == Count(a[..], v)
  {
    cnt := new int[256](i => 0);
    for i := 0 to a.Length
      invariant forall v :: 0 <= v < 256 ==> cnt[v] == Count(a[..i], v)
    {
      assert a[..i + 1][..i] == a[..i];
      cnt[Low(a[i])] := cnt[Low(a[i])] + 1;
    }
    assert a[..a.Length] == a[..];
  }

  /** The search for the shift; the first guess, that every byte is escaped, never survives it. */
  method ChooseShift(a: array<JByte>) returns (shift: CodeUnit, nEscapes: nat)
    requires a.Length > 0
    ensures BestShift(a[..], shift) && nEscapes == Escapes(a[..], shift) < a.Length
  {
    hide Low;
    hide Escapes;
    var cnt := CountBytes(a);
    ghost var s := a[..];
    shift, nEscapes := 1, a.Length;
    var i := 1;
    while i < 256
      invariant 1 <= i <= 256 && Allowed(shift) && nEscapes <= |s|
      invariant forall v :: 0 <= v < 256 ==> cnt[v] == Count(s, v)
      invariant forall j :: Allowed(j) && j < i ==> nEscapes <= Escapes(s, j)
      invariant forall j :: Allowed(j) && j < shift ==> nEscapes < Escapes(s, j)
      invariant nEscapes == Escapes(s, shift) || (nEscapes == |s| && shift == 1)
    {
      if i == QUOTE {
        i := i + 1;
        continue;
      }
      CountsAreEscapes(s, i);
      var sum := cnt[i] + cnt[Low(i + 1)] + cnt[Low(i + QUOTE)];
      if sum < nEscapes {
        nEscapes, shift := sum, i;
        if nEscapes == 0 {
          break;
        }
      }
      i := i + 1;
    }
    AveragingBound(s, nEscapes);
  }

  lemma EscapedFrom(a: seq<JByte>, i: nat, shift: int)
    requires i < |a|
    ensures EscapedText(a[i..], shift) == Escaped(Shifted(a[i], shift)) + EscapedText(a[i + 1..], shift)
  {
    hide Shifted;
    hide Escaped;
    assert a[i..][1..] == a[i + 1..];
  }

  // Adds one shifted byte to the output, escaped if need be.
  method AppendEscaped(text: Text, c: CodeUnit) returns (r: Text)
    ensures r == text + Escaped(c)
  {
    if c == 0 {
      r := text + [1] + [1];
    } else if c == 1 {
      r := text + [1] + [2];
    } else if c == QUOTE {
      r := text + [1] + [3];
    } else {
      r := text + [c];
    }
  }

  // The output buffer: the shift, and the shifted and escaped bytes.
  method EscapeAll(a: array<JByte>, shift: CodeUnit) returns (text: Text)
    ensures text == [shift] + EscapedText(a[..], shift)
  {
    assert EscapedText([], shift) == [];
    hide Shifted;
    hide Escaped;
    hide EscapedText;
    text := [shift];
    ghost var whole := [shift] + EscapedText(a[..], shift);
    assert a[0..] == a[..];
    for i := 0 to a.Length
      invariant text + EscapedText(a[i..], shift) == whole
    {
      EscapedFrom(a[..], i, shift);
      assert a[..][i..] == a[i..] && a[..][i + 1..] == a[i + 1..];
      text := AppendEscaped(text, Shifted(a[i], shift));
    }
    assert a[a.Length..] == [];
  }

  method Encode(a: array?<JByte>) returns (text: Text)
    ensures a == null || a.Length == 0 ==> text == ['x' as int]
    ensures a != null && a.Length > 0 ==>
      |text| > 0 && BestShift(a[..], text[0]) && text == [text[0]] + EscapedText(a[..], text[0])
    // nothing that has to be quoted, nothing that reads as hexadecimal, and not too long
    ensures forall c :: c in text ==> 0 < c < 256 && c != '\'' as int
    ensures !IsHexForm(text)
    ensures |text| <= 1 + 257 * (if a == null then 0 else a.Length) / 254
  {
    if a == null || a.Length == 0 {
      return [SMALL_X];
    }
    var shift, nEscapes := ChooseShift(a);
    ghost var outLen := a.Length + nEscapes + 1;
    text := EscapeAll(a, shift);
    EscapedLength(a[..], shift);
    assert |text| == outLen;
    BestLength(a[..], shift);
    EscapedIsClean(a[..], shift);
  }

  // ---- decode ------------------------------------------------------------------

  // The blob notation.
  predicate IsHexForm(s: Text) {
    |s| > 2 && s[0] == CAPITAL_X && s[1] == QUOTE && s[|s| - 1] == QUOTE
  }

  // A digit of either case; anything else counts as zero.
  function DigitValue(c: CodeUnit): (v: nat)
    ensures v < 16
  {
    if '0' as int <= c <= '9' as int then c - '0' as int
    else if 'A' as int <= c <= 'F' as int then c - 'A' as int + 10
    else if 'a' as int <= c <= 'f' as int then c - 'a' as int + 10
    else 0
  }

  function HexByte(high: CodeUnit, low: CodeUnit): JByte {
    Signed(16 * DigitValue(high) + DigitValue(low))
  }

  function HexBytes(s: Text): (a: seq<JByte>)
    ensures |a| == |s| / 2
  {
    seq(|s| / 2, k requires 0 <= k < |s| / 2 => HexByte(s[2 * k], s[2 * k + 1]))
  }

  function Unescape(c: CodeUnit): Option<CodeUnit> {
    if c == 1 then Some(0) else if c == 2 then Some(1) else if c == 3 then Some(QUOTE) else None
  }

  // Decodes what follows the shift; before holds the bytes decoded so far.
  function DecodeRest(s: Text, shift: CodeUnit, before: seq<JByte>): Result<seq<JByte>> {
    if s == [] then Ok(before)
    else if s[0] != 1 then DecodeRest(s[1..], shift, before + [Signed(s[0] + shift)])
    else if |s| == 1 then Err(StringIndexOutOfBounds)
    else if Unescape(s[1]).None? then Err(IllegalArgument(|before|))
    else DecodeRest(s[2..], shift, before + [Signed(Unescape(s[1]).value + shift)])
  }

  function DecodeText(s: Text): Result<seq<JByte>> {
    if IsHexForm(s) then
      if |s| % 2 == 0 then Err(ArrayIndexOutOfBounds) else Ok(HexBytes(s[2..|s| - 1]))
    else if s == [] then Err(NegativeArraySize)
    else DecodeRest(s[1..], s[0], [])
  }

  lemma ShiftBack(b: JByte, shift: int)
    ensures Signed(Shifted(b, shift) + shift) == b
  {
  }

  lemma {:induction false} DecodeEscaped(a: seq<JByte>, shift: CodeUnit, before: seq<JByte>)
    ensures DecodeRest(EscapedText(a, shift), shift, before) == Ok(before + a)
    decreases |a|
  {
    if a == [] {
      assert before + a == before;
    } else {
      var c, rest := Shifted(a[0], shift), EscapedText(a[1..], shift);
      var s := Escaped(c) + rest;
      ShiftBack(a[0], shift);
      hide Signed;
      hide Shifted;
      assert s[|Escaped(c)|..] == rest;
      DecodeEscaped(a[1..], shift, before + [a[0]]);
      assert before + [a[0]] + a[1..] == before + a;
      assert NeedsEscape(c) ==> s[0] == 1 && Unescape(s[1]) == Some(c);
    }
  }

  /** decode undoes the escaping under every allowed shift, not only the best one. */
  lemma DecodeUndoesEncode(a: seq<JByte>, shift: CodeUnit)
    requires Allowed(shift)
    ensures DecodeText([shift] + EscapedText(a, shift)) == Ok(a)
  {
    var s := [shift] + EscapedText(a, shift);
    EscapedIsClean(a, shift);
    assert s[1..] == EscapedText(a, shift);
    assert |s| > 1 ==> s[1] in EscapedText(a, shift);
    DecodeEscaped(a, shift, []);
    assert [] + a == a;
  }

  lemma ShiftForth(c: CodeUnit, shift: int)
    requires c < 256
    ensures Shifted(Signed(c + shift), shift) == c
  {
  }

  // Free of zeros and quotes, and of codes that are no bytes.
  ghost predicate Clean(s: Text) {
    forall i :: 0 <= i < |s| ==> 0 < s[i] < 256 && s[i] != QUOTE
  }

  /** And escaping undoes decode: a clean text that decode accepts under a shift is what escaping its
      bytes under that shift gives. */
  lemma {:induction false} EscapingUndoesDecode(s: Text, shift: CodeUnit, before: seq<JByte>, a: seq<JByte>)
    requires DecodeRest(s, shift, before) == Ok(a) && Clean(s)
    ensures before <= a && EscapedText(a[|before|..], shift) == s
    decreases |s|
  {
    hide Signed;
    hide Shifted;
    if s != [] {
      var n := if s[0] == 1 then 2 else 1;
      var c: CodeUnit := if s[0] == 1 then Unescape(s[1]).value else s[0];
      var b := Signed(c + shift);
      ShiftForth(c, shift);
      EscapingUndoesDecode(s[n..], shift, before + [b], a);
      assert a[|before|] == b && a[|before|..] == [b] + a[|before| + 1..];
      assert Escaped(c) == s[..n];
    }
  }

  method Digits(high: CodeUnit, low: CodeUnit) returns (b: JByte)
    ensures b == HexByte(high, low)
  {
    var tmp := DigitValue(high);
    b := Signed(tmp * 16);
    tmp := DigitValue(low);
    b := b + tmp;
  }

  /** byteCopy */
  method ByteCopy(source: array<JByte>, offset: nat, count: nat, target: array<JByte>) returns (r: array<JByte>)
    requires offset + count <= source.Length && count <= target.Length && source != target
    modifies target
    ensures r == target && target[..count] == source[offset..offset + count] && target[count..] == old(target[count..])
  {
    var i, j := offset, 0;
    while i < offset + count
      invariant i == offset + j && j <= count
      invariant target[..j] == source[offset..i] && target[count..] == old(target[count..])
    {
      target[j] := source[i];
      i, j := i + 1, j + 1;
    }
    r := target;
  }

  method DecodeHex(s: Text) returns (r: Result<array<JByte>>)
    requires IsHexForm(s)
    ensures match r
      case Ok(b) => fresh(b) && DecodeText(s) == Ok(b[..])
      case Err(e) => DecodeText(s) == Err(e)
  {
    var result := new JByte[(|s| - 3) / 2](i => 0);
    var i, k := 2, 0;
    ghost var target := HexBytes(s[2..|s| - 1]);
    while i < |s| - 1
      invariant i == 2 + 2 * k && i <= |s| && k <= result.Length <= |target|
      invariant |s| % 2 == 0 ==> i <= |s| - 2
      invariant result[..k] == target[..k]
    {
      if k >= result.Length {
        return Err(ArrayIndexOutOfBounds);
      }
      result[k] := Digits(s[i], s[i + 1]);
      i, k := i + 2, k + 1;
    }
    assert result[..] == result[..k] == target;
    r := Ok(result);
  }

  // One turn of the decoder.
  lemma DecodeTurns(s: Text, i: nat, shift: CodeUnit, before: seq<JByte>)
    requires i <= |s|
    ensures var r := DecodeRest(s[i..], shift, before);
      if i == |s| then r == Ok(before)
      else if s[i] != 1 then r == DecodeRest(s[i + 1..], shift, before + [Signed(s[i] + shift)])
      else if i + 1 == |s| then r == Err(StringIndexOutOfBounds)
      else match Unescape(s[i + 1])
        case None => r == Err(IllegalArgument(|before|))
        case Some(c) => r == DecodeRest(s[i + 2..], shift, before + [Signed(c + shift)])
  {
    hide Signed;
    var t := s[i..];
    assert i < |s| ==> t[0] == s[i] && t[1..] == s[i + 1..];
    assert i + 1 < |s| ==> t[1] == s[i + 1] && t[2..] == s[i + 2..];
  }

  method DecodeShifted(s: Text) returns (r: Result<array<JByte>>)
    requires s != []
    ensures match r
      case Ok(b) => fresh(b) && DecodeRest(s[1..], s[0], []) == Ok(b[..])
      case Err(e) => DecodeRest(s[1..], s[0], []) == Err(e)
  {
    hide DecodeRest;
    hide Signed;
    var result := new JByte[|s| - 1](i => 0);
    var shift := s[0];
    var i, j := 1, 0;
    while i < |s|
      invariant j < i <= |s|
      invariant DecodeRest(s[i..], shift, result[..j]) == DecodeRest(s[1..], shift, [])
    {
      DecodeTurns(s, i, shift, result[..j]);
      var c: int := s[i];
      i := i + 1;
      if c == 1 {
        if i == |s| {
          return Err(StringIndexOutOfBounds);
        }
        c := s[i];
        i := i + 1;
        if c == 1 {
          c := 0;
        } else if c == 2 {
          c := 1;
        } else if c == 3 {
          c := QUOTE;
        } else {
          return Err(IllegalArgument(j));
        }
      }
      ghost var before := result[..j];
      result[j] := Signed(c + shift);
      j := j + 1;
      assert result[..j] == before + [Signed(c + shift)];
    }
    DecodeTurns(s, i, shift, result[..j]);
    if result.Length != j {
      var target := new JByte[j](k => 0);
      ghost var bytes := result[..j];
      result := ByteCopy(result, 0, j, target);
      assert result[..] == result[..j] == bytes;
    }
    assert result[..] == result[..j];
    r := Ok(result);
  }

  method Decode(s: Text) returns (r: Result<array<JByte>>)
    ensures match r
      case Ok(b) => fresh(b) && DecodeText(s) == Ok(b[..])
      case Err(e) => DecodeText(s) == Err(e)
  {
    if |s| > 2 && s[0] == CAPITAL_X && s[1] == QUOTE && s[|s| - 1] == QUOTE {
      r := DecodeHex(s);
    } else if |s| == 0 {
      r := Err(NegativeArraySize);
    } else {
      r := DecodeShifted(s);
    }
  }

  /** decode(encode(a)) is a, for every array; null becomes the empty one. */
  method EncodeThenDecode(a: array?<JByte>) returns (b: array<JByte>)
    ensures b[..] == if a == null then [] else a[..]
  {
    var text := Encode(a);
    if a != null && a.Length > 0 {
      DecodeUndoesEncode(a[..], text[0]);
    }
    var r := Decode(text);
    b := r.value;
  }

  // ---- hexadecimal -------------------------------------------------------------

  function Digit(v: int): (c: CodeUnit)
    requires 0 <= v < 16
    ensures DigitValue(c) == v && c != QUOTE
  {
    if v < 10 then '0' as int + v else 'A' as int + v - 10
  }

  function HexText(a: seq<JByte>): (s: Text)
    ensures |s| == 2 * |a|
  {
    if a == [] then []
    else HexText(a[..|a| - 1]) + [Digit(a[|a| - 1] / 16 % 16), Digit(a[|a| - 1] % 16)]
  }

  function BlobText(a: seq<JByte>): (s: Text)
    ensures |s| == 2 * |a| + 3
  {
    [CAPITAL_X, QUOTE] + HexText(a) + [QUOTE]
  }

  lemma DigitsOf(b: JByte)
    ensures HexByte(Digit(b / 16 % 16), Digit(b % 16)) == b
  {
    var u := if b < 0 then b + 256 else b;
    assert b / 16 % 16 == u / 16 && b % 16 == u % 16;
    hide DigitValue;
    hide Digit;
  }

  /** A digit's value is its place among the sixteen digits in either case; the digit written is the capital one. */
  lemma DigitPlaces(v: int, c: CodeUnit)
    requires 0 <= v < 16
    ensures Digit(v) == "0123456789ABCDEF"[v] as int && DigitValue("0123456789abcdef"[v] as int) == v
    ensures DigitValue(c) > 0 ==> c in {"0123456789ABCDEF"[DigitValue(c)] as int, "0123456789abcdef"[DigitValue(c)] as int}
  {
  }

  /** The blob notation by position: X and a quote, each byte as its high and its low digit, and a quote. */
  lemma {:induction false} BlobPositions(a: seq<JByte>, k: nat)
    requires k < |a|
    ensures var s := BlobText(a);
      var u := a[k] as int % 256;
      && s[0] == 'X' as int && s[1] == '\'' as int && s[|s| - 1] == '\'' as int
      && s[2 * k + 2] == "0123456789ABCDEF"[u / 16] as int && s[2 * k + 3] == "0123456789ABCDEF"[u % 16] as int
  {
    HexPositions(a, k);
    hide HexText;
  }

  lemma {:induction false} HexPositions(a: seq<JByte>, k: nat)
    requires k < |a|
    ensures var u := a[k] as int % 256;
      && HexText(a)[2 * k] == "0123456789ABCDEF"[u / 16] as int
      && HexText(a)[2 * k + 1] == "0123456789ABCDEF"[u % 16] as int
  {
    hide Digit;
    if k < |a| - 1 {
      HexPositions(a[..|a| - 1], k);
    } else {
      HighAndLow(a[k]);
    }
  }

  lemma HighAndLow(b: JByte)
    ensures var u := b as int % 256;
      && Digit(b / 16 % 16) == "0123456789ABCDEF"[u / 16] as int
      && Digit(b % 16) == "0123456789ABCDEF"[u % 16] as int
  {
    var u := b as int % 256;
    assert b / 16 % 16 == u / 16 && b % 16 == u % 16;
    DigitPlaces(u / 16, 0);
    DigitPlaces(u % 16, 0);
    hide Digit;
    hide DigitValue;
  }

  lemma {:induction false} HexUndone(a: seq<JByte>)
    ensures HexBytes(HexText(a)) == a
  {
    if a != [] {
      var b, n := a[|a| - 1], |a| - 1;
      HexUndone(a[..n]);
      DigitsOf(b);
      hide HexByte;
      hide Digit;
      var s := HexText(a);
      assert s[..2 * n] == HexText(a[..n]) && s[2 * n..] == [Digit(b / 16 % 16), Digit(b % 16)];
      forall k | 0 <= k < |a| ensures HexBytes(s)[k] == a[k] {
        if k < n {
          assert HexBytes(HexText(a[..n]))[k] == a[k];
        } else {
          assert s[2 * k] == s[2 * n..][0] && s[2 * k + 1] == s[2 * n..][1];
        }
      }
    }
  }

  /** decode undoes the blob notation of every array. */
  lemma DecodeUndoesBlobText(a: seq<JByte>)
    ensures DecodeText(BlobText(a)) == Ok(a)
  {
    HexUndone(a);
    var s := BlobText(a);
    assert s[2..|s| - 1] == HexText(a);
  }

  method EncodeX(a: array?<JByte>) returns (text: Text)
    ensures text == BlobText(if a == null then [] else a[..])
    ensures DecodeText(text) == Ok(if a == null then [] else a[..])
  {
    if a == null || a.Length == 0 {
      DecodeUndoesBlobText([]);
      return [CAPITAL_X, QUOTE, QUOTE];
    }
    text := [CAPITAL_X] + [QUOTE];
    for i := 0 to a.Length
      invariant text == [CAPITAL_X, QUOTE] + HexText(a[..i])
    {
      assert a[..i + 1][..i] == a[..i];
      text := text + [Digit(a[i] / 16 % 16)];
      text := text + [Digit(a[i] % 16)];
    }
    assert a[..a.Length] == a[..];
    text := text + [QUOTE];
    DecodeUndoesBlobText(a[..]);
  }
}

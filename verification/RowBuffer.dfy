/** sqlite3_jni.c: the table in which Vm_step hands a result row to Java, and its release by free_tab. */
module RowBuffer {
  import opened StringEncoder

  type UByte = u: int | 0 <= u < 256
  type Chars = array<CodeUnit>

  // A cell holds the number of columns, a pointer to a buffer of the table's own, or a string that SQLite owns.
  datatype Cell = Null | Count(n: nat) | Own(buffer: Chars) | ColumnName(column: nat) | ColumnText(column: nat)

  // What a column holds; the blob of length zero has no bytes to point to.
  datatype Column = Blob(bytes: seq<UByte>) | EmptyBlob | Other

  // The bytes as Java reads them.
  function JavaBytes(src: seq<UByte>): (a: seq<JByte>)
    ensures |a| == |src|
  {
    seq(|src|, k requires 0 <= k < |src| => Signed(src[k]))
  }

  // ---- one blob ----------------------------------------------------------------

  lemma UnsignedDigits(u: UByte)
    ensures Signed(u) / 16 % 16 == u / 16 && Signed(u) % 16 == u % 16
  {
  }

  lemma HexTextGrows(src: seq<UByte>, k: nat)
    requires k < |src|
    ensures HexText(JavaBytes(src[..k + 1])) == HexText(JavaBytes(src[..k])) + [Digit(src[k] / 16), Digit(src[k] % 16)]
  {
    var a := JavaBytes(src[..k + 1]);
    assert a[..|a| - 1] == JavaBytes(src[..k]) && a[|a| - 1] == Signed(src[k]);
    UnsignedDigits(src[k]);
    hide Signed;
    hide JavaBytes;
  }

  lemma {:induction false} HexTextHasNoZero(a: seq<JByte>)
    ensures 0 !in HexText(a)
  {
    if a != [] {
      HexTextHasNoZero(a[..|a| - 1]);
    }
  }

  /** What the buffer of a blob holds: text without a zero, closed by one, that decodes to the blob. */
  lemma BlobBufferDecodes(src: seq<UByte>)
    ensures DecodeText(BlobText(JavaBytes(src))) == Ok(JavaBytes(src)) && 0 !in BlobText(JavaBytes(src))
  {
    DecodeUndoesBlobText(JavaBytes(src));
    HexTextHasNoZero(JavaBytes(src));
  }

  // Writes the hexadecimal digits of the bytes and returns the position behind them.
  method WriteDigits(src: seq<UByte>, buffer: Chars, start: nat) returns (p: nat)
    requires start + 2 * |src| <= buffer.Length
    modifies buffer
    ensures p == start + 2 * |src| && buffer[start..p] == HexText(JavaBytes(src))
    ensures buffer[..start] == old(buffer[..start])
  {
    hide Digit;
    hide JavaBytes;
    hide HexText;
    p := start;
    assert HexText(JavaBytes(src[..0])) == [];
    for k := 0 to |src|
      invariant p == start + 2 * k && buffer[start..p] == HexText(JavaBytes(src[..k]))
      invariant buffer[..start] == old(buffer[..start])
    {
      HexTextGrows(src, k);
      ghost var before := buffer[start..p];
      buffer[p] := Digit(src[k] / 16);
      p := p + 1;
      buffer[p] := Digit(src[k] % 16);
      p := p + 1;
      assert buffer[start..p - 2] == before;
    }
    assert src[..|src|] == src;
  }

  /** The 2n+4 bytes are filled exactly: the prefix, the digits, the quote and the closing zero. */
  method BlobBuffer(src: seq<UByte>) returns (buffer: Chars)
    ensures fresh(buffer) && buffer.Length == 2 * |src| + 4
    ensures buffer[..] == BlobText(JavaBytes(src)) + [0]
  {
    buffer := new CodeUnit[|src| * 2 + 4](i => 0);
    var p := 0;
    buffer[p] := CAPITAL_X;
    p := p + 1;
    buffer[p] := QUOTE;
    p := p + 1;
    p := WriteDigits(src, buffer, p);
    assert buffer[..2] == [CAPITAL_X, QUOTE];
    ghost var text := buffer[..p];
    assert text == buffer[..2] + buffer[2..p];
    buffer[p] := QUOTE;
    p := p + 1;
    buffer[p] := 0;
    p := p + 1;
    assert buffer[..] == text + [QUOTE] + [0];
  }

  // ---- the table ---------------------------------------------------------------

  function OwnCell(b: array?<CodeUnit>): Cell {
    if b == null then Null else Own(b)
  }

  // The three parts of the table.
  function DataAt(t: seq<Cell>, n: nat, k: nat): Cell
    requires |t| == 3 * n + 4 && k < n
  {
    t[1 + k]
  }

  function NameAt(t: seq<Cell>, n: nat, k: nat): Cell
    requires |t| == 3 * n + 4 && k < n
  {
    t[n + 2 + k]
  }

  function OwnAt(t: seq<Cell>, n: nat, k: nat): Cell
    requires |t| == 3 * n + 4 && k < n
  {
    t[2 * n + 3 + k]
  }

  // The value of a column, null if it is not reached yet.
  function ValueCell(columns: seq<Column>, row: bool, buffers: seq<array?<CodeUnit>>, k: nat): Cell
    requires k < |columns|
  {
    if k >= |buffers| then Null else if row && columns[k].Other? then ColumnText(k) else OwnCell(buffers[k])
  }

  // Columns before i hold their row's values, and the cells not yet reached are null.
  ghost predicate FilledTo(t: seq<Cell>, columns: seq<Column>, row: bool, buffers: seq<array?<CodeUnit>>, i: nat) {
    var n := |columns|;
    && |t| == 3 * n + 4 && t[0] == Count(n) && |buffers| == i <= n
    && t[n + 1] == Null && t[2 * n + 2] == Null && t[3 * n + 3] == Null
    && (forall k :: 0 <= k < i && buffers[k] != null ==> row && columns[k].Blob?)
    && (forall k :: 0 <= k < n ==> DataAt(t, n, k) == ValueCell(columns, row, buffers, k))
    && (forall k :: 0 <= k < n ==> NameAt(t, n, k) == if k < i then ColumnName(k) else Null)
    && (forall k :: 0 <= k < n ==> OwnAt(t, n, k) == if k < i then OwnCell(buffers[k]) else Null)
  }

  /** The whole table: the values and the names of the columns, each closed by a null, and the buffers
      that the table owns. */
  ghost predicate Layout(t: seq<Cell>, columns: seq<Column>, row: bool, buffers: seq<array?<CodeUnit>>) {
    FilledTo(t, columns, row, buffers, |columns|)
  }

  ghost predicate Distinct(buffers: seq<array?<CodeUnit>>) {
    forall i, j :: 0 <= i < j < |buffers| && buffers[i] != null ==> buffers[i] != buffers[j]
  }

  /** The part of Vm_step that fills the table, on a row or, for its names, at the end of an empty
      result.  Memory may run out for the table, and for the buffer of any blob. */
  method BuildTable(columns: seq<Column>, row: bool, tableFits: bool, fits: seq<bool>)
      returns (table: array?<Cell>, buffers: seq<array?<CodeUnit>>)
    requires |fits| == |columns|
    ensures table == null <==> columns == [] || !tableFits
    ensures table != null ==> fresh(table) && Layout(table[..], columns, row, buffers) && Distinct(buffers)
    ensures table != null ==> forall k :: 0 <= k < |columns| ==>
      && (buffers[k] != null <==> row && columns[k].Blob? && fits[k])
      && (buffers[k] != null ==> fresh(buffers[k]) && buffers[k][..] == BlobText(JavaBytes(columns[k].bytes)) + [0])
  {
    hide BlobText;
    hide JavaBytes;
    buffers := [];
    var ncol := |columns|;
    if ncol == 0 || !tableFits {
      return null, [];
    }
    table := new Cell[ncol * 3 + 3 + 1](i => Null);
    table[0] := Count(ncol);
    for i := 0 to ncol
      invariant fresh(table) && FilledTo(table[..], columns, row, buffers, i) && Distinct(buffers)
      invariant forall k :: 0 <= k < i ==> (buffers[k] != null <==> row && columns[k].Blob? && fits[k])
      invariant forall k :: 0 <= k < i && buffers[k] != null ==>
        fresh(buffers[k]) && allocated(buffers[k]) && buffers[k][..] == BlobText(JavaBytes(columns[k].bytes)) + [0]
    {
      var buffer := ColumnBuffer(columns[i], row, fits[i]);
      FillColumn(table, columns, row, buffers, i, buffer);
      buffers := buffers + [buffer];
    }
  }

  method ColumnBuffer(column: Column, row: bool, fits: bool) returns (buffer: array?<CodeUnit>)
    ensures buffer != null <==> row && column.Blob? && fits
    ensures buffer != null ==> fresh(buffer) && buffer[..] == BlobText(JavaBytes(column.bytes)) + [0]
  {
    buffer := null;
    if row && column.Blob? && fits {
      buffer := BlobBuffer(column.bytes);
    }
  }

  method FillColumn(table: array<Cell>, columns: seq<Column>, row: bool, ghost buffers: seq<array?<CodeUnit>>, i: nat,
                    buffer: array?<CodeUnit>)
    requires i < |columns| && FilledTo(table[..], columns, row, buffers, i)
    requires buffer != null ==> row && columns[i].Blob?
    modifies table
    ensures FilledTo(table[..], columns, row, buffers + [buffer], i + 1)
  {
    ghost var before := table[..];
    var data := 1;
    var cols := data + |columns| + 1;
    var blob := cols + |columns| + 1;
    table[cols + i] := ColumnName(i);
    if row && columns[i].Other? {
      table[data + i] := ColumnText(i);
    } else if buffer != null {
      table[data + i] := Own(buffer);
      table[blob + i] := Own(buffer);
    }
    assert DataAt(before, |columns|, i) == Null && OwnAt(before, |columns|, i) == Null;
    NextColumn(before, table[..], columns, row, buffers, i, buffer);
  }

  // The table with the cells of one more column filled in.
  lemma NextColumn(before: seq<Cell>, t: seq<Cell>, columns: seq<Column>, row: bool, buffers: seq<array?<CodeUnit>>, i: nat,
                   buffer: array?<CodeUnit>)
    requires i < |columns| && FilledTo(before, columns, row, buffers, i) && |t| == |before|
    requires buffer != null ==> row && columns[i].Blob?
    requires forall k :: 0 <= k < |t| && k != 1 + i && k != |columns| + 2 + i && k != 2 * |columns| + 3 + i ==> t[k] == before[k]
    requires t[1 + i] == (if row && columns[i].Other? then ColumnText(i) else OwnCell(buffer))
    requires t[|columns| + 2 + i] == ColumnName(i) && t[2 * |columns| + 3 + i] == OwnCell(buffer)
    ensures FilledTo(t, columns, row, buffers + [buffer], i + 1)
  {
    var n, more := |columns|, buffers + [buffer];
    forall k | 0 <= k < n
      ensures DataAt(t, n, k) == ValueCell(columns, row, more, k) && NameAt(t, n, k) == (if k < i + 1 then ColumnName(k) else Null)
      ensures OwnAt(t, n, k) == if k < i + 1 then OwnCell(more[k]) else Null
    {
      assert DataAt(before, n, k) == ValueCell(columns, row, buffers, k);
      assert NameAt(before, n, k) == if k < i then ColumnName(k) else Null;
      assert OwnAt(before, n, k) == if k < i then OwnCell(buffers[k]) else Null;
    }
  }

  // ---- its release -------------------------------------------------------------

  function Owned(buffers: seq<array?<CodeUnit>>): seq<object> {
    if buffers == [] then []
    else Owned(buffers[..|buffers| - 1]) + if buffers[|buffers| - 1] == null then [] else [buffers[|buffers| - 1]]
  }

  /** free_tab, which is given the address of the second cell: frees every buffer the table owns, then
      the table, and nothing else. */
  method FreeTab(table: array?<Cell>, ghost columns: seq<Column>, ghost row: bool, ghost buffers: seq<array?<CodeUnit>>)
      returns (freed: seq<object>)
    requires table != null ==> Layout(table[..], columns, row, buffers)
    ensures freed == if table == null then [] else Owned(buffers) + [table]
  {
    freed := [];
    if table == null {
      return;
    }
    var p := 1 - 1;
    var n := table[p].n;
    p := p + n * 2 + 2 + 1;
    for i := 0 to n
      invariant freed == Owned(buffers[..i])
    {
      assert OwnAt(table[..], n, i) == OwnCell(buffers[i]);
      assert buffers[..i + 1][..i] == buffers[..i];
      if table[p + i] != Null {
        freed := freed + [table[p + i].buffer];
      }
    }
    assert buffers[..n] == buffers;
    freed := freed + [table];
  }

  /** No buffer is freed twice, and exactly the buffers of the table are. */
  lemma {:induction false} OwnedOnce(buffers: seq<array?<CodeUnit>>)
    requires Distinct(buffers)
    ensures forall i, j :: 0 <= i < j < |Owned(buffers)| ==> Owned(buffers)[i] != Owned(buffers)[j]
    ensures forall b: object :: b in Owned(buffers) <==> exists k :: 0 <= k < |buffers| && buffers[k] == b
  {
    if buffers != [] {
      var n := |buffers| - 1;
      OwnedOnce(buffers[..n]);
      forall k | 0 <= k < n ensures buffers[..n][k] == buffers[k] {
      }
      assert buffers[n] != null ==> buffers[n] !in Owned(buffers[..n]);
    }
  }
}

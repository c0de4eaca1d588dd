/**
 * The data-entry phase of kyriba_automation_4.js: for the "VAT Collected" and
 * the "Taxes" rows of the forecast grid, value i of a fixed list of thirteen
 * goes into cell i + 2 of the row (cells past the end of the row are
 * skipped); each edited cell is clicked, cleared with eight Backspace
 * presses, typed into and committed with Enter, and the row's Apply button is
 * clicked once afterwards.
 *
 * The row's cells are an array of their texts, changed in place; a click is
 * taken to put the caret at the end of the text, so a Backspace removes the
 * last character (and does nothing on an empty text). What the script does to
 * the page is returned as a sequence of actions.
 */
module RowEntry {
  import opened Base

  const VatValues: seq<string> := [
    "133539", "181559", "154037", "18592", "77800",
    "248214", "169246", "45233", "187976", "110000",
    "55000", "0", "-110000"]

  const TaxesValues: seq<string> := [
    "-708511", "-686209", "-229196", "-171618", "-928099",
    "-946970", "-594458", "-688397", "-598091", "-440000",
    "-440000", "-440000", "-440000"]

  /** The index of the first edited cell: columns one and two hold the row's labels. */
  const FirstValueCell: nat := 2

  /** The Backspace presses before each value is typed. */
  const ClearPresses: nat := 8

  datatype Action = Click(cell: nat) | Backspace | Type(text: string) | Enter | Apply

  // ---------------------------------------------------------------------------
  // Specification
  // ---------------------------------------------------------------------------

  /** The text after `k` Backspace presses with the caret at the end. */
  function ClearedBy(text: string, k: nat): (r: string)
    ensures |r| == |text| - Min(k, |text|)
    ensures r == text[..|r|]
  {
    text[..|text| - Min(k, |text|)]
  }

  /** A cell's text after the edit. */
  function EditedCell(text: string, value: string): string {
    ClearedBy(text, ClearPresses) + value
  }

  /** The row after the values are entered: value `i` in cell `i + 2`, all other cells as they were. */
  function EditedRow(row: seq<string>, values: seq<string>): (r: seq<string>)
    ensures |r| == |row|
  {
    seq(|row|, j requires 0 <= j < |row| =>
      if FirstValueCell <= j < |values| + FirstValueCell then EditedCell(row[j], values[j - FirstValueCell]) else row[j])
  }

  function Backspaces(k: nat): (r: seq<Action>)
    ensures |r| == k && forall a :: a in r ==> a == Backspace
  {
    seq(k, _ => Backspace)
  }

  /** The actions of one cell edit. */
  function CellActions(cell: nat, value: string): (r: seq<Action>)
    ensures |r| == ClearPresses + 3
  {
    [Click(cell)] + Backspaces(ClearPresses) + [Type(value), Enter]
  }

  /** The actions of the first `k` iterations of the loop over the values, for a row of `n` cells. */
  function EditActions(values: seq<string>, n: nat, k: nat): seq<Action>
    requires k <= |values|
  {
    if k == 0 then []
    else
      var i := k - 1;
      EditActions(values, n, i) + (if i + FirstValueCell < n then CellActions(i + FirstValueCell, values[i]) else [])
  }

  /** Everything the script does to one row. */
  function RowActions(values: seq<string>, n: nat): seq<Action> {
    EditActions(values, n, |values|) + [Apply]
  }

  /** The number of values that land in a row of `n` cells. */
  function Edits(count: nat, n: nat): (e: nat)
    ensures e <= count
  {
    if n <= FirstValueCell then 0 else Min(count, n - FirstValueCell)
  }

  /** The edits of the values `vs`, in order, into consecutive cells from the third on. */
  function Blocks(vs: seq<string>): (r: seq<Action>)
    ensures |r| == (ClearPresses + 3) * |vs|
    ensures Apply !in r
  {
    if vs == [] then []
    else
      var init := vs[..|vs| - 1];
      Blocks(init) + CellActions(|init| + FirstValueCell, vs[|vs| - 1])
  }

  // ---------------------------------------------------------------------------
  // The loops
  // ---------------------------------------------------------------------------

  function DeleteLast(text: string): string {
    if text == [] then [] else text[..|text| - 1]
  }

  /** The inner `for (let j = 0; j < 8; j++)` loop on the clicked cell. */
  method ClearCell(cells: array<string>, k: nat) returns (keys: seq<Action>)
    requires k < cells.Length
    modifies cells
    ensures cells[..] == old(cells[..])[k := ClearedBy(old(cells[k]), ClearPresses)]
    ensures keys == Backspaces(ClearPresses)
  {
    keys := [];
    var j := 0;
    assert ClearedBy(cells[k], 0) == cells[k];
    assert cells[..] == cells[..][k := cells[k]];
    while j < ClearPresses
      invariant 0 <= j <= ClearPresses
      invariant cells[..] == old(cells[..])[k := ClearedBy(old(cells[k]), j)]
      invariant keys == Backspaces(j)
    {
      ClearedByOneMore(old(cells[k]), j);
      cells[k] := DeleteLast(cells[k]);
      keys := keys + [Backspace];
      j := j + 1;
    }
  }

  /** One row: the `for` loop over the values, then the click on Apply. */
  method EnterRow(cells: array<string>, values: seq<string>) returns (actions: seq<Action>)
    modifies cells
    ensures cells[..] == EditedRow(old(cells[..]), values)
    ensures actions == RowActions(values, cells.Length)
  {
    actions := [];
    var i := 0;
    while i < |values|
      invariant 0 <= i <= |values|
      invariant cells[..] == EditedRow(old(cells[..]), values[..i])
      invariant actions == EditActions(values, cells.Length, i)
    {
      var cellIndex := i + FirstValueCell;
      ghost var before := cells[..];
      if cellIndex < cells.Length {
        var keys := ClearCell(cells, cellIndex);
        cells[cellIndex] := cells[cellIndex] + values[i];
        actions := actions + [Click(cellIndex)] + keys + [Type(values[i]), Enter];
        assert cells[..] == before[cellIndex := EditedCell(before[cellIndex], values[i])];
      }
      EditedRowStep(old(cells[..]), values, i, before, cells[..]);
      i := i + 1;
    }
    assert values[..|values|] == values;
    actions := actions + [Apply];
  }

  /** The VAT Collected row and then the Taxes row. */
  method EnterForecast(vatCells: array<string>, taxesCells: array<string>) returns (actions: seq<Action>)
    requires vatCells != taxesCells
    modifies vatCells, taxesCells
    ensures vatCells[..] == EditedRow(old(vatCells[..]), VatValues)
    ensures taxesCells[..] == EditedRow(old(taxesCells[..]), TaxesValues)
    ensures actions == RowActions(VatValues, vatCells.Length) + RowActions(TaxesValues, taxesCells.Length)
  {
    var vat := EnterRow(vatCells, VatValues);
    var taxes := EnterRow(taxesCells, TaxesValues);
    actions := vat + taxes;
  }

  // ---------------------------------------------------------------------------
  // Proofs for the loops
  // ---------------------------------------------------------------------------

  lemma ClearedByOneMore(text: string, j: nat)
    ensures ClearedBy(text, j + 1) == DeleteLast(ClearedBy(text, j))
  {
  }

  /** One iteration of the outer loop: cell `i + 2` gets value `i` when it exists, and nothing else changes. */
  lemma EditedRowStep(row: seq<string>, values: seq<string>, i: nat, before: seq<string>, after: seq<string>)
    requires i < |values|
    requires before == EditedRow(row, values[..i])
    requires i + FirstValueCell < |row| ==>
      after == before[i + FirstValueCell := EditedCell(before[i + FirstValueCell], values[i])]
    requires i + FirstValueCell >= |row| ==> after == before
    ensures after == EditedRow(row, values[..i + 1])
  {
    var r := EditedRow(row, values[..i + 1]);
    assert |after| == |r|;
    forall j | 0 <= j < |r|
      ensures after[j] == r[j]
    {
      if FirstValueCell <= j < i + FirstValueCell {
        assert values[..i + 1][j - FirstValueCell] == values[..i][j - FirstValueCell];
      }
    }
  }

  // ---------------------------------------------------------------------------
  // Properties
  // ---------------------------------------------------------------------------

  /**
   * The first two cells are never edited, nor any cell past the last value;
   * cell `i + 2` ends up holding the value typed into what was left of its
   * text by the Backspaces.
   */
  lemma EditedRowSpec(row: seq<string>, values: seq<string>)
    ensures forall j :: 0 <= j < |row| && (j < FirstValueCell || j >= |values| + FirstValueCell) ==>
      EditedRow(row, values)[j] == row[j]
    ensures forall i :: 0 <= i < |values| && i + FirstValueCell < |row| ==>
      EditedRow(row, values)[i + FirstValueCell] == EditedCell(row[i + FirstValueCell], values[i])
  {
  }

  /**
   * Eight Backspaces clear a cell exactly when its text has at most eight
   * characters; a longer text keeps its first characters in front of the
   * typed value.
   */
  lemma EditedCellSpec(text: string, value: string)
    ensures |text| <= ClearPresses ==> EditedCell(text, value) == value
    ensures |text| > ClearPresses ==>
      EditedCell(text, value) == text[..|text| - ClearPresses] + value && EditedCell(text, value) != value
  {
  }

  lemma {:induction false} EditActionsAreBlocks(values: seq<string>, n: nat, k: nat)
    requires k <= |values|
    ensures EditActions(values, n, k) == Blocks(values[..Edits(k, n)])
  {
    if k > 0 {
      var i := k - 1;
      EditActionsAreBlocks(values, n, i);
      if i + FirstValueCell < n {
        assert Edits(k, n) == k && Edits(i, n) == i;
        assert values[..k][..i] == values[..i];
      } else {
        assert Edits(k, n) == Edits(i, n);
        assert EditActions(values, n, k) == EditActions(values, n, i) + [];
      }
    }
  }

  lemma {:induction false} BlocksAt(vs: seq<string>, j: nat)
    requires j < |vs|
    ensures (ClearPresses + 3) * (j + 1) <= |Blocks(vs)|
    ensures Blocks(vs)[(ClearPresses + 3) * j .. (ClearPresses + 3) * (j + 1)] == CellActions(j + FirstValueCell, vs[j])
  {
    var init := vs[..|vs| - 1];
    var b := Blocks(init);
    var c := CellActions(|init| + FirstValueCell, vs[|vs| - 1]);
    assert Blocks(vs) == b + c;
    if j < |init| {
      BlocksAt(init, j);
      assert init[j] == vs[j];
      assert (b + c)[(ClearPresses + 3) * j .. (ClearPresses + 3) * (j + 1)]
          == b[(ClearPresses + 3) * j .. (ClearPresses + 3) * (j + 1)];
    } else {
      assert (b + c)[|b|..] == c;
    }
  }

  /**
   * What the script does to a row of `n` cells: for each of the first
   * `Edits` values, in list order, the block click, eight Backspaces, type,
   * Enter on the next cell from the third on, and then Apply, once.
   */
  lemma RowActionsSpec(values: seq<string>, n: nat)
    ensures var e := Edits(|values|, n);
      && RowActions(values, n) == Blocks(values[..e]) + [Apply]
      && |RowActions(values, n)| == (ClearPresses + 3) * e + 1
      && (forall j :: 0 <= j < e ==>
            RowActions(values, n)[(ClearPresses + 3) * j .. (ClearPresses + 3) * (j + 1)]
              == [Click(j + FirstValueCell)] + Backspaces(ClearPresses) + [Type(values[j]), Enter])
      && Apply !in RowActions(values, n)[..|RowActions(values, n)| - 1]
      && RowActions(values, n)[|RowActions(values, n)| - 1] == Apply
  {
    var e := Edits(|values|, n);
    EditActionsAreBlocks(values, n, |values|);
    var b := Blocks(values[..e]);
    assert RowActions(values, n) == b + [Apply];
    forall j | 0 <= j < e
      ensures RowActions(values, n)[(ClearPresses + 3) * j .. (ClearPresses + 3) * (j + 1)]
              == [Click(j + FirstValueCell)] + Backspaces(ClearPresses) + [Type(values[j]), Enter]
    {
      BlocksAt(values[..e], j);
      assert (b + [Apply])[(ClearPresses + 3) * j .. (ClearPresses + 3) * (j + 1)]
          == b[(ClearPresses + 3) * j .. (ClearPresses + 3) * (j + 1)];
    }
    assert (b + [Apply])[..|b|] == b;
  }

  /** Both lists hold thirteen values, so a row of `n >= 2` cells gets `min(13, n - 2)` edits. */
  lemma ForecastEdits(n: nat)
    ensures |VatValues| == 13 && |TaxesValues| == 13
    ensures n >= FirstValueCell ==> Edits(|VatValues|, n) == Min(13, n - 2) && Edits(|TaxesValues|, n) == Min(13, n - 2)
    ensures n <= FirstValueCell ==> Edits(|VatValues|, n) == 0
  {
  }
}

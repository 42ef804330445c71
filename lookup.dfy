/**
 * A sheet as a rectangular grid of cell texts, and the keyword-anchored
 * lookup `buscar_valor_ao_lado`: scan the cells row by row and answer with
 * the text to the right of the first cell that mentions the keyword.
 */
module Lookup {
  import opened Wrappers
  import opened Text

  /** The cells of a sheet, `rows[r][c]`, and its number of columns. */
  datatype Cells = Cells(rows: seq<seq<string>>, columns: nat) {
    predicate Rectangular() {
      forall r :: 0 <= r < |rows| ==> |rows[r]| == columns
    }
  }

  /** A sheet is rectangular: every row has `columns` cells. */
  type Sheet = c: Cells | c.Rectangular() witness Cells([], 0)

  /** `cell_value(r, c)`: the text at row `r`, column `c`, or None where the read raises IndexError. */
  function CellValue(s: Sheet, r: nat, c: nat): (v: Option<string>)
    ensures v.Some? <==> r < |s.rows| && c < s.columns
  {
    if r < |s.rows| && c < s.columns then Some(s.rows[r][c]) else None
  }

  /** Cell (r, c) is a label for `key`: its stripped, lower-cased text contains the keyword. */
  predicate IsLabel(s: Sheet, key: string, r: nat, c: nat)
    requires r < |s.rows| && c < s.columns
  {
    Contains(Lower(Strip(s.rows[r][c])), key)
  }

  datatype Pos = Pos(row: nat, col: nat)

  /** Cell (i, j) comes no earlier than cell (r, c) in row-major order. */
  predicate AtOrAfter(i: int, j: int, r: int, c: int) {
    i > r || (i == r && j >= c)
  }

  /** The first label for `key` at or after (r, c) in row-major order. */
  function FirstLabelFrom(s: Sheet, key: string, r: nat, c: nat): Option<Pos>
    requires c <= s.columns
    decreases |s.rows| - r, s.columns - c
  {
    if r >= |s.rows| then None
    else if c == s.columns then FirstLabelFrom(s, key, r + 1, 0)
    else if IsLabel(s, key, r, c) then Some(Pos(r, c))
    else FirstLabelFrom(s, key, r, c + 1)
  }

  /**
   * The scan from (r, c) finds a label at or after (r, c) with no label
   * between (r, c) and it, and finds nothing only when no label is left.
   */
  lemma {:induction false} FirstLabelFromIsFirst(s: Sheet, key: string, r: nat, c: nat)
    requires c <= s.columns
    decreases |s.rows| - r, s.columns - c
    ensures var p := FirstLabelFrom(s, key, r, c);
            p.Some? ==> p.value.row < |s.rows| && p.value.col < s.columns
                        && AtOrAfter(p.value.row, p.value.col, r, c)
                        && IsLabel(s, key, p.value.row, p.value.col)
    ensures var p := FirstLabelFrom(s, key, r, c);
            forall i, j | 0 <= i < |s.rows| && 0 <= j < s.columns && AtOrAfter(i, j, r, c)
                          && (p.Some? ==> !AtOrAfter(i, j, p.value.row, p.value.col)) :: !IsLabel(s, key, i, j)
  {
    if r >= |s.rows| {
    } else if c == s.columns {
      FirstLabelFromIsFirst(s, key, r + 1, 0);
    } else if IsLabel(s, key, r, c) {
    } else {
      FirstLabelFromIsFirst(s, key, r, c + 1);
    }
  }

  /** The first label for `key` in the whole sheet. */
  function FirstLabel(s: Sheet, key: string): Option<Pos> {
    FirstLabelFrom(s, key, 0, 0)
  }

  /**
   * What the lookup answers: the stripped text to the right of the first
   * label, or None when there is no label or the first one is in the last
   * column (the neighbour read fails and the search ends there).
   */
  function Beside(s: Sheet, key: string): Option<string> {
    match FirstLabel(s, key)
    case None => None
    case Some(p) =>
      match CellValue(s, p.row, p.col + 1)
      case None => None
      case Some(v) => Some(Strip(v))
  }

  /** `buscar_valor_ao_lado(aba, palavra_chave)`: the nested row/column scan with early return. */
  method FindBeside(s: Sheet, key: string) returns (v: Option<string>)
    ensures v == Beside(s, key)
  {
    var r := 0;
    while r < |s.rows|
      invariant r <= |s.rows|
      invariant FirstLabelFrom(s, key, r, 0) == FirstLabel(s, key)
    {
      var c := 0;
      while c < s.columns
        invariant c <= s.columns
        invariant FirstLabelFrom(s, key, r, c) == FirstLabel(s, key)
      {
        var text := Lower(Strip(s.rows[r][c]));
        if Contains(text, key) {
          var right := CellValue(s, r, c + 1);
          match right {
            case None => return None;
            case Some(x) => return Some(Strip(x));
          }
        }
        c := c + 1;
      }
      r := r + 1;
    }
    return None;
  }

  /** A label with no label before it in row-major order is the first label. */
  lemma FirstLabelIs(s: Sheet, key: string, r: nat, c: nat)
    requires r < |s.rows| && c < s.columns && IsLabel(s, key, r, c)
    requires forall i, j | 0 <= i < |s.rows| && 0 <= j < s.columns && !AtOrAfter(i, j, r, c) :: !IsLabel(s, key, i, j)
    ensures FirstLabel(s, key) == Some(Pos(r, c))
  {
    FirstLabelFromIsFirst(s, key, 0, 0);
  }

  /**
   * The lookup is decided by the first label in row-major order: its stripped
   * right neighbour, or None when that label is in the last column, whatever
   * labels come later.
   */
  lemma BesideFirstLabel(s: Sheet, key: string, r: nat, c: nat)
    requires r < |s.rows| && c < s.columns && IsLabel(s, key, r, c)
    requires forall i, j | 0 <= i < |s.rows| && 0 <= j < s.columns && !AtOrAfter(i, j, r, c) :: !IsLabel(s, key, i, j)
    ensures Beside(s, key) == if c + 1 < s.columns then Some(Strip(s.rows[r][c + 1])) else None
  {
    FirstLabelIs(s, key, r, c);
  }

  /** With no label anywhere in the sheet the lookup finds nothing. */
  lemma BesideNoLabel(s: Sheet, key: string)
    requires forall i, j | 0 <= i < |s.rows| && 0 <= j < s.columns :: !IsLabel(s, key, i, j)
    ensures Beside(s, key) == None
  {
    FirstLabelFromIsFirst(s, key, 0, 0);
  }

  /** A found value is stripped: it neither begins nor ends with whitespace. */
  lemma BesideIsStripped(s: Sheet, key: string)
    ensures Beside(s, key).Some? ==> NoEdgeSpace(Beside(s, key).value)
  {
  }

  /**
   * Worked example: the first "equipe" label sits in the last column, so the
   * lookup answers None although a later label has a right neighbour.
   */
  lemma LastColumnEndsSearch()
    ensures Beside(Cells([["x", "Equipe"], ["Equipe", "Azul"]], 2), "equipe") == None
  {
    var s: Sheet := Cells([["x", "Equipe"], ["Equipe", "Azul"]], 2);
    assert Strip("Equipe") == "Equipe";
    assert Lower("Equipe") == "equipe";
    assert OccursAt(Lower(Strip(s.rows[0][1])), "equipe", 0);
    assert Strip("x") == "x";
    assert !IsLabel(s, "equipe", 0, 0);
    BesideFirstLabel(s, "equipe", 0, 1);
  }
}

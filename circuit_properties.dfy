/** Properties of the grid edits of react/src/Circuit.jsx: what each edit
    does to its column, which well-formedness it keeps, and how the edits
    combine. */
module CircuitProperties {
  import opened Wrappers
  import opened Circuit

  /** At most one control gate in `column` acts on `row`. */
  ghost predicate AtMostOneControl(row: int, column: int, circuit: Grid)
    requires ColumnInRange(circuit, column)
  {
    forall i1, i2 ::
      (0 <= i1 < |circuit| && 0 <= i2 < |circuit|
       && Controls(circuit[i1][column], row) && Controls(circuit[i2][column], row)) ==> i1 == i2
  }

  /** The grids the editor produces: rectangular, every control gate acts on
      an empty cell of its own column, and no two control gates of a column
      share an action row. */
  ghost predicate Consistent(circuit: Grid) {
    && Rectangular(circuit)
    && (forall i, j :: 0 <= i < |circuit| && 0 <= j < |circuit[i]| && circuit[i][j].Pair? ==>
          0 <= circuit[i][j].actionRow < |circuit| && circuit[circuit[i][j].actionRow][j] == Empty)
    && (forall i1, i2, j ::
          (0 <= i1 < |circuit| && 0 <= i2 < |circuit| && i1 != i2
           && 0 <= j < |circuit[i1]| && j < |circuit[i2]|
           && circuit[i1][j].Pair? && circuit[i2][j].Pair?) ==> circuit[i1][j].actionRow != circuit[i2][j].actionRow)
  }

  /** Two grids of the same shape that agree on every cell are equal. */
  lemma GridsEqual(a: Grid, b: Grid)
    requires SameShape(a, b)
    requires forall i, j :: 0 <= i < |a| && 0 <= j < |a[i]| ==> a[i][j] == b[i][j]
    ensures a == b
  {
    forall i | 0 <= i < |a| ensures a[i] == b[i] {
      assert |a[i]| == |b[i]|;
    }
  }

  // ---------------------------------------------------------------------
  // Consistent grids

  lemma {:induction false} ConsistentControllerIsUnique(circuit: Grid, i: nat, column: int)
    requires Consistent(circuit) && ColumnInRange(circuit, column)
    requires i < |circuit| && circuit[i][column].Pair?
    ensures RowThatControls(circuit[i][column].actionRow, column, circuit) == Some(i)
    ensures AtMostOneControl(circuit[i][column].actionRow, column, circuit)
  {
    var first := RowThatControls(circuit[i][column].actionRow, column, circuit);
    assert first.Some?;
  }

  lemma ConsistentHasAtMostOneControl(circuit: Grid, row: int, column: int)
    requires Consistent(circuit) && ColumnInRange(circuit, column)
    ensures AtMostOneControl(row, column, circuit)
  {
  }

  /** No control gate of a consistent grid acts on its own row. */
  lemma ConsistentHasNoSelfControl(circuit: Grid, row: nat, column: int)
    requires Consistent(circuit) && ColumnInRange(circuit, column) && row < |circuit|
    ensures !Controls(circuit[row][column], row)
  {
  }

  // ---------------------------------------------------------------------
  // What the edits do to their column

  /** Overwriting a row's own cell with a cell that does not control the row
      leaves the search for the row's controller unchanged. */
  lemma SetKeepsController(row: nat, column: nat, cell: Cell, circuit: Grid)
    requires row < |circuit| && ColumnInRange(circuit, column)
    requires !Controls(cell, row) && !Controls(circuit[row][column], row)
    ensures RowThatControls(row, column, SetCell(circuit, row, column, cell)) == RowThatControls(row, column, circuit)
  {
    RowThatControlsDeterminedByColumn(row, column, SetCell(circuit, row, column, cell), circuit);
  }

  /** Setting a row's cell to a non-pair and clearing the row's controller
      (the shape shared by unary placement and removal). */
  lemma {:induction false} SetThenClearCells(row: nat, column: nat, cell: Cell, circuit: Grid)
    requires row < |circuit| && ColumnInRange(circuit, column)
    requires !cell.Pair? && !Controls(circuit[row][column], row)
    ensures var r := Cleared(row, column, SetCell(circuit, row, column, cell));
      && SameShape(r, circuit)
      && r[row][column] == cell
      && (forall k :: 0 <= k < |circuit| && k != row ==>
            r[k][column] == if RowThatControls(row, column, circuit) == Some(k) then Empty else circuit[k][column])
      && (forall i, j :: 0 <= i < |circuit| && 0 <= j < |circuit[i]| && j != column ==> r[i][j] == circuit[i][j])
  {
    SetKeepsController(row, column, cell, circuit);
  }

  /** Placing a unary gate writes it into its cell and empties the control
      gate that acted on that row; nothing else in the grid changes. */
  lemma AddedUnaryCells(row: nat, column: nat, gate: string, circuit: Grid)
    requires CanAdd(row, column, Name(gate), circuit) && !Controls(circuit[row][column], row)
    ensures var r := Added(row, column, Name(gate), circuit);
      && SameShape(r, circuit)
      && GetGateAt(row, column, r) == Name(gate)
      && (forall k :: 0 <= k < |circuit| && k != row ==>
            r[k][column] == if RowThatControls(row, column, circuit) == Some(k) then Empty else circuit[k][column])
      && (forall i, j :: 0 <= i < |circuit| && 0 <= j < |circuit[i]| && j != column ==> r[i][j] == circuit[i][j])
  {
    SetThenClearCells(row, column, Name(gate), circuit);
  }

  /** A placed gate reads back from its cell, unless it is a pair acting on
      its own row, whose action cell is that same cell. */
  lemma PlacedGateReadsBack(row: nat, column: nat, gate: Cell, circuit: Grid)
    requires CanAdd(row, column, gate, circuit) && (gate.Pair? ==> gate.actionRow != row)
    ensures GetGateAt(row, column, Added(row, column, gate, circuit)) == gate
  {
    match gate
    case Pair(g, actionRow) => AddedPairCells(row, column, g, actionRow, circuit);
    case Name(n) =>
      var s := SetCell(circuit, row, column, gate);
      assert !Controls(s[row][column], row);
  }

  /** Placing and removing gates keep the grid's row and column counts, so
      the layout chosen from them still fits. */
  lemma EditsKeepDimensions(row: nat, column: nat, gate: Cell, circuit: Grid)
    requires CanAdd(row, column, gate, circuit)
    ensures NumRows(Added(row, column, gate, circuit)) == NumRows(circuit)
    ensures NumColumns(Added(row, column, gate, circuit)) == NumColumns(circuit)
    ensures NumRows(Removed(row, column, circuit)) == NumRows(circuit)
    ensures NumColumns(Removed(row, column, circuit)) == NumColumns(circuit)
  {
    match gate
    case Pair(g, actionRow) =>
      var s := Cleared(actionRow, column, Cleared(row, column, circuit));
      assert SameShape(s, circuit);
    case Name(n) =>
  }

  /** Removal always leaves the cell empty. */
  lemma RemovedCellIsEmpty(row: nat, column: nat, circuit: Grid)
    requires row < |circuit| && ColumnInRange(circuit, column)
    ensures GetGateAt(row, column, Removed(row, column, circuit)) == Empty
  {
    var s := SetCell(circuit, row, column, Empty);
    assert !Controls(s[row][column], row);
  }

  /** Removal empties the cell and the control gate that acted on that row;
      nothing else in the grid changes. */
  lemma RemovedCells(row: nat, column: nat, circuit: Grid)
    requires row < |circuit| && ColumnInRange(circuit, column) && !Controls(circuit[row][column], row)
    ensures var r := Removed(row, column, circuit);
      && SameShape(r, circuit)
      && r[row][column] == Empty
      && (forall k :: 0 <= k < |circuit| && k != row ==>
            r[k][column] == if RowThatControls(row, column, circuit) == Some(k) then Empty else circuit[k][column])
      && (forall i, j :: 0 <= i < |circuit| && 0 <= j < |circuit[i]| && j != column ==> r[i][j] == circuit[i][j])
  {
    SetThenClearCells(row, column, Empty, circuit);
  }

  /** Clearing the controller of one row does not move the controller of another. */
  lemma ClearKeepsOtherController(row: int, other: int, column: int, circuit: Grid)
    requires ColumnInRange(circuit, column) && row != other
    ensures RowThatControls(other, column, Cleared(row, column, circuit)) == RowThatControls(other, column, circuit)
  {
    RowThatControlsDeterminedByColumn(other, column, Cleared(row, column, circuit), circuit);
  }

  /** Placing a binary gate writes the pair into the control row, empties the
      action row, and empties the control gates that acted on either row;
      nothing else in the grid changes. */
  lemma {:induction false} AddedPairCells(row: nat, column: nat, gate: string, actionRow: nat, circuit: Grid)
    requires CanAdd(row, column, Pair(gate, actionRow), circuit) && actionRow != row
    ensures var r := Added(row, column, Pair(gate, actionRow), circuit);
      && SameShape(r, circuit)
      && GetGateAt(row, column, r) == Pair(gate, actionRow)
      && GetGateAt(actionRow, column, r) == Empty
      && (forall k :: 0 <= k < |circuit| && k != row && k != actionRow ==>
            r[k][column] ==
              if RowThatControls(row, column, circuit) == Some(k) || RowThatControls(actionRow, column, circuit) == Some(k)
              then Empty else circuit[k][column])
      && (forall i, j :: 0 <= i < |circuit| && 0 <= j < |circuit[i]| && j != column ==> r[i][j] == circuit[i][j])
  {
    ClearKeepsOtherController(row, actionRow, column, circuit);
  }

  // ---------------------------------------------------------------------
  // Consistency is preserved

  /** A grid of the same shape whose every pair is a pair of a consistent
      grid, still acting on an empty cell, is consistent. */
  lemma ConsistentWhenPairsSurvive(circuit: Grid, r: Grid)
    requires Consistent(circuit) && SameShape(r, circuit)
    requires forall i, j :: 0 <= i < |r| && 0 <= j < |r[i]| && r[i][j].Pair? ==>
      (r[i][j] == circuit[i][j]
       && 0 <= r[i][j].actionRow < |r| && j < |r[r[i][j].actionRow]| && r[r[i][j].actionRow][j] == Empty)
    ensures Consistent(r)
  {
    assert Rectangular(r) by {
      assert forall i :: 0 <= i < |r| ==> |r[i]| == |circuit[i]|;
    }
  }

  /** After writing a non-pair and clearing the row's controller, every
      remaining pair is an old pair whose action cell is still empty. */
  lemma {:induction false} SetThenClearPairsSurvive(row: nat, column: nat, cell: Cell, circuit: Grid)
    requires Consistent(circuit) && row < |circuit| && ColumnInRange(circuit, column) && !cell.Pair?
    ensures var r := Cleared(row, column, SetCell(circuit, row, column, cell));
      && SameShape(r, circuit)
      && (forall i, j :: 0 <= i < |r| && 0 <= j < |r[i]| && r[i][j].Pair? ==>
            (r[i][j] == circuit[i][j]
             && 0 <= r[i][j].actionRow < |r| && j < |r[r[i][j].actionRow]| && r[r[i][j].actionRow][j] == Empty))
  {
    ConsistentHasNoSelfControl(circuit, row, column);
    SetThenClearCells(row, column, cell, circuit);
    var r: Grid := Cleared(row, column, SetCell(circuit, row, column, cell));
    var first := RowThatControls(row, column, circuit);
    forall i: int, j: int | 0 <= i < |r| && 0 <= j < |r[i]| && r[i][j].Pair?
      ensures r[i][j] == circuit[i][j]
              && 0 <= r[i][j].actionRow < |r| && j < |r[r[i][j].actionRow]| && r[r[i][j].actionRow][j] == Empty
    {
      assert r[i][j] == circuit[i][j];
      var a := r[i][j].actionRow;
      assert circuit[a][j] == Empty;
      if j == column {
        // `a` is not the edited row, whose controller the edit emptied,
        // nor that controller, whose cell is not empty.
        ConsistentControllerIsUnique(circuit, i, column);
        assert first.Some? ==> circuit[first.value][column].Pair?;
      }
    }
  }

  /** Writing a non-pair into a cell and clearing the row's controller keeps
      a consistent grid consistent. */
  lemma SetThenClearConsistent(row: nat, column: nat, cell: Cell, circuit: Grid)
    requires Consistent(circuit) && row < |circuit| && ColumnInRange(circuit, column) && !cell.Pair?
    ensures Consistent(Cleared(row, column, SetCell(circuit, row, column, cell)))
  {
    SetThenClearPairsSurvive(row, column, cell, circuit);
    ConsistentWhenPairsSurvive(circuit, Cleared(row, column, SetCell(circuit, row, column, cell)));
  }

  /** Placing a unary gate keeps a grid consistent. */
  lemma AddedUnaryConsistent(row: nat, column: nat, gate: string, circuit: Grid)
    requires Consistent(circuit) && CanAdd(row, column, Name(gate), circuit)
    ensures Consistent(Added(row, column, Name(gate), circuit))
  {
    SetThenClearConsistent(row, column, Name(gate), circuit);
  }

  /** Removing a gate keeps a grid consistent. */
  lemma RemovedConsistent(row: nat, column: nat, circuit: Grid)
    requires Consistent(circuit) && row < |circuit| && ColumnInRange(circuit, column)
    ensures Consistent(Removed(row, column, circuit))
  {
    SetThenClearConsistent(row, column, Empty, circuit);
  }

  /** Apart from the new pair, every pair of the grid after a binary
      placement is an old pair, and in the edited column its action row is
      neither of the two rows the edit touched. */
  lemma {:induction false} AddedPairKeepsOldPairs(row: nat, column: nat, gate: string, actionRow: nat, circuit: Grid)
    requires Consistent(circuit) && CanAdd(row, column, Pair(gate, actionRow), circuit) && actionRow != row
    ensures var r := Added(row, column, Pair(gate, actionRow), circuit);
      forall i, j :: 0 <= i < |r| && 0 <= j < |r[i]| && r[i][j].Pair? && (i != row || j != column) ==>
        r[i][j] == circuit[i][j] && (j == column ==> r[i][j].actionRow != row && r[i][j].actionRow != actionRow)
  {
    AddedPairCells(row, column, gate, actionRow, circuit);
    var r: Grid := Added(row, column, Pair(gate, actionRow), circuit);
    var k1 := RowThatControls(row, column, circuit);
    var k2 := RowThatControls(actionRow, column, circuit);
    forall i: int, j: int | 0 <= i < |r| && 0 <= j < |r[i]| && r[i][j].Pair? && (i != row || j != column)
      ensures r[i][j] == circuit[i][j] && (j == column ==> r[i][j].actionRow != row && r[i][j].actionRow != actionRow)
    {
      if j == column {
        assert i != actionRow && k1 != Some(i) && k2 != Some(i);
        ConsistentControllerIsUnique(circuit, i, column);
      }
    }
  }

  /** After a binary placement every control gate still acts on an empty
      cell of its column. */
  lemma {:induction false} AddedPairActionsEmpty(row: nat, column: nat, gate: string, actionRow: nat, circuit: Grid)
    requires Consistent(circuit) && CanAdd(row, column, Pair(gate, actionRow), circuit) && actionRow != row
    ensures var r := Added(row, column, Pair(gate, actionRow), circuit);
      forall i, j :: 0 <= i < |r| && 0 <= j < |r[i]| && r[i][j].Pair? ==>
        0 <= r[i][j].actionRow < |r| && j < |r[r[i][j].actionRow]| && r[r[i][j].actionRow][j] == Empty
  {
    AddedPairCells(row, column, gate, actionRow, circuit);
    AddedPairKeepsOldPairs(row, column, gate, actionRow, circuit);
    var r: Grid := Added(row, column, Pair(gate, actionRow), circuit);
    var k1 := RowThatControls(row, column, circuit);
    var k2 := RowThatControls(actionRow, column, circuit);
    forall i: int, j: int | 0 <= i < |r| && 0 <= j < |r[i]| && r[i][j].Pair?
      ensures 0 <= r[i][j].actionRow < |r| && j < |r[r[i][j].actionRow]| && r[r[i][j].actionRow][j] == Empty
    {
      if i != row || j != column {
        var a := r[i][j].actionRow;
        assert circuit[a][j] == Empty;
        if j == column {
          assert k1.Some? ==> circuit[k1.value][column].Pair?;
          assert k2.Some? ==> circuit[k2.value][column].Pair?;
        }
      }
    }
  }

  lemma AddedPairConsistent(row: nat, column: nat, gate: string, actionRow: nat, circuit: Grid)
    requires Consistent(circuit) && CanAdd(row, column, Pair(gate, actionRow), circuit) && actionRow != row
    ensures Consistent(Added(row, column, Pair(gate, actionRow), circuit))
  {
    AddedPairCells(row, column, gate, actionRow, circuit);
    AddedPairKeepsOldPairs(row, column, gate, actionRow, circuit);
    AddedPairActionsEmpty(row, column, gate, actionRow, circuit);
    var r: Grid := Added(row, column, Pair(gate, actionRow), circuit);
    assert Rectangular(r) by {
      assert forall i :: 0 <= i < |r| ==> |r[i]| == |circuit[i]|;
    }
  }

  /** The editor's addGate keeps a consistent grid consistent. */
  lemma AddedConsistent(row: nat, column: nat, gate: Cell, circuit: Grid)
    requires Consistent(circuit) && CanAdd(row, column, gate, circuit)
    requires gate.Pair? ==> gate.actionRow != row
    ensures Consistent(Added(row, column, gate, circuit))
  {
    match gate
    case Name(n) => AddedUnaryConsistent(row, column, n, circuit);
    case Pair(g, a) => AddedPairConsistent(row, column, g, a, circuit);
  }

  // ---------------------------------------------------------------------
  // How edits combine

  /** Removing twice is removing once, when at most one control gate acts on the row. */
  lemma {:induction false} RemoveIdempotent(row: nat, column: nat, circuit: Grid)
    requires row < |circuit| && ColumnInRange(circuit, column) && AtMostOneControl(row, column, circuit)
    ensures Removed(row, column, Removed(row, column, circuit)) == Removed(row, column, circuit)
  {
    var s := SetCell(circuit, row, column, Empty);
    var r1 := Removed(row, column, circuit);
    assert RowThatControls(row, column, r1) == None by {
      var first := RowThatControls(row, column, s);
      forall k | 0 <= k < |r1| ensures !Controls(r1[k][column], row) {
        assert first.Some? ==> first.value != row && Controls(circuit[first.value][column], row);
      }
    }
    RemovedCellIsEmpty(row, column, circuit);
    GridsEqual(SetCell(r1, row, column, Empty), r1);
  }

  /** Removing a freshly placed unary gate gives what removing the original
      cell gives: the unary gate leaves no trace. */
  lemma {:induction false} RemoveUndoesUnaryAdd(row: nat, column: nat, gate: string, circuit: Grid)
    requires CanAdd(row, column, Name(gate), circuit)
    requires AtMostOneControl(row, column, circuit) && !Controls(circuit[row][column], row)
    ensures Removed(row, column, Added(row, column, Name(gate), circuit)) == Removed(row, column, circuit)
  {
    var a := Added(row, column, Name(gate), circuit);
    AddedUnaryCells(row, column, gate, circuit);
    RemovedCells(row, column, circuit);
    assert !Controls(a[row][column], row);
    RemovedCells(row, column, a);
    assert RowThatControls(row, column, a) == None by {
      var first := RowThatControls(row, column, circuit);
      forall k | 0 <= k < |a| ensures !Controls(a[k][column], row) {
        assert first.Some? ==> Controls(circuit[first.value][column], row);
      }
    }
    GridsEqual(Removed(row, column, a), Removed(row, column, circuit));
  }

  // ---------------------------------------------------------------------
  // Entanglement

  /** Once a qubit has taken part in a binary gate it stays entangled. */
  lemma EntangledMonotone(row: nat, column: nat, later: nat, circuit: Grid)
    requires row < |circuit| && column <= later && ColumnInRange(circuit, later)
    requires EntangledAfter(row, column, circuit)
    ensures EntangledAfter(row, later, circuit)
  {
    var i :| 0 <= i <= column && TakesPart(row, i, circuit);
    assert 0 <= i <= later && TakesPart(row, i, circuit);
  }

  /** After a binary gate is placed, both of its qubits count as entangled
      from its column on. */
  lemma {:induction false} PlacedPairEntangles(row: nat, column: nat, gate: string, actionRow: nat, circuit: Grid, later: nat)
    requires CanAdd(row, column, Pair(gate, actionRow), circuit) && actionRow != row
    requires column <= later && ColumnInRange(circuit, later)
    ensures var r := Added(row, column, Pair(gate, actionRow), circuit);
      ColumnInRange(r, later) && EntangledAfter(row, later, r) && EntangledAfter(actionRow, later, r)
  {
    AddedPairCells(row, column, gate, actionRow, circuit);
    var r: Grid := Added(row, column, Pair(gate, actionRow), circuit);
    assert ColumnInRange(r, column) && ColumnInRange(r, later);
    assert TakesPart(row, column, r);
    assert Controls(r[row][column], actionRow);
    assert TakesPart(actionRow, column, r);
  }
}

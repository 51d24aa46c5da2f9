/** The circuit grid of react/src/Circuit.jsx: a matrix of cells, one row
    per qubit and one column per time step, with the operations that read
    and edit it. Grids are values; an edit returns a new grid. */
module Circuit {
  import opened Wrappers
  import opened Constants
  import Layout

  /** A cell holds a gate name (the empty marker "-" or a unary gate) or,
      on a control row only, a binary gate with the row it acts on. */
  datatype Cell = Name(name: string) | Pair(gate: string, actionRow: int)

  type Grid = seq<seq<Cell>>

  const Empty: Cell := Name(EmptyCell)

  /** The configured range of columns drawn as one closed box. */
  datatype BlackBoxColumns = BlackBoxColumns(start: int, end: int)

  // ---------------------------------------------------------------------
  // Gate operations

  /** A cell that is not a gate name (in the source, not a string) is a
      binary-gate pair. */
  predicate IsBinaryGatePair(cell: Cell): (b: bool)
    ensures b <==> !cell.Name?
  {
    cell.Pair?
  }

  /** The binary gates are `CX` and `CZ`; no unary gate and not the empty
      marker. */
  predicate IsBinaryGateName(gateType: string): (b: bool)
    ensures b <==> gateType == "CX" || gateType == "CZ"
    ensures b ==> gateType !in UnaryGates && gateType != EmptyCell
  {
    gateType in BinaryGates
  }

  function Min(a: int, b: int): int { if a <= b then a else b }
  function Max(a: int, b: int): int { if a <= b then b else a }

  // ---------------------------------------------------------------------
  // Shapes

  function NumRows(circuit: Grid): (n: nat)
    ensures n == |circuit|
  {
    |circuit|
  }

  /** The width of the first row; the source reads no other. In a
      rectangular grid it is every row's width, and the columns are exactly
      the indices below it. */
  function NumColumns(circuit: Grid): (n: nat)
    requires |circuit| > 0
    ensures n == |circuit[0]|
    ensures Rectangular(circuit) ==> forall i :: 0 <= i < |circuit| ==> |circuit[i]| == n
    ensures Rectangular(circuit) ==> forall j :: ColumnInRange(circuit, j) <==> 0 <= j < n
  {
    |circuit[0]|
  }

  predicate Rectangular(circuit: Grid) {
    forall i :: 0 <= i < |circuit| ==> |circuit[i]| == |circuit[0]|
  }

  /** Every row reaches `column`, so the column can be scanned top to bottom. */
  predicate ColumnInRange(circuit: Grid, column: int) {
    0 <= column && forall i :: 0 <= i < |circuit| ==> column < |circuit[i]|
  }

  predicate SameShape(a: Grid, b: Grid) {
    |a| == |b| && forall i :: 0 <= i < |a| ==> |a[i]| == |b[i]|
  }

  // ---------------------------------------------------------------------
  // Which control gate acts on a row

  /** `cell` is a control gate whose action row is `row`. */
  predicate Controls(cell: Cell, row: int) {
    cell.Pair? && cell.actionRow == row
  }

  /** Some control gate in `column` acts on `row`. */
  ghost predicate IsTarget(row: int, column: int, circuit: Grid)
    requires ColumnInRange(circuit, column)
  {
    exists k :: 0 <= k < |circuit| && Controls(circuit[k][column], row)
  }

  /** The topmost row at or below `from` whose cell in `column` controls `row`. */
  function FirstControlFrom(row: int, column: int, circuit: Grid, from: nat): (r: Option<nat>)
    requires ColumnInRange(circuit, column)
    decreases |circuit| - from
    ensures r.Some? ==> from <= r.value < |circuit| && Controls(circuit[r.value][column], row)
    ensures r.Some? ==> forall k :: from <= k < r.value ==> !Controls(circuit[k][column], row)
    ensures r.None? ==> forall k :: from <= k < |circuit| ==> !Controls(circuit[k][column], row)
  {
    if from >= |circuit| then None
    else if Controls(circuit[from][column], row) then Some(from)
    else FirstControlFrom(row, column, circuit, from + 1)
  }

  /** The topmost row whose cell in `column` controls `row`, if any. */
  function RowThatControls(row: int, column: int, circuit: Grid): Option<nat>
    requires ColumnInRange(circuit, column)
  {
    FirstControlFrom(row, column, circuit, 0)
  }

  /** The search result is determined by which cells of the column control `row`. */
  lemma RowThatControlsDeterminedByColumn(row: int, column: int, a: Grid, b: Grid)
    requires ColumnInRange(a, column) && ColumnInRange(b, column) && |a| == |b|
    requires forall k :: 0 <= k < |a| ==> (Controls(a[k][column], row) <==> Controls(b[k][column], row))
    ensures RowThatControls(row, column, a) == RowThatControls(row, column, b)
  {
  }

  // ---------------------------------------------------------------------
  // Specification of the edits

  function SetCell(circuit: Grid, row: nat, column: nat, cell: Cell): (r: Grid)
    requires row < |circuit| && column < |circuit[row]|
    ensures SameShape(r, circuit)
    ensures r[row][column] == cell
    ensures forall i, j :: 0 <= i < |circuit| && 0 <= j < |circuit[i]| && (i != row || j != column) ==> r[i][j] == circuit[i][j]
  {
    circuit[row := circuit[row][column := cell]]
  }

  /** `circuit` with the topmost control gate in `column` that acts on `row`
      replaced by the empty marker. */
  function Cleared(row: int, column: int, circuit: Grid): (r: Grid)
    requires ColumnInRange(circuit, column)
    ensures SameShape(r, circuit)
    ensures forall i, j :: 0 <= i < |circuit| && 0 <= j < |circuit[i]| && j != column ==> r[i][j] == circuit[i][j]
    ensures forall k :: 0 <= k < |circuit| ==>
      r[k][column] == if RowThatControls(row, column, circuit) == Some(k) then Empty else circuit[k][column]
  {
    match RowThatControls(row, column, circuit)
    case None => circuit
    case Some(i) => SetCell(circuit, i, column, Empty)
  }

  function WithUnaryGate(row: nat, column: nat, gate: string, circuit: Grid): Grid
    requires row < |circuit| && ColumnInRange(circuit, column)
  {
    Cleared(row, column, SetCell(circuit, row, column, Name(gate)))
  }

  function WithBinaryGatePair(row: nat, column: nat, gate: string, actionRow: nat, circuit: Grid): Grid
    requires row < |circuit| && actionRow < |circuit| && ColumnInRange(circuit, column)
  {
    var cleared := Cleared(actionRow, column, Cleared(row, column, circuit));
    SetCell(SetCell(cleared, row, column, Pair(gate, actionRow)), actionRow, column, Empty)
  }

  /** What the source's addGate returns. */
  predicate CanAdd(row: int, column: int, gate: Cell, circuit: Grid) {
    0 <= row < |circuit| && ColumnInRange(circuit, column)
    && (gate.Pair? ==> 0 <= gate.actionRow < |circuit|)
  }

  function Added(row: nat, column: nat, gate: Cell, circuit: Grid): Grid
    requires CanAdd(row, column, gate, circuit)
  {
    match gate
    case Pair(g, actionRow) => WithBinaryGatePair(row, column, g, actionRow, circuit)
    case Name(n) => WithUnaryGate(row, column, n, circuit)
  }

  /** What the source's removeGate returns. */
  function Removed(row: nat, column: nat, circuit: Grid): Grid
    requires row < |circuit| && ColumnInRange(circuit, column)
  {
    Cleared(row, column, SetCell(circuit, row, column, Empty))
  }

  // ---------------------------------------------------------------------
  // Circuit operations

  method CreateEmpty(rows: nat, columns: nat) returns (circuit: Grid)
    ensures |circuit| == rows && Rectangular(circuit)
    ensures forall i :: 0 <= i < rows ==> |circuit[i]| == columns
    ensures forall i, j :: 0 <= i < rows && 0 <= j < columns ==> circuit[i][j] == Empty
  {
    circuit := [];
    var i := 0;
    while i < rows
      invariant i <= rows && |circuit| == i
      invariant forall k :: 0 <= k < i ==> circuit[k] == seq(columns, _ => Empty)
    {
      circuit := circuit + [[]];
      var j := 0;
      while j < columns
        invariant j <= columns && |circuit| == i + 1
        invariant forall k :: 0 <= k < i ==> circuit[k] == seq(columns, _ => Empty)
        invariant circuit[i] == seq(j, _ => Empty)
      {
        circuit := circuit[i := circuit[i] + [Empty]];
        j := j + 1;
      }
      i := i + 1;
    }
  }

  /** Copies every row up to the width of the first row. */
  method Clone(sourceCircuit: Grid) returns (cloned: Grid)
    requires forall i :: 0 <= i < |sourceCircuit| ==> NumColumns(sourceCircuit) <= |sourceCircuit[i]|
    ensures |cloned| == |sourceCircuit|
    ensures forall i :: 0 <= i < |sourceCircuit| ==> cloned[i] == sourceCircuit[i][..NumColumns(sourceCircuit)]
    ensures Rectangular(sourceCircuit) ==> cloned == sourceCircuit
  {
    cloned := [];
    var i := 0;
    while i < NumRows(sourceCircuit)
      invariant i <= |sourceCircuit| && |cloned| == i
      invariant forall k :: 0 <= k < i ==> cloned[k] == sourceCircuit[k][..NumColumns(sourceCircuit)]
    {
      cloned := cloned + [[]];
      var j := 0;
      while j < NumColumns(sourceCircuit)
        invariant j <= NumColumns(sourceCircuit) && |cloned| == i + 1
        invariant forall k :: 0 <= k < i ==> cloned[k] == sourceCircuit[k][..NumColumns(sourceCircuit)]
        invariant cloned[i] == sourceCircuit[i][..j]
      {
        cloned := cloned[i := cloned[i] + [sourceCircuit[i][j]]];
        j := j + 1;
      }
      i := i + 1;
    }
    if Rectangular(sourceCircuit) {
      assert forall k :: 0 <= k < |sourceCircuit| ==> sourceCircuit[k][..NumColumns(sourceCircuit)] == sourceCircuit[k];
    }
  }

  method GetRowThatControls(row: int, column: int, circuit: Grid) returns (controlRow: Option<nat>)
    requires ColumnInRange(circuit, column)
    ensures controlRow == RowThatControls(row, column, circuit)
  {
    var i := 0;
    while i < NumRows(circuit)
      invariant i <= |circuit|
      invariant FirstControlFrom(row, column, circuit, i) == RowThatControls(row, column, circuit)
    {
      var cell := circuit[i][column];
      if IsBinaryGatePair(cell) && cell.actionRow == row {
        return Some(i);
      }
      i := i + 1;
    }
    return None;
  }

  method ClearGateThatControls(row: int, column: int, circuit: Grid) returns (cleared: Grid)
    requires ColumnInRange(circuit, column)
    ensures cleared == Cleared(row, column, circuit)
  {
    cleared := circuit;
    var rowOfControlGate := GetRowThatControls(row, column, circuit);
    if rowOfControlGate.Some? {
      cleared := cleared[rowOfControlGate.value := cleared[rowOfControlGate.value][column := Empty]];
    }
  }

  method AddUnaryGate(row: nat, column: nat, gate: string, circuit: Grid) returns (result: Grid)
    requires row < |circuit| && ColumnInRange(circuit, column)
    ensures result == WithUnaryGate(row, column, gate, circuit)
  {
    result := circuit[row := circuit[row][column := Name(gate)]];
    result := ClearGateThatControls(row, column, result);
  }

  method AddBinaryGatePair(row: nat, column: nat, binaryGatePair: Cell, circuit: Grid) returns (result: Grid)
    requires binaryGatePair.Pair? && CanAdd(row, column, binaryGatePair, circuit)
    ensures result == WithBinaryGatePair(row, column, binaryGatePair.gate, binaryGatePair.actionRow, circuit)
  {
    var actionRow := binaryGatePair.actionRow;
    result := ClearGateThatControls(row, column, circuit);
    result := ClearGateThatControls(actionRow, column, result);
    result := result[row := result[row][column := binaryGatePair]];
    result := result[actionRow := result[actionRow][column := Empty]];
  }

  /** Places `gate` at (row, column) in a copy of `circuit`. */
  method AddGate(row: nat, column: nat, gate: Cell, circuit: Grid) returns (newCircuit: Grid)
    requires Rectangular(circuit) && CanAdd(row, column, gate, circuit)
    ensures newCircuit == Added(row, column, gate, circuit)
  {
    newCircuit := Clone(circuit);
    if IsBinaryGatePair(gate) {
      newCircuit := AddBinaryGatePair(row, column, gate, newCircuit);
      return;
    }
    newCircuit := AddUnaryGate(row, column, gate.name, newCircuit);
  }

  method IsActionGate(row: int, column: int, circuit: Grid) returns (isAction: bool)
    requires ColumnInRange(circuit, column)
    ensures isAction <==> IsTarget(row, column, circuit)
  {
    var controlRow := GetRowThatControls(row, column, circuit);
    isAction := controlRow != None;
    if controlRow.Some? {
      assert Controls(circuit[controlRow.value][column], row);
    }
  }

  function GetGateAt(row: nat, column: nat, circuit: Grid): (g: Cell)
    requires row < |circuit| && column < |circuit[row]|
    ensures g == circuit[row][column]
  {
    circuit[row][column]
  }

  /** Empties (row, column) in a copy of `circuit`. */
  method RemoveGate(row: nat, column: nat, circuit: Grid) returns (newCircuit: Grid)
    requires Rectangular(circuit) && row < |circuit| && ColumnInRange(circuit, column)
    ensures newCircuit == Removed(row, column, circuit)
  {
    newCircuit := Clone(circuit);
    newCircuit := newCircuit[row := newCircuit[row][column := Empty]];
    newCircuit := ClearGateThatControls(row, column, newCircuit);
  }

  // ---------------------------------------------------------------------
  // The simulator's names for the gates

  /** ASCII lower case of one character. */
  function LowerChar(c: char): char {
    if 'A' <= c <= 'Z' then (c as int + 32) as char else c
  }

  /** ASCII lower case, the reference the simulator's gate names follow:
      each character is lowered in place. */
  function Lower(s: string): (r: string)
    ensures |r| == |s|
    ensures forall i :: 0 <= i < |s| ==> r[i] == LowerChar(s[i])
  {
    if s == [] then []
    else [LowerChar(s[0])] + Lower(s[1..])
  }

  function GetSimulatorGateName(gate: string): (name: string)
    ensures gate in PaletteGates ==> name == Lower(gate) && name != "id"
    ensures gate !in PaletteGates ==> name == "id"
  {
    match gate
    case "H" => "h"
    case "X" => "x"
    case "XH" => "xh"
    case "Y" => "y"
    case "Z" => "z"
    case "S" => "s"
    case "T" => "t"
    case "R8" => "r8"
    case "CX" => "cx"
    case "CZ" => "cz"
    case _ => "id"
  }

  // ---------------------------------------------------------------------
  // Queries

  /** `row` is a control or an action participant of a binary gate in column `i`. */
  ghost predicate TakesPart(row: nat, i: nat, circuit: Grid)
    requires row < |circuit| && ColumnInRange(circuit, i)
  {
    circuit[row][i].Pair? || IsTarget(row, i, circuit)
  }

  ghost predicate EntangledAfter(row: nat, column: nat, circuit: Grid)
    requires row < |circuit| && ColumnInRange(circuit, column)
  {
    exists i :: 0 <= i <= column && TakesPart(row, i, circuit)
  }

  method IsQubitEntangledAfterColumn(row: nat, column: nat, circuit: Grid) returns (entangled: bool)
    requires row < |circuit| && ColumnInRange(circuit, column)
    ensures entangled <==> EntangledAfter(row, column, circuit)
  {
    var i := 0;
    while i <= column
      invariant i <= column + 1
      invariant forall k :: 0 <= k < i ==> !TakesPart(row, k, circuit)
    {
      if IsBinaryGatePair(circuit[row][i]) {
        assert TakesPart(row, i, circuit);
        return true;
      }
      var isAction := IsActionGate(row, i, circuit);
      if isAction {
        assert TakesPart(row, i, circuit);
        return true;
      }
      i := i + 1;
    }
    return false;
  }

  /** Some row strictly between the ends of a control wire is occupied or
      is the action row of a control gate. */
  ghost predicate Obstructed(fromRow: int, toRow: int, column: int, circuit: Grid)
    requires ColumnInRange(circuit, column)
  {
    exists row :: fromRow < row < toRow && 0 <= row < |circuit|
      && (circuit[row][column] != Empty || IsTarget(row, column, circuit))
  }

  method IsControlWireObstructed(fromRow: int, toRow: int, column: int, circuit: Grid) returns (obstructed: bool)
    requires ColumnInRange(circuit, column) && -1 <= fromRow && toRow <= |circuit|
    ensures obstructed <==> Obstructed(fromRow, toRow, column, circuit)
  {
    var row := fromRow + 1;
    while row < toRow
      invariant fromRow + 1 <= row
      invariant forall k :: fromRow < k < row && k < toRow ==>
        circuit[k][column] == Empty && !IsTarget(k, column, circuit)
    {
      if circuit[row][column] != Empty {
        return true;
      }
      var isAction := IsActionGate(row, column, circuit);
      if isAction {
        return true;
      }
      row := row + 1;
    }
    return false;
  }

  /** Every control gate in `column` acts on a row of the grid. */
  predicate ActionRowsInRange(circuit: Grid, column: int)
    requires ColumnInRange(circuit, column)
  {
    forall i :: 0 <= i < |circuit| && circuit[i][column].Pair? ==> 0 <= circuit[i][column].actionRow < |circuit|
  }

  /** The control wire of the gate at (row, column) must detour. */
  ghost predicate JoggedAt(row: nat, column: int, circuit: Grid)
    requires row < |circuit| && ColumnInRange(circuit, column)
  {
    && circuit[row][column].Pair?
    && var actionRow := circuit[row][column].actionRow;
       Obstructed(Min(row, actionRow), Max(row, actionRow), column, circuit)
  }

  method ContainsJoggedWires(column: int, circuit: Grid) returns (jogged: bool)
    requires ColumnInRange(circuit, column) && ActionRowsInRange(circuit, column)
    ensures jogged <==> exists row :: 0 <= row < |circuit| && JoggedAt(row, column, circuit)
  {
    var row := 0;
    while row < NumRows(circuit)
      invariant row <= |circuit|
      invariant forall k :: 0 <= k < row ==> !JoggedAt(k, column, circuit)
    {
      var cell := circuit[row][column];
      if IsBinaryGatePair(cell) {
        var actionRow := cell.actionRow;
        var obstructed := IsControlWireObstructed(Min(row, actionRow), Max(row, actionRow), column, circuit);
        if obstructed {
          assert JoggedAt(row, column, circuit);
          return true;
        }
      }
      row := row + 1;
    }
    return false;
  }

  // ---------------------------------------------------------------------
  // Layout functions

  /** The vertical centre of row `i`. */
  function RowCenter(layout: Layout.LayoutState, i: int): real
    reads layout
    requires layout.Valid()
  {
    (layout.GateSize() as real) / 2.0
      + (i as real) * ((layout.GateSize() + Layout.VerticalSpacing) as real)
  }

  /** The horizontal centre of column `i`. */
  function ColumnCenter(layout: Layout.LayoutState, i: int): real
    reads layout
    requires layout.Valid()
  {
    (layout.WireExtension() as real) + (layout.GateSize() as real) / 2.0
      + (i as real) * ((layout.GateSize() + layout.HorizontalSpacing()) as real)
  }

  lemma {:induction false} StepIncreasing(base: real, step: real, i: int, j: int)
    requires 0.0 < step && i < j
    ensures base + (i as real) * step < base + (j as real) * step
  {
    assert (j as real) * step - (i as real) * step == ((j - i) as real) * step;
  }

  method GetRowCenters(circuit: Grid, layout: Layout.LayoutState) returns (rowCenters: seq<real>)
    requires layout.Valid()
    ensures |rowCenters| == |circuit|
    ensures forall i :: 0 <= i < |rowCenters| ==> rowCenters[i] == RowCenter(layout, i)
    ensures forall i, j :: 0 <= i < j < |rowCenters| ==> rowCenters[i] < rowCenters[j]
  {
    rowCenters := [];
    var gateSize := layout.GateSize();
    var i := 0;
    while i < NumRows(circuit)
      invariant i <= |circuit| && |rowCenters| == i
      invariant forall k :: 0 <= k < i ==> rowCenters[k] == RowCenter(layout, k)
    {
      rowCenters := rowCenters + [(gateSize as real) / 2.0 + (i as real) * ((gateSize + Layout.VerticalSpacing) as real)];
      i := i + 1;
    }
    forall i, j | 0 <= i < j < |rowCenters| ensures rowCenters[i] < rowCenters[j] {
      StepIncreasing((gateSize as real) / 2.0, (gateSize + Layout.VerticalSpacing) as real, i, j);
    }
  }

  method GetColumnCenters(circuit: Grid, layout: Layout.LayoutState) returns (columnCenters: seq<real>)
    requires layout.Valid() && |circuit| > 0
    ensures |columnCenters| == NumColumns(circuit)
    ensures forall i :: 0 <= i < |columnCenters| ==> columnCenters[i] == ColumnCenter(layout, i)
    ensures forall i, j :: 0 <= i < j < |columnCenters| ==> columnCenters[i] < columnCenters[j]
  {
    columnCenters := [];
    var gateSize := layout.GateSize();
    var i := 0;
    while i < NumColumns(circuit)
      invariant i <= NumColumns(circuit) && |columnCenters| == i
      invariant forall k :: 0 <= k < i ==> columnCenters[k] == ColumnCenter(layout, k)
    {
      columnCenters := columnCenters + [(layout.WireExtension() as real) + (gateSize as real) / 2.0
        + (i as real) * ((gateSize + layout.HorizontalSpacing()) as real)];
      i := i + 1;
    }
    forall i, j | 0 <= i < j < |columnCenters| ensures columnCenters[i] < columnCenters[j] {
      StepIncreasing((layout.WireExtension() as real) + (gateSize as real) / 2.0,
        (gateSize + layout.HorizontalSpacing()) as real, i, j);
    }
  }
}

/** The configuration validator of react/src/Circuit.jsx. A configuration
    arrives as raw, untyped data: a cell is a string or an array of values,
    told apart by runtime type. Each check either passes or reports the
    first violation, in a fixed order. */
module CircuitValidation {
  import opened Wrappers
  import opened Constants
  import opened Circuit

  const MaxRows: int := 5
  const MaxColumns: int := 6

  datatype RawValue = Text(text: string) | Number(number: int)

  /** A configured cell: a string, or anything else (an array). */
  datatype RawCell = Str(s: string) | Arr(elems: seq<RawValue>)

  type RawGrid = seq<seq<RawCell>>

  datatype RawSuccessState = RawSuccessState(circuit: RawGrid)

  datatype Config = Config(
    rows: int,
    columns: int,
    startingCircuit: Option<RawGrid>,
    successStates: Option<seq<RawSuccessState>>,
    blackBoxColumns: Option<BlackBoxColumns>)

  /** One kind per error the validator throws; row and state indices are
      0-based (the messages print them 1-based). */
  datatype ConfigError =
    | RowsOutOfRange
    | ColumnsOutOfRange
    | StartingRowCountMismatch
    | StartingRowLengthMismatch(row: nat)
    | SuccessRowCountMismatch(successIndex: nat)
    | SuccessRowLengthMismatch(successIndex: nat, row: nat)
    | MalformedBinaryGate
    | UnsupportedBinaryGate
    | ActionRowOutOfRange
    | ActionCellNotEmpty
    | UnsupportedUnaryGate
    | BlackBoxStartOutOfRange
    | BlackBoxEndOutOfRange
    | BlackBoxEndBeforeStart

  datatype Outcome = Pass | Fail(error: ConfigError)

  /** The errors of validateCircuitSize. */
  predicate IsSizeError(e: ConfigError) {
    e.RowsOutOfRange? || e.ColumnsOutOfRange? || e.StartingRowCountMismatch? || e.StartingRowLengthMismatch?
    || e.SuccessRowCountMismatch? || e.SuccessRowLengthMismatch?
  }

  /** The errors of validateCircuit. */
  predicate IsCellError(e: ConfigError) {
    e.MalformedBinaryGate? || e.UnsupportedBinaryGate? || e.ActionRowOutOfRange? || e.ActionCellNotEmpty?
    || e.UnsupportedUnaryGate?
  }

  /** The errors of validateBlackBox. */
  predicate IsBlackBoxError(e: ConfigError) {
    e.BlackBoxStartOutOfRange? || e.BlackBoxEndOutOfRange? || e.BlackBoxEndBeforeStart?
  }

  // ---------------------------------------------------------------------
  // Sizes

  /** The first row at or after `from` whose length is not `columns`. */
  function FirstBadRow(grid: RawGrid, columns: int, from: nat): (r: Option<nat>)
    decreases |grid| - from
    ensures r.Some? ==> from <= r.value < |grid| && |grid[r.value]| != columns
    ensures r.Some? ==> forall k :: from <= k < r.value ==> |grid[k]| == columns
    ensures r.None? ==> forall k :: from <= k < |grid| ==> |grid[k]| == columns
  {
    if from >= |grid| then None
    else if |grid[from]| != columns then Some(from)
    else FirstBadRow(grid, columns, from + 1)
  }

  function StartingShapeCheck(rows: int, columns: int, startingCircuit: RawGrid): Outcome {
    if rows != |startingCircuit| then Fail(StartingRowCountMismatch)
    else match FirstBadRow(startingCircuit, columns, 0)
      case Some(i) => Fail(StartingRowLengthMismatch(i))
      case None => Pass
  }

  /** The circuits of the success states that have at least one row, in order. */
  function NonEmptyCircuits(states: seq<RawSuccessState>): (r: seq<RawGrid>)
    ensures |r| <= |states|
    ensures forall c :: c in r <==> |c| > 0 && RawSuccessState(c) in states
  {
    if states == [] then []
    else
      var last := states[|states| - 1];
      assert states == states[..|states| - 1] + [last];
      NonEmptyCircuits(states[..|states| - 1]) + (if |last.circuit| > 0 then [last.circuit] else [])
  }

  /** Checks the non-empty success circuits from index `from` on. */
  function SuccessShapeCheck(rows: int, columns: int, circuits: seq<RawGrid>, from: nat): (o: Outcome)
    decreases |circuits| - from
    ensures o.Fail? ==> o.error.SuccessRowCountMismatch? || o.error.SuccessRowLengthMismatch?
    ensures o.Fail? && o.error.SuccessRowCountMismatch? ==> from <= o.error.successIndex < |circuits|
    ensures o.Fail? && o.error.SuccessRowLengthMismatch? ==> from <= o.error.successIndex < |circuits|
  {
    if from >= |circuits| then Pass
    else if rows != |circuits[from]| then Fail(SuccessRowCountMismatch(from))
    else match FirstBadRow(circuits[from], columns, 0)
      case Some(i) => Fail(SuccessRowLengthMismatch(from, i))
      case None => SuccessShapeCheck(rows, columns, circuits, from + 1)
  }

  /** What validateCircuitSize throws, if anything. */
  function SizeCheck(config: Config): (o: Outcome)
    ensures o.Fail? ==> IsSizeError(o.error)
  {
    if config.rows < 1 || config.rows > MaxRows then Fail(RowsOutOfRange)
    else if config.columns < 1 || config.columns > MaxColumns then Fail(ColumnsOutOfRange)
    else
      var starting :=
        if config.startingCircuit.Some? then StartingShapeCheck(config.rows, config.columns, config.startingCircuit.value)
        else Pass;
      if starting.Fail? then starting
      else if config.successStates.Some? then
        SuccessShapeCheck(config.rows, config.columns, NonEmptyCircuits(config.successStates.value), 0)
      else Pass
  }

  // ---------------------------------------------------------------------
  // Cells

  function ValidateUnaryGate(gate: string): (o: Outcome)
    ensures o.Fail? ==> o.error == UnsupportedUnaryGate
  {
    if gate in UnaryGates then Pass else Fail(UnsupportedUnaryGate)
  }

  /** A pair must have two elements, a binary gate name, an action row inside
      the grid, and an empty cell at the action row in this column. A
      textual action row is reported as out of range. */
  function ValidateBinaryGatePair(pair: seq<RawValue>, currentColumn: int, circuit: RawGrid): (o: Outcome)
    ensures o.Fail? ==> IsCellError(o.error) && !o.error.UnsupportedUnaryGate?
    ensures o.Fail? && !o.error.MalformedBinaryGate? ==> |pair| == 2
    ensures o.Fail? && (o.error.ActionRowOutOfRange? || o.error.ActionCellNotEmpty?) ==>
      pair[0].Text? && IsBinaryGateName(pair[0].text)
    ensures o == Fail(ActionCellNotEmpty) ==> pair[1].Number? && 0 <= pair[1].number < |circuit|
  {
    if |pair| != 2 then Fail(MalformedBinaryGate)
    else if !(pair[0].Text? && IsBinaryGateName(pair[0].text)) then Fail(UnsupportedBinaryGate)
    else if !pair[1].Number? || pair[1].number < 0 || pair[1].number >= |circuit| then Fail(ActionRowOutOfRange)
    else
      var actionRow := circuit[pair[1].number];
      if !(0 <= currentColumn < |actionRow|) || actionRow[currentColumn] != Str(EmptyCell) then Fail(ActionCellNotEmpty)
      else Pass
  }

  function ValidateCell(cell: RawCell, column: int, circuit: RawGrid): (o: Outcome)
    ensures o.Fail? ==> IsCellError(o.error)
  {
    if cell == Str(EmptyCell) then Pass
    else match cell
      case Arr(pair) => ValidateBinaryGatePair(pair, column, circuit)
      case Str(gate) => ValidateUnaryGate(gate)
  }

  /** Position (p, q) is at or after (i, j) in row-major order. */
  predicate NotBefore(p: int, q: int, i: int, j: int) {
    p > i || (p == i && q >= j)
  }

  /** The cells of `circuit` checked row by row from (i, j) on. */
  function CheckCellsFrom(circuit: RawGrid, i: nat, j: nat): (o: Outcome)
    decreases |circuit| - i, if i < |circuit| then |circuit[i]| - j else 0
    ensures o.Fail? ==> IsCellError(o.error)
  {
    if i >= |circuit| then Pass
    else if j >= |circuit[i]| then CheckCellsFrom(circuit, i + 1, 0)
    else
      var o := ValidateCell(circuit[i][j], j, circuit);
      if o.Fail? then o else CheckCellsFrom(circuit, i, j + 1)
  }

  function CheckCells(circuit: RawGrid): Outcome {
    CheckCellsFrom(circuit, 0, 0)
  }

  // ---------------------------------------------------------------------
  // Black box and the whole configuration

  function ValidateBlackBox(box: BlackBoxColumns, localNumColumns: int): (o: Outcome)
    ensures o.Pass? <==> 0 <= box.start <= box.end < localNumColumns
    ensures o.Fail? ==> IsBlackBoxError(o.error)
    ensures o == Fail(BlackBoxEndOutOfRange) ==> 0 <= box.start < localNumColumns
    ensures o == Fail(BlackBoxEndBeforeStart) ==> 0 <= box.start < localNumColumns && 0 <= box.end < localNumColumns
  {
    if box.start < 0 || box.start >= localNumColumns then Fail(BlackBoxStartOutOfRange)
    else if box.end < 0 || box.end >= localNumColumns then Fail(BlackBoxEndOutOfRange)
    else if box.end < box.start then Fail(BlackBoxEndBeforeStart)
    else Pass
  }

  /** What validateConfiguration throws, if anything. */
  function ConfigurationCheck(config: Config): Outcome {
    var size := SizeCheck(config);
    if size.Fail? then size
    else
      var cells := if config.startingCircuit.Some? then CheckCells(config.startingCircuit.value) else Pass;
      if cells.Fail? then cells
      else if config.blackBoxColumns.Some? then ValidateBlackBox(config.blackBoxColumns.value, config.columns)
      else Pass
  }

  // ---------------------------------------------------------------------
  // The validator's loops

  /** Scans a grid's rows for the first one whose length is not `columns`. */
  method FindBadRow(grid: RawGrid, columns: int) returns (r: Option<nat>)
    ensures r == FirstBadRow(grid, columns, 0)
  {
    var i := 0;
    while i < |grid|
      invariant i <= |grid|
      invariant FirstBadRow(grid, columns, i) == FirstBadRow(grid, columns, 0)
    {
      if columns != |grid[i]| {
        return Some(i);
      }
      i := i + 1;
    }
    return None;
  }

  /** The filter step: keeps the success states whose circuit has rows. */
  method FilterNonEmpty(states: seq<RawSuccessState>) returns (circuits: seq<RawGrid>)
    ensures circuits == NonEmptyCircuits(states)
  {
    circuits := [];
    var n := 0;
    while n < |states|
      invariant n <= |states|
      invariant circuits == NonEmptyCircuits(states[..n])
    {
      assert states[..n + 1][..n] == states[..n];
      assert NonEmptyCircuits(states[..n + 1]) ==
        NonEmptyCircuits(states[..n]) + (if |states[n].circuit| > 0 then [states[n].circuit] else []);
      if |states[n].circuit| > 0 {
        circuits := circuits + [states[n].circuit];
      }
      n := n + 1;
    }
    assert states[..n] == states;
  }

  /** The forEach step; `successIndex` counts the filtered states. */
  method CheckSuccessShapes(rows: int, columns: int, circuits: seq<RawGrid>) returns (o: Outcome)
    ensures o == SuccessShapeCheck(rows, columns, circuits, 0)
  {
    var successIndex := 0;
    while successIndex < |circuits|
      invariant successIndex <= |circuits|
      invariant SuccessShapeCheck(rows, columns, circuits, successIndex) == SuccessShapeCheck(rows, columns, circuits, 0)
    {
      var circuit := circuits[successIndex];
      if rows != |circuit| {
        return Fail(SuccessRowCountMismatch(successIndex));
      }
      var bad := FindBadRow(circuit, columns);
      if bad.Some? {
        return Fail(SuccessRowLengthMismatch(successIndex, bad.value));
      }
      successIndex := successIndex + 1;
    }
    return Pass;
  }

  method ValidateCircuitSize(config: Config) returns (o: Outcome)
    ensures o == SizeCheck(config)
  {
    var rows, columns := config.rows, config.columns;
    if rows < 1 || rows > MaxRows {
      return Fail(RowsOutOfRange);
    }
    if columns < 1 || columns > MaxColumns {
      return Fail(ColumnsOutOfRange);
    }
    if config.startingCircuit.Some? {
      var startingCircuit := config.startingCircuit.value;
      if rows != |startingCircuit| {
        return Fail(StartingRowCountMismatch);
      }
      var bad := FindBadRow(startingCircuit, columns);
      if bad.Some? {
        return Fail(StartingRowLengthMismatch(bad.value));
      }
    }
    if config.successStates.Some? {
      var circuits := FilterNonEmpty(config.successStates.value);
      o := CheckSuccessShapes(rows, columns, circuits);
      return;
    }
    return Pass;
  }

  method ValidateCircuit(circuit: RawGrid) returns (o: Outcome)
    ensures o == CheckCells(circuit)
  {
    var i := 0;
    while i < |circuit|
      invariant i <= |circuit|
      invariant CheckCellsFrom(circuit, i, 0) == CheckCells(circuit)
    {
      var j := 0;
      while j < |circuit[i]|
        invariant j <= |circuit[i]|
        invariant CheckCellsFrom(circuit, i, j) == CheckCells(circuit)
      {
        var cell := circuit[i][j];
        if cell != Str(EmptyCell) {
          if cell.Arr? {
            var binary := ValidateBinaryGatePair(cell.elems, j, circuit);
            if binary.Fail? {
              return binary;
            }
          } else {
            var unary := ValidateUnaryGate(cell.s);
            if unary.Fail? {
              return unary;
            }
          }
        }
        j := j + 1;
      }
      i := i + 1;
    }
    return Pass;
  }

  method ValidateConfiguration(config: Config) returns (o: Outcome)
    ensures o == ConfigurationCheck(config)
  {
    o := ValidateCircuitSize(config);
    if o.Fail? {
      return;
    }
    if config.startingCircuit.Some? {
      o := ValidateCircuit(config.startingCircuit.value);
      if o.Fail? {
        return;
      }
    }
    if config.blackBoxColumns.Some? {
      o := ValidateBlackBox(config.blackBoxColumns.value, config.columns);
    }
  }

  // ---------------------------------------------------------------------
  // What a passing configuration satisfies

  /** A cell the validator accepts, stated without the check order. */
  ghost predicate AcceptableCell(cell: RawCell, column: int, circuit: RawGrid) {
    match cell
    case Str(s) => s == EmptyCell || s in UnaryGates
    case Arr(e) =>
      && |e| == 2 && e[0].Text? && e[0].text in BinaryGates && e[1].Number?
      && 0 <= e[1].number < |circuit|
      && 0 <= column < |circuit[e[1].number]| && circuit[e[1].number][column] == Str(EmptyCell)
  }

  ghost predicate ShapedLike(grid: RawGrid, rows: int, columns: int) {
    |grid| == rows && forall i :: 0 <= i < |grid| ==> |grid[i]| == columns
  }

  ghost predicate AllCellsAcceptable(grid: RawGrid) {
    forall i, j :: 0 <= i < |grid| && 0 <= j < |grid[i]| ==> AcceptableCell(grid[i][j], j, grid)
  }

  /** Every constraint on a configuration, stated without the check order. */
  ghost predicate ValidConfiguration(config: Config) {
    && 1 <= config.rows <= MaxRows
    && 1 <= config.columns <= MaxColumns
    && (config.startingCircuit.Some? ==>
          ShapedLike(config.startingCircuit.value, config.rows, config.columns)
          && AllCellsAcceptable(config.startingCircuit.value))
    && (config.successStates.Some? ==>
          forall s :: s in config.successStates.value && |s.circuit| > 0 ==> ShapedLike(s.circuit, config.rows, config.columns))
    && (config.blackBoxColumns.Some? ==>
          0 <= config.blackBoxColumns.value.start <= config.blackBoxColumns.value.end < config.columns)
  }

  lemma ValidateCellPass(cell: RawCell, column: int, circuit: RawGrid)
    ensures ValidateCell(cell, column, circuit).Pass? <==> AcceptableCell(cell, column, circuit)
  {
  }

  lemma {:induction false} CheckCellsFromPass(circuit: RawGrid, i: nat, j: nat)
    decreases |circuit| - i, if i < |circuit| then |circuit[i]| - j else 0
    ensures CheckCellsFrom(circuit, i, j).Pass? <==>
      forall p, q :: 0 <= p < |circuit| && 0 <= q < |circuit[p]| && NotBefore(p, q, i, j) ==>
        ValidateCell(circuit[p][q], q, circuit).Pass?
  {
    if i >= |circuit| {
    } else if j >= |circuit[i]| {
      CheckCellsFromPass(circuit, i + 1, 0);
    } else {
      CheckCellsFromPass(circuit, i, j + 1);
    }
  }

  /** The validator reports the error of the first failing cell in row-major order. */
  lemma {:induction false} CheckCellsFromFirstFailure(circuit: RawGrid, i: nat, j: nat, p: nat, q: nat)
    requires p < |circuit| && q < |circuit[p]| && NotBefore(p, q, i, j)
    requires ValidateCell(circuit[p][q], q, circuit).Fail?
    requires forall p', q' ::
      (0 <= p' < |circuit| && 0 <= q' < |circuit[p']| && NotBefore(p', q', i, j) && !NotBefore(p', q', p, q))
      ==> ValidateCell(circuit[p'][q'], q', circuit).Pass?
    decreases |circuit| - i, if i < |circuit| then |circuit[i]| - j else 0
    ensures CheckCellsFrom(circuit, i, j) == ValidateCell(circuit[p][q], q, circuit)
  {
    if i == p && j == q {
    } else if j >= |circuit[i]| {
      CheckCellsFromFirstFailure(circuit, i + 1, 0, p, q);
    } else {
      assert ValidateCell(circuit[i][j], j, circuit).Pass?;
      CheckCellsFromFirstFailure(circuit, i, j + 1, p, q);
    }
  }

  lemma CheckCellsReportsFirstFailure(circuit: RawGrid, p: nat, q: nat)
    requires p < |circuit| && q < |circuit[p]| && ValidateCell(circuit[p][q], q, circuit).Fail?
    requires forall p', q' :: 0 <= p' < |circuit| && 0 <= q' < |circuit[p']| && !NotBefore(p', q', p, q) ==>
      ValidateCell(circuit[p'][q'], q', circuit).Pass?
    ensures CheckCells(circuit) == ValidateCell(circuit[p][q], q, circuit)
  {
    CheckCellsFromFirstFailure(circuit, 0, 0, p, q);
  }

  lemma {:induction false} SuccessShapeCheckPass(rows: int, columns: int, circuits: seq<RawGrid>, from: nat)
    decreases |circuits| - from
    ensures SuccessShapeCheck(rows, columns, circuits, from).Pass? <==>
      forall k :: from <= k < |circuits| ==> ShapedLike(circuits[k], rows, columns)
  {
    if from < |circuits| {
      SuccessShapeCheckPass(rows, columns, circuits, from + 1);
    }
  }

  /** A configuration passes exactly when it meets every constraint. */
  lemma ConfigurationCheckPass(config: Config)
    ensures ConfigurationCheck(config).Pass? <==> ValidConfiguration(config)
  {
    if config.startingCircuit.Some? {
      var sc := config.startingCircuit.value;
      CheckCellsFromPass(sc, 0, 0);
      forall p, q | 0 <= p < |sc| && 0 <= q < |sc[p]| {
        ValidateCellPass(sc[p][q], q, sc);
      }
    }
    if config.successStates.Some? {
      var circuits := NonEmptyCircuits(config.successStates.value);
      SuccessShapeCheckPass(config.rows, config.columns, circuits, 0);
      assert (forall k :: 0 <= k < |circuits| ==> ShapedLike(circuits[k], config.rows, config.columns)) <==>
        (forall s :: s in config.successStates.value && |s.circuit| > 0 ==> ShapedLike(s.circuit, config.rows, config.columns)) by {
        forall s | s in config.successStates.value && |s.circuit| > 0 ensures s.circuit in circuits {
          assert s == RawSuccessState(s.circuit);
          assert s.circuit in circuits;
        }
        forall k | 0 <= k < |circuits| ensures circuits[k] in circuits {
          assert circuits[k] in circuits;
        }
      }
    }
  }

  /** Each error is reported only when every earlier check passed. */
  lemma ConfigurationErrorOrder(config: Config)
    ensures ConfigurationCheck(config).Fail? && ConfigurationCheck(config).error != RowsOutOfRange ==>
      1 <= config.rows <= MaxRows
    ensures (ConfigurationCheck(config).Fail?
      && ConfigurationCheck(config).error !in {RowsOutOfRange, ColumnsOutOfRange}) ==>
      1 <= config.columns <= MaxColumns
    ensures ConfigurationCheck(config).Fail? && ConfigurationCheck(config).error.StartingRowLengthMismatch? ==>
      config.startingCircuit.Some? && |config.startingCircuit.value| == config.rows
    ensures (ConfigurationCheck(config).Fail?
      && (ConfigurationCheck(config).error.SuccessRowCountMismatch? || ConfigurationCheck(config).error.SuccessRowLengthMismatch?)) ==>
      config.startingCircuit.Some? ==> ShapedLike(config.startingCircuit.value, config.rows, config.columns)
    ensures (ConfigurationCheck(config).Fail? && IsCellError(ConfigurationCheck(config).error)) ==>
      SizeCheck(config).Pass? && config.startingCircuit.Some?
    ensures (ConfigurationCheck(config).Fail? && IsBlackBoxError(ConfigurationCheck(config).error)) ==>
      && SizeCheck(config).Pass? && config.blackBoxColumns.Some?
      && (config.startingCircuit.Some? ==> CheckCells(config.startingCircuit.value).Pass?)
  {
    if config.startingCircuit.Some? {
      var sc := config.startingCircuit.value;
      var starting := StartingShapeCheck(config.rows, config.columns, sc);
      if starting.Pass? {
        assert ShapedLike(sc, config.rows, config.columns);
      }
    }
  }

  // ---------------------------------------------------------------------
  // From raw cells to grid cells

  predicate Decodable(cell: RawCell) {
    cell.Str? || (|cell.elems| == 2 && cell.elems[0].Text? && cell.elems[1].Number?)
  }

  function DecodeCell(cell: RawCell): Cell
    requires Decodable(cell)
  {
    match cell
    case Str(s) => Name(s)
    case Arr(e) => Pair(e[0].text, e[1].number)
  }

  function DecodeGrid(grid: RawGrid): (g: Grid)
    requires forall i, j :: 0 <= i < |grid| && 0 <= j < |grid[i]| ==> Decodable(grid[i][j])
    ensures |g| == |grid| && forall i :: 0 <= i < |grid| ==> |g[i]| == |grid[i]|
    ensures forall i, j :: 0 <= i < |grid| && 0 <= j < |grid[i]| ==> g[i][j] == DecodeCell(grid[i][j])
  {
    seq(|grid|, i requires 0 <= i < |grid| =>
      seq(|grid[i]|, j requires 0 <= j < |grid[i]| => DecodeCell(grid[i][j])))
  }

  /** A starting circuit that passes validation is a rectangular grid of
      empty cells, unary gates and binary gates whose action cells are empty. */
  lemma {:induction false} ValidStartingCircuit(config: Config)
    requires ConfigurationCheck(config).Pass? && config.startingCircuit.Some?
    ensures var sc := config.startingCircuit.value;
      && (forall i, j :: 0 <= i < |sc| && 0 <= j < |sc[i]| ==> Decodable(sc[i][j]))
      && var g: Grid := DecodeGrid(sc);
         && |g| == config.rows && Rectangular(g) && ColumnInRange(g, config.columns - 1)
         && (forall i, j :: 0 <= i < |g| && 0 <= j < |g[i]| && g[i][j].Name? ==>
               g[i][j] == Empty || g[i][j].name in UnaryGates)
         && (forall i, j :: 0 <= i < |g| && 0 <= j < |g[i]| && g[i][j].Pair? ==>
               g[i][j].gate in BinaryGates && 0 <= g[i][j].actionRow < |g| && g[g[i][j].actionRow][j] == Empty)
  {
    ConfigurationCheckPass(config);
    var sc := config.startingCircuit.value;
    assert AllCellsAcceptable(sc);
    forall i, j | 0 <= i < |sc| && 0 <= j < |sc[i]| ensures Decodable(sc[i][j]) {
      assert AcceptableCell(sc[i][j], j, sc);
    }
    var g: Grid := DecodeGrid(sc);
    forall i, j | 0 <= i < |g| && 0 <= j < |g[i]| && g[i][j].Pair?
      ensures 0 <= g[i][j].actionRow < |g| && g[g[i][j].actionRow][j] == Empty
    {
      assert AcceptableCell(sc[i][j], j, sc);
    }
  }

  // ---------------------------------------------------------------------
  // Worked configurations

  /** A 5-by-6 configuration whose starting circuit is all empty passes;
      zero rows fails on rows; three rows declared as two fails on the row count. */
  lemma ExampleConfigurations()
    ensures ConfigurationCheck(Config(5, 6, Some(seq(5, _ => seq(6, _ => Str(EmptyCell)))), None, None)) == Pass
    ensures ConfigurationCheck(Config(0, 1, None, None, None)) == Fail(RowsOutOfRange)
    ensures ConfigurationCheck(Config(2, 2, Some([[Str(EmptyCell)], [Str(EmptyCell)], [Str(EmptyCell)]]), None, None))
      == Fail(StartingRowCountMismatch)
  {
    var config := Config(5, 6, Some(seq(5, _ => seq(6, _ => Str(EmptyCell)))), None, None);
    var sc := config.startingCircuit.value;
    forall i, j | 0 <= i < |sc| && 0 <= j < |sc[i]| ensures AcceptableCell(sc[i][j], j, sc) {
      assert sc[i][j] == Str(EmptyCell);
    }
    assert ValidConfiguration(config);
    ConfigurationCheckPass(config);
  }

  /** A malformed pair is reported as malformed even when its action row
      would also be out of range. */
  lemma MalformedReportedFirst()
    ensures ConfigurationCheck(Config(1, 1, Some([[Arr([Text("CX"), Number(7), Number(7)])]]), None, None))
      == Fail(MalformedBinaryGate)
  {
  }

  /** Nothing in the validator stops two control gates of one column from
      acting on the same row. */
  lemma SharedActionRowPasses()
    ensures ConfigurationCheck(Config(3, 1, Some([[Arr([Text("CX"), Number(2)])], [Arr([Text("CZ"), Number(2)])], [Str(EmptyCell)]]), None, None))
      == Pass
  {
    var config := Config(3, 1, Some([[Arr([Text("CX"), Number(2)])], [Arr([Text("CZ"), Number(2)])], [Str(EmptyCell)]]), None, None);
    var sc := config.startingCircuit.value;
    assert AcceptableCell(sc[0][0], 0, sc);
    assert AcceptableCell(sc[1][0], 0, sc);
    assert AcceptableCell(sc[2][0], 0, sc);
    assert ValidConfiguration(config);
    ConfigurationCheckPass(config);
  }
}

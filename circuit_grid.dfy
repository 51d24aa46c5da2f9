/** The circuit grid: its size on screen, the grid of names it draws, the
    control wires and the tracks that keep detouring wires apart, and the
    two-step placement of a control gate and its action gate. */
module CircuitGrid {
  import opened Wrappers
  import opened Constants
  import opened Circuit
  import CircuitProperties
  import Layout
  import QuantumCircuit

  // ---------------------------------------------------------------------
  // Size of the drawing

  /** Width of a grid of `columns` columns, wire extensions included. */
  function TotalCircuitWidth(layout: Layout.LayoutState, columns: int): (width: int)
    reads layout
    requires layout.Valid()
    ensures columns >= 1 ==>
      width as real == ColumnCenter(layout, columns - 1)
        + (layout.GateSize() as real) / 2.0 + (layout.WireExtension() as real)
  {
    layout.WireExtension()
      + layout.GateSize() * columns
      + layout.HorizontalSpacing() * (columns - 1)
      + layout.WireExtension()
  }

  /** Height of a grid of `rows` rows. */
  function TotalCircuitHeight(layout: Layout.LayoutState, rows: int): (height: int)
    reads layout
    requires layout.Valid()
    ensures rows >= 1 ==> height as real == RowCenter(layout, rows - 1) + (layout.GateSize() as real) / 2.0
  {
    layout.GateSize() * rows + Layout.VerticalSpacing * (rows - 1)
  }

  /** The centre of a row as the wire drawing computes it; it agrees with the
      row centres the rest of the page uses. */
  function CenterOfRow(layout: Layout.LayoutState, row: int): (y: real)
    reads layout
    requires layout.Valid()
    ensures y == RowCenter(layout, row)
  {
    (layout.GateSize() as real) / 2.0
      + ((layout.GateSize() + Layout.VerticalSpacing) as real) * (row as real)
  }

  // ---------------------------------------------------------------------
  // The grid of names that is drawn

  /** Every control gate of a rectangular grid acts on a row of the grid. */
  predicate Drawable(circuit: Grid) {
    && Rectangular(circuit)
    && forall i, j :: 0 <= i < |circuit| && 0 <= j < |circuit[i]| && circuit[i][j].Pair? ==>
         0 <= circuit[i][j].actionRow < |circuit|
  }

  lemma ConsistentIsDrawable(circuit: Grid)
    requires CircuitProperties.Consistent(circuit)
    ensures Drawable(circuit)
  {
  }

  /** Position (p, q) comes before (i, j) in row-major order. */
  predicate Before(p: int, q: int, i: int, j: int) {
    p < i || (p == i && q < j)
  }

  /** Draws the pairs from position (i, j) on, row by row, into `acc`: a pair
      becomes a control name in its own cell and an action name in its
      action row. */
  function RenderFrom(acc: Grid, circuit: Grid, i: nat, j: nat): (r: Grid)
    requires Drawable(circuit) && SameShape(acc, circuit)
    ensures SameShape(r, circuit)
    decreases |circuit| - i, if i < |circuit| then |circuit[i]| - j else 0
  {
    if i >= |circuit| then acc
    else if j >= |circuit[i]| then RenderFrom(acc, circuit, i + 1, 0)
    else match circuit[i][j]
      case Pair(gate, actionRow) =>
        var drawn := SetCell(SetCell(acc, i, j, Name("CONTROL_" + gate)), actionRow, j, Name("ACTION_" + gate));
        RenderFrom(drawn, circuit, i, j + 1)
      case Name(_) => RenderFrom(acc, circuit, i, j + 1)
  }

  function Rendered(circuit: Grid): (r: Grid)
    requires Drawable(circuit)
    ensures SameShape(r, circuit)
  {
    RenderFrom(circuit, circuit, 0, 0)
  }

  /** What a cell of a consistent grid is drawn as: a pair as its control
      name, the action row of a pair as its action name, anything else as it is. */
  function RenderedCell(circuit: Grid, p: nat, q: nat): Cell
    requires p < |circuit| && ColumnInRange(circuit, q)
  {
    if circuit[p][q].Pair? then Name("CONTROL_" + circuit[p][q].gate)
    else match RowThatControls(p, q, circuit)
      case Some(k) => Name("ACTION_" + circuit[k][q].gate)
      case None => circuit[p][q]
  }

  /** `acc` holds the drawing of every pair before (i, j) and nothing else. */
  ghost predicate DrawnBefore(acc: Grid, circuit: Grid, i: int, j: int)
    requires Rectangular(circuit) && SameShape(acc, circuit)
  {
    forall p, q :: 0 <= p < |circuit| && 0 <= q < |circuit[p]| ==>
      acc[p][q] ==
        if circuit[p][q].Pair? && Before(p, q, i, j) then Name("CONTROL_" + circuit[p][q].gate)
        else if circuit[p][q].Pair? then circuit[p][q]
        else match RowThatControls(p, q, circuit)
          case Some(k) =>
            if Before(k, q, i, j) then Name("ACTION_" + circuit[k][q].gate) else circuit[p][q]
          case None => circuit[p][q]
  }

  /** Drawing the pair at (i, j) extends the drawing past (i, j). */
  lemma DrawPairStep(acc: Grid, circuit: Grid, i: nat, j: nat)
    requires CircuitProperties.Consistent(circuit) && SameShape(acc, circuit)
    requires i < |circuit| && j < |circuit[i]| && circuit[i][j].Pair?
    requires DrawnBefore(acc, circuit, i, j)
    ensures 0 <= circuit[i][j].actionRow < |circuit|
    ensures DrawnBefore(SetCell(SetCell(acc, i, j, Name("CONTROL_" + circuit[i][j].gate)),
                                circuit[i][j].actionRow, j, Name("ACTION_" + circuit[i][j].gate)),
                        circuit, i, j + 1)
  {
    var gate, actionRow := circuit[i][j].gate, circuit[i][j].actionRow;
    var drawn := SetCell(SetCell(acc, i, j, Name("CONTROL_" + gate)), actionRow, j, Name("ACTION_" + gate));
    CircuitProperties.ConsistentControllerIsUnique(circuit, i, j);
    forall p, q | 0 <= p < |circuit| && 0 <= q < |circuit[p]| && q == j && !circuit[p][q].Pair?
      ensures RowThatControls(p, q, circuit) == Some(i) ==> p == actionRow
    {
      var first := RowThatControls(p, q, circuit);
      assert first.Some? ==> Controls(circuit[first.value][q], p);
    }
  }

  /** A cell that is not a pair adds nothing to the drawing. */
  lemma NameStep(acc: Grid, circuit: Grid, i: nat, j: nat)
    requires CircuitProperties.Consistent(circuit) && SameShape(acc, circuit)
    requires i < |circuit| && j < |circuit[i]| && !circuit[i][j].Pair?
    requires DrawnBefore(acc, circuit, i, j)
    ensures DrawnBefore(acc, circuit, i, j + 1)
  {
    forall p, q | 0 <= p < |circuit| && 0 <= q < |circuit[p]| && !circuit[p][q].Pair?
      ensures RowThatControls(p, q, circuit) != Some(i) || q != j
    {
      var first := RowThatControls(p, q, circuit);
      assert first.Some? ==> circuit[first.value][q].Pair?;
    }
  }

  /** Past the last row the drawing is complete. */
  lemma DrawnAll(acc: Grid, circuit: Grid, i: nat)
    requires CircuitProperties.Consistent(circuit) && SameShape(acc, circuit)
    requires i >= |circuit| && DrawnBefore(acc, circuit, i, 0)
    ensures forall p, q :: 0 <= p < |circuit| && 0 <= q < |circuit[p]| ==> acc[p][q] == RenderedCell(circuit, p, q)
  {
    forall p, q | 0 <= p < |circuit| && 0 <= q < |circuit[p]|
      ensures acc[p][q] == RenderedCell(circuit, p, q)
    {
      var first := RowThatControls(p, q, circuit);
      assert first.Some? ==> first.value < |circuit|;
    }
  }

  /** At the end of a row the drawing moves on to the next row. */
  lemma RowEndStep(acc: Grid, circuit: Grid, i: nat)
    requires CircuitProperties.Consistent(circuit) && SameShape(acc, circuit)
    requires i < |circuit| && DrawnBefore(acc, circuit, i, |circuit[i]|)
    ensures DrawnBefore(acc, circuit, i + 1, 0)
  {
    forall p, q | 0 <= p < |circuit| && 0 <= q < |circuit[p]|
      ensures Before(p, q, i, |circuit[i]|) <==> Before(p, q, i + 1, 0)
    {
    }
  }

  lemma {:induction false} RenderFromConsistent(acc: Grid, circuit: Grid, i: nat, j: nat)
    requires CircuitProperties.Consistent(circuit) && SameShape(acc, circuit)
    requires i < |circuit| ==> j <= |circuit[i]|
    requires DrawnBefore(acc, circuit, i, j)
    ensures Drawable(circuit)
    ensures forall p, q :: 0 <= p < |circuit| && 0 <= q < |circuit[p]| ==>
      RenderFrom(acc, circuit, i, j)[p][q] == RenderedCell(circuit, p, q)
    decreases |circuit| - i, if i < |circuit| then |circuit[i]| - j else 0
  {
    ConsistentIsDrawable(circuit);
    if i >= |circuit| {
      assert DrawnBefore(acc, circuit, i, 0);
      DrawnAll(acc, circuit, i);
    } else if j >= |circuit[i]| {
      RowEndStep(acc, circuit, i);
      RenderFromConsistent(acc, circuit, i + 1, 0);
    } else if circuit[i][j].Pair? {
      DrawPairStep(acc, circuit, i, j);
      var drawn := SetCell(SetCell(acc, i, j, Name("CONTROL_" + circuit[i][j].gate)),
                           circuit[i][j].actionRow, j, Name("ACTION_" + circuit[i][j].gate));
      RenderFromConsistent(drawn, circuit, i, j + 1);
    } else {
      NameStep(acc, circuit, i, j);
      RenderFromConsistent(acc, circuit, i, j + 1);
    }
  }

  /** In a consistent grid every control gate is drawn as its control name,
      every targeted row as the action name of the gate that targets it, and
      every other cell as it is. */
  lemma RenderedConsistent(circuit: Grid)
    requires CircuitProperties.Consistent(circuit)
    ensures Drawable(circuit)
    ensures forall p, q :: 0 <= p < |circuit| && 0 <= q < |circuit[p]| ==>
      Rendered(circuit)[p][q] == RenderedCell(circuit, p, q)
  {
    RenderFromConsistent(circuit, circuit, 0, 0);
  }

  method ConvertToRenderable(sourceCircuit: Grid) returns (renderableCells: Grid)
    requires Drawable(sourceCircuit)
    ensures renderableCells == Rendered(sourceCircuit)
  {
    renderableCells := Clone(sourceCircuit);
    var i := 0;
    while i < NumRows(sourceCircuit)
      invariant i <= |sourceCircuit| && SameShape(renderableCells, sourceCircuit)
      invariant RenderFrom(renderableCells, sourceCircuit, i, 0) == Rendered(sourceCircuit)
    {
      var j := 0;
      while j < NumColumns(sourceCircuit)
        invariant j <= |sourceCircuit[i]| && SameShape(renderableCells, sourceCircuit)
        invariant RenderFrom(renderableCells, sourceCircuit, i, j) == Rendered(sourceCircuit)
      {
        var cell := sourceCircuit[i][j];
        if IsBinaryGatePair(cell) {
          var actionRow := cell.actionRow;
          var actionGate := cell.gate;
          renderableCells := SetCell(renderableCells, i, j, Name("CONTROL_" + actionGate));
          renderableCells := SetCell(renderableCells, actionRow, j, Name("ACTION_" + actionGate));
        }
        j := j + 1;
      }
      i := i + 1;
    }
  }

  /** Every name in the grid is the empty marker or a unary gate, and every
      pair holds a binary gate. */
  ghost predicate PaletteCells(circuit: Grid) {
    forall i, j :: 0 <= i < |circuit| && 0 <= j < |circuit[i]| ==>
      match circuit[i][j]
      case Name(n) => n == EmptyCell || n in UnaryGates
      case Pair(g, _) => g in BinaryGates
  }

  /** A consistent grid of palette gates is drawn with renderable names only. */
  lemma RenderedNamesAreRenderable(circuit: Grid)
    requires CircuitProperties.Consistent(circuit) && PaletteCells(circuit)
    ensures Drawable(circuit)
    ensures forall p, q :: 0 <= p < |circuit| && 0 <= q < |circuit[p]| ==>
      Rendered(circuit)[p][q].Name? && Rendered(circuit)[p][q].name in RenderableGates
  {
    RenderedConsistent(circuit);
    forall p, q | 0 <= p < |circuit| && 0 <= q < |circuit[p]|
      ensures Rendered(circuit)[p][q].Name? && Rendered(circuit)[p][q].name in RenderableGates
    {
      var cell := RenderedCell(circuit, p, q);
      RenderableGatesMembership(cell.name);
      var first := RowThatControls(p, q, circuit);
      assert first.Some? ==> circuit[first.value][q].Pair?;
      if circuit[p][q].Pair? {
        assert exists b :: b in BinaryGates && cell.name == "CONTROL_" + b;
      } else if first.Some? {
        assert exists b :: b in BinaryGates && cell.name == "ACTION_" + circuit[first.value][q].gate;
      } else if cell.name == EmptyCell {
        assert EmptyCell == RenderableGates[|RenderableGates| - 1];
      }
    }
  }

  // ---------------------------------------------------------------------
  // Control wires

  /** The vertical wire joining a control gate to its action row. */
  datatype ControlWire = ControlWire(column: int, fromRow: int, toRow: int)

  function WireAt(circuit: Grid, i: nat, j: nat): (w: ControlWire)
    requires i < |circuit| && j < |circuit[i]| && circuit[i][j].Pair?
    ensures w.column == j && w.fromRow <= w.toRow
    ensures (w.fromRow == i && w.toRow == circuit[i][j].actionRow)
         || (w.fromRow == circuit[i][j].actionRow && w.toRow == i)
  {
    ControlWire(j, Min(i, circuit[i][j].actionRow), Max(i, circuit[i][j].actionRow))
  }

  /** The wires of row `i` from column `j` on, left to right. */
  function RowWires(circuit: Grid, i: nat, j: nat): seq<ControlWire>
    requires i < |circuit| && Rectangular(circuit)
    decreases |circuit[i]| - j
  {
    if j >= NumColumns(circuit) then []
    else (if circuit[i][j].Pair? then [WireAt(circuit, i, j)] else []) + RowWires(circuit, i, j + 1)
  }

  /** The wires of the rows from `i` on, row by row. */
  function WiresFrom(circuit: Grid, i: nat): seq<ControlWire>
    requires Rectangular(circuit)
    decreases |circuit| - i
  {
    if i >= |circuit| then [] else RowWires(circuit, i, 0) + WiresFrom(circuit, i + 1)
  }

  /** One wire per control gate, in row-major order. */
  function ControlWiresOf(circuit: Grid): seq<ControlWire>
    requires Rectangular(circuit)
  {
    WiresFrom(circuit, 0)
  }

  /** A wire of `circuit` is the wire of some control gate in it. */
  ghost predicate WireOf(w: ControlWire, circuit: Grid)
    requires Rectangular(circuit)
  {
    exists i, j :: 0 <= i < |circuit| && 0 <= j < |circuit[i]| && circuit[i][j].Pair? && w == WireAt(circuit, i, j)
  }

  lemma {:induction false} RowWiresMembership(circuit: Grid, i: nat, j: nat, w: ControlWire)
    requires i < |circuit| && Rectangular(circuit)
    ensures w in RowWires(circuit, i, j) <==>
      exists k :: j <= k < |circuit[i]| && circuit[i][k].Pair? && w == WireAt(circuit, i, k)
    decreases |circuit[i]| - j
  {
    if j < NumColumns(circuit) {
      RowWiresMembership(circuit, i, j + 1, w);
      if w in RowWires(circuit, i, j + 1) {
        var k :| j + 1 <= k < |circuit[i]| && circuit[i][k].Pair? && w == WireAt(circuit, i, k);
        assert j <= k;
      }
    }
  }

  lemma {:induction false} WiresFromMembership(circuit: Grid, i: nat, w: ControlWire)
    requires Rectangular(circuit)
    ensures w in WiresFrom(circuit, i) <==>
      exists p, k :: i <= p < |circuit| && 0 <= k < |circuit[p]| && circuit[p][k].Pair? && w == WireAt(circuit, p, k)
    decreases |circuit| - i
  {
    if i < |circuit| {
      RowWiresMembership(circuit, i, 0, w);
      WiresFromMembership(circuit, i + 1, w);
      assert WiresFrom(circuit, i) == RowWires(circuit, i, 0) + WiresFrom(circuit, i + 1);
      if w in RowWires(circuit, i, 0) {
        var k :| 0 <= k < |circuit[i]| && circuit[i][k].Pair? && w == WireAt(circuit, i, k);
        assert i <= i < |circuit|;
      } else if w in WiresFrom(circuit, i + 1) {
        var p, k :| i + 1 <= p < |circuit| && 0 <= k < |circuit[p]| && circuit[p][k].Pair? && w == WireAt(circuit, p, k);
        assert i <= p;
      }
      if exists p, k :: i <= p < |circuit| && 0 <= k < |circuit[p]| && circuit[p][k].Pair? && w == WireAt(circuit, p, k) {
        var p, k :| i <= p < |circuit| && 0 <= k < |circuit[p]| && circuit[p][k].Pair? && w == WireAt(circuit, p, k);
        if p == i {
          assert w in RowWires(circuit, i, 0);
        } else {
          assert w in WiresFrom(circuit, i + 1);
        }
      }
    }
  }

  /** The wires found are exactly the wires of the grid's control gates. */
  lemma ControlWiresMembership(circuit: Grid, w: ControlWire)
    requires Rectangular(circuit)
    ensures w in ControlWiresOf(circuit) <==> WireOf(w, circuit)
  {
    WiresFromMembership(circuit, 0, w);
  }

  /** Every wire of a drawable grid lies in a column of the grid, runs
      downwards and stays within the grid's rows. */
  lemma ControlWiresInGrid(circuit: Grid, w: ControlWire)
    requires Drawable(circuit) && w in ControlWiresOf(circuit)
    ensures 0 <= w.column < NumColumns(circuit)
    ensures 0 <= w.fromRow <= w.toRow < |circuit|
  {
    ControlWiresMembership(circuit, w);
  }

  method GetControlWires(circuit: Grid) returns (controlWires: seq<ControlWire>)
    requires Rectangular(circuit)
    ensures controlWires == ControlWiresOf(circuit)
  {
    controlWires := [];
    var i := 0;
    while i < NumRows(circuit)
      invariant i <= |circuit|
      invariant controlWires + WiresFrom(circuit, i) == ControlWiresOf(circuit)
    {
      var j := 0;
      while j < NumColumns(circuit)
        invariant j <= |circuit[i]|
        invariant controlWires + RowWires(circuit, i, j) + WiresFrom(circuit, i + 1) == ControlWiresOf(circuit)
      {
        var cell := circuit[i][j];
        if IsBinaryGatePair(cell) {
          var actionRow := cell.actionRow;
          controlWires := controlWires + [ControlWire(j, Min(i, actionRow), Max(i, actionRow))];
        }
        j := j + 1;
      }
      i := i + 1;
    }
  }

  // ---------------------------------------------------------------------
  // Grouping the wires by column

  /** The column lies inside the black box, bounds included. */
  predicate InBlackBox(column: int, blackBoxColumns: Option<BlackBoxColumns>) {
    blackBoxColumns.Some? && blackBoxColumns.value.start <= column <= blackBoxColumns.value.end
  }

  /** The wires of `column` that are drawn, in their order in `wires`. */
  function Bucket(wires: seq<ControlWire>, blackBoxColumns: Option<BlackBoxColumns>, column: int): seq<ControlWire>
  {
    if wires == [] then []
    else
      var last := wires[|wires| - 1];
      Bucket(wires[..|wires| - 1], blackBoxColumns, column)
        + if last.column == column && !InBlackBox(last.column, blackBoxColumns) then [last] else []
  }

  /** A column's bucket holds the wires of that column outside the black box. */
  lemma {:induction false} BucketMembership(wires: seq<ControlWire>, blackBoxColumns: Option<BlackBoxColumns>, column: int, w: ControlWire)
    ensures w in Bucket(wires, blackBoxColumns, column) <==>
      w in wires && w.column == column && !InBlackBox(column, blackBoxColumns)
  {
    if wires != [] {
      BucketMembership(wires[..|wires| - 1], blackBoxColumns, column, w);
      assert wires == wires[..|wires| - 1] + [wires[|wires| - 1]];
    }
  }

  method GroupByColumn(controlWires: seq<ControlWire>, columns: nat, blackBoxColumns: Option<BlackBoxColumns>)
    returns (wiresByColumn: seq<seq<ControlWire>>)
    requires forall w :: w in controlWires && !InBlackBox(w.column, blackBoxColumns) ==> 0 <= w.column < columns
    ensures |wiresByColumn| == columns
    ensures forall c :: 0 <= c < columns ==> wiresByColumn[c] == Bucket(controlWires, blackBoxColumns, c)
  {
    wiresByColumn := seq(columns, _ => []);
    var n := 0;
    while n < |controlWires|
      invariant n <= |controlWires| && |wiresByColumn| == columns
      invariant forall c :: 0 <= c < columns ==> wiresByColumn[c] == Bucket(controlWires[..n], blackBoxColumns, c)
    {
      var controlWire := controlWires[n];
      assert controlWires[..n + 1][..n] == controlWires[..n];
      var isInBlackBox := InBlackBox(controlWire.column, blackBoxColumns);
      if !isInBlackBox {
        wiresByColumn := wiresByColumn[controlWire.column := wiresByColumn[controlWire.column] + [controlWire]];
      }
      n := n + 1;
    }
    assert controlWires[..n] == controlWires;
  }

  // ---------------------------------------------------------------------
  // Tracks for the wires of one column

  /** A wire with whether something lies between its ends. */
  datatype ObservedWire = ObservedWire(wire: ControlWire, obstructed: bool)

  /** A wire with the tracks of its detour: the gutter it runs down and
      where it leaves and rejoins the centre line. */
  datatype RoutedWire = RoutedWire(
    wire: ControlWire, obstructed: bool,
    gutterTrack: WireTrack, jogStartTrack: WireTrack, jogEndTrack: WireTrack)

  ghost predicate SortedByFromRow(s: seq<ObservedWire>) {
    forall i, j :: 0 <= i < j < |s| ==> s[i].wire.fromRow <= s[j].wire.fromRow
  }

  /** Puts `w` after every wire that starts no lower than it. */
  function Insert(w: ObservedWire, sorted: seq<ObservedWire>): (r: seq<ObservedWire>)
    ensures multiset(r) == multiset(sorted) + multiset{w}
    ensures |r| == |sorted| + 1 && (r[0] == w || (|sorted| > 0 && r[0] == sorted[0]))
  {
    if sorted == [] then [w]
    else if w.wire.fromRow < sorted[0].wire.fromRow then [w] + sorted
    else
      assert sorted == [sorted[0]] + sorted[1..];
      [sorted[0]] + Insert(w, sorted[1..])
  }

  /** Inserting into a sorted column keeps it sorted. */
  lemma {:induction false} InsertSorted(w: ObservedWire, sorted: seq<ObservedWire>)
    requires SortedByFromRow(sorted)
    ensures SortedByFromRow(Insert(w, sorted))
  {
    if sorted != [] && w.wire.fromRow >= sorted[0].wire.fromRow {
      var rest := Insert(w, sorted[1..]);
      InsertSorted(w, sorted[1..]);
      assert sorted[0].wire.fromRow <= rest[0].wire.fromRow;
      assert forall k :: 0 <= k < |rest| ==> rest[0].wire.fromRow <= rest[k].wire.fromRow;
      assert Insert(w, sorted) == [sorted[0]] + rest;
    }
  }

  /** The wires of a column ordered by the row they start at; wires that
      start at the same row keep their order. */
  function SortByFromRow(s: seq<ObservedWire>): (r: seq<ObservedWire>)
    ensures multiset(r) == multiset(s)
    ensures SortedByFromRow(r)
  {
    if s == [] then []
    else
      assert s == s[..|s| - 1] + [s[|s| - 1]];
      var init := SortByFromRow(s[..|s| - 1]);
      InsertSorted(s[|s| - 1], init);
      Insert(s[|s| - 1], init)
  }

  function WithTracks(w: ObservedWire, gutter: WireTrack, jogStart: WireTrack, jogEnd: WireTrack): RoutedWire {
    RoutedWire(w.wire, w.obstructed, gutter, jogStart, jogEnd)
  }

  /** Two detouring wires in one column take the outer and the inner gutter;
      when the upper one rejoins the centre in the gap where the lower one
      leaves it, their jogs are offset too. Every other wire takes the
      middle tracks. */
  function AssignTracks(column: seq<ObservedWire>): (r: seq<RoutedWire>)
    ensures |r| == |column|
    ensures forall k :: 0 <= k < |r| ==> r[k].wire == column[k].wire && r[k].obstructed == column[k].obstructed
  {
    if |column| == 2 && column[0].obstructed && column[1].obstructed then
      if column[0].wire.toRow == column[1].wire.fromRow + 1 then
        [WithTracks(column[0], Outside, Middle, Outside), WithTracks(column[1], Inside, Inside, Middle)]
      else
        [WithTracks(column[0], Outside, Middle, Middle), WithTracks(column[1], Inside, Middle, Middle)]
    else
      seq(|column|, k requires 0 <= k < |column| => WithTracks(column[k], Middle, Middle, Middle))
  }

  /** Each wire of a column paired with whether it is obstructed. */
  ghost function Observe(circuit: Grid, column: int, wires: seq<ControlWire>): (r: seq<ObservedWire>)
    requires ColumnInRange(circuit, column)
    ensures |r| == |wires|
  {
    seq(|wires|, k requires 0 <= k < |wires| =>
      ObservedWire(wires[k], Obstructed(wires[k].fromRow, wires[k].toRow, column, circuit)))
  }

  ghost function RouteColumn(circuit: Grid, column: int, wires: seq<ControlWire>): seq<RoutedWire>
    requires ColumnInRange(circuit, column)
  {
    AssignTracks(SortByFromRow(Observe(circuit, column, wires)))
  }

  /** The routed wires of every column of the grid. */
  ghost function Route(circuit: Grid, blackBoxColumns: Option<BlackBoxColumns>): (r: seq<seq<RoutedWire>>)
    requires |circuit| > 0 && Drawable(circuit)
    ensures |r| == NumColumns(circuit)
  {
    seq(NumColumns(circuit), c requires 0 <= c < NumColumns(circuit) =>
      RouteColumn(circuit, c, Bucket(ControlWiresOf(circuit), blackBoxColumns, c)))
  }

  lemma AllControlWiresInGrid(circuit: Grid)
    requires |circuit| > 0 && Drawable(circuit)
    ensures forall w :: w in ControlWiresOf(circuit) ==>
      0 <= w.column < NumColumns(circuit) && 0 <= w.fromRow <= w.toRow < |circuit|
  {
    forall w | w in ControlWiresOf(circuit)
      ensures 0 <= w.column < NumColumns(circuit) && 0 <= w.fromRow <= w.toRow < |circuit|
    {
      ControlWiresInGrid(circuit, w);
    }
  }

  lemma BucketInGrid(circuit: Grid, blackBoxColumns: Option<BlackBoxColumns>, c: int)
    requires |circuit| > 0 && Drawable(circuit)
    ensures forall w :: w in Bucket(ControlWiresOf(circuit), blackBoxColumns, c) ==>
      0 <= w.fromRow <= w.toRow < |circuit|
  {
    AllControlWiresInGrid(circuit);
    forall w | w in Bucket(ControlWiresOf(circuit), blackBoxColumns, c)
      ensures 0 <= w.fromRow <= w.toRow < |circuit|
    {
      BucketMembership(ControlWiresOf(circuit), blackBoxColumns, c, w);
    }
  }

  /** Observes, in order, whether each wire of `column` is obstructed. */
  method ObserveColumn(circuit: Grid, column: int, columnWires: seq<ControlWire>)
    returns (observed: seq<ObservedWire>)
    requires ColumnInRange(circuit, column)
    requires forall w :: w in columnWires ==> -1 <= w.fromRow && w.toRow <= |circuit|
    ensures observed == Observe(circuit, column, columnWires)
  {
    observed := [];
    var k := 0;
    while k < |columnWires|
      invariant k <= |columnWires| && |observed| == k
      invariant forall n :: 0 <= n < k ==> observed[n] == Observe(circuit, column, columnWires)[n]
    {
      var wire := columnWires[k];
      var obstructed := IsControlWireObstructed(wire.fromRow, wire.toRow, column, circuit);
      observed := observed + [ObservedWire(wire, obstructed)];
      k := k + 1;
    }
  }

  /** Observes, sorts and assigns tracks to the wires of one column. */
  method RouteColumnWires(circuit: Grid, columnIndex: int, columnWires: seq<ControlWire>)
    returns (joggedColumn: seq<RoutedWire>)
    requires ColumnInRange(circuit, columnIndex)
    requires forall w :: w in columnWires ==> 0 <= w.fromRow <= w.toRow < |circuit|
    ensures joggedColumn == RouteColumn(circuit, columnIndex, columnWires)
  {
    var observed := ObserveColumn(circuit, columnIndex, columnWires);
    joggedColumn := AssignTracks(SortByFromRow(observed));
  }

  /** Routing every column's bucket gives the routed grid. */
  lemma RouteFromBuckets(circuit: Grid, blackBoxColumns: Option<BlackBoxColumns>,
                         buckets: seq<seq<ControlWire>>, routed: seq<seq<RoutedWire>>)
    requires |circuit| > 0 && Drawable(circuit)
    requires |buckets| == |routed| == NumColumns(circuit)
    requires forall c :: 0 <= c < |buckets| ==> buckets[c] == Bucket(ControlWiresOf(circuit), blackBoxColumns, c)
    requires forall c :: 0 <= c < |routed| ==> routed[c] == RouteColumn(circuit, c, buckets[c])
    ensures routed == Route(circuit, blackBoxColumns)
  {
  }

  /** Routes each column's bucket in turn, left to right. */
  method RouteBuckets(circuit: Grid, wiresByColumn: seq<seq<ControlWire>>)
    returns (joggedWiresByColumn: seq<seq<RoutedWire>>)
    requires forall c :: 0 <= c < |wiresByColumn| ==> ColumnInRange(circuit, c)
    requires forall c, w :: 0 <= c < |wiresByColumn| && w in wiresByColumn[c] ==> 0 <= w.fromRow <= w.toRow < |circuit|
    ensures |joggedWiresByColumn| == |wiresByColumn|
    ensures forall c :: 0 <= c < |wiresByColumn| ==> joggedWiresByColumn[c] == RouteColumn(circuit, c, wiresByColumn[c])
  {
    joggedWiresByColumn := [];
    var columnIndex := 0;
    while columnIndex < |wiresByColumn|
      invariant columnIndex <= |wiresByColumn| && |joggedWiresByColumn| == columnIndex
      invariant forall n :: 0 <= n < columnIndex ==>
        joggedWiresByColumn[n] == RouteColumn(circuit, n, wiresByColumn[n])
    {
      var joggedColumn := RouteColumnWires(circuit, columnIndex, wiresByColumn[columnIndex]);
      joggedWiresByColumn := joggedWiresByColumn + [joggedColumn];
      columnIndex := columnIndex + 1;
    }
  }

  method ControlWires(circuit: Grid, blackBoxColumns: Option<BlackBoxColumns>)
    returns (joggedWiresByColumn: seq<seq<RoutedWire>>)
    requires |circuit| > 0 && Drawable(circuit)
    ensures joggedWiresByColumn == Route(circuit, blackBoxColumns)
  {
    var controlWires := GetControlWires(circuit);
    AllControlWiresInGrid(circuit);
    var columns := NumColumns(circuit);
    var wiresByColumn := GroupByColumn(controlWires, columns, blackBoxColumns);
    forall c | 0 <= c < columns
      ensures ColumnInRange(circuit, c)
      ensures forall w: ControlWire :: w in wiresByColumn[c] ==> 0 <= w.fromRow <= w.toRow < |circuit|
    {
      BucketInGrid(circuit, blackBoxColumns, c);
    }
    joggedWiresByColumn := RouteBuckets(circuit, wiresByColumn);
    RouteFromBuckets(circuit, blackBoxColumns, wiresByColumn, joggedWiresByColumn);
  }

  /** A permutation holds the same wires. */
  lemma PermutedWires(a: seq<ObservedWire>, b: seq<ObservedWire>, w: ControlWire)
    requires multiset(a) == multiset(b)
    ensures (exists k :: 0 <= k < |b| && b[k].wire == w) <==> (exists n :: 0 <= n < |a| && a[n].wire == w)
  {
    if exists k :: 0 <= k < |b| && b[k].wire == w {
      var k :| 0 <= k < |b| && b[k].wire == w;
      assert b[k] in multiset(a);
    }
    if exists n :: 0 <= n < |a| && a[n].wire == w {
      var n :| 0 <= n < |a| && a[n].wire == w;
      assert a[n] in multiset(b);
    }
  }

  /** A permutation of observed wires keeps every flag right. */
  lemma PermutedFlags(circuit: Grid, c: int, wires: seq<ControlWire>, b: seq<ObservedWire>)
    requires ColumnInRange(circuit, c) && multiset(Observe(circuit, c, wires)) == multiset(b)
    ensures forall k :: 0 <= k < |b| ==> b[k].obstructed == Obstructed(b[k].wire.fromRow, b[k].wire.toRow, c, circuit)
  {
    forall k | 0 <= k < |b|
      ensures b[k].obstructed == Obstructed(b[k].wire.fromRow, b[k].wire.toRow, c, circuit)
    {
      assert b[k] in multiset(Observe(circuit, c, wires));
    }
  }

  /** Routing a column keeps its wires, each with its own flag, in order
      of their upper end. */
  lemma RouteColumnFacts(circuit: Grid, c: int, wires: seq<ControlWire>)
    requires ColumnInRange(circuit, c)
    ensures var r := RouteColumn(circuit, c, wires);
      && (forall i, j :: 0 <= i < j < |r| ==> r[i].wire.fromRow <= r[j].wire.fromRow)
      && (forall k :: 0 <= k < |r| ==>
            r[k].obstructed == Obstructed(r[k].wire.fromRow, r[k].wire.toRow, c, circuit))
      && (forall w :: (exists k :: 0 <= k < |r| && r[k].wire == w) <==> w in wires)
  {
    var observed := Observe(circuit, c, wires);
    var sorted := SortByFromRow(observed);
    var r := RouteColumn(circuit, c, wires);
    PermutedFlags(circuit, c, wires, sorted);
    forall w
      ensures (exists k :: 0 <= k < |r| && r[k].wire == w) <==> w in wires
    {
      PermutedWires(observed, sorted, w);
      if w in wires {
        var n :| 0 <= n < |wires| && wires[n] == w;
        assert observed[n].wire == w;
      }
      assert (exists k :: 0 <= k < |r| && r[k].wire == w) <==> (exists k :: 0 <= k < |sorted| && sorted[k].wire == w);
    }
  }

  /** A column's routed wires are the drawn wires of that column, each
      once, ordered by their upper end, each knowing whether it must detour. */
  lemma RouteColumnContents(circuit: Grid, blackBoxColumns: Option<BlackBoxColumns>, c: nat)
    requires |circuit| > 0 && Drawable(circuit) && c < NumColumns(circuit)
    ensures var r := Route(circuit, blackBoxColumns)[c];
      && (forall i, j :: 0 <= i < j < |r| ==> r[i].wire.fromRow <= r[j].wire.fromRow)
      && (forall k :: 0 <= k < |r| ==>
            r[k].obstructed == Obstructed(r[k].wire.fromRow, r[k].wire.toRow, c, circuit))
      && (forall w :: (exists k :: 0 <= k < |r| && r[k].wire == w) <==>
            WireOf(w, circuit) && w.column == c && !InBlackBox(c, blackBoxColumns))
  {
    var bucket := Bucket(ControlWiresOf(circuit), blackBoxColumns, c);
    var r := Route(circuit, blackBoxColumns)[c];
    assert r == RouteColumn(circuit, c, bucket);
    RouteColumnFacts(circuit, c, bucket);
    forall w
      ensures (exists k :: 0 <= k < |r| && r[k].wire == w) <==>
        WireOf(w, circuit) && w.column == c && !InBlackBox(c, blackBoxColumns)
    {
      BucketMembership(ControlWiresOf(circuit), blackBoxColumns, c, w);
      ControlWiresMembership(circuit, w);
    }
  }

  // ---------------------------------------------------------------------
  // Wires of a consistent grid do not share rows

  ghost predicate Distinct<T>(s: seq<T>) {
    forall a, b :: 0 <= a < b < |s| ==> s[a] != s[b]
  }

  lemma {:induction false} RowWiresDistinct(circuit: Grid, i: nat, j: nat)
    requires i < |circuit| && Rectangular(circuit)
    ensures Distinct(RowWires(circuit, i, j))
    decreases |circuit[i]| - j
  {
    if j < NumColumns(circuit) {
      RowWiresDistinct(circuit, i, j + 1);
      forall w | w in RowWires(circuit, i, j + 1)
        ensures w.column > j
      {
        RowWiresMembership(circuit, i, j + 1, w);
      }
    }
  }

  lemma DistinctConcat<T>(s: seq<T>, t: seq<T>)
    requires Distinct(s) && Distinct(t) && forall x :: x in s ==> x !in t
    ensures Distinct(s + t)
  {
    forall a, b | 0 <= a < b < |s + t|
      ensures (s + t)[a] != (s + t)[b]
    {
      if a < |s| && b >= |s| {
        assert (s + t)[a] in s && (s + t)[b] in t;
      }
    }
  }

  /** A control gate's wire differs from the wire of any gate in a lower row. */
  lemma WireDiffersFromLowerRow(circuit: Grid, i: nat, k: nat, p: nat, k2: nat)
    requires CircuitProperties.Consistent(circuit)
    requires i < p < |circuit| && k < |circuit[i]| && k2 < |circuit[p]|
    requires circuit[i][k].Pair? && circuit[p][k2].Pair?
    ensures WireAt(circuit, i, k) != WireAt(circuit, p, k2)
  {
    if k == k2 {
      PairWiresHaveDifferentEnds(circuit, i, p, k);
    }
  }

  /** A wire of row `i` is not again a wire of a later row. */
  lemma RowWireNotBelow(circuit: Grid, i: nat, w: ControlWire)
    requires CircuitProperties.Consistent(circuit) && i < |circuit| && w in RowWires(circuit, i, 0)
    ensures w !in WiresFrom(circuit, i + 1)
  {
    RowWiresMembership(circuit, i, 0, w);
    WiresFromMembership(circuit, i + 1, w);
    var k :| 0 <= k < |circuit[i]| && circuit[i][k].Pair? && w == WireAt(circuit, i, k);
    forall p, k2 | i + 1 <= p < |circuit| && 0 <= k2 < |circuit[p]| && circuit[p][k2].Pair?
      ensures w != WireAt(circuit, p, k2)
    {
      WireDiffersFromLowerRow(circuit, i, k, p, k2);
    }
  }

  lemma {:induction false} WiresFromDistinct(circuit: Grid, i: nat)
    requires CircuitProperties.Consistent(circuit)
    ensures Distinct(WiresFrom(circuit, i))
    decreases |circuit| - i
  {
    if i < |circuit| {
      RowWiresDistinct(circuit, i, 0);
      WiresFromDistinct(circuit, i + 1);
      forall w | w in RowWires(circuit, i, 0)
        ensures w !in WiresFrom(circuit, i + 1)
      {
        RowWireNotBelow(circuit, i, w);
      }
      DistinctConcat(RowWires(circuit, i, 0), WiresFrom(circuit, i + 1));
    }
  }

  /** A consistent grid has one wire per control gate and no two alike. */
  lemma ControlWiresDistinct(circuit: Grid)
    requires CircuitProperties.Consistent(circuit)
    ensures Distinct(ControlWiresOf(circuit))
  {
    WiresFromDistinct(circuit, 0);
  }

  lemma {:induction false} BucketDistinct(wires: seq<ControlWire>, blackBoxColumns: Option<BlackBoxColumns>, column: int)
    requires Distinct(wires)
    ensures Distinct(Bucket(wires, blackBoxColumns, column))
  {
    if wires != [] {
      var init := wires[..|wires| - 1];
      BucketDistinct(init, blackBoxColumns, column);
      BucketMembership(init, blackBoxColumns, column, wires[|wires| - 1]);
    }
  }

  /** Two control gates of one column of a consistent grid touch four
      different rows. */
  lemma PairsInColumnShareNoRow(circuit: Grid, i1: nat, i2: nat, j: nat)
    requires CircuitProperties.Consistent(circuit)
    requires i1 < |circuit| && i2 < |circuit| && i1 != i2 && j < |circuit[i1]| && j < |circuit[i2]|
    requires circuit[i1][j].Pair? && circuit[i2][j].Pair?
    ensures circuit[i1][j].actionRow != circuit[i2][j].actionRow
    ensures circuit[i1][j].actionRow != i2 && circuit[i2][j].actionRow != i1
  {
    var a1, a2 := circuit[i1][j].actionRow, circuit[i2][j].actionRow;
    assert 0 <= a1 < |circuit| && circuit[a1][j] == Empty;
    assert 0 <= a2 < |circuit| && circuit[a2][j] == Empty;
  }

  /** Two wires, each joining its own pair of rows, with no row shared. */
  lemma EndsOfRowDisjointWires(w1: ControlWire, w2: ControlWire, i1: int, a1: int, i2: int, a2: int)
    requires (w1.fromRow == i1 && w1.toRow == a1) || (w1.fromRow == a1 && w1.toRow == i1)
    requires (w2.fromRow == i2 && w2.toRow == a2) || (w2.fromRow == a2 && w2.toRow == i2)
    requires i1 != i2 && a1 != a2 && a1 != i2 && a2 != i1
    ensures w1.fromRow != w2.fromRow && w1.fromRow != w2.toRow
    ensures w1.toRow != w2.fromRow && w1.toRow != w2.toRow
  {
  }

  /** The wires of two control gates of one column share no row. */
  lemma PairWiresHaveDifferentEnds(circuit: Grid, i1: nat, i2: nat, j: nat)
    requires CircuitProperties.Consistent(circuit)
    requires i1 < |circuit| && i2 < |circuit| && i1 != i2 && j < |circuit[i1]| && j < |circuit[i2]|
    requires circuit[i1][j].Pair? && circuit[i2][j].Pair?
    ensures var w1, w2 := WireAt(circuit, i1, j), WireAt(circuit, i2, j);
      && w1.fromRow != w2.fromRow && w1.fromRow != w2.toRow
      && w1.toRow != w2.fromRow && w1.toRow != w2.toRow
  {
    PairsInColumnShareNoRow(circuit, i1, i2, j);
    EndsOfRowDisjointWires(WireAt(circuit, i1, j), WireAt(circuit, i2, j),
      i1, circuit[i1][j].actionRow, i2, circuit[i2][j].actionRow);
  }

  /** Two different wires of one column of a consistent grid have four
      different ends. */
  lemma DifferentWiresHaveDifferentEnds(circuit: Grid, w1: ControlWire, w2: ControlWire)
    requires CircuitProperties.Consistent(circuit)
    requires WireOf(w1, circuit) && WireOf(w2, circuit) && w1.column == w2.column && w1 != w2
    ensures w1.fromRow != w2.fromRow && w1.fromRow != w2.toRow
    ensures w1.toRow != w2.fromRow && w1.toRow != w2.toRow
  {
    var i1, j1 :| 0 <= i1 < |circuit| && 0 <= j1 < |circuit[i1]| && circuit[i1][j1].Pair? && w1 == WireAt(circuit, i1, j1);
    var i2, j2 :| 0 <= i2 < |circuit| && 0 <= j2 < |circuit[i2]| && circuit[i2][j2].Pair? && w2 == WireAt(circuit, i2, j2);
    assert i1 == i2 ==> w1 == w2;
    if i1 != i2 {
      PairWiresHaveDifferentEnds(circuit, i1, i2, j1);
    }
  }


  /** A wire with something between its ends spans at least two rows. */
  lemma ObstructedSpansTwoRows(fromRow: int, toRow: int, column: int, circuit: Grid)
    requires ColumnInRange(circuit, column) && Obstructed(fromRow, toRow, column, circuit)
    ensures toRow >= fromRow + 2
  {
  }

  /** Three control gates in one column of a consistent grid touch six
      different rows, so a grid of at most five rows holds at most two wires
      per column. */
  lemma ThreePairsNeedSixRows(circuit: Grid, i1: nat, i2: nat, i3: nat, j: nat)
    requires CircuitProperties.Consistent(circuit)
    requires i1 < |circuit| && i2 < |circuit| && i3 < |circuit| && i1 != i2 && i1 != i3 && i2 != i3
    requires j < |circuit[i1]| && j < |circuit[i2]| && j < |circuit[i3]|
    requires circuit[i1][j].Pair? && circuit[i2][j].Pair? && circuit[i3][j].Pair?
    ensures |circuit| >= 6
  {
    PairsInColumnShareNoRow(circuit, i1, i2, j);
    PairsInColumnShareNoRow(circuit, i1, i3, j);
    PairsInColumnShareNoRow(circuit, i2, i3, j);
    CircuitProperties.ConsistentHasNoSelfControl(circuit, i1, j);
    CircuitProperties.ConsistentHasNoSelfControl(circuit, i2, j);
    CircuitProperties.ConsistentHasNoSelfControl(circuit, i3, j);
  }

  /** A wire of a consistent grid runs between two of its rows. */
  lemma WireOfInRows(circuit: Grid, w: ControlWire)
    requires CircuitProperties.Consistent(circuit) && WireOf(w, circuit)
    ensures 0 <= w.fromRow < w.toRow < |circuit|
  {
    var i, j :| 0 <= i < |circuit| && 0 <= j < |circuit[i]| && circuit[i][j].Pair? && w == WireAt(circuit, i, j);
    CircuitProperties.ConsistentHasNoSelfControl(circuit, i, j);
  }

  /** With at most five rows, two obstructed wires of one column of a
      consistent grid overlap: an end of one lies strictly between the ends
      of the other. */
  lemma FiveRowDetoursOverlap(circuit: Grid, w1: ControlWire, w2: ControlWire)
    requires CircuitProperties.Consistent(circuit) && |circuit| <= 5
    requires WireOf(w1, circuit) && WireOf(w2, circuit) && w1.column == w2.column && w1 != w2
    requires ColumnInRange(circuit, w1.column)
    requires Obstructed(w1.fromRow, w1.toRow, w1.column, circuit) && Obstructed(w2.fromRow, w2.toRow, w2.column, circuit)
    ensures || w1.fromRow < w2.fromRow < w1.toRow || w1.fromRow < w2.toRow < w1.toRow
            || w2.fromRow < w1.fromRow < w2.toRow || w2.fromRow < w1.toRow < w2.toRow
  {
    DifferentWiresHaveDifferentEnds(circuit, w1, w2);
    WireOfInRows(circuit, w1);
    WireOfInRows(circuit, w2);
    ObstructedSpansTwoRows(w1.fromRow, w1.toRow, w1.column, circuit);
    ObstructedSpansTwoRows(w2.fromRow, w2.toRow, w2.column, circuit);
  }

  // ---------------------------------------------------------------------
  // Paths

  /** A drawing command of an SVG path, in absolute coordinates. */
  datatype PathCommand =
    | MoveTo(x: real, y: real)
    | LineTo(x: real, y: real)
    | VerticalTo(y: real)
    | HorizontalTo(x: real)
    | ArcTo(radius: real, sweep: bool, x: real, y: real)

  const CornerRadius: real := 4.0

  /** Where the pen is after drawing `c` from (x, y). */
  function PenAfter(c: PathCommand, x: real, y: real): (real, real) {
    match c
    case MoveTo(nx, ny) => (nx, ny)
    case LineTo(nx, ny) => (nx, ny)
    case VerticalTo(ny) => (x, ny)
    case HorizontalTo(nx) => (nx, y)
    case ArcTo(_, _, nx, ny) => (nx, ny)
  }

  /** The pen positions after each command of `path` from the `k`th on,
      the pen starting at (x, y). */
  function TraceFrom(path: seq<PathCommand>, k: nat, x: real, y: real): (t: seq<(real, real)>)
    requires k <= |path|
    ensures |t| == |path| - k
    decreases |path| - k
  {
    if k == |path| then []
    else
      var next := PenAfter(path[k], x, y);
      [next] + TraceFrom(path, k + 1, next.0, next.1)
  }

  /** The pen positions after each command of `path`, starting from (x, y). */
  function Trace(path: seq<PathCommand>, x: real, y: real): (t: seq<(real, real)>)
    ensures |t| == |path|
  {
    TraceFrom(path, 0, x, y)
  }


  /** The x of the centre line of a column. */
  function CenterLine(layout: Layout.LayoutState): real
    reads layout
    requires layout.Valid()
  {
    (layout.GateSize() as real) / 2.0
  }

  /** The x of a gutter track, in the spacing right of the gates. */
  function GutterX(layout: Layout.LayoutState, track: WireTrack): (x: real)
    reads layout
    requires layout.Valid()
    ensures layout.GateSize() as real < x < (layout.GateSize() + layout.HorizontalSpacing()) as real
  {
    layout.GateSize() as real + track.Fraction() * (layout.HorizontalSpacing() as real)
  }

  /** The y where a wire leaves the centre line, in the gap below `fromRow`. */
  function JogStartY(layout: Layout.LayoutState, fromRow: int, track: WireTrack): (y: real)
    reads layout
    requires layout.Valid()
    ensures RowCenter(layout, fromRow) + CenterLine(layout) < y < RowCenter(layout, fromRow + 1) - CenterLine(layout)
  {
    CenterOfRow(layout, fromRow) + (layout.GateSize() as real) / 2.0 + track.Fraction() * (Layout.VerticalSpacing as real)
  }

  /** The y where a wire rejoins the centre line, in the gap above `toRow`. */
  function JogEndY(layout: Layout.LayoutState, toRow: int, track: WireTrack): (y: real)
    reads layout
    requires layout.Valid()
    ensures y == JogStartY(layout, toRow - 1, track)
  {
    CenterOfRow(layout, toRow) - (layout.GateSize() as real) / 2.0 - (Layout.VerticalSpacing as real)
      + track.Fraction() * (Layout.VerticalSpacing as real)
  }

  /** Jog levels go down the gaps in order, and within a gap down the tracks. */
  lemma JogLevelsOrdered(layout: Layout.LayoutState, g1: int, t1: WireTrack, g2: int, t2: WireTrack)
    requires layout.Valid()
    ensures JogStartY(layout, g1, t1) < JogStartY(layout, g2, t2) <==>
      g1 < g2 || (g1 == g2 && t1.Fraction() < t2.Fraction())
  {
    var pitch := (layout.GateSize() + Layout.VerticalSpacing) as real;
    if g1 < g2 {
      assert (g2 - g1) as real * pitch >= pitch;
    } else if g2 < g1 {
      assert (g1 - g2) as real * pitch >= pitch;
    }
  }

  function ComputeStraightPath(layout: Layout.LayoutState, fromRow: int, toRow: int): (path: seq<PathCommand>)
    reads layout
    requires layout.Valid()
    ensures |path| == 2
    ensures Trace(path, 0.0, 0.0) == [(CenterLine(layout), RowCenter(layout, fromRow)), (CenterLine(layout), RowCenter(layout, toRow))]
  {
    var centerLine := (layout.GateSize() as real) / 2.0;
    var path := [MoveTo(centerLine, CenterOfRow(layout, fromRow)), LineTo(centerLine, CenterOfRow(layout, toRow))];
    assert TraceFrom(path, 1, centerLine, CenterOfRow(layout, fromRow)) == [(centerLine, CenterOfRow(layout, toRow))];
    path
  }

  /** The commands of a detour given its corner coordinates: the centre
      line, the gutter, the start and end rows and the two jog heights. */
  function JoggedCommands(xc: real, xg: real, ys: real, yjs: real, yje: real, ye: real): (path: seq<PathCommand>)
    ensures |path| == 10
  {
    var r := CornerRadius;
    [ MoveTo(xc, ys),
      VerticalTo(yjs - r),
      ArcTo(r, false, xc + r, yjs),
      HorizontalTo(xg - r),
      ArcTo(r, true, xg, yjs + r),
      VerticalTo(yje - r),
      ArcTo(r, true, xg - r, yje),
      HorizontalTo(xc + r),
      ArcTo(r, false, xc, yje + r),
      VerticalTo(ye) ]
  }

  /** The pen runs down the centre line to just above the first jog, turns
      out to the gutter, runs down it, turns back to the centre line and
      runs down to the end row. */
  lemma {:induction false} JoggedCommandsTrace(xc: real, xg: real, ys: real, yjs: real, yje: real, ye: real)
    ensures var r := CornerRadius;
      Trace(JoggedCommands(xc, xg, ys, yjs, yje, ye), 0.0, 0.0)
        == [(xc, ys), (xc, yjs - r), (xc + r, yjs), (xg - r, yjs), (xg, yjs + r),
            (xg, yje - r), (xg - r, yje), (xc + r, yje), (xc, yje + r), (xc, ye)]
  {
    var p := JoggedCommands(xc, xg, ys, yjs, yje, ye);
    var r := CornerRadius;
    assert TraceFrom(p, 10, xc, ye) == [];
    assert TraceFrom(p, 9, xc, yje + r) == [(xc, ye)];
    assert TraceFrom(p, 8, xc + r, yje) == [(xc, yje + r)] + TraceFrom(p, 9, xc, yje + r);
    assert TraceFrom(p, 7, xg - r, yje) == [(xc + r, yje)] + TraceFrom(p, 8, xc + r, yje);
    assert TraceFrom(p, 6, xg, yje - r) == [(xg - r, yje)] + TraceFrom(p, 7, xg - r, yje);
    assert TraceFrom(p, 5, xg, yjs + r) == [(xg, yje - r)] + TraceFrom(p, 6, xg, yje - r);
    assert TraceFrom(p, 4, xg - r, yjs) == [(xg, yjs + r)] + TraceFrom(p, 5, xg, yjs + r);
    assert TraceFrom(p, 3, xc + r, yjs) == [(xg - r, yjs)] + TraceFrom(p, 4, xg - r, yjs);
    assert TraceFrom(p, 2, xc, yjs - r) == [(xc + r, yjs)] + TraceFrom(p, 3, xc + r, yjs);
    assert TraceFrom(p, 1, xc, ys) == [(xc, yjs - r)] + TraceFrom(p, 2, xc, yjs - r);
    assert TraceFrom(p, 0, 0.0, 0.0) == [(xc, ys)] + TraceFrom(p, 1, xc, ys);
  }

  function ComputeJoggedPath(layout: Layout.LayoutState, fromRow: int, toRow: int,
                             gutterTrack: WireTrack, jogStartTrack: WireTrack, jogEndTrack: WireTrack): (path: seq<PathCommand>)
    reads layout
    requires layout.Valid()
    ensures var xc, xg := CenterLine(layout), GutterX(layout, gutterTrack);
      var ys, ye := RowCenter(layout, fromRow), RowCenter(layout, toRow);
      var yjs, yje := JogStartY(layout, fromRow, jogStartTrack), JogEndY(layout, toRow, jogEndTrack);
      var r := CornerRadius;
      Trace(path, 0.0, 0.0)
        == [(xc, ys), (xc, yjs - r), (xc + r, yjs), (xg - r, yjs), (xg, yjs + r),
            (xg, yje - r), (xg - r, yje), (xc + r, yje), (xc, yje + r), (xc, ye)]
  {
    var xCenterLine := (layout.GateSize() as real) / 2.0;
    var xGutter := GutterX(layout, gutterTrack);
    var yStart := CenterOfRow(layout, fromRow);
    var yJogStart := JogStartY(layout, fromRow, jogStartTrack);
    var yEnd := CenterOfRow(layout, toRow);
    var yJogEnd := JogEndY(layout, toRow, jogEndTrack);
    JoggedCommandsTrace(xCenterLine, xGutter, yStart, yJogStart, yJogEnd, yEnd);
    JoggedCommands(xCenterLine, xGutter, yStart, yJogStart, yJogEnd, yEnd)
  }

  /** A wire that detours over at least two rows only ever moves down, and
      stays between the centre line and its gutter, inside its column. */
  lemma JoggedPathMonotone(layout: Layout.LayoutState, fromRow: int, toRow: int,
                           gutterTrack: WireTrack, jogStartTrack: WireTrack, jogEndTrack: WireTrack)
    requires layout.Valid() && toRow >= fromRow + 2
    ensures var t := Trace(ComputeJoggedPath(layout, fromRow, toRow, gutterTrack, jogStartTrack, jogEndTrack), 0.0, 0.0);
      && (forall k :: 0 < k < |t| ==> t[k - 1].1 <= t[k].1)
      && (forall k :: 0 <= k < |t| ==> CenterLine(layout) <= t[k].0 <= GutterX(layout, gutterTrack))
  {
    var pitch := (layout.GateSize() + Layout.VerticalSpacing) as real;
    assert (toRow - 1 - fromRow) as real * pitch >= pitch;
    JogLevelsOrdered(layout, fromRow, jogStartTrack, toRow - 1, jogEndTrack);
  }

  /** The path of a routed wire: straight when nothing is in its way. Either
      way it joins the control row's centre to the action row's centre. */
  function WirePath(layout: Layout.LayoutState, w: RoutedWire): (path: seq<PathCommand>)
    reads layout
    requires layout.Valid()
    ensures var t := Trace(path, 0.0, 0.0);
      && |t| > 0
      && t[0] == (CenterLine(layout), RowCenter(layout, w.wire.fromRow))
      && t[|t| - 1] == (CenterLine(layout), RowCenter(layout, w.wire.toRow))
  {
    if !w.obstructed then ComputeStraightPath(layout, w.wire.fromRow, w.wire.toRow)
    else ComputeJoggedPath(layout, w.wire.fromRow, w.wire.toRow, w.gutterTrack, w.jogStartTrack, w.jogEndTrack)
  }

  /** The heights of the two horizontal runs of a detouring wire. */
  function JogLevels(layout: Layout.LayoutState, w: RoutedWire): set<real>
    reads layout
    requires layout.Valid()
  {
    {JogStartY(layout, w.wire.fromRow, w.jogStartTrack), JogEndY(layout, w.wire.toRow, w.jogEndTrack)}
  }

  /** When two detouring wires share a column and have four different ends,
      they run down different gutters and no horizontal run of one lies at
      the height of a horizontal run of the other. */
  lemma TwoDetoursSeparated(layout: Layout.LayoutState, column: seq<ObservedWire>)
    requires layout.Valid()
    requires |column| == 2 && column[0].obstructed && column[1].obstructed
    requires column[0].wire.fromRow <= column[1].wire.fromRow
    requires column[0].wire.toRow >= column[0].wire.fromRow + 2 && column[1].wire.toRow >= column[1].wire.fromRow + 2
    requires column[0].wire.fromRow != column[1].wire.fromRow && column[0].wire.fromRow != column[1].wire.toRow
    requires column[0].wire.toRow != column[1].wire.fromRow && column[0].wire.toRow != column[1].wire.toRow
    ensures var r := AssignTracks(column);
      && GutterX(layout, r[0].gutterTrack) != GutterX(layout, r[1].gutterTrack)
      && JogLevels(layout, r[0]) !! JogLevels(layout, r[1])
  {
    var r := AssignTracks(column);
    var top, bottom := r[0], r[1];
    TracksOrdered();
    JogLevelsOrdered(layout, top.wire.fromRow, top.jogStartTrack, bottom.wire.fromRow, bottom.jogStartTrack);
    JogLevelsOrdered(layout, top.wire.fromRow, top.jogStartTrack, bottom.wire.toRow - 1, bottom.jogEndTrack);
    JogLevelsOrdered(layout, top.wire.toRow - 1, top.jogEndTrack, bottom.wire.fromRow, bottom.jogStartTrack);
    JogLevelsOrdered(layout, bottom.wire.fromRow, bottom.jogStartTrack, top.wire.toRow - 1, top.jogEndTrack);
    JogLevelsOrdered(layout, top.wire.toRow - 1, top.jogEndTrack, bottom.wire.toRow - 1, bottom.jogEndTrack);
    JogLevelsOrdered(layout, bottom.wire.toRow - 1, bottom.jogEndTrack, top.wire.toRow - 1, top.jogEndTrack);
  }

  /** Without the offset, the upper wire would rejoin the centre line at the
      very height where the lower one leaves it. */
  lemma AdjacentDetoursCollideWithoutOffset(layout: Layout.LayoutState, top: ControlWire, bottom: ControlWire)
    requires layout.Valid() && top.toRow == bottom.fromRow + 1
    ensures JogEndY(layout, top.toRow, Middle) == JogStartY(layout, bottom.fromRow, Middle)
  {
  }

  /** Reordering two different wires keeps them different. */
  lemma TwoPermutedStayDifferent(a: seq<ObservedWire>, b: seq<ObservedWire>)
    requires |a| == 2 && multiset(a) == multiset(b) && a[0].wire != a[1].wire
    ensures |b| == 2 && b[0].wire != b[1].wire
  {
    assert |b| == |multiset(b)| == |multiset(a)| == 2;
    assert a == [a[0], a[1]] && b == [b[0], b[1]];
    assert multiset{b[0], b[1]} == multiset{a[0], a[1]};
  }

  /** A column routed with two wires holds two different wires of the grid. */
  lemma TwoRoutedWiresDiffer(circuit: Grid, blackBoxColumns: Option<BlackBoxColumns>, c: nat)
    requires |circuit| > 0 && CircuitProperties.Consistent(circuit) && c < NumColumns(circuit)
    ensures Drawable(circuit)
    ensures var r := Route(circuit, blackBoxColumns)[c];
      |r| == 2 ==> r[0].wire != r[1].wire
  {
    ConsistentIsDrawable(circuit);
    var bucket := Bucket(ControlWiresOf(circuit), blackBoxColumns, c);
    var observed := Observe(circuit, c, bucket);
    if |bucket| == 2 {
      ControlWiresDistinct(circuit);
      BucketDistinct(ControlWiresOf(circuit), blackBoxColumns, c);
      assert observed[0].wire == bucket[0] && observed[1].wire == bucket[1];
      TwoPermutedStayDifferent(observed, SortByFromRow(observed));
    }
  }

  /** In the routed columns of a consistent grid, two detouring wires in one
      column never share a gutter or the height of a horizontal run. */
  lemma RoutedDetoursSeparated(layout: Layout.LayoutState, circuit: Grid, blackBoxColumns: Option<BlackBoxColumns>, c: nat)
    requires layout.Valid() && |circuit| > 0 && CircuitProperties.Consistent(circuit) && c < NumColumns(circuit)
    ensures Drawable(circuit)
    ensures var r := Route(circuit, blackBoxColumns)[c];
      |r| == 2 && r[0].obstructed && r[1].obstructed ==>
        && GutterX(layout, r[0].gutterTrack) != GutterX(layout, r[1].gutterTrack)
        && JogLevels(layout, r[0]) !! JogLevels(layout, r[1])
  {
    ConsistentIsDrawable(circuit);
    var r := Route(circuit, blackBoxColumns)[c];
    var sorted := SortByFromRow(Observe(circuit, c, Bucket(ControlWiresOf(circuit), blackBoxColumns, c)));
    if |r| == 2 && r[0].obstructed && r[1].obstructed {
      TwoRoutedWiresDiffer(circuit, blackBoxColumns, c);
      RouteColumnContents(circuit, blackBoxColumns, c);
      var w0, w1 := r[0].wire, r[1].wire;
      assert WireOf(w0, circuit) && w0.column == c by {
        assert exists k :: 0 <= k < |r| && r[k].wire == w0;
      }
      assert WireOf(w1, circuit) && w1.column == c by {
        assert exists k :: 0 <= k < |r| && r[k].wire == w1;
      }
      DifferentWiresHaveDifferentEnds(circuit, w0, w1);
      ObstructedSpansTwoRows(w0.fromRow, w0.toRow, c, circuit);
      ObstructedSpansTwoRows(w1.fromRow, w1.toRow, c, circuit);
      TwoDetoursSeparated(layout, sorted);
    }
  }

  // ---------------------------------------------------------------------
  // Placing gates from the grid

  /** A control gate has been dropped; the grid waits for its action row. */
  datatype BinaryGateMode = BinaryGateMode(controlRow: nat, column: nat, actionGate: string)

  class CircuitGrid {
    /** The session whose grid this component shows and edits. */
    const handlers: QuantumCircuit.QuantumCircuit
    var binaryGateMode: Option<BinaryGateMode>

    constructor (handlers: QuantumCircuit.QuantumCircuit)
      ensures this.handlers == handlers && binaryGateMode == None
    {
      this.handlers := handlers;
      binaryGateMode := None;
    }

    /** Clears the cell the control gate was dropped on and waits for the
        action row. */
    method EnterBinaryGateMode(row: nat, column: nat, actionGate: string)
      requires handlers.Valid() && row < |handlers.circuit| && ColumnInRange(handlers.circuit, column)
      modifies this, handlers
      ensures handlers.Valid() && handlers.circuit == Removed(row, column, old(handlers.circuit))
      ensures old(CircuitProperties.Consistent(handlers.circuit)) ==> CircuitProperties.Consistent(handlers.circuit)
      ensures handlers.AfterUpdatePass(old(handlers.circuit))
      ensures binaryGateMode == Some(BinaryGateMode(row, column, actionGate))
    {
      handlers.RemoveGate(row, column);
      binaryGateMode := Some(BinaryGateMode(row, column, actionGate));
    }

    method ExitBinaryGateMode()
      modifies this
      ensures binaryGateMode == None
    {
      binaryGateMode := None;
    }

    /** Writes the pair into the control row once the action row is chosen.
        The overlay that offers the rows never offers the control row itself,
        so a consistent grid stays consistent. */
    method PlaceBinaryGatePair(mode: BinaryGateMode, actionRow: nat)
      requires handlers.Valid() && CanAdd(mode.controlRow, mode.column, Pair(mode.actionGate, actionRow), handlers.circuit)
      modifies this, handlers
      ensures handlers.Valid()
      ensures handlers.circuit == Added(mode.controlRow, mode.column, Pair(mode.actionGate, actionRow), old(handlers.circuit))
      ensures actionRow != mode.controlRow ==>
        && GetGateAt(mode.controlRow, mode.column, handlers.circuit) == Pair(mode.actionGate, actionRow)
        && GetGateAt(actionRow, mode.column, handlers.circuit) == Empty
      ensures old(CircuitProperties.Consistent(handlers.circuit)) && actionRow != mode.controlRow ==>
        CircuitProperties.Consistent(handlers.circuit)
      ensures handlers.AfterUpdatePass(old(handlers.circuit))
      ensures binaryGateMode == None
    {
      if actionRow != mode.controlRow {
        CircuitProperties.AddedPairCells(mode.controlRow, mode.column, mode.actionGate, actionRow, handlers.circuit);
      }
      var binaryGatePair := Pair(mode.actionGate, actionRow);
      handlers.AddGate(mode.controlRow, mode.column, binaryGatePair);
      ExitBinaryGateMode();
    }

    /** Picking a gate up removes it from the grid. */
    method OnCellBeginDrag(rowIndex: nat, columnIndex: nat)
      requires handlers.Valid() && rowIndex < |handlers.circuit| && ColumnInRange(handlers.circuit, columnIndex)
      modifies handlers
      ensures handlers.Valid() && handlers.circuit == Removed(rowIndex, columnIndex, old(handlers.circuit))
      ensures old(CircuitProperties.Consistent(handlers.circuit)) ==> CircuitProperties.Consistent(handlers.circuit)
      ensures handlers.AfterUpdatePass(old(handlers.circuit))
    {
      handlers.RemoveGate(rowIndex, columnIndex);
    }

    /** A binary gate dropped on a cell starts the choice of its action row;
        any other gate is placed at once. */
    method OnDropGateOnCell(rowIndex: nat, columnIndex: nat, droppedGate: string)
      requires handlers.Valid() && rowIndex < |handlers.circuit| && ColumnInRange(handlers.circuit, columnIndex)
      modifies this, handlers
      ensures handlers.Valid()
      ensures IsBinaryGateName(droppedGate) ==>
        && handlers.circuit == Removed(rowIndex, columnIndex, old(handlers.circuit))
        && binaryGateMode == Some(BinaryGateMode(rowIndex, columnIndex, droppedGate))
      ensures !IsBinaryGateName(droppedGate) ==>
        && handlers.circuit == Added(rowIndex, columnIndex, Name(droppedGate), old(handlers.circuit))
        && binaryGateMode == old(binaryGateMode)
      ensures old(CircuitProperties.Consistent(handlers.circuit)) ==> CircuitProperties.Consistent(handlers.circuit)
      ensures handlers.AfterUpdatePass(old(handlers.circuit))
    {
      if IsBinaryGateName(droppedGate) {
        EnterBinaryGateMode(rowIndex, columnIndex, droppedGate);
      } else {
        handlers.AddGate(rowIndex, columnIndex, Name(droppedGate));
      }
    }
  }
}

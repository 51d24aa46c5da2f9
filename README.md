# Quantum circuit grid — a Dafny model

This project models the grid logic of a drag-and-drop quantum circuit
editor. A circuit is a rectangular grid: one row per qubit and one column
per time step. A cell holds one of three things:

- a unary gate name (`H`, `X`, `Y`, `Z`, `S`, `T`, `R8`, `XH`);
- the empty marker `-`;
- a binary-gate pair `[gate, actionRow]`. The pair sits in the control row
  and names the row its action gate works on.

The model covers these parts of the editor:

- **Editing.** Placing and removing gates. Placing a gate also clears any
  control gate that acted on the cells it overwrites.
- **Configuration checks.** The checks run on a puzzle's configuration
  before it is shown.
- **Layout.** Picking a layout profile from the grid's size, and the
  geometry of rows, columns and wires.
- **Control wires.** Drawing the wires between control and action gates.
  A wire with something in its way takes a detour through a gutter next to
  the column. When two detouring wires share a column, they get separate
  tracks.
- **The puzzle session.** Starting circuit, saved user state, success
  states, reset and check answer, and the update pass React runs after
  each state change.

Grids are values (`seq<seq<Cell>>`). The source's state-holding components
are classes:

- `Layout.LayoutState` holds the selected layout profile.
- `QuantumCircuit.QuantumCircuit` holds the puzzle session.
- `CircuitGrid.CircuitGrid` holds the binary-gate placement mode.

Every loop of the source that updates variables step by step is a
method. Each one is proved equal to a specification function, and the
lemmas state the properties of those functions. The array callbacks that
only compute a value are functions: the sort of a column's wires
(`CircuitGrid.SortByFromRow`, for `joggedColumn.sort`) and the track
assignment (`CircuitGrid.AssignTracks`, for the `joggedColumn.map` that
sets the tracks).

Modules:

| module | file | models |
|---|---|---|
| `Wrappers` | wrappers.dfy | `Option` and `Result` |
| `Constants` | constants.dfy | `react/src/Constants.jsx` |
| `Layout` | layout.dfy | `react/src/Layout.jsx` |
| `Circuit` | circuit.dfy | `react/src/Circuit.jsx`: editing, queries, obstruction, centres |
| `CircuitProperties` | circuit_properties.dfy | what the editing operations keep, over `Circuit` |
| `CircuitValidation` | validation.dfy | `react/src/Circuit.jsx`: configuration checks |
| `QuantumCircuit` | quantum_circuit.dfy | `react/src/QuantumCircuit.jsx` |
| `CircuitGrid` | circuit_grid.dfy | `react/src/CircuitGrid.jsx` |

A grid is *consistent* (`CircuitProperties.Consistent`) when all of these
hold:

- it is rectangular;
- every pair's action row is in range;
- every pair's action cell is empty;
- no two pairs in a column share an action row.

Three facts about consistent grids are proved:

- Placing and removing gates keep a grid consistent.
- The drawn grid shows each pair as `CONTROL_g`, shows its action row as
  `ACTION_g`, and shows everything else as it is.
- When two detouring wires share a column, they never share a gutter or
  the height of a horizontal run.

## Model

| member | source | states |
|---|---|---|
| `Constants.Fraction` | react/src/Constants.jsx:16-20 | The inside, middle and outside wire tracks are the fractions 1/3, 1/2 and 2/3, each strictly between 0 and 1. |
| `Constants.Prefixed` | react/src/Constants.jsx:31-32 | The prefixed list has one entry per gate, in order, each being the prefix followed by the gate name. |
| `Constants.EmptyCellIsNoGate` | react/src/Constants.jsx:12-14 | The empty marker is neither a unary nor a binary gate. |
| `Constants.GateKindsDisjoint` | react/src/Constants.jsx:13-14 | No gate name is both unary and binary. |
| `Constants.PaletteIsUnaryThenBinary` | react/src/Constants.jsx:37 | A name is in the palette exactly when it is a unary or a binary gate. |
| `Constants.TracksOrdered` | react/src/Constants.jsx:16-20 | Inside < middle < outside, all strictly between 0 and 1. |
| `Constants.RenderableGatesMembership` | react/src/Constants.jsx:29-34 | A name is renderable exactly when it is a unary gate, `CONTROL_` or `ACTION_` followed by a binary gate, or the empty marker. |
| `Layout.ProfileFor` | react/src/Layout.jsx:60-72 | The large profile is chosen exactly for at most 3 rows and 4 columns; the medium one exactly for 4 rows (or fewer) and at most 4 columns when not large; the small one exactly for 5 columns otherwise; the extra-small one in every other case. |
| `Layout.ProfileBounds` | react/src/Layout.jsx:3-41 | Every profile has a gate size of at least 32 that is a multiple of 8, a horizontal spacing of 2 to 8, and a wire extension between the spacing and 16. |
| `Layout.FiveByFourIsExtraSmall` | react/src/Layout.jsx:63-71 | A 5×4 grid gets the extra-small profile and a 5×5 grid the small one. |
| `Layout.LayoutState.constructor` | react/src/Layout.jsx:43 | The small profile is selected initially. |
| `Layout.LayoutState.SetLayout` | react/src/Layout.jsx:60-72 | The selected profile becomes the profile for the given dimensions. |
| `Layout.LayoutState.GateSize` | react/src/Layout.jsx:47-49 | The gate size of the selected profile: at least 32, a multiple of 8. |
| `Layout.LayoutState.HorizontalSpacing` | react/src/Layout.jsx:50-52 | The horizontal spacing of the selected profile: between 2 and 8. |
| `Layout.LayoutState.WireExtension` | react/src/Layout.jsx:53-55 | The wire extension: at least the horizontal spacing, at most 16. |
| `Layout.LayoutState.PerQubitProbability` | react/src/Layout.jsx:56-58 | The probability style of the selected profile, font size 14 or 18. |
| `Circuit.IsBinaryGatePair` | react/src/Circuit.jsx:8-10 | A cell is a binary-gate pair exactly when it is not a gate name: `typeof cell !== 'string'` becomes "not `Name`". |
| `Circuit.IsBinaryGateName` | react/src/Circuit.jsx:12-14 | True exactly for `CX` and `CZ`; such a name is no unary gate and not the empty marker. |
| `Circuit.NumRows` | react/src/Circuit.jsx:41-43 | The number of rows of the grid. |
| `Circuit.NumColumns` | react/src/Circuit.jsx:37-39 | The first row's width; in a rectangular grid every row has it, and the columns in range are exactly the indices below it. |
| `Circuit.GetGateAt` | react/src/Circuit.jsx:104-106 | The cell at that row and column. |
| `Circuit.FirstControlFrom` | react/src/Circuit.jsx:57-65 | The result is the first row at or after `from` whose pair acts on `row`, or none when no such row exists. |
| `Circuit.RowThatControlsDeterminedByColumn` | react/src/Circuit.jsx:57-65 | The controller of a row depends only on which cells of the column control it. |
| `Circuit.SetCell` | react/src/Circuit.jsx:75-89 | Writing a cell changes that cell and no other, and keeps the shape. |
| `Circuit.Cleared` | react/src/Circuit.jsx:67-73 | Clearing empties exactly the first control gate of the column that acts on the row; everything else is kept. |
| `Circuit.CreateEmpty` | react/src/Circuit.jsx:26-35 | The grid has the requested number of rows and columns and every cell is the empty marker. |
| `Circuit.Clone` | react/src/Circuit.jsx:46-55 | Each row is copied up to the first row's width; a rectangular grid is copied exactly. |
| `Circuit.GetRowThatControls` | react/src/Circuit.jsx:57-65 | Returns the topmost row whose pair acts on `row`, or none. |
| `Circuit.ClearGateThatControls` | react/src/Circuit.jsx:67-73 | Returns the grid with that controller emptied. |
| `Circuit.AddUnaryGate` | react/src/Circuit.jsx:75-79 | Writes the gate, then clears the gate that controlled the row. |
| `Circuit.AddBinaryGatePair` | react/src/Circuit.jsx:81-89 | Clears the controllers of both rows, writes the pair, empties the action cell. |
| `Circuit.AddGate` | react/src/Circuit.jsx:91-98 | Dispatches on pair or name; the result is the specified placement. |
| `Circuit.IsActionGate` | react/src/Circuit.jsx:100-102 | True exactly when some control gate of the column acts on the row. |
| `Circuit.RemoveGate` | react/src/Circuit.jsx:108-113 | Empties the cell and clears the gate that controlled the row. |
| `Circuit.Lower` | react/src/Circuit.jsx:115-140 | The lower-case form has the length of the name, and each of its characters is the ASCII lower case of the name's character at the same place. |
| `Circuit.GetSimulatorGateName` | react/src/Circuit.jsx:115-140 | A palette gate maps to its lower-case name, which is never `id`; every other name maps to `id`. |
| `Circuit.IsQubitEntangledAfterColumn` | react/src/Circuit.jsx:170-180 | True exactly when some column up to and including `column` holds a pair in the row or a pair acting on it. |
| `Circuit.IsControlWireObstructed` | react/src/Circuit.jsx:362-374 | True exactly when some row strictly between the wire's ends is non-empty or is acted on. |
| `Circuit.ContainsJoggedWires` | react/src/Circuit.jsx:376-391 | True exactly when some pair of the column has an obstructed wire. |
| `Circuit.StepIncreasing` | react/src/Circuit.jsx:338-360 | Centres spaced by a positive step increase strictly with the index. |
| `Circuit.GetRowCenters` | react/src/Circuit.jsx:338-347 | One centre per row, at gate size/2 + i·(gate size + 8), strictly increasing. |
| `Circuit.GetColumnCenters` | react/src/Circuit.jsx:349-360 | One centre per column, past the wire extension, strictly increasing. |
| `CircuitProperties.GridsEqual` | react/src/Circuit.jsx:46-55 | Two grids with the same shape and the same cells are equal. |
| `CircuitProperties.ConsistentControllerIsUnique` | react/src/Circuit.jsx:57-65 | In a consistent grid the pair's action row is controlled by that pair and by nothing else. |
| `CircuitProperties.ConsistentHasAtMostOneControl` | react/src/Circuit.jsx:57-65 | A consistent grid has at most one controller per cell. |
| `CircuitProperties.ConsistentHasNoSelfControl` | react/src/Circuit.jsx:81-89 | No pair of a consistent grid acts on its own row. |
| `CircuitProperties.SetKeepsController` | react/src/Circuit.jsx:75-79 | Writing a non-pair into a cell that is not a controller keeps the column's controllers. |
| `CircuitProperties.SetThenClearCells` | react/src/Circuit.jsx:75-79 | Cellwise effect of writing a name and clearing the controller. |
| `CircuitProperties.AddedUnaryCells` | react/src/Circuit.jsx:75-79 | Placing a unary gate writes it, empties the row's controller and changes nothing else. |
| `CircuitProperties.PlacedGateReadsBack` | react/src/Circuit.jsx:91-106 | After `addGate`, `getGateAt` of the same cell returns the placed gate, unless it is a pair acting on its own row. |
| `CircuitProperties.EditsKeepDimensions` | react/src/Circuit.jsx:37-43 | Placing or removing a gate keeps `numRows` and `numColumns`, so the layout chosen from them still fits. |
| `CircuitProperties.RemovedCellIsEmpty` | react/src/Circuit.jsx:108-113 | After removal the cell is empty. |
| `CircuitProperties.RemovedCells` | react/src/Circuit.jsx:108-113 | Removal empties the cell and the row's controller and changes nothing else. |
| `CircuitProperties.ClearKeepsOtherController` | react/src/Circuit.jsx:81-89 | Clearing one row's controller leaves another row's controller in place. |
| `CircuitProperties.AddedPairCells` | react/src/Circuit.jsx:81-89 | Placing a pair writes it into the control row, empties the action row and the controllers of both rows, and changes nothing else. |
| `CircuitProperties.ConsistentWhenPairsSurvive` | react/src/Circuit.jsx:75-79 | A same-shape grid is consistent when each of its pairs is an old pair whose action cell is still empty. |
| `CircuitProperties.SetThenClearPairsSurvive` | react/src/Circuit.jsx:75-79 | After writing a name and clearing the controller, each remaining pair is an old one whose action cell is still empty. |
| `CircuitProperties.SetThenClearConsistent` | react/src/Circuit.jsx:75-79 | Writing a name and clearing the controller keeps a grid consistent. |
| `CircuitProperties.AddedUnaryConsistent` | react/src/Circuit.jsx:75-79 | Placing a unary gate keeps a grid consistent. |
| `CircuitProperties.RemovedConsistent` | react/src/Circuit.jsx:108-113 | Removing a gate keeps a grid consistent. |
| `CircuitProperties.AddedPairKeepsOldPairs` | react/src/Circuit.jsx:81-89 | Apart from the new pair, every pair after a binary placement is an old one, and in that column it acts on neither touched row. |
| `CircuitProperties.AddedPairActionsEmpty` | react/src/Circuit.jsx:81-89 | After a binary placement every control gate still acts on an empty cell of its column. |
| `CircuitProperties.AddedPairConsistent` | react/src/Circuit.jsx:81-89 | Placing a pair whose action row differs from its control row keeps a grid consistent. |
| `CircuitProperties.AddedConsistent` | react/src/Circuit.jsx:91-98 | `addGate` keeps a grid consistent. |
| `CircuitProperties.RemoveIdempotent` | react/src/Circuit.jsx:108-113 | Removing twice is removing once. |
| `CircuitProperties.RemoveUndoesUnaryAdd` | react/src/Circuit.jsx:75-79 | Placing a unary gate and removing it is the same as removing what was there. |
| `CircuitProperties.EntangledMonotone` | react/src/Circuit.jsx:170-180 | A row entangled after a column stays entangled after every later column. |
| `CircuitProperties.PlacedPairEntangles` | react/src/Circuit.jsx:170-180 | After a pair is placed, both its rows count as entangled after its column and every later one. |
| `CircuitValidation.FirstBadRow` | react/src/Circuit.jsx:223-231 | The first row whose length differs from the column count, or none when all match. |
| `CircuitValidation.NonEmptyCircuits` | react/src/Circuit.jsx:234-235 | Keeps, in order, the success circuits that have at least one row. |
| `CircuitValidation.SuccessShapeCheck` | react/src/Circuit.jsx:236-249 | A failure is a row-count or row-length mismatch of a success state at or after `from`. |
| `CircuitValidation.SizeCheck` | react/src/Circuit.jsx:208-251 | Any failure is a size error. |
| `CircuitValidation.ValidateUnaryGate` | react/src/Circuit.jsx:253-260 | Fails only with the unsupported-gate error. |
| `CircuitValidation.ValidateBinaryGatePair` | react/src/Circuit.jsx:262-290 | Any failure is a pair error, never the unary one. The checks come in the source's order: any failure other than the malformed one has two elements; an out-of-range action row or an occupied action cell comes only after the name was found binary; an occupied action cell only after the action row was found in range. |
| `CircuitValidation.ValidateCell` | react/src/Circuit.jsx:292-305 | Any failure is a cell error. |
| `CircuitValidation.CheckCellsFrom` | react/src/Circuit.jsx:292-305 | Any failure is a cell error. |
| `CircuitValidation.ValidateBlackBox` | react/src/Circuit.jsx:307-325 | Passes exactly when 0 ≤ start ≤ end < column count; any failure is a black-box error. An end out of range is reported only after the start was found in range, and an end before the start only after both were. |
| `CircuitValidation.FindBadRow` | react/src/Circuit.jsx:223-231 | The row loop stops at the first row whose length is not the configured column count. |
| `CircuitValidation.FilterNonEmpty` | react/src/Circuit.jsx:234-235 | The filter keeps, in order, the success circuits that have rows. |
| `CircuitValidation.CheckSuccessShapes` | react/src/Circuit.jsx:236-249 | The forEach loop reports the first success circuit of the wrong shape, counting only the kept circuits. |
| `CircuitValidation.ValidateCircuitSize` | react/src/Circuit.jsx:208-251 | The checks, in source order, compute the size check. |
| `CircuitValidation.ValidateCircuit` | react/src/Circuit.jsx:292-305 | The loops compute the cell check. |
| `CircuitValidation.ValidateConfiguration` | react/src/Circuit.jsx:327-335 | Computes the configuration check. |
| `CircuitValidation.ValidateCellPass` | react/src/Circuit.jsx:253-290 | A cell passes exactly when it is acceptable. |
| `CircuitValidation.CheckCellsFromPass` | react/src/Circuit.jsx:292-305 | The scan passes exactly when every remaining cell is acceptable. |
| `CircuitValidation.CheckCellsFromFirstFailure` | react/src/Circuit.jsx:292-305 | The scan reports the first failing cell in row-major order. |
| `CircuitValidation.CheckCellsReportsFirstFailure` | react/src/Circuit.jsx:292-305 | The cell check reports the first failing cell. |
| `CircuitValidation.SuccessShapeCheckPass` | react/src/Circuit.jsx:233-250 | The success-state check passes exactly when every remaining circuit has the configured shape. |
| `CircuitValidation.ConfigurationCheckPass` | react/src/Circuit.jsx:327-335 | The configuration check passes exactly when all of these hold: the sizes are in range; the starting and success circuits have the configured shape; every cell is acceptable; the black box lies within the columns. |
| `CircuitValidation.ConfigurationErrorOrder` | react/src/Circuit.jsx:208-335 | Errors come in check order: rows, columns, the starting circuit's row count before its row widths, the starting shape before either success-shape error, then cells, then the black box. |
| `CircuitValidation.DecodeGrid` | react/src/Circuit.jsx:262-290 | Decoding keeps the shape and decodes cell by cell. |
| `CircuitValidation.ValidStartingCircuit` | react/src/Circuit.jsx:327-335 | A starting circuit that passes decodes to a rectangular grid with these cells: names are empty or unary gates; pairs hold binary gates; each action row is in range and its cell is empty. |
| `CircuitValidation.ExampleConfigurations` | react/src/Circuit.jsx:208-232 | An empty 5×6 configuration passes. Zero rows fails on the row count. Three starting rows for two fails on the row mismatch. |
| `CircuitValidation.MalformedReportedFirst` | react/src/Circuit.jsx:263-268 | A pair of the wrong length is reported as malformed. |
| `CircuitValidation.SharedActionRowPasses` | react/src/Circuit.jsx:262-290 | Two pairs acting on the same row pass the checks. |
| `QuantumCircuit.CompareCircuits` | react/src/QuantumCircuit.jsx:23-25 | Two grids compare equal exactly when they have the same rows, row by row. |
| `QuantumCircuit.UserStateAcceptedIff` | react/src/QuantumCircuit.jsx:65-92 | A saved user state is accepted exactly when its dimensions match the starting circuit and every cell is empty or an allowed gate. |
| `QuantumCircuit.SavedR8RefusedAsWritten` | react/src/QuantumCircuit.jsx:77-81 | A saved `R8` with every palette gate allowed is refused as written, but accepted by the corrected check. |
| `QuantumCircuit.SavedXHAcceptedAsWritten` | react/src/QuantumCircuit.jsx:77-81 | A saved `XH` with only `X` allowed is accepted as written, but refused by the corrected check. |
| `QuantumCircuit.AsWrittenAgreesWithoutTwoLetterNames` | react/src/QuantumCircuit.jsx:65-92 | Without two-letter gate names the written check and the corrected one agree. |
| `QuantumCircuit.ValidateUserState` | react/src/QuantumCircuit.jsx:65-92 | The loops compute the corrected acceptance of the saved user state. |
| `QuantumCircuit.SolvableTypeOf` | react/src/QuantumCircuit.jsx:46 | The given puzzle type, or `submittable` when none is given. |
| `QuantumCircuit.QuantumCircuit.constructor` | react/src/QuantumCircuit.jsx:28-57 | Stores the props, the grid and the layout, and starts with no puzzle state. |
| `QuantumCircuit.QuantumCircuit.IsUnchanged` | react/src/QuantumCircuit.jsx:94-96 | True exactly when the grid equals the starting circuit. |
| `QuantumCircuit.QuantumCircuit.IsSolved` | react/src/QuantumCircuit.jsx:98-107 | True exactly when the grid equals some success state's circuit. |
| `QuantumCircuit.QuantumCircuit.AddGate` | react/src/QuantumCircuit.jsx:203-208 | The grid becomes the placement result; consistency is kept when the pair's action row differs from its control row. The update pass then runs as `ComponentDidUpdate` states, with the old grid as the previous one. |
| `QuantumCircuit.QuantumCircuit.RemoveGate` | react/src/QuantumCircuit.jsx:210-215 | The grid becomes the removal result; consistency is kept. The update pass then runs as `ComponentDidUpdate` states, with the old grid as the previous one. |
| `QuantumCircuit.QuantumCircuit.ResetPressed` | react/src/QuantumCircuit.jsx:109-113 | The grid is the starting circuit again. The update pass then runs as `ComponentDidUpdate` states, with the old grid as the previous one. |
| `QuantumCircuit.QuantumCircuit.CheckAnswerPressed` | react/src/QuantumCircuit.jsx:115-120 | Only for the submittable type: the solved and guessed-wrong flags are set from the success states, the container shows them, and the state is saved with the new flags and the verdict. For any other type nothing changes. |
| `QuantumCircuit.QuantumCircuit.ComponentDidUpdate` | react/src/QuantumCircuit.jsx:146-161 | The container is refreshed for a puzzle. When the grid changed: an auto-check puzzle saves its state, with the solved flag from before the pass and the verdict, and becomes solved when the grid is a success state; a submittable puzzle saves its state without a verdict. Grid, puzzle type and guessed-wrong flag are kept. These effects together are the predicate `AfterUpdatePass`. |
| `QuantumCircuit.QuantumCircuit.UpdateSolvableContainer` | react/src/QuantumCircuit.jsx:122-144 | The caption follows solved, then guessed wrong, then the default. Reset, and submit for the submittable type, are enabled exactly when the grid changed. |
| `QuantumCircuit.Create` | react/src/QuantumCircuit.jsx:28-57 | Fails exactly for an empty initial circuit, or for a puzzle without success states. The layout is set from the initial circuit before the second failure. On success the session holds the validated user circuit or the starting one, with the initial puzzle state. |
| `CircuitGrid.TotalCircuitWidth` | react/src/CircuitGrid.jsx:21-28 | The width reaches half a gate and one wire extension past the last column's centre. |
| `CircuitGrid.TotalCircuitHeight` | react/src/CircuitGrid.jsx:30-32 | The height reaches half a gate past the last row's centre. |
| `CircuitGrid.CenterOfRow` | react/src/CircuitGrid.jsx:34-39 | Agrees with the row centres of `getRowCenters`. |
| `CircuitGrid.Rendered` | react/src/CircuitGrid.jsx:41-55 | The drawn grid has the shape of the circuit. |
| `CircuitGrid.RenderedConsistent` | react/src/CircuitGrid.jsx:41-55 | In a consistent grid each pair is drawn as `CONTROL_g`, its action row as `ACTION_g`, and every other cell as it is. |
| `CircuitGrid.RenderedNamesAreRenderable` | react/src/CircuitGrid.jsx:41-55 | A consistent grid of palette gates is drawn with renderable names only. |
| `CircuitGrid.ConvertToRenderable` | react/src/CircuitGrid.jsx:41-55 | The loops compute the drawn grid. |
| `CircuitGrid.WireAt` | react/src/CircuitGrid.jsx:63-68 | A wire lies in the pair's column and runs from the upper to the lower of its two rows. |
| `CircuitGrid.ControlWiresMembership` | react/src/CircuitGrid.jsx:57-73 | The wires found are exactly the wires of the grid's pairs. |
| `CircuitGrid.ControlWiresInGrid` | react/src/CircuitGrid.jsx:57-73 | Every wire lies in a column of the grid and runs downwards between rows of it. |
| `CircuitGrid.ControlWiresDistinct` | react/src/CircuitGrid.jsx:57-73 | A consistent grid yields no wire twice. |
| `CircuitGrid.GetControlWires` | react/src/CircuitGrid.jsx:57-73 | The loops list the wires in row-major order. |
| `CircuitGrid.BucketMembership` | react/src/CircuitGrid.jsx:208-216 | A column's bucket holds exactly the wires of that column outside the black box. |
| `CircuitGrid.GroupByColumn` | react/src/CircuitGrid.jsx:204-216 | One bucket per column, each equal to that column's wires in their order. |
| `CircuitGrid.ObserveColumn` | react/src/CircuitGrid.jsx:219-226 | The `columnWires.map` gives each wire of the column its obstruction flag, in order; the loop equals `Observe`. |
| `CircuitGrid.RouteColumnWires` | react/src/CircuitGrid.jsx:218-262 | The per-column callback: observe, sort by upper row, assign tracks; it equals `RouteColumn`. |
| `CircuitGrid.Insert` | react/src/CircuitGrid.jsx:229 | Inserting adds exactly one copy of the wire, which lands either at the head or behind the old head. |
| `CircuitGrid.InsertSorted` | react/src/CircuitGrid.jsx:229 | Inserting into a column sorted by upper row keeps it sorted. |
| `CircuitGrid.SortByFromRow` | react/src/CircuitGrid.jsx:229 | The sorted column is a permutation of the column, ordered by upper row. |
| `CircuitGrid.AssignTracks` | react/src/CircuitGrid.jsx:233-261 | Tracks are assigned wire by wire, keeping each wire and its obstruction flag. |
| `CircuitGrid.RouteColumnFacts` | react/src/CircuitGrid.jsx:218-261 | Routing one column keeps exactly its wires, sorted by upper row, each with its own obstruction flag. |
| `CircuitGrid.RouteBuckets` | react/src/CircuitGrid.jsx:217-263 | The column loop routes every bucket in turn. |
| `CircuitGrid.ControlWires` | react/src/CircuitGrid.jsx:202-265 | The component computes the routed wires of every column. |
| `CircuitGrid.RouteColumnContents` | react/src/CircuitGrid.jsx:202-265 | A column's routed wires are sorted by upper row and carry the right obstruction flag. They are exactly the pair wires of that column, and none if the column is in the black box. |
| `CircuitGrid.PairWiresHaveDifferentEnds` | react/src/CircuitGrid.jsx:230-232 | The wires of two control gates in one column of a consistent grid share no row. |
| `CircuitGrid.DifferentWiresHaveDifferentEnds` | react/src/CircuitGrid.jsx:230-232 | Two different wires of one column of a consistent grid have four different ends. |
| `CircuitGrid.ThreePairsNeedSixRows` | react/src/CircuitGrid.jsx:229-231 | Three control gates in one column of a consistent grid need six rows, so with at most five rows a column holds at most two wires. |
| `CircuitGrid.WireOfInRows` | react/src/CircuitGrid.jsx:57-73 | A wire of a consistent grid runs downwards between two rows of the grid. |
| `CircuitGrid.FiveRowDetoursOverlap` | react/src/CircuitGrid.jsx:229-231 | With at most five rows, two obstructed wires of one column overlap: an end of one lies strictly between the ends of the other. |
| `CircuitGrid.GutterX` | react/src/CircuitGrid.jsx:91 | A gutter lies strictly inside the spacing right of the gate. |
| `CircuitGrid.JogStartY` | react/src/CircuitGrid.jsx:93-96 | The first jog lies strictly inside the gap below the start row. |
| `CircuitGrid.JogEndY` | react/src/CircuitGrid.jsx:97-101 | The last jog lies in the gap above the end row, at the height a first jog would have in that gap. |
| `CircuitGrid.JogLevelsOrdered` | react/src/CircuitGrid.jsx:93-101 | Jog heights are ordered by gap first and by track second. |
| `CircuitGrid.ComputeStraightPath` | react/src/CircuitGrid.jsx:75-81 | The straight path runs from the start row's centre to the end row's centre on the centre line. |
| `CircuitGrid.JoggedCommandsTrace` | react/src/CircuitGrid.jsx:104-122 | The pen visits these points in order: the centre line, a corner, the gutter, a corner, and back to the centre line. |
| `CircuitGrid.ComputeJoggedPath` | react/src/CircuitGrid.jsx:83-123 | The detour's pen positions, from the start row's centre to the end row's centre. |
| `CircuitGrid.JoggedPathMonotone` | react/src/CircuitGrid.jsx:83-123 | A detour over at least two rows only moves down and stays between the centre line and its gutter. |
| `CircuitGrid.WirePath` | react/src/CircuitGrid.jsx:274-291 | Either path joins the centre of the upper row to the centre of the lower row. |
| `CircuitGrid.TwoDetoursSeparated` | react/src/CircuitGrid.jsx:233-253 | Two detours with four different ends take different gutters, and no horizontal run of one is at the height of a run of the other. |
| `CircuitGrid.TwoRoutedWiresDiffer` | react/src/CircuitGrid.jsx:218-229 | A routed column of two wires in a consistent grid holds two different wires. |
| `CircuitGrid.RoutedDetoursSeparated` | react/src/CircuitGrid.jsx:202-261 | In a consistent grid, two detours in one column never share a gutter or a jog height. |
| `CircuitGrid.CircuitGrid.constructor` | react/src/CircuitGrid.jsx:417-422 | Starts outside binary-gate mode. |
| `CircuitGrid.CircuitGrid.EnterBinaryGateMode` | react/src/CircuitGrid.jsx:423-432 | Removes the gate at the cell, keeping consistency, and waits for the action row of the given gate there. The session then holds the state the update pass leaves (`AfterUpdatePass`), with the grid from before the call as the previous grid. |
| `CircuitGrid.CircuitGrid.ExitBinaryGateMode` | react/src/CircuitGrid.jsx:434-436 | Leaves binary-gate mode. |
| `CircuitGrid.CircuitGrid.PlaceBinaryGatePair` | react/src/CircuitGrid.jsx:438-442 | Places the pair. When the action row is not the control row, the control cell holds the pair, the action cell is empty, and consistency is kept. Binary-gate mode ends. The session then holds the state the update pass leaves (`AfterUpdatePass`), with the grid from before the call as the previous grid. |
| `CircuitGrid.CircuitGrid.OnCellBeginDrag` | react/src/CircuitGrid.jsx:480-483 | Picking a gate up removes it, keeping consistency. The session then holds the state the update pass leaves (`AfterUpdatePass`), with the grid from before the call as the previous grid. |
| `CircuitGrid.CircuitGrid.OnDropGateOnCell` | react/src/CircuitGrid.jsx:484-503 | A binary gate clears the cell and enters binary-gate mode. Any other gate is placed at once. Consistency is kept. The session then holds the state the update pass leaves (`AfterUpdatePass`), with the grid from before the call as the previous grid. |

## Left out

- Simulation is not modelled: `simulate`, `getStateValues` and the `xhGate`
  set-up call into the external quantum simulator library and parse its
  text output.
- The solvable callbacks are modelled as recorded outputs: the caption,
  the two button flags and the list of saved states.
- `trackChangeEvent`, called by `addGate` and `removeGate`, has an empty
  body in this source and is not modelled.
- A success state without a circuit is not modelled: every success state
  of the model has one. The source's filter reads `circuit.length` of each
  success state and would throw on a missing circuit.
- `QuantumCircuit.QuantumCircuit.CheckAnswerPressed` assumes the page calls
  it outside React's event handling, so its state update is applied at
  once. The handlers for grid edits end in the same state whether or not
  React batches their updates.
- The page-level code is not part of this model: React rendering, styled
  components, SVG markup strings, the binary-gate overlay's layout and the
  drag layer.
- `Layout.LayoutState.SetLayout` takes the row and column counts, not the
  circuit. `Layout.jsx` and `Circuit.jsx` import each other; the caller
  passes `NumRows` and `NumColumns`. An empty initial circuit, on which
  `numColumns` would throw, is the `EmptyCircuit` failure of
  `QuantumCircuit.Create`.
- `CircuitValidation.ValidateBinaryGatePair` models an action row given as
  text as `ActionRowOutOfRange`. JavaScript would coerce numeric text
  (`"1"`) to an index and crash on other text.
- Raw numeric cells outside a pair are not modelled. The configuration
  format gives cells as strings or arrays.
- `QuantumCircuit.Create` requires the saved user circuit to be
  rectangular. The source compares only the first row's width.
- `QuantumCircuit.Create` chooses the initial grid with the corrected
  user-state check of the Findings row, not the check as written. A saved
  `[[R8]]` under the full palette, or a saved `[[XH]]` with only `X`
  allowed, therefore starts from a different grid than
  `react/src/QuantumCircuit.jsx:34-38` with lines 77-81 would give.
- `CircuitGrid.Insert`, `CircuitGrid.SortByFromRow`: stability of the sort
  for equal upper rows is not stated. The sort is a function on values:
  the in-place sort of the wire objects is not modelled.
- `CircuitGrid.AssignTracks`: the
  paired tracks apply only when the column has exactly two wires and both
  are obstructed. The jogs are offset only when the upper wire's lower end
  is one row below the lower wire's upper end.
- The wire components are modelled as values, and so is the rendered SVG
  path: the path is a list of commands with real coordinates.
- `CircuitGrid.ControlWires` requires every action row to be in range. Out
  of range, the source's obstruction scan would read undefined rows.
- A comment in the column routing (`react/src/CircuitGrid.jsx:229-231`)
  says that with at most five rows, two obstructed wires must be
  obstructing each other. The model proves two facts behind it for
  consistent grids: `CircuitGrid.ThreePairsNeedSixRows` (at most two wires
  per column) and `CircuitGrid.FiveRowDetoursOverlap` (the spans of two
  obstructed wires overlap). The track separation,
  `CircuitGrid.RoutedDetoursSeparated`, is proved for columns of exactly
  two detours, the only ones that get paired tracks. Grids of six rows or
  more are not bounded.

## Findings

| source | as written | input that shows it | evidently intended | confidence | as-written member | corrected member |
|---|---|---|---|---|---|---|
| react/src/QuantumCircuit.jsx:77-81 | A saved cell whose name has length 2 is treated as a binary pair, and only its first character is checked against the allowed gates. | A saved `R8` with every palette gate allowed is refused, because `R` is not a gate. A saved `XH` with only `X` allowed is accepted. | Only a pair should be checked by its gate; a name should be checked whole. | not executed | `QuantumCircuit.SavedR8RefusedAsWritten` | `QuantumCircuit.ValidateUserState` |

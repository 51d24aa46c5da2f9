/** The session of react/src/QuantumCircuit.jsx: the grid the user is
    editing, how it is initialised from saved state, and the solvable
    puzzle bookkeeping. React state updates are modelled as synchronous
    field assignments, and the solvable callbacks as recorded outputs. */
module QuantumCircuit {
  import opened Wrappers
  import opened Constants
  import opened Circuit
  import CircuitProperties
  import Layout

  /** The source compares the JSON texts of two grids; distinct grids have
      distinct texts, so this is structural equality. */
  function CompareCircuits(circuitA: Grid, circuitB: Grid): (same: bool)
    ensures same <==> |circuitA| == |circuitB| && forall i :: 0 <= i < |circuitA| ==> circuitA[i] == circuitB[i]
  {
    circuitA == circuitB
  }

  datatype UserState = UserState(circuit: Option<Grid>)
  datatype SuccessState = SuccessState(circuit: Grid)
  datatype SolvableConfig = SolvableConfig(hasBeenSolved: bool)

  datatype Props = Props(
    startingCircuit: Grid,
    allowedGates: seq<string>,
    successStates: Option<seq<SuccessState>>,
    interactiveSolvableType: Option<string>,
    userState: Option<UserState>,
    solvableConfig: Option<SolvableConfig>)

  datatype Caption = DefaultCaption | SuccessCaption | FailureCaption

  /** Why construction fails: reading the width of an empty grid, or a
      solvable puzzle without success states. */
  datatype CreateError = EmptyCircuit | MissingSuccessStates

  /** One call of the `saveState` callback; the verdict is absent when the
      callback is given the state alone. */
  datatype SavedState = SavedState(circuit: Grid, hasBeenSolved: bool, guessedWrong: bool, isSolved: Option<bool>)

  const Submittable: string := "submittable"
  const AutoCheck: string := "auto-check"

  // ---------------------------------------------------------------------
  // Saved user state

  /** The saved grid has the starting grid's row count and first-row width,
      unless it has no rows at all. */
  predicate DimensionsMatch(circuit: Grid, startingCircuit: Grid) {
    |circuit| > 0 ==> |circuit| == |startingCircuit| && |circuit[0]| == |startingCircuit[0]|
  }

  /** The cell check as the source writes it: anything of length two is
      judged by its first element, which for a two-letter gate name such as
      "R8" or "XH" is its first letter. */
  predicate CellAcceptedAsWritten(cell: Cell, allowedGates: seq<string>) {
    match cell
    case Pair(gate, _) => gate in allowedGates
    case Name(s) => if |s| == 2 then [s[0]] in allowedGates else s == EmptyCell || s in allowedGates
  }

  predicate UserStateAcceptedAsWritten(userState: UserState, startingCircuit: Grid, allowedGates: seq<string>) {
    && userState.circuit.Some?
    && DimensionsMatch(userState.circuit.value, startingCircuit)
    && forall i, j :: 0 <= i < |userState.circuit.value| && 0 <= j < |userState.circuit.value[i]| ==>
         CellAcceptedAsWritten(userState.circuit.value[i][j], allowedGates)
  }

  /** The cell check as intended: a pair by its gate, a name by the whole name. */
  predicate CellAccepted(cell: Cell, allowedGates: seq<string>) {
    match cell
    case Pair(gate, _) => gate in allowedGates
    case Name(s) => s == EmptyCell || s in allowedGates
  }

  predicate UserStateAccepted(userState: UserState, startingCircuit: Grid, allowedGates: seq<string>) {
    && userState.circuit.Some?
    && DimensionsMatch(userState.circuit.value, startingCircuit)
    && forall i, j :: 0 <= i < |userState.circuit.value| && 0 <= j < |userState.circuit.value[i]| ==>
         CellAccepted(userState.circuit.value[i][j], allowedGates)
  }

  /** The gate a cell shows: the gate of a pair, or the name. */
  function GateOf(cell: Cell): string {
    match cell
    case Pair(gate, _) => gate
    case Name(s) => s
  }

  /** The intended check accepts a saved grid exactly when it has the right
      dimensions and every gate in it is allowed. */
  lemma UserStateAcceptedIff(userState: UserState, startingCircuit: Grid, allowedGates: seq<string>)
    requires userState.circuit.Some? && DimensionsMatch(userState.circuit.value, startingCircuit)
    ensures UserStateAccepted(userState, startingCircuit, allowedGates) <==>
      forall i, j ::
        (0 <= i < |userState.circuit.value| && 0 <= j < |userState.circuit.value[i]|
         && userState.circuit.value[i][j] != Empty) ==> GateOf(userState.circuit.value[i][j]) in allowedGates
  {
    var c := userState.circuit.value;
    forall i, j | 0 <= i < |c| && 0 <= j < |c[i]|
      ensures CellAccepted(c[i][j], allowedGates) <==> (c[i][j] != Empty ==> GateOf(c[i][j]) in allowedGates)
    {
      if c[i][j].Pair? {
        assert c[i][j] != Empty;
      }
    }
  }

  /** As written, a saved "R8" is refused under the default palette, which allows it. */
  lemma SavedR8RefusedAsWritten()
    ensures !UserStateAcceptedAsWritten(UserState(Some([[Name("R8")]])), [[Empty]], PaletteGates)
    ensures UserStateAccepted(UserState(Some([[Name("R8")]])), [[Empty]], PaletteGates)
  {
    var c := [[Name("R8")]];
    assert "R8"[0] == 'R';
    assert PaletteGates == ["H", "X", "Y", "Z", "S", "T", "R8", "XH", "CX", "CZ"];
    assert ['R'] !in PaletteGates;
    assert !CellAcceptedAsWritten(c[0][0], PaletteGates);
    assert "R8" in PaletteGates;
  }

  /** As written, a saved "XH" is accepted when only "X" is allowed. */
  lemma SavedXHAcceptedAsWritten()
    ensures UserStateAcceptedAsWritten(UserState(Some([[Name("XH")]])), [[Empty]], ["X"])
    ensures !UserStateAccepted(UserState(Some([[Name("XH")]])), [[Empty]], ["X"])
  {
    assert "XH"[0] == 'X';
    assert ["X"][0] == "X";
    var c := [[Name("XH")]];
    assert forall i, j :: 0 <= i < |c| && 0 <= j < |c[i]| ==> c[i][j] == Name("XH");
    assert "XH" != EmptyCell && "XH" !in ["X"];
    assert !CellAccepted(c[0][0], ["X"]);
  }

  /** Without two-letter names the written and the intended checks agree. */
  lemma AsWrittenAgreesWithoutTwoLetterNames(userState: UserState, startingCircuit: Grid, allowedGates: seq<string>)
    requires userState.circuit.Some?
    requires forall i, j ::
      (0 <= i < |userState.circuit.value| && 0 <= j < |userState.circuit.value[i]|
       && userState.circuit.value[i][j].Name?) ==> |userState.circuit.value[i][j].name| != 2
    ensures UserStateAcceptedAsWritten(userState, startingCircuit, allowedGates)
      == UserStateAccepted(userState, startingCircuit, allowedGates)
  {
  }

  /** validateUserState, with the intended cell check. */
  method ValidateUserState(userState: UserState, startingCircuit: Grid, allowedGates: seq<string>) returns (valid: bool)
    ensures valid == UserStateAccepted(userState, startingCircuit, allowedGates)
  {
    if userState.circuit.None? {
      return false;
    }
    var circuit := userState.circuit.value;
    if |circuit| > 0 && (|circuit| != |startingCircuit| || |circuit[0]| != |startingCircuit[0]|) {
      return false;
    }
    var i := 0;
    while i < |circuit|
      invariant i <= |circuit|
      invariant forall p, q :: 0 <= p < i && 0 <= q < |circuit[p]| ==> CellAccepted(circuit[p][q], allowedGates)
    {
      var j := 0;
      while j < |circuit[i]|
        invariant j <= |circuit[i]|
        invariant forall p, q :: 0 <= p < i && 0 <= q < |circuit[p]| ==> CellAccepted(circuit[p][q], allowedGates)
        invariant forall q :: 0 <= q < j ==> CellAccepted(circuit[i][q], allowedGates)
      {
        var gate := circuit[i][j];
        if gate.Pair? {
          if gate.gate !in allowedGates {
            return false;
          }
        } else if gate != Empty && gate.name !in allowedGates {
          return false;
        }
        j := j + 1;
      }
      i := i + 1;
    }
    return true;
  }

  // ---------------------------------------------------------------------
  // Construction

  /** The grid the session starts from: the saved one when it validates,
      the starting one otherwise. */
  function InitialCircuit(props: Props): Grid {
    if props.userState.Some? && UserStateAccepted(props.userState.value, props.startingCircuit, props.allowedGates)
    then props.userState.value.circuit.value
    else props.startingCircuit
  }

  predicate HasSuccessStates(props: Props) {
    props.successStates.Some? && |props.successStates.value| > 0
  }

  /** `interactiveSolvableType || 'submittable'`. */
  function SolvableTypeOf(interactiveSolvableType: Option<string>): (t: string)
    ensures t != ""
    ensures interactiveSolvableType.Some? && interactiveSolvableType.value != "" ==> t == interactiveSolvableType.value
  {
    if interactiveSolvableType.Some? && interactiveSolvableType.value != "" then interactiveSolvableType.value
    else Submittable
  }

  function CaptionFor(hasBeenSolved: bool, guessedWrong: bool): Caption {
    if hasBeenSolved then SuccessCaption
    else if guessedWrong then FailureCaption
    else DefaultCaption
  }

  /** Whether the update pass after a state change marks the puzzle
      solved: only for an auto-check puzzle whose grid changed into a
      success state. */
  predicate MarksSolved(solvableType: Option<string>, prevCircuit: Grid, circuit: Grid, solved: bool) {
    circuit != prevCircuit && solvableType == Some(AutoCheck) && solved
  }

  /** The states the update pass saves: none when the grid did not change;
      for an auto-check puzzle the state with its flags from before the pass
      and the verdict; for a submittable puzzle the state alone. */
  function SavesAfterUpdate(solvableType: Option<string>, prevCircuit: Grid, circuit: Grid,
                            hasBeenSolved: bool, guessedWrong: bool, solved: bool): seq<SavedState>
  {
    if circuit == prevCircuit then []
    else if solvableType == Some(AutoCheck) then [SavedState(circuit, hasBeenSolved, guessedWrong, Some(solved))]
    else if solvableType == Some(Submittable) then [SavedState(circuit, hasBeenSolved, guessedWrong, None)]
    else []
  }

  /** A session starts with no recorded outputs; the solvable part is
      filled in by `Create`. */
  class QuantumCircuit {
    const props: Props
    const layout: Layout.LayoutState
    var circuit: Grid
    var isInteractiveSolvable: bool
    var solvableType: Option<string>
    var hasBeenSolved: bool
    var guessedWrong: bool
    var caption: Option<Caption>
    var resetButtonEnabled: Option<bool>
    var submitButtonEnabled: Option<bool>
    var savedStates: seq<SavedState>

    ghost predicate Valid()
      reads this
    {
      && |circuit| > 0 && Rectangular(circuit)
      && |props.startingCircuit| > 0 && Rectangular(props.startingCircuit)
      && (isInteractiveSolvable <==> solvableType.Some?)
    }

    constructor (props: Props, circuit: Grid, layout: Layout.LayoutState)
      ensures this.props == props && this.circuit == circuit && this.layout == layout
      ensures !isInteractiveSolvable && solvableType == None && !hasBeenSolved && !guessedWrong
      ensures caption == None && resetButtonEnabled == None && submitButtonEnabled == None && savedStates == []
    {
      this.props := props;
      this.circuit := circuit;
      this.layout := layout;
      isInteractiveSolvable := false;
      solvableType := None;
      hasBeenSolved := false;
      guessedWrong := false;
      caption := None;
      resetButtonEnabled := None;
      submitButtonEnabled := None;
      savedStates := [];
    }

    /** The current grid equals the starting grid. */
    function IsUnchanged(): (same: bool)
      reads this
      ensures same <==> circuit == props.startingCircuit
    {
      CompareCircuits(props.startingCircuit, circuit)
    }

    /** Some success state shows the current grid. */
    ghost predicate Solved()
      reads this
    {
      props.successStates.Some?
      && exists k :: 0 <= k < |props.successStates.value| && props.successStates.value[k].circuit == circuit
    }

    method IsSolved() returns (solved: bool)
      ensures solved == Solved()
    {
      if props.successStates.Some? && |props.successStates.value| > 0 {
        var states := props.successStates.value;
        var i := 0;
        while i < |states|
          invariant i <= |states|
          invariant forall k :: 0 <= k < i ==> states[k].circuit != circuit
        {
          if CompareCircuits(states[i].circuit, circuit) {
            return true;
          }
          i := i + 1;
        }
      }
      return false;
    }

    /** The container shows the flags and whether the grid was changed. */
    ghost predicate ContainerShowsState()
      reads this
    {
      && caption == Some(CaptionFor(hasBeenSolved, guessedWrong))
      && resetButtonEnabled == Some(!IsUnchanged())
      && (solvableType == Some(Submittable) ==> submitButtonEnabled == Some(!IsUnchanged()))
    }

    /** The state the update pass leaves, given the grid from before the
      change that ran it: puzzle type and guessed-wrong flag kept, an
      auto-check puzzle marked solved when its changed grid is a success
      state, the saves of `SavesAfterUpdate` appended, and the container
      showing the state for a puzzle and untouched otherwise. */
    twostate predicate AfterUpdatePass(prevCircuit: Grid)
      reads this
    {
      && isInteractiveSolvable == old(isInteractiveSolvable) && solvableType == old(solvableType)
      && guessedWrong == old(guessedWrong)
      && hasBeenSolved == (old(hasBeenSolved) || MarksSolved(solvableType, prevCircuit, circuit, Solved()))
      && savedStates == old(savedStates) +
           SavesAfterUpdate(solvableType, prevCircuit, circuit, old(hasBeenSolved), guessedWrong, Solved())
      && (isInteractiveSolvable ==> ContainerShowsState())
      && (!isInteractiveSolvable ==>
            caption == old(caption) && resetButtonEnabled == old(resetButtonEnabled) && submitButtonEnabled == old(submitButtonEnabled))
      && (solvableType != Some(Submittable) ==> submitButtonEnabled == old(submitButtonEnabled))
    }

    /** The `addGate` handler: replaces the grid by `Circuit.addGate` of it,
      after which the update pass runs. */
    method AddGate(row: nat, column: nat, gate: Cell)
      requires Valid() && CanAdd(row, column, gate, circuit)
      modifies this
      ensures Valid()
      ensures circuit == Added(row, column, gate, old(circuit))
      ensures old(CircuitProperties.Consistent(circuit)) && (gate.Pair? ==> gate.actionRow != row) ==>
        CircuitProperties.Consistent(circuit)
      ensures AfterUpdatePass(old(circuit))
    {
      if CircuitProperties.Consistent(circuit) && (gate.Pair? ==> gate.actionRow != row) {
        CircuitProperties.AddedConsistent(row, column, gate, circuit);
      }
      SameShapeKeepsRectangular(Added(row, column, gate, circuit), circuit);
      var prevCircuit := circuit;
      circuit := Circuit.AddGate(row, column, gate, circuit);
      ComponentDidUpdate(prevCircuit);
    }

    /** The `removeGate` handler: replaces the grid by `Circuit.removeGate`
      of it, after which the update pass runs. */
    method RemoveGate(row: nat, column: nat)
      requires Valid() && row < |circuit| && ColumnInRange(circuit, column)
      modifies this
      ensures Valid()
      ensures circuit == Removed(row, column, old(circuit))
      ensures old(CircuitProperties.Consistent(circuit)) ==> CircuitProperties.Consistent(circuit)
      ensures AfterUpdatePass(old(circuit))
    {
      if CircuitProperties.Consistent(circuit) {
        CircuitProperties.RemovedConsistent(row, column, circuit);
      }
      SameShapeKeepsRectangular(Removed(row, column, circuit), circuit);
      var prevCircuit := circuit;
      circuit := Circuit.RemoveGate(row, column, circuit);
      ComponentDidUpdate(prevCircuit);
    }

    /** Restores the starting grid, after which the update pass runs. */
    method ResetPressed()
      requires Valid()
      modifies this
      ensures Valid() && IsUnchanged()
      ensures circuit == props.startingCircuit
      ensures AfterUpdatePass(old(circuit))
    {
      var prevCircuit := circuit;
      circuit := Clone(props.startingCircuit);
      ComponentDidUpdate(prevCircuit);
    }

    /** For the submittable type, sets the solved and guessed-wrong flags
      from the success states and saves the state with the verdict; for any
      other type, does nothing. The page calls this outside React's event
      handling, so the flags are set at once, the update pass refreshes the
      container, and the saved state holds the new flags. */
    method CheckAnswerPressed()
      modifies this
      ensures circuit == old(circuit) && isInteractiveSolvable == old(isInteractiveSolvable) && solvableType == old(solvableType)
      ensures solvableType == Some(Submittable) ==>
        && hasBeenSolved == Solved() && guessedWrong == !Solved()
        && savedStates == old(savedStates) + [SavedState(circuit, Solved(), !Solved(), Some(Solved()))]
        && (isInteractiveSolvable ==> ContainerShowsState())
      ensures solvableType != Some(Submittable) ==>
        hasBeenSolved == old(hasBeenSolved) && guessedWrong == old(guessedWrong) && savedStates == old(savedStates)
      ensures solvableType != Some(Submittable) || !isInteractiveSolvable ==>
        caption == old(caption) && resetButtonEnabled == old(resetButtonEnabled) && submitButtonEnabled == old(submitButtonEnabled)
    {
      if solvableType == Some(Submittable) {
        var solved := IsSolved();
        hasBeenSolved, guessedWrong := solved, !solved;
        ComponentDidUpdate(circuit);
        savedStates := savedStates + [SavedState(circuit, hasBeenSolved, guessedWrong, Some(solved))];
      }
    }

    /** React's `componentDidUpdate`, run after each state change with the
      grid from before it. The container is refreshed; when the grid
      changed, an auto-check puzzle saves its state with the verdict and is
      marked solved when it is, and a submittable puzzle saves its state.
      The solved mark is itself a state change made inside this pass, so it
      is applied after the pass, the saved state holds the flag from before
      it, and the second pass it causes only refreshes the container. */
    method ComponentDidUpdate(prevCircuit: Grid)
      modifies this
      ensures old(Valid()) ==> Valid()
      ensures circuit == old(circuit)
      ensures AfterUpdatePass(prevCircuit)
    {
      if isInteractiveSolvable {
        UpdateSolvableContainer();
      }
      if CompareCircuits(circuit, prevCircuit) {
        return;
      }
      if solvableType == Some(AutoCheck) {
        var solved := IsSolved();
        savedStates := savedStates + [SavedState(circuit, hasBeenSolved, guessedWrong, Some(solved))];
        if solved {
          hasBeenSolved := true;
          if isInteractiveSolvable {
            UpdateSolvableContainer();
          }
        }
      } else if solvableType == Some(Submittable) {
        savedStates := savedStates + [SavedState(circuit, hasBeenSolved, guessedWrong, None)];
      }
    }

    /** Sets the caption and the reset and submit buttons from the state. */
    method UpdateSolvableContainer()
      requires isInteractiveSolvable
      modifies this
      ensures circuit == old(circuit) && isInteractiveSolvable == old(isInteractiveSolvable) && solvableType == old(solvableType)
      ensures hasBeenSolved == old(hasBeenSolved) && guessedWrong == old(guessedWrong) && savedStates == old(savedStates)
      ensures caption == Some(CaptionFor(hasBeenSolved, guessedWrong))
      ensures resetButtonEnabled == Some(!IsUnchanged())
      ensures submitButtonEnabled == if solvableType == Some(Submittable) then Some(!IsUnchanged()) else old(submitButtonEnabled)
    {
      if hasBeenSolved {
        caption := Some(SuccessCaption);
      } else if guessedWrong {
        caption := Some(FailureCaption);
      } else {
        caption := Some(DefaultCaption);
      }
      if IsUnchanged() {
        resetButtonEnabled := Some(false);
        if solvableType == Some(Submittable) {
          submitButtonEnabled := Some(false);
        }
      } else {
        resetButtonEnabled := Some(true);
        if solvableType == Some(Submittable) {
          submitButtonEnabled := Some(true);
        }
      }
    }
  }

  lemma SameShapeKeepsRectangular(a: Grid, b: Grid)
    requires SameShape(a, b) && Rectangular(b)
    ensures Rectangular(a)
  {
  }

  /** The constructor: picks the initial grid, selects the layout from its
      dimensions, and sets up the solvable puzzle. Selecting the layout
      happens before the check for success states, so it persists when
      that check fails. */
  method Create(props: Props, layout: Layout.LayoutState) returns (r: Result<QuantumCircuit, CreateError>)
    requires Rectangular(props.startingCircuit)
    requires props.userState.Some? && props.userState.value.circuit.Some? ==> Rectangular(props.userState.value.circuit.value)
    modifies layout
    ensures r.Failure? <==> |InitialCircuit(props)| == 0 || (props.solvableConfig.Some? && !HasSuccessStates(props))
    ensures r.Failure? ==> r.error == if |InitialCircuit(props)| == 0 then EmptyCircuit else MissingSuccessStates
    ensures |InitialCircuit(props)| == 0 ==> layout.selected == old(layout.selected)
    ensures |InitialCircuit(props)| > 0 ==>
      layout.Valid() && layout.selected == Layout.ProfileFor(|InitialCircuit(props)|, |InitialCircuit(props)[0]|)
    ensures r.Success? ==> fresh(r.value) && r.value.Valid() && r.value.props == props && r.value.layout == layout
    ensures r.Success? ==> r.value.circuit == InitialCircuit(props) && r.value.savedStates == []
    ensures r.Success? ==> r.value.isInteractiveSolvable == props.solvableConfig.Some?
    ensures r.Success? && props.solvableConfig.None? ==>
      r.value.caption == None && r.value.resetButtonEnabled == None && r.value.submitButtonEnabled == None
    ensures r.Success? && props.solvableConfig.Some? ==>
      && r.value.solvableType == Some(SolvableTypeOf(props.interactiveSolvableType))
      && r.value.hasBeenSolved == props.solvableConfig.value.hasBeenSolved && !r.value.guessedWrong
      && r.value.caption == Some(if r.value.hasBeenSolved then SuccessCaption else DefaultCaption)
      && r.value.resetButtonEnabled == Some(InitialCircuit(props) != props.startingCircuit)
      && r.value.submitButtonEnabled ==
           if r.value.solvableType == Some(Submittable) then Some(InitialCircuit(props) != props.startingCircuit) else None
  {
    var userValid := false;
    if props.userState.Some? {
      userValid := ValidateUserState(props.userState.value, props.startingCircuit, props.allowedGates);
    }
    var initial: Grid;
    if userValid {
      initial := Clone(props.userState.value.circuit.value);
    } else {
      initial := Clone(props.startingCircuit);
    }
    if |initial| == 0 {
      return Failure(EmptyCircuit);
    }
    layout.SetLayout(NumRows(initial), NumColumns(initial));
    var session := new QuantumCircuit(props, initial, layout);
    if props.solvableConfig.Some? {
      session.isInteractiveSolvable := true;
      session.solvableType := Some(SolvableTypeOf(props.interactiveSolvableType));
      session.hasBeenSolved := props.solvableConfig.value.hasBeenSolved;
      session.guessedWrong := false;
      if props.successStates.None? || |props.successStates.value| == 0 {
        return Failure(MissingSuccessStates);
      }
      session.UpdateSolvableContainer();
    }
    return Success(session);
  }
}

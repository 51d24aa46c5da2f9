/** The gate vocabulary and drawing constants of react/src/Constants.jsx. */
module Constants {

  /** The marker of a cell that holds no gate. */
  const EmptyCell: string := "-"

  /** Gates acting on one qubit. */
  const UnaryGates: seq<string> := ["H", "X", "Y", "Z", "S", "T", "R8", "XH"]

  /** Gates acting on a control qubit and an action qubit. */
  const BinaryGates: seq<string> := ["CX", "CZ"]

  /** The three horizontal lanes a detouring control wire may use, as
      fractions of the spacing they divide. */
  datatype WireTrack = Inside | Middle | Outside {
    function Fraction(): (f: real)
      ensures 0.0 < f < 1.0
    {
      match this
      case Inside => 1.0 / 3.0
      case Middle => 1.0 / 2.0
      case Outside => 2.0 / 3.0
    }
  }

  /** `names` with `prefix` put in front of each, in order (a `map` in the source). */
  function Prefixed(prefix: string, names: seq<string>): (r: seq<string>)
    ensures |r| == |names|
    ensures forall i :: 0 <= i < |names| ==> r[i] == prefix + names[i]
  {
    if names == [] then [] else [prefix + names[0]] + Prefixed(prefix, names[1..])
  }

  /** Every name a cell of the rendered grid may carry. */
  const RenderableGates: seq<string> :=
    UnaryGates + Prefixed("CONTROL_", BinaryGates) + Prefixed("ACTION_", BinaryGates) + [EmptyCell]

  /** The gates offered for dragging onto the circuit. */
  const PaletteGates: seq<string> := UnaryGates + BinaryGates

  lemma EmptyCellIsNoGate()
    ensures EmptyCell !in UnaryGates && EmptyCell !in BinaryGates
  {
  }

  lemma GateKindsDisjoint()
    ensures forall g :: g in UnaryGates ==> g !in BinaryGates
  {
  }

  lemma PaletteIsUnaryThenBinary()
    ensures |PaletteGates| == |UnaryGates| + |BinaryGates|
    ensures PaletteGates[..|UnaryGates|] == UnaryGates
    ensures PaletteGates[|UnaryGates|..] == BinaryGates
    ensures forall g :: g in PaletteGates <==> g in UnaryGates || g in BinaryGates
  {
  }

  lemma TracksOrdered()
    ensures 0.0 < Inside.Fraction() < Middle.Fraction() < Outside.Fraction() < 1.0
  {
  }

  /** A rendered name is a unary gate, a control or action marker of a
      binary gate, or the empty marker, and nothing else. */
  lemma RenderableGatesMembership(x: string)
    ensures x in RenderableGates <==>
      || x in UnaryGates
      || (exists b :: b in BinaryGates && x == "CONTROL_" + b)
      || (exists b :: b in BinaryGates && x == "ACTION_" + b)
      || x == EmptyCell
  {
    var controls := Prefixed("CONTROL_", BinaryGates);
    var actions := Prefixed("ACTION_", BinaryGates);
    assert RenderableGates == UnaryGates + controls + actions + [EmptyCell];
    assert x in controls <==> exists b :: b in BinaryGates && x == "CONTROL_" + b by {
      if x in controls {
        var i :| 0 <= i < |controls| && controls[i] == x;
        assert BinaryGates[i] in BinaryGates;
      }
    }
    assert x in actions <==> exists b :: b in BinaryGates && x == "ACTION_" + b by {
      if x in actions {
        var i :| 0 <= i < |actions| && actions[i] == x;
        assert BinaryGates[i] in BinaryGates;
      }
    }
  }
}

/** The size profiles of react/src/Layout.jsx and the module-level choice
    among them, which the rest of the program reads through accessors. */
module Layout {

  datatype ProbabilityStyle = ProbabilityStyle(fontSize: nat, width: nat)

  datatype Profile = Profile(
    gateSize: nat,
    horizontalSpacing: nat,
    wireExtension: nat,
    perQubitProbability: ProbabilityStyle)

  const ExtraSmallLayout: Profile := Profile(32, 2, 2, ProbabilityStyle(14, 60))
  const SmallLayout: Profile := Profile(32, 8, 16, ProbabilityStyle(18, 70))
  const MediumLayout: Profile := Profile(48, 8, 16, ProbabilityStyle(18, 70))
  const LargeLayout: Profile := Profile(56, 8, 16, ProbabilityStyle(18, 70))

  /** The gap between two rows of gates, the same in every profile. */
  const VerticalSpacing: nat := 8

  predicate IsProfile(p: Profile) {
    p == ExtraSmallLayout || p == SmallLayout || p == MediumLayout || p == LargeLayout
  }

  /** The profile chosen for a grid of the given dimensions: larger gates
      for smaller grids. */
  function ProfileFor(rows: int, columns: int): (p: Profile)
    ensures IsProfile(p)
    ensures p == LargeLayout <==> rows <= 3 && columns <= 4
    ensures p == MediumLayout <==> !(rows <= 3 && columns <= 4) && rows <= 4 && columns <= 4
    ensures p == SmallLayout <==> !(rows <= 4 && columns <= 4) && columns == 5
    ensures p == ExtraSmallLayout <==> !(rows <= 4 && columns <= 4) && columns != 5
  {
    if rows <= 3 && columns <= 4 then LargeLayout
    else if rows <= 4 && columns <= 4 then MediumLayout
    else if columns == 5 then SmallLayout
    else ExtraSmallLayout
  }

  /** The sizes every profile keeps to, on which the geometry relies. */
  lemma ProfileBounds(p: Profile)
    requires IsProfile(p)
    ensures 32 <= p.gateSize && p.gateSize % 8 == 0
    ensures 2 <= p.horizontalSpacing <= 8
    ensures p.horizontalSpacing <= p.wireExtension <= 16
  {
  }

  /** A grid of five rows and four columns falls through every test but the
      last and gets the extra small profile, smaller than a 5 x 5 grid's. */
  lemma FiveByFourIsExtraSmall()
    ensures ProfileFor(5, 4) == ExtraSmallLayout
    ensures ProfileFor(5, 5) == SmallLayout
  {
  }

  /** The module-level `selectedLayout` variable. */
  class LayoutState {
    var selected: Profile

    ghost predicate Valid()
      reads this
    {
      IsProfile(selected)
    }

    /** Before any grid is seen, the small profile is in force. */
    constructor ()
      ensures Valid() && selected == SmallLayout
    {
      selected := SmallLayout;
    }

    /** Chooses the profile from the grid's row and column counts only, so
        a second call for the same dimensions chooses the same profile. */
    method SetLayout(rows: int, columns: int)
      modifies this
      ensures Valid() && selected == ProfileFor(rows, columns)
    {
      if rows <= 3 && columns <= 4 {
        selected := LargeLayout;
      } else if rows <= 4 && columns <= 4 {
        selected := MediumLayout;
      } else if columns == 5 {
        selected := SmallLayout;
      } else {
        selected := ExtraSmallLayout;
      }
    }

    function GateSize(): (n: nat)
      reads this
      requires Valid()
      ensures 32 <= n && n % 8 == 0
    {
      selected.gateSize
    }

    function HorizontalSpacing(): (n: nat)
      reads this
      requires Valid()
      ensures 2 <= n <= 8
    {
      selected.horizontalSpacing
    }

    function WireExtension(): (n: nat)
      reads this
      requires Valid()
      ensures HorizontalSpacing() <= n <= 16
    {
      selected.wireExtension
    }

    function PerQubitProbability(): (s: ProbabilityStyle)
      reads this
      requires Valid()
      ensures s.fontSize == 14 || s.fontSize == 18
    {
      selected.perQubitProbability
    }
  }
}

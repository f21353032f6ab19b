/**
 * `CylinderSpawner`: every spawned cylinder is painted with the next colour
 * of a fixed red, green, blue palette, round-robin.
 */
module Spawner {

  datatype Color = Red | Green | Blue

  /** The palette, in the order the colours are handed out. */
  const Palette: seq<Color> := [Red, Green, Blue]

  /** The colour index after one spawn. */
  function Advance(index: int): (next: int)
    requires 0 <= index < |Palette|
    ensures 0 <= next < |Palette|
    ensures next == if index == |Palette| - 1 then 0 else index + 1
  {
    (index + 1) % |Palette|
  }

  /** Three spawns bring the colour index back to where it was. */
  lemma ThreeAdvancesRestore(index: int)
    requires 0 <= index < |Palette|
    ensures Advance(Advance(Advance(index))) == index
  {
  }

  /** The colour of the `n`-th cylinder spawned (counting from 0). */
  function NthColor(n: nat): (c: Color)
    ensures n < |Palette| ==> c == Palette[n]
  {
    Palette[n % |Palette|]
  }

  /** The colours repeat with period three. */
  lemma ColorsRepeat(n: nat)
    ensures NthColor(n + |Palette|) == NthColor(n)
  {
  }

  /**
   * When the index is the number of cylinders spawned modulo three, it picks
   * that cylinder's colour, and after the spawn it is the new count modulo three.
   */
  lemma NextIndex(n: nat, index: int)
    requires 0 <= index < |Palette| && index == n % |Palette|
    ensures Palette[index] == NthColor(n)
    ensures Advance(index) == (n + 1) % |Palette|
  {
  }

  class CylinderSpawner {
    var colorIndex: int
    /** The colours of the cylinders spawned so far, in order. */
    var painted: seq<Color>

    ghost predicate Valid()
      reads this
    {
      && 0 <= colorIndex < |Palette|
      && colorIndex == |painted| % |Palette|
      && forall k :: 0 <= k < |painted| ==> painted[k] == NthColor(k)
    }

    constructor ()
      ensures Valid() && colorIndex == 0 && painted == []
    {
      colorIndex := 0;
      painted := [];
    }

    /**
     * `SpawnCylinder`: the new cylinder gets the colour at the current index,
     * then the index moves on by one, wrapping after the last colour.
     */
    method SpawnCylinder() returns (c: Color)
      requires Valid()
      modifies this
      ensures Valid()
      ensures c == Palette[old(colorIndex)] && c == NthColor(|old(painted)|)
      ensures colorIndex == Advance(old(colorIndex))
      ensures painted == old(painted) + [c]
    {
      NextIndex(|painted|, colorIndex);
      c := Palette[colorIndex];
      painted := painted + [c];
      colorIndex := Advance(colorIndex);
    }
  }

  /** A fresh spawner paints its first four cylinders red, green, blue, red. */
  method FirstFourColors() returns (colors: seq<Color>)
    ensures colors == [Red, Green, Blue, Red]
  {
    var spawner := new CylinderSpawner();
    var c0 := spawner.SpawnCylinder();
    var c1 := spawner.SpawnCylinder();
    var c2 := spawner.SpawnCylinder();
    assert spawner.colorIndex == 0;
    var c3 := spawner.SpawnCylinder();
    colors := [c0, c1, c2, c3];
  }
}

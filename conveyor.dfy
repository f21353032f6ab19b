/**
 * `TransportSurfaceSimple`: a conveyor belt that keeps the list of rigidbodies
 * on the target layer lying on it, and moves each of them along its
 * transport direction at constant speed in every physics step.
 *
 * Rigidbodies are references, identified here by `BodyId`. A body destroyed
 * while on the belt stays in the list and compares equal to null, so the
 * physics step is given the set of destroyed bodies. The belt's
 * `TransformDirection` and the bodies' positions are given to the physics
 * step as parameters.
 */
module Conveyor {
  import opened Wrappers
  import opened Geometry

  type BodyId = nat

  /** One `MovePosition` call: the body and the position it is sent to. */
  datatype Push = Push(body: BodyId, newPos: Vec)

  predicate NoDuplicates(s: seq<BodyId>) {
    forall i, j :: 0 <= i < j < |s| ==> s[i] != s[j]
  }

  /** The position of the first occurrence of `x` in `s`. */
  function FirstIndex(s: seq<BodyId>, x: BodyId): (i: nat)
    requires x in s
    ensures i < |s| && s[i] == x && x !in s[..i]
  {
    if s[0] == x then 0
    else
      var j := FirstIndex(s[1..], x);
      assert s[..j + 1] == [s[0]] + s[1..][..j];
      j + 1
  }

  /**
   * `List.Remove`: drop the first occurrence of `x`, keeping the order of
   * everything else.
   */
  function RemoveFirst(s: seq<BodyId>, x: BodyId): (r: seq<BodyId>)
    ensures x !in s ==> r == s
    ensures x in s ==>
              exists i :: 0 <= i < |s| && s[i] == x && x !in s[..i] && r == s[..i] + s[i + 1..]
  {
    if x in s then
      var i := FirstIndex(s, x);
      s[..i] + s[i + 1..]
    else s
  }

  /**
   * In a list without duplicates, removing `x` removes it entirely and keeps
   * every other entry and the list's order.
   */
  lemma RemoveFirstNoDuplicates(s: seq<BodyId>, x: BodyId)
    requires NoDuplicates(s)
    ensures var r := RemoveFirst(s, x);
            && NoDuplicates(r) && x !in r
            && (forall y :: y != x ==> (y in r <==> y in s))
            && |r| == (if x in s then |s| - 1 else |s|)
  {
    var r := RemoveFirst(s, x);
    if x in s {
      var i :| 0 <= i < |s| && s[i] == x && x !in s[..i] && r == s[..i] + s[i + 1..];
      assert forall k :: 0 <= k < |r| ==> r[k] == (if k < i then s[k] else s[k + 1]);
      forall y | y != x && y in s ensures y in r {
        var k :| 0 <= k < |s| && s[k] == y;
        assert r[if k < i then k else k - 1] == y;
      }
    }
  }

  /**
   * The `MovePosition` calls of one physics step, in list order: every loaded
   * body that has not been destroyed is sent `step` further from where it is.
   */
  function Pushes(loaded: seq<BodyId>, destroyed: set<BodyId>, position: BodyId -> Vec, step: Vec): (moves: seq<Push>)
    ensures |moves| <= |loaded|
  {
    if loaded == [] then []
    else
      var b := loaded[|loaded| - 1];
      Pushes(loaded[..|loaded| - 1], destroyed, position, step)
      + (if b in destroyed then [] else [Push(b, Add(position(b), step))])
  }

  /**
   * A physics step moves exactly the loaded bodies that still exist, each
   * by `step` from its position, and none of them twice.
   */
  lemma {:induction false} PushesExactlyLive(loaded: seq<BodyId>, destroyed: set<BodyId>, position: BodyId -> Vec, step: Vec)
    ensures var moves := Pushes(loaded, destroyed, position, step);
            && (forall k :: 0 <= k < |moves| ==>
                  moves[k].body in loaded && moves[k].body !in destroyed
                  && moves[k].newPos == Add(position(moves[k].body), step))
            && (forall b :: b in loaded && b !in destroyed ==> exists k :: 0 <= k < |moves| && moves[k].body == b)
            && (NoDuplicates(loaded) ==> forall k, l :: 0 <= k < l < |moves| ==> moves[k].body != moves[l].body)
  {
    if loaded != [] {
      var init := loaded[..|loaded| - 1];
      var b := loaded[|loaded| - 1];
      var earlier := Pushes(init, destroyed, position, step);
      var moves := Pushes(loaded, destroyed, position, step);
      PushesExactlyLive(init, destroyed, position, step);
      assert moves == earlier + (if b in destroyed then [] else [Push(b, Add(position(b), step))]);
      assert forall k :: 0 <= k < |earlier| ==> moves[k] == earlier[k];
      assert forall c :: c in loaded <==> c in init || c == b;
      assert NoDuplicates(loaded) ==> NoDuplicates(init) && b !in init;
      forall c | c in loaded && c !in destroyed
        ensures exists k :: 0 <= k < |moves| && moves[k].body == c
      {
        if c == b {
          assert moves[|earlier|].body == c;
        } else {
          var k :| 0 <= k < |earlier| && earlier[k].body == c;
          assert moves[k].body == c;
        }
      }
      assert forall c :: c in loaded && c !in destroyed ==> exists k :: 0 <= k < |moves| && moves[k].body == c;
    } else {
      assert Pushes(loaded, destroyed, position, step) == [];
    }
  }

  /** `magnitude` is the Euclidean length of `v`: zero exactly for the zero vector. */
  predicate IsLength(v: Vec, magnitude: real) {
    magnitude >= 0.0 && magnitude * magnitude == LengthSq(v) && (magnitude == 0.0 <==> v == Zero)
  }

  /**
   * The transport direction after `Awake` or `OnValidate`: forward when it
   * is zero, otherwise the direction scaled to length one. `magnitude` is the
   * direction's Euclidean length.
   */
  function Normalised(direction: Vec, magnitude: real): (r: Vec)
    requires IsLength(direction, magnitude)
    ensures direction == Zero ==> r == Forward
    ensures direction != Zero ==> LengthSq(r) == 1.0 && exists k :: k > 0.0 && r == Scale(direction, k)
  {
    if direction == Zero then Forward
    else
      var r := Scale(direction, 1.0 / magnitude);
      assert LengthSq(r) == LengthSq(direction) / (magnitude * magnitude);
      r
  }

  /** A unit direction is left as it is. */
  lemma NormalisedUnit(direction: Vec)
    requires LengthSq(direction) == 1.0 && direction != Zero
    ensures Normalised(direction, 1.0) == direction
  {
  }

  class TransportSurface {
    /** The layer index found for the target layer's name; -1 when there is no such layer. */
    const targetLayer: int
    var direction: Vec
    var speed: real
    var loaded: seq<BodyId>

    ghost predicate Valid()
      reads this
    {
      NoDuplicates(loaded)
    }

    /** `Awake`: the belt starts empty, with its direction normalised. */
    constructor (targetLayer: int, direction: Vec, magnitude: real, speed: real)
      requires IsLength(direction, magnitude)
      ensures Valid() && loaded == []
      ensures this.targetLayer == targetLayer && this.speed == speed
      ensures this.direction == Normalised(direction, magnitude)
    {
      this.targetLayer := targetLayer;
      this.speed := speed;
      this.direction := Normalised(direction, magnitude);
      loaded := [];
    }

    /** `OnValidate`: the edited direction is normalised again. */
    method Revalidate(magnitude: real)
      requires IsLength(direction, magnitude)
      modifies this`direction
      ensures direction == Normalised(old(direction), magnitude)
    {
      if direction == Zero {
        direction := Forward;
      } else {
        direction := Scale(direction, 1.0 / magnitude);
      }
    }

    /**
     * `OnCollisionEnter`: a body on the target layer that is not yet on the
     * belt is appended; anything else changes nothing.
     */
    method OnCollisionEnter(layer: int, body: Option<BodyId>)
      requires Valid()
      modifies this`loaded
      ensures Valid()
      ensures layer == targetLayer && body.Some? && body.value !in old(loaded) ==> loaded == old(loaded) + [body.value]
      ensures layer != targetLayer || body.None? || body.value in old(loaded) ==> loaded == old(loaded)
    {
      if layer != targetLayer {
        return;
      }
      if body.Some? && body.value !in loaded {
        loaded := loaded + [body.value];
      }
    }

    /**
     * `OnCollisionExit`: a body on the target layer that is on the belt is
     * removed; anything else changes nothing.
     */
    method OnCollisionExit(layer: int, body: Option<BodyId>)
      requires Valid()
      modifies this`loaded
      ensures Valid()
      ensures layer == targetLayer && body.Some? ==> loaded == RemoveFirst(old(loaded), body.value)
      ensures layer != targetLayer || body.None? ==> loaded == old(loaded)
    {
      if layer != targetLayer {
        return;
      }
      if body.Some? && body.value in loaded {
        RemoveFirstNoDuplicates(loaded, body.value);
        loaded := RemoveFirst(loaded, body.value);
      }
    }

    /**
     * `FixedUpdate`: nothing moves when the speed is zero or the belt is
     * empty; otherwise every loaded body that still exists is sent
     * `speed * fixedDt` along the belt's world direction.
     */
    method FixedUpdate(destroyed: set<BodyId>, position: BodyId -> Vec, worldDir: Vec, fixedDt: real)
      returns (moves: seq<Push>)
      ensures speed == 0.0 ==> moves == []
      ensures speed != 0.0 ==> moves == Pushes(loaded, destroyed, position, Scale(worldDir, speed * fixedDt))
    {
      moves := [];
      if speed == 0.0 || |loaded| == 0 {
        return;
      }
      var step := Scale(worldDir, speed * fixedDt);
      for i := 0 to |loaded|
        invariant moves == Pushes(loaded[..i], destroyed, position, step)
      {
        var rb := loaded[i];
        assert loaded[..i + 1][..i] == loaded[..i];
        if rb in destroyed {
          continue;
        }
        moves := moves + [Push(rb, Add(position(rb), step))];
      }
      assert loaded[..|loaded|] == loaded;
    }
  }
}

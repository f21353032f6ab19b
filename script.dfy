/**
 * The furnace animation that `SequenceRoutine` drives: the action kinds,
 * the ordered list of (checkpoint key, actions) steps built at the start of
 * every run, and the list of keys the external controller can confirm.
 */
module Script {
  import opened Wrappers
  import opened Geometry

  // Topics and command words of the message router.
  const StartTopic := "multi/I9"
  const CheckpointTopic := "multi/Q14"
  const ColorTopic := "unity/detector"
  const EndTopic := "color/Q2"
  const ConveyorSignalTopic1 := "color/I2"
  const ConveyorSignalTopic2 := "color/I3"
  const ConveyorSignalMessage := "read"
  const StartMessage := "read"

  // The two conveyor interlock points.
  const XThreshold1 := 4.45
  const XThreshold2 := 10.1
  const ConveyorStopPos1 := Vec(XThreshold1, 0.4691761, 2.59)
  const ConveyorStopPos2 := Vec(XThreshold2, 0.4691761, 2.59)

  // Default inspector settings of the controller.
  const Obj1Distance := 1.5
  const Obj1Duration := 0.5
  const Obj2Distance := 2.0
  const Obj2Duration := 2.0
  const Obj3Distance := 6.51
  const Obj3MoveDuration := 4.0
  const SubObjDistance := 0.8
  const SubObjDuration := 0.2
  const SubObjPause := 1.0
  const Obj4SubDistance := 1.5
  const Obj4SubDuration := 0.8
  const RotationDuration := 1.4
  const Object5Angle := 360.0
  const Object5Duration := 1.0
  const BrennPause := 2.7
  const InitialPause := 0.5

  /** The transforms the animation moves. */
  datatype Obj = Object1 | Object2 | Object3 | Object4 | Object5 | Object3Sub | Object4Sub

  /** The side effects of the callback actions; all of them act on the coin. */
  datatype Effect =
    | ParentCoin(carrier: Option<Obj>)   // if the coin exists, attach it to `carrier` (none: detach)
    | ParentCoinIfCarrier(target: Obj)   // the same, but only when `target` is assigned
    | ReleaseCoin                        // make the coin's rigidbody dynamic again and detach it

  /**
   * The action kinds. A Move's direction is a unit vector in every use the
   * sequence makes of it, so `direction.normalized` is the direction itself.
   */
  datatype Action =
    | Move(obj: Obj, dir: Vec, distance: real, duration: real)
    | Rotate(obj: Obj, pivot: Vec, axis: Vec, angle: real, duration: real)
    | Wait(duration: real)
    | Callback(effect: Effect)
    | Parallel(actions: seq<Action>)
    | ConveyorWait(threshold: real, stopPos: Vec)

  datatype Step = Step(key: string, actions: seq<Action>)

  /** The key a message is matched against: the topic, a colon, and the trimmed payload. */
  function CheckpointKey(topic: string, msg: string): (key: string)
    ensures |key| == |topic| + 1 + |msg|
    ensures key[..|topic|] == topic && key[|topic|] == ':' && key[|topic| + 1..] == msg
  {
    topic + ":" + msg
  }

  /** Whether `key` is a checkpoint key built from a message on `topic`. */
  predicate OnTopic(key: string, topic: string) {
    |key| > |topic| && key[..|topic|] == topic && key[|topic|] == ':'
  }

  // The checkpoint keys of the steps.
  const Q5Key := "multi/Q5:start"
  const I6Key := "multi/I6:read"
  const Q8Key := "multi/Q8:start"
  const Q6Key := "multi/Q6:start"
  const I7Key := "multi/I7:read"
  const I8Key := "multi/I8:read"
  const Q11Key := "multi/Q11:start"
  const Q8KeySecond := "multi/Q8:start"
  const I5Key := "multi/I5:read"
  const Q11StopKey := "multi/Q11:stop"
  const I4Key := "multi/I4:read"
  const Q4Key := "multi/Q4:stop"
  const I2Key := "multi/I2:read"
  const Q14Key := CheckpointTopic + ":stop"
  const Q3Key := "multi/Q3:start"
  const Q2Key := EndTopic + ":stop"
  const PostKey := "__after_checkpoint"

  /**
   * The sequence `SequenceRoutine` builds. The pivots, object 5's axis and
   * object 4's sub-object's forward axis are read from the scene when the
   * run starts, so they are parameters here. It has seventeen steps, each
   * with at least one action; the last is the post step, and no step waits
   * for a message on the start topic.
   */
  function FurnaceSequence(pivot4: Vec, pivot5: Vec, axis5: Vec, forward4Sub: Vec): (steps: seq<Step>)
    ensures |steps| == 17 && steps[16].key == PostKey
    ensures forall i :: 0 <= i < |steps| ==> steps[i].actions != []
    ensures forall i :: 0 <= i < |steps| - 1 ==> !OnTopic(steps[i].key, StartTopic)
  {
    var steps :=
    [ Step(Q5Key, [Move(Object1, Up, Obj1Distance, Obj1Duration), Wait(InitialPause)]),
      Step(I6Key, [Callback(ParentCoin(Some(Object2))), Move(Object2, Left, Obj2Distance, Obj2Duration)]),
      Step(Q8Key, [Move(Object1, Down, Obj1Distance, Obj1Duration)]),
      Step(Q6Key, [Wait(BrennPause), Move(Object1, Up, Obj1Distance, Obj1Duration)]),
      Step(I7Key, [Wait(InitialPause), Move(Object2, Right, Obj2Distance, Obj2Duration)]),
      Step(I8Key, [Parallel([Move(Object1, Down, Obj1Distance, Obj1Duration),
                             Move(Object3, Back, Obj3Distance, Obj3MoveDuration)])]),
      Step(Q11Key, [Move(Object3Sub, Down, SubObjDistance, SubObjDuration)]),
      Step(Q8KeySecond, [Wait(SubObjPause), Callback(ParentCoin(Some(Object3Sub))),
                         Move(Object3Sub, Up, SubObjDistance, SubObjDuration)]),
      Step(I5Key, [Move(Object3, Forward, Obj3Distance, Obj3MoveDuration)]),
      Step(Q11StopKey, [Move(Object3Sub, Down, SubObjDistance, SubObjDuration)]),
      Step(I4Key, [Wait(SubObjPause), Callback(ParentCoin(None)),
                   Move(Object3Sub, Up, SubObjDistance, SubObjDuration),
                   Callback(ParentCoinIfCarrier(Object4))]),
      Step(Q4Key, [Rotate(Object4, pivot4, Up, 180.0, RotationDuration * 2.0)]),
      Step(I2Key, [Rotate(Object5, pivot5, axis5, Object5Angle, Object5Duration)]),
      Step(Q14Key, [Rotate(Object4, pivot4, Up, 90.0, RotationDuration),
                    Callback(ParentCoin(Some(Object4Sub)))]),
      Step(Q3Key, [Move(Object4Sub, forward4Sub, Obj4SubDistance, Obj4SubDuration)]),
      Step(Q2Key, [Parallel([Callback(ReleaseCoin),
                             ConveyorWait(XThreshold1, ConveyorStopPos1),
                             ConveyorWait(XThreshold2, ConveyorStopPos2),
                             Move(Object4Sub, Neg(forward4Sub), Obj4SubDistance, Obj4SubDuration)])]),
      Step(PostKey, [Rotate(Object4, pivot4, Up, -270.0, RotationDuration * 3.0)])
    ];
    // The start topic is "multi/I9"; no key has a '9' in that place.
    assert forall i :: 0 <= i < |steps| - 1 ==> steps[i].key[7] != '9';
    steps
  }

  /**
   * `checkpointKeys`: the keys of all steps but the last (`Take(Count - 1)`,
   * which is empty for an empty list).
   */
  function CheckpointKeys(steps: seq<Step>): (keys: seq<string>)
    ensures |keys| == if steps == [] then 0 else |steps| - 1
    ensures forall i :: 0 <= i < |keys| ==> keys[i] == steps[i].key
  {
    if steps == [] then [] else seq(|steps| - 1, i requires 0 <= i < |steps| - 1 => steps[i].key)
  }

  /** The actions of `steps`, one step after the other, in the order the routine starts them. */
  function StepActions(steps: seq<Step>): seq<Action> {
    if steps == [] then [] else steps[0].actions + StepActions(steps[1..])
  }

  /** The actions from step `i` on are step `i`'s, then those from step `i + 1` on. */
  lemma StepActionsFrom(steps: seq<Step>, i: nat)
    requires i < |steps|
    ensures StepActions(steps[i..]) == steps[i].actions + StepActions(steps[i + 1..])
  {
    assert steps[i..][1..] == steps[i + 1..];
  }

  /** An action tree without a conveyor gate (the only action that ignores skip). */
  predicate GateFree(a: Action)
    decreases a
  {
    match a
    case ConveyorWait(_, _) => false
    case Parallel(children) => forall i :: 0 <= i < |children| ==> GateFree(children[i])
    case _ => true
  }

  /** Whether a list of actions contains a conveyor gate. */
  predicate HasGate(actions: seq<Action>) {
    exists i :: 0 <= i < |actions| && !GateFree(actions[i])
  }

  /**
   * The run has seventeen steps; the last is the unconfirmed post step, and
   * its key is not among the confirmable keys, so no message can ever
   * confirm it.
   */
  lemma PostKeyNeverConfirmable(pivot4: Vec, pivot5: Vec, axis5: Vec, forward4Sub: Vec)
    ensures var steps := FurnaceSequence(pivot4, pivot5, axis5, forward4Sub);
            && |steps| == 17
            && steps[16].key == PostKey
            && PostKey !in CheckpointKeys(steps)
  {
    var steps := FurnaceSequence(pivot4, pivot5, axis5, forward4Sub);
    var keys := CheckpointKeys(steps);
    forall i | 0 <= i < |keys| ensures keys[i] != PostKey {
      assert keys[i][0] != '_';
    }
  }

  /**
   * Steps 2 and 7, and no other steps, carry the key "multi/Q8:start". Since
   * a run never removes a key from the received set, one confirmation of it
   * can release both steps.
   */
  lemma SharedQ8Key(pivot4: Vec, pivot5: Vec, axis5: Vec, forward4Sub: Vec)
    ensures var steps := FurnaceSequence(pivot4, pivot5, axis5, forward4Sub);
            && steps[2].key == steps[7].key == Q8Key
            && forall i :: 0 <= i < |steps| && steps[i].key == Q8Key ==> i == 2 || i == 7
  {
    var steps := FurnaceSequence(pivot4, pivot5, axis5, forward4Sub);
    forall i | 0 <= i < |steps| && i != 2 && i != 7 ensures steps[i].key != Q8Key {
      assert steps[i].key[7] != '8' || steps[i].key[6] != 'Q' || steps[i].key[0] != 'm';
    }
  }

  /** Only step 15 (key "color/Q2:stop") contains conveyor gates. */
  lemma OnlyStep15Gates(pivot4: Vec, pivot5: Vec, axis5: Vec, forward4Sub: Vec)
    ensures var steps := FurnaceSequence(pivot4, pivot5, axis5, forward4Sub);
            forall i :: 0 <= i < |steps| ==> (HasGate(steps[i].actions) <==> i == 15)
  {
    var steps := FurnaceSequence(pivot4, pivot5, axis5, forward4Sub);
    assert !GateFree(steps[15].actions[0].actions[1]);
    assert !GateFree(steps[15].actions[0]);
    assert GateFree(steps[5].actions[0].actions[0]) && GateFree(steps[5].actions[0].actions[1]);
    assert GateFree(steps[5].actions[0]);
  }
}

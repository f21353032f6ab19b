/**
 * `MovementController`: the checkpoint-synchronised sequencer.
 *
 * Two timelines meet here. The local animation is `SequenceRoutine`, a
 * coroutine that runs the steps of the script one at a time. The external
 * plant controller confirms checkpoints by message, and `DecodeMessage`
 * folds each confirmation into the received set and the skip flag.
 *
 * The coroutine is made explicit: `stepIndex`, `phase`, the actions of the
 * current step not yet started (`pending`) and the started action suspended
 * at a `yield return null` (`active`, a `Task` holding the locals of the
 * suspended coroutine). `Tick(dt)` is one frame: it resumes the suspended
 * work and runs until the next `yield return null`. Messages are applied
 * between frames by `OnMessage`; the start command runs the routine's first
 * segment at once, as `StartCoroutine` does, so it also takes the frame time.
 */
module Controller {
  import opened Wrappers
  import opened Geometry
  import opened Text
  import opened Coroutines
  import opened Script

  /** A transform's position, and the degrees it has been turned about its pivot. */
  datatype Pose = Pose(pos: Vec, turned: real)

  /** The spawned coin: its position, whether its rigidbody is kinematic, and the transform carrying it. */
  datatype Coin = Coin(pos: Vec, kinematic: bool, carrier: Option<Obj>)

  const CoinSpawnPos := Vec(1.396, 1.0, -7.555)

  /** Where a suspended `ConveyorWaitAction` waits: for the coin, for the threshold or signal, for the signal. */
  datatype GateStage = AwaitCoin | AwaitThreshold | AwaitSignal

  /** A started action that has not finished, with the locals its coroutine resumes with. */
  datatype Task =
    | Done
    | Moving(obj: Obj, from: Vec, to: Vec, duration: real, elapsed: real)
    | Rotating(obj: Obj, angle: real, duration: real, elapsed: real)
    | Waiting(duration: real, elapsed: real)
    | Gating(stage: GateStage, threshold: real, stopPos: Vec)
    | Joining(tasks: seq<Task>)

  /** A parallel group's join: done exactly when every child is. */
  function Join(tasks: seq<Task>): (t: Task)
    ensures t == Done <==> forall i :: 0 <= i < |tasks| ==> tasks[i] == Done
    ensures t != Done ==> t == Joining(tasks)
  {
    if forall i :: 0 <= i < |tasks| ==> tasks[i] == Done then Done else Joining(tasks)
  }

  /** What the actions act on: the transforms, the coin and the conveyor signal. */
  datatype World = World(scene: map<Obj, Pose>, coin: Option<Coin>, signal: bool)

  /** The skip state an action sees: skip requested, checkpoint reached, and whether a current key is set. */
  datatype Sync = Sync(skip: bool, reached: bool, keyed: bool)

  /** The skip state in a step the routine has just entered. */
  const Fresh := Sync(false, false, true)

  /** The skip condition `MoveOverTime` checks. */
  predicate MoveSkip(s: Sync) {
    s.skip && !s.reached
  }

  /** The skip condition `RotateAroundPivot` and `WaitOrSkip` check. */
  predicate TimedSkip(s: Sync) {
    s.skip && !s.reached && s.keyed
  }

  /**
   * How a parallel group went in one frame: the world before each child and
   * after the last, what each child left, and each child's own trace.
   */
  datatype Trace = Leaf | Fork(worlds: seq<World>, tasks: seq<Task>, subs: seq<Trace>)

  /**
   * One resumption of a conveyor gate waiting at `stage`, taking the world
   * from `w0` to `w1` and leaving `t`. The gate never touches the transforms.
   */
  ghost predicate GateStep(stage: GateStage, threshold: real, stopPos: Vec, w0: World, w1: World, t: Task) {
    && w1.scene == w0.scene
    // Waiting for the coin to be spawned.
    && (stage == AwaitCoin && w0.coin.None? ==> t == Gating(AwaitCoin, threshold, stopPos) && w1 == w0)
    // Waiting for the coin to pass the threshold, or for the signal.
    && (stage != AwaitSignal && w0.coin.Some? && w0.coin.value.pos.x <= threshold && !w0.signal ==>
          t == Gating(AwaitThreshold, threshold, stopPos) && w1 == w0)
    // Past the threshold or signalled: frozen at the stop position, released at once when signalled.
    && (stage != AwaitSignal && w0.coin.Some? && (w0.coin.value.pos.x > threshold || w0.signal) ==>
          && w1.coin == Some(w0.coin.value.(kinematic := !w0.signal, pos := stopPos))
          && (t == Done <==> w0.signal)
          && (t != Done ==> t == Gating(AwaitSignal, threshold, stopPos) && w1.signal == w0.signal)
          && (t == Done ==> !w1.signal))
    // Holding at the stop position until the signal arrives, which is consumed.
    && (stage == AwaitSignal && w0.coin.Some? ==>
          && (t == Done <==> w0.signal)
          && (t != Done ==> t == Gating(AwaitSignal, threshold, stopPos) && w1 == w0)
          && (t == Done ==> w1.coin == Some(w0.coin.value.(kinematic := false)) && !w1.signal))
  }

  /** An action the routine started: the skip state it saw, the world before and after, and what it left. */
  datatype Launch = Launch(action: Action, sync: Sync, before: World, after: World, task: Task, trace: Trace)

  /** The actions of a log of launches, in order. */
  function Actions(log: seq<Launch>): seq<Action> {
    if log == [] then [] else Actions(log[..|log| - 1]) + [log[|log| - 1].action]
  }

  /** The world a log of launches, starting in `w0`, leaves. */
  function LastWorld(w0: World, log: seq<Launch>): World {
    if log == [] then w0 else log[|log| - 1].after
  }

  /** The task suspended after a log of launches, when `a0` was suspended before it. */
  function LastTask(a0: Task, log: seq<Launch>): Task {
    if log == [] then a0 else log[|log| - 1].task
  }

  /** Whether `SequenceRoutine` is running a step's actions or blocked in its wait for the step's key. */
  datatype Phase = Running | Blocked

  /** How `DecodeMessage` routes a message, in the order of its branches. */
  datatype Route = Recolour | Start | ConveyorSignal | Checkpoint(key: string)

  function RouteOf(topic: string, payload: string, sequenceStarted: bool, coinPresent: bool): (r: Route)
    ensures r.Recolour? <==> topic == ColorTopic && coinPresent
    ensures r.Start? <==>
              !sequenceStarted && topic == StartTopic && EqualsIgnoreCase(Trim(payload), StartMessage)
    ensures r.ConveyorSignal? <==>
              && (topic == ConveyorSignalTopic1 || topic == ConveyorSignalTopic2)
              && EqualsIgnoreCase(Trim(payload), ConveyorSignalMessage)
    ensures r.Checkpoint? ==> r.key == CheckpointKey(topic, Trim(payload))
  {
    var msg := Trim(payload);
    if topic == ColorTopic && coinPresent then Recolour
    else if !sequenceStarted && topic == StartTopic && EqualsIgnoreCase(msg, StartMessage) then Start
    else if topic == ConveyorSignalTopic1 && EqualsIgnoreCase(msg, ConveyorSignalMessage) then ConveyorSignal
    else if topic == ConveyorSignalTopic2 && EqualsIgnoreCase(msg, ConveyorSignalMessage) then ConveyorSignal
    else Checkpoint(CheckpointKey(topic, msg))
  }

  /**
   * A start command that arrives while a run is in progress falls through to
   * the checkpoint branch, and its key is none of the run's checkpoint keys,
   * so `OnMessage` leaves the controller unchanged.
   */
  lemma SecondStartIgnored(payload: string, coinPresent: bool, pivot4: Vec, pivot5: Vec, axis5: Vec, forward4Sub: Vec)
    ensures var r := RouteOf(StartTopic, payload, true, coinPresent);
            && r.Checkpoint?
            && r.key !in CheckpointKeys(FurnaceSequence(pivot4, pivot5, axis5, forward4Sub))
  {
    var r := RouteOf(StartTopic, payload, true, coinPresent);
    var keys := CheckpointKeys(FurnaceSequence(pivot4, pivot5, axis5, forward4Sub));
    assert OnTopic(r.key, StartTopic);
    forall i | 0 <= i < |keys| ensures keys[i] != r.key {
      assert !OnTopic(keys[i], StartTopic);
    }
  }

  /** Timed tasks have a positive duration; without a coin no gate has got past waiting for it. */
  ghost predicate TaskOk(t: Task, coinPresent: bool)
    decreases t
  {
    match t
    case Moving(_, _, _, duration, _) => duration > 0.0
    case Rotating(_, _, duration, _) => duration > 0.0
    case Gating(stage, _, _) => coinPresent || stage == AwaitCoin
    case Joining(tasks) => forall i :: 0 <= i < |tasks| ==> TaskOk(tasks[i], coinPresent)
    case _ => true
  }

  ghost predicate TaskHasGate(t: Task)
    decreases t
  {
    match t
    case Gating(_, _, _) => true
    case Joining(tasks) => exists i :: 0 <= i < |tasks| && TaskHasGate(tasks[i])
    case _ => false
  }

  /**
   * Where a segment of the routine began: the step, whether it was a skipped
   * step with no gate left, the world,
   * the skip state, the actions left in the step, the agenda and the
   * suspended task, the frame time, and the received set, ready flag and
   * conveyor signal at that point.
   */
  datatype Segment = Segment(s0: nat, fast: bool, w0: World, sync0: Sync, p0: nat,
                             agenda0: seq<Action>, a0: Task, dt: real,
                             received0: set<string>, ready0: bool, signal0: bool)

  /**
   * The part of the controller's state a segment of the routine works on:
   * the world, the skip state, whether a run is going, the step, its phase,
   * the step's actions not yet started, the suspended task, the received
   * keys and the ready flag.
   */
  datatype Snapshot = Snapshot(world: World, sync: Sync, started: bool, step: nat, phase: Phase,
                               pending: seq<Action>, active: Task, received: set<string>, ready: bool)

  class MovementController {
    /** The transforms set in the inspector; the others are null references. */
    const present: set<Obj>
    const hasCoinPrefab: bool
    /** The steps `SequenceRoutine` runs. */
    const script: seq<Step>

    var scene: map<Obj, Pose>
    var coin: Option<Coin>
    /** The readiness indicator (`uiController.SetReady`). */
    var ready: bool

    var sequenceStarted: bool
    var skipToCheckpoint: bool
    var reachedCheckpoint: bool
    var conveyorSignalReceived: bool
    var checkpointKeys: seq<string>
    var receivedCheckpoints: set<string>
    var currentCheckpointKey: Option<string>

    var stepIndex: nat
    var phase: Phase
    var pending: seq<Action>
    var active: Task

    /** No run in progress: all checkpoint tracking is clear. */
    ghost predicate Idle()
      reads this
    {
      && checkpointKeys == [] && receivedCheckpoints == {} && currentCheckpointKey == None
      && coin == None && !skipToCheckpoint && !reachedCheckpoint && pending == [] && active == Done
    }

    /** The checkpoint tracking agrees with the step the routine is on. */
    ghost predicate TrackingOk()
      reads this`sequenceStarted, this`stepIndex, this`phase, this`checkpointKeys, this`receivedCheckpoints,
            this`currentCheckpointKey, this`skipToCheckpoint, this`reachedCheckpoint
    {
      && (forall k :: k in receivedCheckpoints ==> k in checkpointKeys)
      && (!sequenceStarted ==>
            && checkpointKeys == [] && receivedCheckpoints == {} && currentCheckpointKey == None
            && !skipToCheckpoint && !reachedCheckpoint)
      && (sequenceStarted ==>
            && stepIndex < |script|
            && checkpointKeys == CheckpointKeys(script)
            && currentCheckpointKey == Some(script[stepIndex].key)
            && (phase == Running ==> !reachedCheckpoint)
            && (phase == Blocked ==> reachedCheckpoint && script[stepIndex].key != PostKey))
      && (skipToCheckpoint ==>
            && sequenceStarted && phase == Running
            && script[stepIndex].key in receivedCheckpoints)
    }

    /**
     * The routine's work agrees with the run: nothing pending or suspended
     * outside a run or while blocked, and a coin exactly when the run spawned one.
     */
    ghost predicate WorkOk()
      reads this`sequenceStarted, this`phase, this`pending, this`active, this`coin
    {
      && (!sequenceStarted ==> coin == None && pending == [] && active == Done)
      && (sequenceStarted && phase == Blocked ==> pending == [] && active == Done)
      && (sequenceStarted ==> coin.Some? == hasCoinPrefab)
      && TaskOk(active, coin.Some?)
    }

    ghost predicate Valid()
      reads this
    {
      && (forall o: Obj :: o in scene)
      && |script| > 0
      && TrackingOk()
      && WorkOk()
    }

    /** The part of the controller the actions act on. */
    ghost function W(): World
      reads this`scene, this`coin, this`conveyorSignalReceived
    {
      World(scene, coin, conveyorSignalReceived)
    }

    /** The skip state the actions see. */
    function Now(): Sync
      reads this`skipToCheckpoint, this`reachedCheckpoint, this`currentCheckpointKey
    {
      Sync(skipToCheckpoint, reachedCheckpoint, currentCheckpointKey.Some?)
    }

    /**
     * The actions the routine has still to start in this run: the rest of the
     * current step, then every later step's actions. Empty outside a run.
     */
    ghost function Agenda(): seq<Action>
      reads this`sequenceStarted, this`stepIndex, this`pending
    {
      AgendaAt(sequenceStarted, stepIndex, pending)
    }

    /**
     * The actions still to start with a run going (`started`) on step `k`
     * with `pending` left of it.
     */
    ghost function AgendaAt(started: bool, k: nat, pending: seq<Action>): seq<Action> {
      if started && k < |script| then pending + StepActions(script[k + 1..]) else []
    }

    /** `l` records a genuine start of its action. */
    ghost predicate Launched(l: Launch, dt: real) {
      Starts(l.action, l.sync, dt, l.before, l.after, l.task, l.trace)
    }

    /**
     * The routine started from world `w0` with `a0` suspended, seeing skip
     * state `s0` on the current step (which had `p0` actions left) and with
     * `agenda0` still to start. It has made the launches of `log` and reached
     * world `w1`, agenda `agenda1`, running flag `running` and task `a1`:
     * - the launched actions are the head of the agenda, in order;
     * - each is a genuine start, seeing `s0` on the current step and a fresh
     *   skip state on the steps after it;
     * - nothing is launched while a task is suspended; each launch starts in
     *   the world the previous one left, which finished at once;
     * - the world is the last launch's, with the coin gone if the run ended;
     * - a run still going is suspended on the last launch's task.
     */
    ghost predicate Ran(w0: World, s0: Sync, p0: nat, agenda0: seq<Action>, a0: Task, dt: real,
                        log: seq<Launch>, w1: World, agenda1: seq<Action>, running: bool, a1: Task)
    {
      && Actions(log) + agenda1 == agenda0
      && Launches(s0, p0, dt, log)
      && (log != [] ==> a0 == Done && log[0].before == w0)
      && w1 == (if running then LastWorld(w0, log) else LastWorld(w0, log).(coin := None))
      && (running ==> a1 == LastTask(a0, log))
    }

    /**
     * Each launch of `log` is a genuine start, seeing `s0` while the first
     * `p0` launches are made and a fresh skip state after; every launch but
     * the last finished at once, and the next started in the world it left.
     */
    ghost predicate Launches(s0: Sync, p0: nat, dt: real, log: seq<Launch>)
      decreases |log|
    {
      log != [] ==>
        var k := |log| - 1;
        && Launches(s0, p0, dt, log[..k])
        && Launched(log[k], dt) && log[k].sync == (if k < p0 then s0 else Fresh)
        && (k > 0 ==> log[k - 1].task == Done && log[k - 1].after == log[k].before)
    }

    /** `Launches`, stated launch by launch. */
    lemma {:induction false} LaunchesEach(s0: Sync, p0: nat, dt: real, log: seq<Launch>)
      requires Launches(s0, p0, dt, log)
      ensures forall k :: 0 <= k < |log| ==> Launched(log[k], dt) && log[k].sync == (if k < p0 then s0 else Fresh)
      ensures forall k :: 0 <= k < |log| - 1 ==> log[k].task == Done && log[k].after == log[k + 1].before
      decreases |log|
    {
      if log != [] {
        var k := |log| - 1;
        LaunchesEach(s0, p0, dt, log[..k]);
        assert forall j :: 0 <= j < k ==> log[..k][j] == log[j];
      }
    }

    /** A routine that has made no launch yet has run nothing. */
    lemma RanNothing(w0: World, s0: Sync, p0: nat, agenda0: seq<Action>, a0: Task, dt: real)
      ensures Ran(w0, s0, p0, agenda0, a0, dt, [], w0, agenda0, true, a0)
    {
      assert Actions([]) == [];
    }

    /** Launching the next action due, when nothing is suspended, extends the run by that launch. */
    lemma RanExtend(w0: World, s0: Sync, p0: nat, agenda0: seq<Action>, a0: Task, dt: real,
                    log: seq<Launch>, agenda1: seq<Action>, l: Launch)
      requires Ran(w0, s0, p0, agenda0, a0, dt, log, l.before, agenda1, true, Done)
      requires agenda1 != [] && l.action == agenda1[0]
      requires Launched(l, dt) && l.sync == (if |log| < p0 then s0 else Fresh)
      ensures Ran(w0, s0, p0, agenda0, a0, dt, log + [l], l.after, agenda1[1..], true, l.task)
    {
      assert (log + [l])[..|log|] == log;
      assert Actions(log + [l]) == Actions(log) + [l.action];
      assert agenda1 == [l.action] + agenda1[1..];
    }

    /** A run that ends after its last launch has taken the coin away. */
    lemma RanEnds(w0: World, s0: Sync, p0: nat, agenda0: seq<Action>, a0: Task, dt: real,
                  log: seq<Launch>, w1: World, agenda1: seq<Action>, a1: Task)
      requires Ran(w0, s0, p0, agenda0, a0, dt, log, w1, agenda1, true, LastTask(a0, log))
      ensures Ran(w0, s0, p0, agenda0, a0, dt, log, w1.(coin := None), agenda1, false, a1)
    {
    }

    /** Starting the head of the current step leaves the rest of the agenda. */
    lemma AgendaTail(pending: seq<Action>, later: seq<Action>)
      requires pending != []
      ensures (pending + later)[1..] == pending[1..] + later
    {
    }

    /** The skip condition `MoveOverTime` checks. */
    predicate MoveSkips()
      reads this`skipToCheckpoint, this`reachedCheckpoint
    {
      skipToCheckpoint && !reachedCheckpoint
    }

    /** The skip condition `RotateAroundPivot` and `WaitOrSkip` check. */
    predicate TimedSkips()
      reads this`skipToCheckpoint, this`reachedCheckpoint, this`currentCheckpointKey
    {
      skipToCheckpoint && !reachedCheckpoint && currentCheckpointKey.Some?
    }

    /**
     * The steps from `from` up to, not including, `to` need no confirmation
     * beyond `received`: each key is the final one or has been received.
     */
    ghost predicate Confirmed(from: nat, to: nat, received: set<string>) {
      forall j :: from <= j < to && j < |script| ==> script[j].key == PostKey || script[j].key in received
    }

    /** The rest of the current step contains no conveyor gate. */
    ghost predicate StepGateFree()
      reads this
    {
      !TaskHasGate(active) && forall i :: 0 <= i < |pending| ==> GateFree(pending[i])
    }

    /** `Start()`: the controller comes up idle with the readiness indicator raised. */
    constructor (script: seq<Step>, present: set<Obj>, initial: map<Obj, Pose>, hasCoinPrefab: bool)
      requires |script| > 0
      requires forall o: Obj :: o in initial
      ensures Valid() && ready && !sequenceStarted && !conveyorSignalReceived && coin == None
      ensures this.script == script && this.present == present && this.hasCoinPrefab == hasCoinPrefab
      ensures scene == initial
    {
      this.script := script;
      this.present := present;
      this.hasCoinPrefab := hasCoinPrefab;
      scene := initial;
      coin := None;
      ready := true;
      sequenceStarted, skipToCheckpoint, reachedCheckpoint, conveyorSignalReceived := false, false, false, false;
      checkpointKeys, receivedCheckpoints, currentCheckpointKey := [], {}, None;
      stepIndex, phase, pending, active := 0, Running, [], Done;
    }

    /**
     * What handling a message of the given route does to the controller. A
     * colour message while a coin exists only recolours it. A start command
     * while no run is in progress starts one. A conveyor signal sets the
     * conveyor flag. Anything else is a checkpoint confirmation if its key is
     * one of the run's checkpoint keys: the key is added to the received set,
     * and if it is the current step's key and the step's actions have not
     * finished, skip is requested. Every other message changes nothing.
     */
    twostate predicate Handled(route: Route, dt: real)
      reads this
    {
      match route
      case Recolour => unchanged(this)
      case ConveyorSignal =>
        && conveyorSignalReceived
        && unchanged(this`scene, this`coin, this`ready, this`sequenceStarted, this`skipToCheckpoint,
                     this`reachedCheckpoint, this`checkpointKeys, this`receivedCheckpoints,
                     this`currentCheckpointKey, this`stepIndex, this`phase, this`pending, this`active)
      case Checkpoint(key) =>
        if key in old(checkpointKeys) then
          && receivedCheckpoints == old(receivedCheckpoints) + {key}
          && skipToCheckpoint
             == (old(skipToCheckpoint) || (!old(reachedCheckpoint) && old(currentCheckpointKey) == Some(key)))
          && unchanged(this`scene, this`coin, this`ready, this`sequenceStarted, this`conveyorSignalReceived,
                       this`reachedCheckpoint, this`checkpointKeys, this`currentCheckpointKey,
                       this`stepIndex, this`phase, this`pending, this`active)
        else unchanged(this)
      case Start =>
        && receivedCheckpoints == {} && !conveyorSignalReceived
        && (|script| > 0 && script[0].key != PostKey ==>
              && sequenceStarted && !ready && stepIndex == 0
              && checkpointKeys == CheckpointKeys(script)
              && currentCheckpointKey == Some(script[0].key)
              && coin.Some? == hasCoinPrefab)
        && (|script| > 0 ==>
              exists log :: Ran(old(W()).(coin := SpawnedCoin(), signal := false), Fresh, |script[0].actions|,
                                StepActions(script), Done, dt, log, W(), Agenda(), sequenceStarted, active))
        && (sequenceStarted ==> phase == Blocked || active != Done)
    }

    /** `DecodeMessage`: the message is routed as `RouteOf` says and handled accordingly. */
    method OnMessage(topic: string, payload: string, dt: real)
      requires Valid()
      modifies this
      ensures Valid()
      ensures Handled(RouteOf(topic, payload, old(sequenceStarted), old(coin).Some?), dt)
    {
      Dispatch(RouteOf(topic, payload, sequenceStarted, coin.Some?), dt);
    }

    /** The branches of `DecodeMessage`, once the message has been routed. */
    method Dispatch(route: Route, dt: real)
      requires Valid()
      requires route.Start? ==> !sequenceStarted
      modifies this
      ensures Valid() && Handled(route, dt)
    {
      match route
      case Recolour =>
        // Recolouring the coin's renderer is outside the model.
      case Start =>
        ghost var log := StartRun(dt);
      case ConveyorSignal =>
        conveyorSignalReceived := true;
      case Checkpoint(key) =>
        Confirm(key);
    }

    /**
     * The start branch of `DecodeMessage`: lower the ready indicator, spawn
     * the coin and start `SequenceRoutine`, which runs to its first suspension.
     */
    method StartRun(dt: real) returns (ghost log: seq<Launch>)
      requires Valid() && !sequenceStarted
      modifies this
      ensures Valid()
      ensures receivedCheckpoints == {} && !conveyorSignalReceived
      ensures script[0].key != PostKey ==>
                && sequenceStarted && !ready && stepIndex == 0
                && checkpointKeys == CheckpointKeys(script)
                && currentCheckpointKey == Some(script[0].key)
                && coin.Some? == hasCoinPrefab
      ensures Ran(old(W()).(coin := SpawnedCoin(), signal := false), Fresh, |script[0].actions|,
                  StepActions(script), Done, dt, log, W(), Agenda(), sequenceStarted, active)
      ensures sequenceStarted ==> phase == Blocked || active != Done
    {
      sequenceStarted := true;
      ready := false;
      SpawnCoin();
      log := BeginSequence(dt);
    }

    /**
     * The checkpoint branch of `DecodeMessage`: a key of the run is recorded
     * as received, and requests skip when it is the current step's key and
     * the step's actions are still running.
     */
    method Confirm(key: string)
      requires Valid()
      modifies this`receivedCheckpoints, this`skipToCheckpoint
      ensures Valid()
      ensures key !in checkpointKeys ==> unchanged(this`receivedCheckpoints, this`skipToCheckpoint)
      ensures key in checkpointKeys ==>
                && receivedCheckpoints == old(receivedCheckpoints) + {key}
                && skipToCheckpoint == (old(skipToCheckpoint) || (!reachedCheckpoint && currentCheckpointKey == Some(key)))
    {
      if key in checkpointKeys {
        receivedCheckpoints := receivedCheckpoints + {key};
        if !reachedCheckpoint && Some(key) == currentCheckpointKey {
          skipToCheckpoint := true;
        }
      }
    }

    /** The coin `SpawnCoin` makes: a kinematic coin at the spawn point, if a prefab is configured. */
    function SpawnedCoin(): (c: Option<Coin>)
      ensures c.Some? <==> hasCoinPrefab
      ensures c.Some? ==> c.value.pos == CoinSpawnPos && c.value.kinematic && c.value.carrier == None
    {
      if hasCoinPrefab then Some(Coin(CoinSpawnPos, true, None)) else None
    }

    /** `SpawnCoin`. */
    method SpawnCoin()
      requires coin == None
      modifies this`coin
      ensures coin == SpawnedCoin()
    {
      if hasCoinPrefab {
        coin := Some(Coin(CoinSpawnPos, true, None));
      }
    }

    /**
     * The coin moves to `p` between frames: physics moving a dynamic coin,
     * or a carrier moving the kinematic coin it holds. Nothing else changes.
     */
    method MoveCoin(p: Vec)
      requires Valid() && coin.Some?
      modifies this`coin
      ensures Valid()
      ensures coin == Some(old(coin).value.(pos := p))
    {
      coin := Some(coin.value.(pos := p));
    }

    /**
     * The opening of `SequenceRoutine`: clear the tracking state, install the
     * checkpoint keys, enter step 0 and run to the first suspension.
     */
    method BeginSequence(dt: real) returns (ghost log: seq<Launch>)
      requires sequenceStarted && |script| > 0 && (forall o: Obj :: o in scene)
      requires coin.Some? == hasCoinPrefab && !ready
      modifies this
      ensures Valid()
      ensures receivedCheckpoints == {} && !conveyorSignalReceived
      ensures script[0].key != PostKey ==>
                && sequenceStarted && !ready && stepIndex == 0
                && checkpointKeys == CheckpointKeys(script)
                && currentCheckpointKey == Some(script[0].key)
                && coin.Some? == hasCoinPrefab
      ensures Ran(old(W()).(signal := false), Fresh, |script[0].actions|, StepActions(script), Done, dt, log,
                  W(), Agenda(), sequenceStarted, active)
      ensures sequenceStarted ==> phase == Blocked || active != Done
    {
      ResetTracking();
      assert StepActions(script) == script[0].actions + StepActions(script[1..]);
      log := RunSegment(dt);
    }

    /** The resets at the head of `SequenceRoutine`, the key list, and entry into step 0. */
    method ResetTracking()
      requires sequenceStarted && |script| > 0 && (forall o: Obj :: o in scene)
      requires coin.Some? == hasCoinPrefab
      modifies this`receivedCheckpoints, this`checkpointKeys, this`skipToCheckpoint, this`reachedCheckpoint,
               this`currentCheckpointKey, this`conveyorSignalReceived, this`stepIndex, this`active,
               this`pending, this`phase
      ensures Valid() && phase == Running && stepIndex == 0
      ensures receivedCheckpoints == {} && !conveyorSignalReceived && !skipToCheckpoint
      ensures checkpointKeys == CheckpointKeys(script) && currentCheckpointKey == Some(script[0].key)
      ensures pending == script[0].actions && active == Done && Now() == Fresh
      ensures W() == old(W()).(signal := false)
    {
      receivedCheckpoints := {};
      checkpointKeys := [];
      skipToCheckpoint := false;
      reachedCheckpoint := false;
      currentCheckpointKey := None;
      conveyorSignalReceived := false;
      checkpointKeys := CheckpointKeys(script);
      stepIndex := 0;
      active := Done;
      EnterStep();
    }

    /** The head of the step loop: the current key becomes the step's key, not yet reached. */
    method EnterStep()
      requires sequenceStarted && stepIndex < |script|
      modifies this`currentCheckpointKey, this`reachedCheckpoint, this`pending, this`active, this`phase
      ensures currentCheckpointKey == Some(script[stepIndex].key) && !reachedCheckpoint
      ensures pending == script[stepIndex].actions && active == Done && phase == Running
    {
      currentCheckpointKey := Some(script[stepIndex].key);
      reachedCheckpoint := false;
      pending := script[stepIndex].actions;
      active := Done;
      phase := Running;
    }

    /**
     * The tail of the step loop once the step's key needs no more waiting:
     * skip and reached are cleared, then the next step is entered, or after
     * the last step the run ends.
     */
    method FinishStep()
      requires Valid() && sequenceStarted && pending == [] && active == Done
      requires script[stepIndex].key == PostKey || script[stepIndex].key in receivedCheckpoints
      modifies this`skipToCheckpoint, this`reachedCheckpoint, this`stepIndex, this`currentCheckpointKey,
               this`pending, this`active, this`phase, this`ready, this`sequenceStarted,
               this`checkpointKeys, this`receivedCheckpoints, this`coin
      ensures Valid()
      ensures !skipToCheckpoint && !reachedCheckpoint
      ensures sequenceStarted ==>
                && stepIndex == old(stepIndex) + 1 && phase == Running
                && pending == script[stepIndex].actions && active == Done && Now() == Fresh
                && unchanged(this`coin, this`ready, this`receivedCheckpoints)
      ensures !sequenceStarted ==> old(stepIndex) == |script| - 1 && ready && coin == None
      ensures Agenda() == old(Agenda())
      ensures W() == if sequenceStarted then old(W()) else old(W()).(coin := None)
    {
      if stepIndex + 1 < |script| {
        StepActionsFrom(script, stepIndex + 1);
        NextStep();
      } else {
        EndRun();
      }
    }

    /** Skip and reached are cleared and the loop goes on to the next step. */
    method NextStep()
      requires Valid() && sequenceStarted && pending == [] && active == Done && stepIndex + 1 < |script|
      modifies this`skipToCheckpoint, this`reachedCheckpoint, this`stepIndex, this`currentCheckpointKey,
               this`pending, this`active, this`phase
      ensures Valid() && sequenceStarted && stepIndex == old(stepIndex) + 1 && phase == Running
      ensures pending == script[stepIndex].actions && active == Done && Now() == Fresh
    {
      skipToCheckpoint := false;
      reachedCheckpoint := false;
      stepIndex := stepIndex + 1;
      EnterStep();
    }

    /** After the last step: ready is signalled and all tracking state is cleared. */
    method EndRun()
      requires (forall o: Obj :: o in scene) && |script| > 0 && pending == [] && active == Done
      modifies this`skipToCheckpoint, this`reachedCheckpoint, this`currentCheckpointKey, this`phase,
               this`ready, this`sequenceStarted, this`checkpointKeys, this`receivedCheckpoints, this`coin
      ensures Valid() && !sequenceStarted && ready && Idle()
    {
      ready := true;
      sequenceStarted := false;
      skipToCheckpoint := false;
      reachedCheckpoint := false;
      currentCheckpointKey := None;
      checkpointKeys := [];
      receivedCheckpoints := {};
      coin := None;
      phase := Running;
    }

    /**
     * Run the routine from where it stands until the next `yield return null`:
     * start the step's remaining actions in order while each finishes at
     * once; when none remain, mark the checkpoint reached and either block on
     * the step's key (a non-final key not yet received) or go on to the next
     * step. A step whose skip was requested and whose remaining actions have
     * no conveyor gate is finished within this call. The launches made are
     * returned in `log`.
     */
    method RunSegment(dt: real) returns (ghost log: seq<Launch>)
      requires Valid() && sequenceStarted && phase == Running
      modifies this
      ensures Valid()
      ensures Ran(old(W()), old(Now()), |old(pending)|, old(Agenda()), old(active), dt, log,
                  W(), Agenda(), sequenceStarted, active)
      ensures sequenceStarted ==> old(stepIndex) <= stepIndex && receivedCheckpoints == old(receivedCheckpoints)
      ensures sequenceStarted ==> phase == Blocked || active != Done
      ensures sequenceStarted ==> Confirmed(old(stepIndex), stepIndex, old(receivedCheckpoints))
      ensures !sequenceStarted ==> Confirmed(old(stepIndex), |script|, old(receivedCheckpoints))
      ensures sequenceStarted && phase == Blocked ==> script[stepIndex].key !in receivedCheckpoints
      ensures !sequenceStarted ==> ready && coin == None
      ensures old(skipToCheckpoint) && old(active) == Done && old(StepGateFree()) ==>
                !sequenceStarted || stepIndex > old(stepIndex)
      ensures old(script[stepIndex].key) != PostKey && old(script[stepIndex].key) !in old(receivedCheckpoints) ==>
                sequenceStarted && stepIndex == old(stepIndex)
      ensures sequenceStarted ==> ready == old(ready)
      ensures !old(conveyorSignalReceived) ==> !conveyorSignalReceived
    {
      ghost var g := Segment(stepIndex, skipToCheckpoint && active == Done && StepGateFree(), W(), Now(), |pending|, Agenda(), active, dt,
                             receivedCheckpoints, ready, conveyorSignalReceived);
      RanNothing(g.w0, g.sync0, g.p0, g.agenda0, g.a0, dt);
      ghost var s;
      log, s := SegmentLoop(dt, g);
    }

    /** `RunSegment`'s loop. */
    method SegmentLoop(dt: real, ghost g: Segment) returns (ghost log: seq<Launch>, ghost s: Snapshot)
      requires Valid() && SegmentInv(g, [], Snap()) && g.dt == dt
      modifies this
      ensures Valid() && SegmentInv(g, log, s) && s == Snap()
      ensures s.started ==> s.phase == Blocked || s.active != Done
    {
      s := Snap();
      log := [];
      while sequenceStarted && phase == Running && active == Done
        invariant Valid() && SegmentInv(g, log, s) && s == Snap()
        decreases (if s.started then |script| - s.step else 0), |s.pending|, if s.phase == Running then 1 else 0
      {
        if pending != [] {
          log, s := SegmentStart(dt, g, log, s);
        } else {
          s := SegmentReach(g, log, s);
        }
      }
    }

    /** The controller's state as a `Snapshot`. */
    ghost function Snap(): Snapshot
      reads this`scene, this`coin, this`conveyorSignalReceived, this`skipToCheckpoint, this`reachedCheckpoint,
            this`currentCheckpointKey, this`sequenceStarted, this`stepIndex, this`phase, this`pending,
            this`active, this`receivedCheckpoints, this`ready
    {
      Snapshot(W(), Now(), sequenceStarted, stepIndex, phase, pending, active, receivedCheckpoints, ready)
    }

    /** `Agenda`, in state `s`. */
    ghost function AgendaOf(s: Snapshot): seq<Action> {
      AgendaAt(s.started, s.step, s.pending)
    }

    /**
     * What `RunSegment` keeps while it runs, about state `s` after the
     * launches of `log`: they are a run of the routine from the segment's
     * start (`Ran`), the skip state is the one seen at the start while still
     * on the first step and fresh after, the received set, the ready flag and
     * an unset conveyor signal are untouched, a skipped gate-free step or
     * a key not yet received has the effect `RunSegment` promises, and every
     * step left behind has the final key or one received before the segment.
     */
    ghost predicate SegmentInv(g: Segment, log: seq<Launch>, s: Snapshot)
    {
      && g.s0 < |script|
      && Ran(g.w0, g.sync0, g.p0, g.agenda0, g.a0, g.dt, log, s.world, AgendaOf(s), s.started, s.active)
      && (s.started && s.phase == Running && s.step == g.s0 ==> s.sync == g.sync0 && |log| + |s.pending| == g.p0)
      && (s.started && s.step != g.s0 ==> |log| >= g.p0 && (s.phase == Running ==> s.sync == Fresh))
      && (s.started ==> g.s0 <= s.step && s.received == g.received0 && s.ready == g.ready0)
      && (!s.started ==> s.ready && s.world.coin == None)
      && (g.fast && s.started && s.step == g.s0 ==>
            s.sync.skip && s.active == Done && forall i :: 0 <= i < |s.pending| ==> GateFree(s.pending[i]))
      && (script[g.s0].key != PostKey && script[g.s0].key !in g.received0 ==> s.started && s.step == g.s0)
      && (s.started && s.phase == Blocked && s.step < |script| ==> script[s.step].key !in s.received)
      && (!g.signal0 ==> !s.world.signal)
      && (s.started ==> Confirmed(g.s0, s.step, g.received0))
      && (!s.started ==> Confirmed(g.s0, |script|, g.received0))
    }

    /** Launching the step's next action keeps `SegmentInv`. */
    lemma SegmentLaunch(g: Segment, log: seq<Launch>, s: Snapshot, l: Launch)
      requires SegmentInv(g, log, s) && s.started && s.phase == Running && s.active == Done && s.pending != []
      requires s.step < |script|
      requires l.action == s.pending[0] && Launched(l, g.dt) && l.sync == s.sync && l.before == s.world
      requires s.sync.skip && GateFree(l.action) ==> l.task == Done
      requires !s.world.signal ==> !l.after.signal
      ensures SegmentInv(g, log + [l], s.(world := l.after, pending := s.pending[1..], active := l.task))
    {
      assert |log| < g.p0 <==> s.step == g.s0;
      AgendaTail(s.pending, StepActions(script[s.step + 1..]));
      RanExtend(g.w0, g.sync0, g.p0, g.agenda0, g.a0, g.dt, log, AgendaOf(s), l);
    }

    /** Blocking on a key not yet received keeps `SegmentInv`. */
    lemma SegmentBlock(g: Segment, log: seq<Launch>, s: Snapshot)
      requires SegmentInv(g, log, s) && s.started && s.phase == Running
      requires s.step < |script| && script[s.step].key != PostKey && script[s.step].key !in s.received
      ensures SegmentInv(g, log, s.(phase := Blocked, sync := s.sync.(reached := true)))
    {
    }

    /**
     * Finishing a step whose actions are all done and whose key needs no
     * wait keeps `SegmentInv`, whether the run goes on to the next step
     * (`s'.started`) or ends, taking the coin away.
     */
    lemma SegmentFinish(g: Segment, log: seq<Launch>, s: Snapshot, s': Snapshot)
      requires SegmentInv(g, log, s) && s.started && s.phase == Running && s.active == Done && s.pending == []
      requires s.step < |script| && (script[s.step].key == PostKey || script[s.step].key in s.received)
      requires AgendaOf(s') == AgendaOf(s)
      requires s'.started ==>
                 && s'.step == s.step + 1 && s'.phase == Running && s'.active == Done && s'.sync == Fresh
                 && s'.world == s.world && s'.received == s.received && s'.ready == s.ready
      requires !s'.started ==> s'.ready && s'.world == s.world.(coin := None) && s.step == |script| - 1
      ensures SegmentInv(g, log, s')
    {
      if !s'.started {
        RanEnds(g.w0, g.sync0, g.p0, g.agenda0, g.a0, g.dt, log, s.world, AgendaOf(s), s'.active);
      }
    }

    /** `RunSegment`'s loop, starting the next action of the step. */
    method SegmentStart(dt: real, ghost g: Segment, ghost log: seq<Launch>, ghost s: Snapshot)
      returns (ghost log': seq<Launch>, ghost s': Snapshot)
      requires Valid() && SegmentInv(g, log, s) && s == Snap() && g.dt == dt
      requires sequenceStarted && phase == Running && active == Done && pending != []
      modifies this`scene, this`coin, this`conveyorSignalReceived, this`pending, this`active
      ensures Valid() && SegmentInv(g, log', s') && s' == Snap()
      ensures s'.started == s.started && s'.step == s.step && s'.phase == s.phase && |s'.pending| < |s.pending|
    {
      ghost var l := StartNext(dt);
      SegmentLaunch(g, log, s, l);
      log' := log + [l];
      s' := s.(world := l.after, pending := s.pending[1..], active := l.task);
    }

    /** `RunSegment`'s loop, once the step's actions are all done. */
    method SegmentReach(ghost g: Segment, ghost log: seq<Launch>, ghost s: Snapshot) returns (ghost s': Snapshot)
      requires Valid() && SegmentInv(g, log, s) && s == Snap()
      requires sequenceStarted && phase == Running && active == Done && pending == []
      modifies this`skipToCheckpoint, this`reachedCheckpoint, this`stepIndex, this`currentCheckpointKey,
               this`pending, this`active, this`phase, this`ready, this`sequenceStarted,
               this`checkpointKeys, this`receivedCheckpoints, this`coin
      ensures Valid() && SegmentInv(g, log, s') && s' == Snap()
      ensures !s'.started || s'.step > s.step || (s'.step == s.step && s'.phase == Blocked)
    {
      ghost var blocks := script[stepIndex].key != PostKey && script[stepIndex].key !in receivedCheckpoints;
      ghost var agenda := Agenda();
      ReachCheckpoint();
      s' := Snap();
      if blocks {
        SegmentBlock(g, log, s);
      } else {
        SegmentFinish(g, log, s, s');
      }
    }

    /**
     * The step's actions are done and its checkpoint is reached. A non-final
     * key not yet received blocks the routine; otherwise the wait is passed
     * over and the step is finished at once, so only a blocking step keeps
     * `reachedCheckpoint` set.
     */
    method ReachCheckpoint()
      requires Valid() && sequenceStarted && phase == Running && pending == [] && active == Done
      modifies this`skipToCheckpoint, this`reachedCheckpoint, this`stepIndex, this`currentCheckpointKey,
               this`pending, this`active, this`phase, this`ready, this`sequenceStarted,
               this`checkpointKeys, this`receivedCheckpoints, this`coin
      ensures Valid()
      ensures var key := script[old(stepIndex)].key;
              key != PostKey && key !in old(receivedCheckpoints) ==>
                && sequenceStarted && phase == Blocked && reachedCheckpoint && stepIndex == old(stepIndex)
                && unchanged(this`coin, this`ready, this`receivedCheckpoints)
      ensures var key := script[old(stepIndex)].key;
              key == PostKey || key in old(receivedCheckpoints) ==>
                && !skipToCheckpoint
                && (sequenceStarted ==>
                      && stepIndex == old(stepIndex) + 1 && phase == Running && active == Done
                      && Now() == Fresh
                      && unchanged(this`coin, this`ready, this`receivedCheckpoints))
                && (!sequenceStarted ==> ready && coin == None && old(stepIndex) == |script| - 1)
      ensures Agenda() == old(Agenda())
      ensures W() == if sequenceStarted then old(W()) else old(W()).(coin := None)
    {
      var key := script[stepIndex].key;
      if key != PostKey && key !in receivedCheckpoints {
        reachedCheckpoint := true;
        phase := Blocked;
      } else {
        FinishStep();
      }
    }

    /** Start the next action of the current step. */
    method StartNext(dt: real) returns (ghost l: Launch)
      requires Valid() && sequenceStarted && phase == Running && active == Done && pending != []
      modifies this`scene, this`coin, this`conveyorSignalReceived, this`pending, this`active
      ensures Valid()
      ensures pending == old(pending)[1..]
      ensures TimedSkips() && GateFree(old(pending)[0]) ==> active == Done
      ensures !old(conveyorSignalReceived) ==> !conveyorSignalReceived
      ensures l.action == old(pending)[0] && l.sync == Sync(skipToCheckpoint, reachedCheckpoint, currentCheckpointKey.Some?)
      ensures l.before == World(old(scene), old(coin), old(conveyorSignalReceived))
      ensures l.after == World(scene, coin, conveyorSignalReceived)
      ensures l.task == active && Launched(l, dt)
    {
      var t;
      ghost var tr;
      t, tr := StartAction(pending[0], dt);
      l := Launch(pending[0], Now(), old(W()), W(), t, tr);
      Install(t);
    }

    /** The started action leaves the step's pending list and its task becomes the suspended one. */
    method Install(t: Task)
      requires sequenceStarted && phase == Running && pending != [] && TaskOk(t, coin.Some?)
      requires (forall o: Obj :: o in scene) && |script| > 0 && TrackingOk() && coin.Some? == hasCoinPrefab
      modifies this`pending, this`active
      ensures Valid() && pending == old(pending)[1..] && active == t
    {
      pending := pending[1..];
      active := t;
    }

    /**
     * One frame of `SequenceRoutine`. Outside a run nothing happens. Blocked
     * on a key not yet received, nothing changes. Blocked on a key now
     * received, the routine goes on to the next step and runs it from a fresh
     * skip state. Otherwise the suspended task is resumed, going from the
     * world before to `mid` and leaving `resumed`, and the routine runs on
     * from there to its next suspension; `log` holds the launches made.
     */
    method Tick(dt: real) returns (ghost log: seq<Launch>, ghost mid: World, ghost resumed: Task, ghost tr: Trace)
      requires Valid()
      modifies this
      ensures Valid()
      ensures !old(sequenceStarted) ==> unchanged(this)
      ensures (old(sequenceStarted) && old(phase) == Blocked
               && old(script[stepIndex].key) !in old(receivedCheckpoints)) ==> unchanged(this)
      ensures (old(sequenceStarted) && old(phase) == Blocked
               && old(script[stepIndex].key) in old(receivedCheckpoints)) ==>
                && (!sequenceStarted || stepIndex > old(stepIndex))
                && Ran(old(W()), Fresh, NextStepSize(old(stepIndex)), old(Agenda()), Done, dt, log,
                       W(), Agenda(), sequenceStarted, active)
      ensures old(sequenceStarted) && old(phase) == Running ==>
                && Resumes(old(active), old(Now()), dt, old(W()), mid, resumed, tr)
                && Ran(mid, old(Now()), |old(pending)|, old(Agenda()), resumed, dt, log,
                       W(), Agenda(), sequenceStarted, active)
      ensures old(sequenceStarted) && sequenceStarted ==>
                old(stepIndex) <= stepIndex && receivedCheckpoints == old(receivedCheckpoints)
      ensures old(sequenceStarted) && !sequenceStarted ==> ready && coin == None
      ensures sequenceStarted && phase == Blocked ==> script[stepIndex].key !in receivedCheckpoints
      ensures sequenceStarted ==> phase == Blocked || active != Done
      ensures old(sequenceStarted) && old(skipToCheckpoint) && old(StepGateFree()) ==>
                !sequenceStarted || stepIndex > old(stepIndex)
      ensures old(sequenceStarted) && sequenceStarted ==>
                Confirmed(old(stepIndex), stepIndex, old(receivedCheckpoints))
      ensures old(sequenceStarted) && !sequenceStarted ==>
                Confirmed(old(stepIndex), |script|, old(receivedCheckpoints))
      ensures old(sequenceStarted) && old(phase) == Running
              && old(script[stepIndex].key) != PostKey && old(script[stepIndex].key) !in old(receivedCheckpoints) ==>
                sequenceStarted && stepIndex == old(stepIndex)
    {
      log, mid, resumed, tr := [], W(), active, Leaf;
      if !sequenceStarted {
        return;
      }
      if phase == Blocked {
        var key := script[stepIndex].key;
        if key in receivedCheckpoints {
          log := TickReleased(dt);
        }
      } else {
        log, mid, resumed, tr := TickRunning(dt);
      }
    }

    /** The number of actions of the step after step `k`, none after the last. */
    function NextStepSize(k: nat): nat {
      if k + 1 < |script| then |script[k + 1].actions| else 0
    }

    /** `Tick` while blocked on a key that has been received. */
    method TickReleased(dt: real) returns (ghost log: seq<Launch>)
      requires Valid() && sequenceStarted && phase == Blocked && script[stepIndex].key in receivedCheckpoints
      modifies this
      ensures Valid()
      ensures !sequenceStarted || stepIndex > old(stepIndex)
      ensures Ran(old(W()), Fresh, NextStepSize(old(stepIndex)), old(Agenda()), Done, dt, log,
                  W(), Agenda(), sequenceStarted, active)
      ensures sequenceStarted ==> receivedCheckpoints == old(receivedCheckpoints)
      ensures !sequenceStarted ==> ready && coin == None
      ensures sequenceStarted ==> Confirmed(old(stepIndex), stepIndex, old(receivedCheckpoints))
      ensures !sequenceStarted ==> Confirmed(old(stepIndex), |script|, old(receivedCheckpoints))
      ensures sequenceStarted && phase == Blocked ==> script[stepIndex].key !in receivedCheckpoints
      ensures sequenceStarted ==> phase == Blocked || active != Done
    {
      FinishStep();
      if sequenceStarted {
        log := RunSegment(dt);
      } else {
        log := [];
        RanNothing(old(W()), Fresh, NextStepSize(old(stepIndex)), old(Agenda()), Done, dt);
        RanEnds(old(W()), Fresh, NextStepSize(old(stepIndex)), old(Agenda()), Done, dt, [], old(W()), [], active);
      }
    }

    /** `Tick` while running: resume the suspended task, then run on to the next suspension. */
    method TickRunning(dt: real) returns (ghost log: seq<Launch>, ghost mid: World, ghost resumed: Task, ghost tr: Trace)
      requires Valid() && sequenceStarted && phase == Running
      modifies this
      ensures Valid()
      ensures Resumes(old(active), old(Now()), dt, old(W()), mid, resumed, tr)
      ensures Ran(mid, old(Now()), |old(pending)|, old(Agenda()), resumed, dt, log,
                  W(), Agenda(), sequenceStarted, active)
      ensures sequenceStarted ==> old(stepIndex) <= stepIndex && receivedCheckpoints == old(receivedCheckpoints)
      ensures !sequenceStarted ==> ready && coin == None
      ensures sequenceStarted && phase == Blocked ==> script[stepIndex].key !in receivedCheckpoints
      ensures sequenceStarted ==> phase == Blocked || active != Done
      ensures old(skipToCheckpoint) && old(StepGateFree()) ==> !sequenceStarted || stepIndex > old(stepIndex)
      ensures sequenceStarted ==> Confirmed(old(stepIndex), stepIndex, old(receivedCheckpoints))
      ensures !sequenceStarted ==> Confirmed(old(stepIndex), |script|, old(receivedCheckpoints))
      ensures old(script[stepIndex].key) != PostKey && old(script[stepIndex].key) !in old(receivedCheckpoints) ==>
                sequenceStarted && stepIndex == old(stepIndex)
    {
      tr := ResumeActive(dt);
      mid, resumed := W(), active;
      log := RunSegment(dt);
    }

    /** Resume the suspended task for one frame. */
    method ResumeActive(dt: real) returns (ghost tr: Trace)
      requires Valid() && sequenceStarted && phase == Running
      modifies this`scene, this`coin, this`conveyorSignalReceived, this`active
      ensures Valid() && sequenceStarted && phase == Running
      ensures Resumes(old(active), Now(), dt, old(W()), W(), active, tr)
      ensures Agenda() == old(Agenda()) && pending == old(pending)
      ensures !old(conveyorSignalReceived) ==> !conveyorSignalReceived
      ensures skipToCheckpoint && old(StepGateFree()) ==> active == Done && StepGateFree()
    {
      var t;
      t, tr := ResumeTask(active, dt);
      active := t;
    }

    /**
     * What a callback makes of the coin `c`. Its position is kept.
     * `ParentCoin` hangs it under the carrier, or detaches it when the carrier
     * is null; `ParentCoinIfCarrier` hangs it under the target only when that
     * is not null; `ReleaseCoin` detaches it and hands it back to physics.
     */
    function Affected(e: Effect, c: Coin): (d: Coin)
      ensures d.pos == c.pos
      ensures d.kinematic == (if e.ReleaseCoin? then false else c.kinematic)
      ensures e.ParentCoin? ==> d.carrier == (if e.carrier.Some? && e.carrier.value in present then e.carrier else None)
      ensures e.ParentCoinIfCarrier? ==> d.carrier == (if e.target in present then Some(e.target) else c.carrier)
      ensures e.ReleaseCoin? ==> d.carrier == None
    {
      match e
      case ParentCoin(carrier) => c.(carrier := if carrier.Some? && carrier.value in present then carrier else None)
      case ParentCoinIfCarrier(target) => if target in present then c.(carrier := Some(target)) else c
      case ReleaseCoin => c.(kinematic := false, carrier := None)
    }

    /** A callback's side effect on the coin, when there is one. */
    method ApplyEffect(e: Effect)
      modifies this`coin
      ensures coin == (if old(coin).Some? then Some(Affected(e, old(coin).value)) else None)
    {
      if coin.Some? {
        match e {
          case ParentCoin(carrier) =>
            var c := if carrier.Some? && carrier.value in present then carrier else None;
            coin := Some(coin.value.(carrier := c));
          case ParentCoinIfCarrier(target) =>
            if target in present {
              coin := Some(coin.value.(carrier := Some(target)));
            }
          case ReleaseCoin =>
            coin := Some(coin.value.(kinematic := false, carrier := None));
        }
      }
    }

    /** One pass of `MoveOverTime`'s loop for `obj`. */
    method ResumeMove(obj: Obj, from: Vec, to: Vec, duration: real, elapsed: real, dt: real) returns (t: Task)
      requires duration > 0.0 && forall o: Obj :: o in scene
      modifies this`scene
      ensures forall o: Obj :: o in scene
      ensures forall o :: o != obj ==> scene[o] == old(scene)[o]
      ensures scene[obj].turned == old(scene)[obj].turned
      ensures t == Done ==> scene[obj].pos == to
      ensures t != Done ==> t.Moving? && t.obj == obj && t.from == from && t.to == to && t.duration == duration
                            && OnSegment(from, to, scene[obj].pos)
      ensures MoveSkips() ==> t == Done
      ensures t == Done <==> elapsed >= duration || MoveSkips()
      ensures t != Done ==>
                t.elapsed == elapsed + dt && scene[obj].pos == Lerp(from, to, elapsed / duration)
    {
      var step := MoveResume(from, to, duration, elapsed, Frame(dt, MoveSkips()));
      LerpOnSegment(from, to, elapsed / duration);
      scene := scene[obj := scene[obj].(pos := step.pos)];
      t := match step.next
        case None => Done
        case Some(e) => Moving(obj, from, to, duration, e);
    }

    /** One pass of `RotateAroundPivot`'s loop for `obj`. */
    method ResumeRotate(obj: Obj, angle: real, duration: real, elapsed: real, dt: real) returns (t: Task)
      requires duration > 0.0 && forall o: Obj :: o in scene
      modifies this`scene
      ensures forall o: Obj :: o in scene
      ensures forall o :: o != obj ==> scene[o] == old(scene)[o]
      ensures scene[obj].pos == old(scene)[obj].pos
      ensures var before := old(scene)[obj].turned - RotatedSoFar(angle, duration, elapsed);
              && (t == Done ==> Abs(scene[obj].turned - before - angle) <= 0.0001)
              && (t == Done && elapsed < duration ==> scene[obj].turned == before + angle)
              && (t != Done ==> t.Rotating? && t.obj == obj && t.angle == angle && t.duration == duration
                                && scene[obj].turned == before + RotatedSoFar(angle, duration, t.elapsed))
      ensures TimedSkips() ==> t == Done
      ensures t == Done <==> elapsed >= duration || TimedSkips()
      ensures t != Done ==> t.elapsed == elapsed + dt
    {
      var step := RotateResume(angle, duration, elapsed, Frame(dt, TimedSkips()));
      scene := scene[obj := scene[obj].(turned := scene[obj].turned + step.increment)];
      t := match step.next
        case None => Done
        case Some(e) => Rotating(obj, angle, duration, e);
    }

    /**
     * What `Execute()` of `a` does in the frame it starts in, up to its first
     * `yield return null`, seeing skip state `s`: the world goes from `w0` to
     * `w1` and `t` is left. A null transform makes a Move or a Rotate a
     * no-op. A Move or a Rotate whose adjusted duration is positive writes its
     * first frame and is suspended; otherwise it lands at its end state at
     * once. A parallel group starts its children one after the other, as
     * `tr` records, and is done exactly when all of them are.
     */
    ghost predicate Starts(a: Action, s: Sync, dt: real, w0: World, w1: World, t: Task, tr: Trace)
      decreases a
    {
      match a
      case Move(obj, dir, distance, duration) =>
        if obj !in present then t == Done && w1 == w0
        else
          && obj in w0.scene && obj in w1.scene
          && var from := w0.scene[obj].pos;
             var to := Add(from, Scale(dir, distance));
             var d := AdjustDuration(duration, s.skip, s.reached);
             && w1 == w0.(scene := w0.scene[obj := w0.scene[obj].(pos := w1.scene[obj].pos)])
             && (t == Done <==> d <= 0.0)
             && (t == Done ==> w1.scene[obj].pos == to)
             && (t != Done ==> t == Moving(obj, from, to, d, dt) && w1.scene[obj].pos == from)
      case Rotate(obj, _, _, angle, duration) =>
        if obj !in present then t == Done && w1 == w0
        else
          && obj in w0.scene && obj in w1.scene
          && var d := AdjustDuration(duration, s.skip, s.reached);
          && w1 == w0.(scene := w0.scene[obj := w0.scene[obj].(turned := w1.scene[obj].turned)])
          && (t == Done <==> d <= 0.0)
          && (t == Done ==> w1.scene[obj].turned == w0.scene[obj].turned + angle)
          && (t != Done ==>
                t == Rotating(obj, angle, d, dt)
                && w1.scene[obj].turned == w0.scene[obj].turned + RotatedSoFar(angle, d, dt))
      case Wait(duration) =>
        var d := AdjustDuration(duration, s.skip, s.reached);
        && w1 == w0
        && (t == Done <==> d <= 0.0)
        && (t != Done ==> t == Waiting(d, dt))
      case Callback(e) =>
        t == Done && w1 == w0.(coin := if w0.coin.Some? then Some(Affected(e, w0.coin.value)) else None)
      case Parallel(actions) =>
        && tr.Fork? && |tr.worlds| == |actions| + 1 && |tr.tasks| == |actions| && |tr.subs| == |actions|
        && tr.worlds[0] == w0 && tr.worlds[|actions|] == w1
        && (forall i :: 0 <= i < |actions| ==>
              Starts(actions[i], s, dt, tr.worlds[i], tr.worlds[i + 1], tr.tasks[i], tr.subs[i]))
        && t == Join(tr.tasks)
      case ConveyorWait(threshold, stopPos) =>
        if w0.signal then
          t == Done && w1 == w0.(coin := if w0.coin.Some? then Some(w0.coin.value.(pos := stopPos)) else None)
        else GateStep(AwaitCoin, threshold, stopPos, w0, w1, t)
    }

    /**
     * What resuming the suspended `t` for one frame does, seeing skip state
     * `s`: the world goes from `w0` to `w1` and `r` is left. A move or a
     * rotation goes on, by `dt`, exactly when time is left and no skip is
     * seen; a join resumes its children one after the other, as `tr`
     * records, and is done exactly when all of them are.
     */
    ghost predicate Resumes(t: Task, s: Sync, dt: real, w0: World, w1: World, r: Task, tr: Trace)
      decreases t
    {
      match t
      case Done => r == Done && w1 == w0
      case Moving(obj, from, to, duration, elapsed) =>
        && duration > 0.0 && obj in w0.scene && obj in w1.scene
        && w1 == w0.(scene := w0.scene[obj := w0.scene[obj].(pos := w1.scene[obj].pos)])
        && (r == Done <==> elapsed >= duration || MoveSkip(s))
        && (r == Done ==> w1.scene[obj].pos == to)
        && (r != Done ==>
              r == Moving(obj, from, to, duration, elapsed + dt)
              && w1.scene[obj].pos == Lerp(from, to, elapsed / duration))
      case Rotating(obj, angle, duration, elapsed) =>
        && duration > 0.0 && obj in w0.scene && obj in w1.scene
        && w1 == w0.(scene := w0.scene[obj := w0.scene[obj].(turned := w1.scene[obj].turned)])
        && (r == Done <==> elapsed >= duration || TimedSkip(s))
        && var before := w0.scene[obj].turned - RotatedSoFar(angle, duration, elapsed);
           && (r == Done ==> Abs(w1.scene[obj].turned - before - angle) <= 0.0001)
           && (r == Done && elapsed < duration ==> w1.scene[obj].turned == before + angle)
           && (r != Done ==>
                 r == Rotating(obj, angle, duration, elapsed + dt)
                 && w1.scene[obj].turned == before + RotatedSoFar(angle, duration, elapsed + dt))
      case Waiting(duration, elapsed) =>
        && w1 == w0
        && (r == Done <==> elapsed >= duration || TimedSkip(s))
        && (r != Done ==> r == Waiting(duration, elapsed + dt))
      case Gating(stage, threshold, stopPos) =>
        GateStep(stage, threshold, stopPos, w0, w1, r)
      case Joining(tasks) =>
        && tr.Fork? && |tr.worlds| == |tasks| + 1 && |tr.tasks| == |tasks| && |tr.subs| == |tasks|
        && tr.worlds[0] == w0 && tr.worlds[|tasks|] == w1
        && (forall i :: 0 <= i < |tasks| ==>
              Resumes(tasks[i], s, dt, tr.worlds[i], tr.worlds[i + 1], tr.tasks[i], tr.subs[i]))
        && r == Join(tr.tasks)
    }

    /**
     * One resumption of `ConveyorWaitAction` after its signal check: wait for
     * the coin, then for it to pass the threshold or for the signal; then
     * freeze it at the stop position; then wait for the signal, release the
     * coin and consume the signal.
     */
    method ResumeGate(stage: GateStage, threshold: real, stopPos: Vec) returns (t: Task)
      requires coin.Some? || stage == AwaitCoin
      modifies this`coin, this`conveyorSignalReceived
      ensures coin.Some? == old(coin).Some?
      ensures t == Done || (t.Gating? && t.threshold == threshold && t.stopPos == stopPos)
      ensures TaskOk(t, coin.Some?)
      ensures t == Done ==>
                && old(conveyorSignalReceived) && !conveyorSignalReceived
                && coin.Some? && !coin.value.kinematic
                && coin.value.pos == (if stage == AwaitSignal then old(coin).value.pos else stopPos)
      ensures t != Done ==> conveyorSignalReceived == old(conveyorSignalReceived)
      ensures t != Done && t.stage == AwaitSignal && stage != AwaitSignal ==>
                !conveyorSignalReceived && coin.Some? && coin.value.kinematic && coin.value.pos == stopPos
      ensures stage == AwaitSignal && t != Done ==> coin == old(coin)
      ensures GateStep(stage, threshold, stopPos, old(W()), W(), t)
    {
      var st := stage;
      if st == AwaitCoin {
        if coin.None? {
          return Gating(AwaitCoin, threshold, stopPos);
        }
        st := AwaitThreshold;
      }
      if st == AwaitThreshold {
        if coin.value.pos.x <= threshold && !conveyorSignalReceived {
          return Gating(AwaitThreshold, threshold, stopPos);
        }
        coin := Some(coin.value.(kinematic := true, pos := stopPos));
        st := AwaitSignal;
      }
      if !conveyorSignalReceived {
        return Gating(AwaitSignal, threshold, stopPos);
      }
      coin := Some(coin.value.(kinematic := false));
      conveyorSignalReceived := false;
      t := Done;
    }

    /**
     * `Execute()` of an action, run in the current frame up to its first
     * `yield return null`: the suspended task, or `Done`. Under skip every
     * action but a conveyor gate finishes here.
     */
    method StartAction(a: Action, dt: real) returns (t: Task, ghost tr: Trace)
      requires forall o: Obj :: o in scene
      modifies this`scene, this`coin, this`conveyorSignalReceived
      ensures forall o: Obj :: o in scene
      ensures coin.Some? == old(coin).Some?
      ensures TaskOk(t, coin.Some?)
      ensures TimedSkips() && GateFree(a) ==> t == Done
      ensures !old(conveyorSignalReceived) ==> !conveyorSignalReceived
      ensures Starts(a, Now(), dt, old(W()), W(), t, tr)
      decreases a
    {
      tr := Leaf;
      match a {
        case Move(obj, dir, distance, duration) =>
          t := StartMove(obj, dir, distance, duration, dt);
        case Rotate(obj, pivot, axis, angle, duration) =>
          t := StartRotate(obj, pivot, axis, angle, duration, dt);
        case Wait(duration) =>
          var d := AdjustDuration(duration, skipToCheckpoint, reachedCheckpoint);
          t := match WaitResume(d, 0.0, Frame(dt, TimedSkips()))
            case None => Done
            case Some(e) => Waiting(d, e);
        case Callback(effect) =>
          ApplyEffect(effect);
          t := Done;
        case Parallel(actions) =>
          var tasks: seq<Task> := [];
          ghost var worlds := [W()];
          ghost var subs: seq<Trace> := [];
          while |tasks| < |actions|
            invariant |tasks| <= |actions| && |worlds| == |tasks| + 1 && |subs| == |tasks|
            invariant worlds[0] == old(W()) && worlds[|tasks|] == W()
            invariant forall i :: 0 <= i < |tasks| ==>
                        Starts(actions[i], Now(), dt, worlds[i], worlds[i + 1], tasks[i], subs[i])
            invariant forall o: Obj :: o in scene
            invariant coin.Some? == old(coin).Some?
            invariant forall i :: 0 <= i < |tasks| ==> TaskOk(tasks[i], coin.Some?)
            invariant !old(conveyorSignalReceived) ==> !conveyorSignalReceived
            invariant TimedSkips() && GateFree(a) ==> forall i :: 0 <= i < |tasks| ==> tasks[i] == Done
          {
            var ct;
            ghost var sub;
            ct, sub := StartAction(actions[|tasks|], dt);
            tasks, worlds, subs := tasks + [ct], worlds + [W()], subs + [sub];
          }
          tr := Fork(worlds, tasks, subs);
          t := Join(tasks);
        case ConveyorWait(threshold, stopPos) =>
          t := StartGate(threshold, stopPos, dt);
      }
    }

    /** `MoveAction.Execute()` in the frame it starts in: its target, then `MoveOverTime`'s first pass. */
    method StartMove(obj: Obj, dir: Vec, distance: real, duration: real, dt: real) returns (t: Task)
      requires forall o: Obj :: o in scene
      modifies this`scene
      ensures forall o: Obj :: o in scene
      ensures TaskOk(t, coin.Some?)
      ensures TimedSkips() ==> t == Done
      ensures Starts(Move(obj, dir, distance, duration), Now(), dt, old(W()), W(), t, Leaf)
    {
      if obj !in present {
        return Done;
      }
      var from := scene[obj].pos;
      var to := Add(from, Scale(dir, distance));
      var d := AdjustDuration(duration, skipToCheckpoint, reachedCheckpoint);
      if d <= 0.0 {
        scene := scene[obj := scene[obj].(pos := to)];
        t := Done;
      } else {
        t := ResumeMove(obj, from, to, d, 0.0, dt);
        LerpOnSegment(from, to, 0.0);
      }
    }

    /** `RotateAction.Execute()` in the frame it starts in: `RotateAroundPivot`'s first pass. */
    method StartRotate(obj: Obj, pivot: Vec, axis: Vec, angle: real, duration: real, dt: real) returns (t: Task)
      requires forall o: Obj :: o in scene
      modifies this`scene
      ensures forall o: Obj :: o in scene
      ensures TaskOk(t, coin.Some?)
      ensures TimedSkips() ==> t == Done
      ensures Starts(Rotate(obj, pivot, axis, angle, duration), Now(), dt, old(W()), W(), t, Leaf)
    {
      if obj !in present {
        return Done;
      }
      var d := AdjustDuration(duration, skipToCheckpoint, reachedCheckpoint);
      if d <= 0.0 {
        scene := scene[obj := scene[obj].(turned := scene[obj].turned + angle)];
        t := Done;
      } else {
        t := ResumeRotate(obj, angle, d, 0.0, dt);
      }
    }

    /**
     * `ConveyorWaitAction.Execute()` in the frame it starts in: a signal that
     * has already arrived puts the coin at the stop position and finishes at
     * once, without consuming the signal; otherwise the gate's first pass.
     */
    method StartGate(threshold: real, stopPos: Vec, dt: real) returns (t: Task)
      modifies this`coin, this`conveyorSignalReceived
      ensures coin.Some? == old(coin).Some?
      ensures TaskOk(t, coin.Some?)
      ensures !old(conveyorSignalReceived) ==> !conveyorSignalReceived
      ensures Starts(ConveyorWait(threshold, stopPos), Now(), dt, old(W()), W(), t, Leaf)
    {
      if conveyorSignalReceived {
        if coin.Some? {
          coin := Some(coin.value.(pos := stopPos));
        }
        return Done;
      }
      t := ResumeGate(AwaitCoin, threshold, stopPos);
    }

    /**
     * Resume a suspended task for one frame. A joined task resumes its
     * unfinished children in order and finishes when all have finished.
     */
    method ResumeTask(t: Task, dt: real) returns (r: Task, ghost tr: Trace)
      requires forall o: Obj :: o in scene
      requires TaskOk(t, coin.Some?)
      modifies this`scene, this`coin, this`conveyorSignalReceived
      ensures forall o: Obj :: o in scene
      ensures coin.Some? == old(coin).Some?
      ensures TaskOk(r, coin.Some?)
      ensures TimedSkips() && !TaskHasGate(t) ==> r == Done
      ensures !old(conveyorSignalReceived) ==> !conveyorSignalReceived
      ensures Resumes(t, Now(), dt, old(W()), W(), r, tr)
      decreases t, 1
    {
      tr := Leaf;
      match t {
        case Done =>
          r := Done;
        case Moving(obj, from, to, duration, elapsed) =>
          r := ResumeMove(obj, from, to, duration, elapsed, dt);
        case Rotating(obj, angle, duration, elapsed) =>
          r := ResumeRotate(obj, angle, duration, elapsed, dt);
        case Waiting(duration, elapsed) =>
          r := match WaitResume(duration, elapsed, Frame(dt, TimedSkips()))
            case None => Done
            case Some(e) => Waiting(duration, e);
        case Gating(stage, threshold, stopPos) =>
          r := ResumeGate(stage, threshold, stopPos);
        case Joining(_) =>
          r, tr := ResumeJoin(t, dt);
      }
    }

    /** Resume a parallel join: every child in list order; done when all of them are. */
    method ResumeJoin(t: Task, dt: real) returns (r: Task, ghost tr: Trace)
      requires t.Joining? && forall o: Obj :: o in scene
      requires TaskOk(t, coin.Some?)
      modifies this`scene, this`coin, this`conveyorSignalReceived
      ensures forall o: Obj :: o in scene
      ensures coin.Some? == old(coin).Some?
      ensures TaskOk(r, coin.Some?)
      ensures TimedSkips() && !TaskHasGate(t) ==> r == Done
      ensures !old(conveyorSignalReceived) ==> !conveyorSignalReceived
      ensures Resumes(t, Now(), dt, old(W()), W(), r, tr)
      decreases t, 0
    {
      var tasks := t.tasks;
      var next: seq<Task> := [];
      ghost var worlds := [W()];
      ghost var subs: seq<Trace> := [];
      while |next| < |tasks|
        invariant |next| <= |tasks| && |worlds| == |next| + 1 && |subs| == |next|
        invariant worlds[0] == old(W()) && worlds[|next|] == W()
        invariant forall i :: 0 <= i < |next| ==>
                    Resumes(tasks[i], Now(), dt, worlds[i], worlds[i + 1], next[i], subs[i])
        invariant forall o: Obj :: o in scene
        invariant coin.Some? == old(coin).Some?
        invariant forall i :: 0 <= i < |next| ==> TaskOk(next[i], coin.Some?)
        invariant !old(conveyorSignalReceived) ==> !conveyorSignalReceived
        invariant TimedSkips() && !TaskHasGate(t) ==> forall i :: 0 <= i < |next| ==> next[i] == Done
      {
        var ct;
        ghost var sub;
        ct, sub := ResumeTask(tasks[|next|], dt);
        next, worlds, subs := next + [ct], worlds + [W()], subs + [sub];
      }
      tr := Fork(worlds, next, subs);
      r := Join(next);
    }

    /**
     * `CompleteInstantly()` of an action that has not started: apply its end
     * state at once. A Move computes its end point from the current position;
     * a Rotate applies the full angle; a Wait does nothing; a callback fires; a
     * gate puts an existing coin at its stop position; a parallel action
     * completes every child in order. The sequence routine itself never calls
     * it.
     */
    method CompleteInstantly(a: Action)
      requires forall o: Obj :: o in scene
      modifies this`scene, this`coin
      ensures forall o: Obj :: o in scene
      ensures coin.Some? == old(coin).Some?
      ensures a.Move? && a.obj in present ==>
                scene == old(scene)[a.obj := old(scene)[a.obj].(pos := Add(old(scene)[a.obj].pos, Scale(a.dir, a.distance)))]
      ensures a.Rotate? && a.obj in present ==>
                scene == old(scene)[a.obj := old(scene)[a.obj].(turned := old(scene)[a.obj].turned + a.angle)]
      ensures (a.Move? || a.Rotate?) && a.obj !in present ==> unchanged(this`scene, this`coin)
      ensures a.Wait? ==> unchanged(this`scene, this`coin)
      ensures a.ConveyorWait? ==> scene == old(scene) && (coin.Some? ==> coin.value == old(coin).value.(pos := a.stopPos))
      ensures a.Callback? ==>
                scene == old(scene) && coin == (if old(coin).Some? then Some(Affected(a.effect, old(coin).value)) else None)
      decreases a
    {
      match a {
        case Move(obj, dir, distance, _) =>
          if obj in present {
            scene := scene[obj := scene[obj].(pos := Add(scene[obj].pos, Scale(dir, distance)))];
          }
        case Rotate(obj, _, _, angle, _) =>
          if obj in present {
            scene := scene[obj := scene[obj].(turned := scene[obj].turned + angle)];
          }
        case Wait(_) =>
        case Callback(effect) =>
          ApplyEffect(effect);
        case Parallel(children) =>
          var i := 0;
          while i < |children|
            invariant i <= |children|
            invariant forall o: Obj :: o in scene
            invariant coin.Some? == old(coin).Some?
          {
            CompleteInstantly(children[i]);
            i := i + 1;
          }
        case ConveyorWait(_, stopPos) =>
          if coin.Some? {
            coin := Some(coin.value.(pos := stopPos));
          }
      }
    }
  }
}

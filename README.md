# Furnace animation sequencer, conveyor belt and cylinder spawner

This project is a Dafny model of the discrete core of a Unity digital twin of a
furnace cell.

`MovementController` plays a fixed animation of seventeen steps. Each step is
a list of actions: moves, rotations about a pivot, pauses, callbacks that
re-parent or release the coin, parallel groups, and a conveyor gate. Each step
carries a checkpoint key. The real plant confirms checkpoints by MQTT
messages whose key is `topic + ":" + trimmed payload`.

The controller handles confirmations by timing:

- **Before the step's actions finish** (the plant is ahead): skip is
  requested. Every remaining timed action then jumps to its end state.
- **After the step's actions finish** (the plant is behind): the sequencer
  blocks until the step's key arrives. A key already received never blocks.
- **The last step**: its key, `__after_checkpoint`, is not confirmable and
  never waits.

The conveyor gate has its own rules:

- It holds the coin at a stop position until a separate conveyor signal
  arrives, then consumes the signal.
- If the signal is already set when the gate starts, the coin is snapped to
  the stop position and the signal is left set.

Two smaller pieces sit beside the controller:

- **`TransportSurfaceSimple`** keeps a duplicate-free list of the rigidbodies
  on the belt and pushes them each physics step.
- **`CylinderSpawner`** paints cylinders red, green and blue in turn.

Modules:

- `Wrappers`: `Option`.
- `Geometry`: vectors and `Vector3.Lerp`.
- `Text`: .NET `String.Trim` and the case-insensitive command-word comparison.
- `Coroutines`: `AdjustDuration` and the three timed coroutines. Each comes
  both as a one-frame resume function and as a whole-run method over a frame
  schedule.
- `Script`: the action kinds, the seventeen-step sequence and its keys.
- `Controller`: the class `MovementController`.
- `Conveyor`: the class `TransportSurface`.
- `Spawner`: the class `CylinderSpawner`.

How the coroutines are modelled:

- `Tick(dt)` is one frame. It resumes the suspended action and runs the
  routine until its next `yield return null`.
- Messages are applied between frames with `OnMessage`.
- The start command runs the routine's first segment at once, as
  `StartCoroutine` does.
- A started action that has not finished is a `Task` value holding its
  coroutine's locals.

## Model

| member | source | states |
|---|---|---|
| Text.Trim | Assets/MyScripts/ScriptsBrennofen/OfenController.cs:371 | the result is a slice of the payload, reached by cutting only whitespace from both ends; it neither starts nor ends with whitespace |
| Text.TrimIdempotent | Assets/MyScripts/ScriptsBrennofen/OfenController.cs:371 | trimming an already trimmed message changes nothing |
| Text.EqualsIgnoreCase | Assets/MyScripts/ScriptsBrennofen/OfenController.cs:400 | true exactly when the lengths agree and the case-folded characters agree position by position |
| Text.ReadAnyCase | Assets/MyScripts/ScriptsBrennofen/OfenController.cs:400 | every capitalisation of "read" is accepted as the command word |
| Text.EqualsIgnoreCaseSymmetric | Assets/MyScripts/ScriptsBrennofen/OfenController.cs:400 | the command-word comparison does not depend on argument order |
| Script.CheckpointKey | Assets/MyScripts/ScriptsBrennofen/OfenController.cs:372 | the key is the topic, then one colon, then the trimmed payload, and nothing else |
| Script.CheckpointKeys | Assets/MyScripts/ScriptsBrennofen/OfenController.cs:633-634 | the confirmable keys are the step keys in order except the last; none for an empty sequence |
| Script.PostKeyNeverConfirmable | Assets/MyScripts/ScriptsBrennofen/OfenController.cs:611-634 | the run has 17 steps, the last is `__after_checkpoint`, and that key is not confirmable |
| Script.SharedQ8Key | Assets/MyScripts/ScriptsBrennofen/OfenController.cs:494-499 | steps 2 and 7, and no other steps, carry the key "multi/Q8:start"; that one confirmation then releases both follows from `Tick` and `OnMessage` never removing a key from the received set during a run |
| Script.OnlyStep15Gates | Assets/MyScripts/ScriptsBrennofen/OfenController.cs:591-604 | exactly one step, step 15 (key "color/Q2:stop"), contains conveyor gates, looking inside parallel groups; every other step is gate-free |
| Script.FurnaceSequence | Assets/MyScripts/ScriptsBrennofen/OfenController.cs:492-630 | the run has seventeen steps, each with at least one action; the last is the `__after_checkpoint` step, and no other step waits for a key on the start topic |
| Geometry.LerpOnSegment | Assets/MyScripts/ScriptsBrennofen/OfenController.cs:700 | an interpolated position lies on the segment between the end points; fraction 0 and 1 give the end points |
| Coroutines.AdjustDuration | Assets/MyScripts/ScriptsBrennofen/OfenController.cs:679-680 | the duration is 0 exactly when skip is requested and the checkpoint is not reached, otherwise unchanged |
| Coroutines.MoveResume | Assets/MyScripts/ScriptsBrennofen/OfenController.cs:691-704 | a pass yields exactly when time remains and no skip is seen; it then adds the frame time and writes Lerp(from, to, elapsed / duration), which is from + (to − from) × elapsed / duration; a pass that ends writes exactly the target |
| Coroutines.MoveOverTime | Assets/MyScripts/ScriptsBrennofen/OfenController.cs:682-705 | duration ≤ 0 writes the target at once; otherwise the run satisfies `MoveRun`: frame k of a yielding run saw no skip, had time left and wrote Lerp(from, to, (sum of the earlier frame times) / duration); the move ends, exactly at the target, in the first frame that sees a skip or finds the earlier frame times at or past the duration; every written point lies on the segment |
| Coroutines.MoveRunStep | Assets/MyScripts/ScriptsBrennofen/OfenController.cs:691-704 | one more pass of the loop extends a run described by `MoveRun` to one described by `MoveRun`, and carries `elapsed` forward as the sum of the frame times |
| Coroutines.MoveRunStartsAtFrom | Assets/MyScripts/ScriptsBrennofen/OfenController.cs:688-700 | without a skip in the first frame, the first written point is the start position |
| Coroutines.RotateResume | Assets/MyScripts/ScriptsBrennofen/OfenController.cs:713-736 | each yielding pass keeps the applied total equal to angle/duration × elapsed; a skip completes exactly the angle; a natural end leaves the total within 0.0001 of it |
| Coroutines.RotateAroundPivot | Assets/MyScripts/ScriptsBrennofen/OfenController.cs:707-737 | duration ≤ 0 applies the angle in one step; otherwise the run satisfies `RotateRun`: every frame that yielded saw no skip, had time left and turned angle/duration × its frame time; the finishing frame either saw a skip with time left and applied exactly the missing angle, or found the time used up and applied the leftover only above 0.0001 degrees; so a skip makes the total exactly the angle and a natural finish leaves it within 0.0001 |
| Coroutines.RotateRunStep | Assets/MyScripts/ScriptsBrennofen/OfenController.cs:713-736 | one more pass of the loop extends a run described by `RotateRun` to one described by `RotateRun`, finished exactly when the pass does not yield, and carries `elapsed` forward as the sum of the frame times |
| Coroutines.RotateRunYield | Assets/MyScripts/ScriptsBrennofen/OfenController.cs:728-731 | a pass that sees no skip with time left and turns angle/duration × its frame time extends an unfinished `RotateRun` |
| Coroutines.RotateRunEnd | Assets/MyScripts/ScriptsBrennofen/OfenController.cs:719-736 | the pass that finishes, by skip with time left or by the time running out, completes a `RotateRun` |
| Coroutines.WaitResume | Assets/MyScripts/ScriptsBrennofen/OfenController.cs:742-748 | the wait yields again exactly when time remains and no skip is seen, adding the frame time |
| Coroutines.WaitOrSkip | Assets/MyScripts/ScriptsBrennofen/OfenController.cs:739-749 | the wait ends in the first frame where the earlier frame times reach the duration or a skip is seen, and not before |
| Controller.RouteOf | Assets/MyScripts/ScriptsBrennofen/OfenController.cs:369-441 | a colour message is a recolour exactly when a coin exists; a message is a start exactly when no run is in progress, the topic is the start topic and the trimmed payload is "read" ignoring case; it is a conveyor signal exactly when its topic is either conveyor topic and the trimmed payload is "read" ignoring case; everything else is a checkpoint message with key topic:trimmed payload |
| Controller.SecondStartIgnored | Assets/MyScripts/ScriptsBrennofen/OfenController.cs:398-408 | a start command during a run falls through to the checkpoint branch with a key that is not confirmable, so it changes nothing |
| Controller.MovementController.constructor | Assets/MyScripts/ScriptsBrennofen/OfenController.cs:295-307 | the controller comes up idle, with no coin and the ready indicator raised |
| Controller.MovementController.OnMessage | Assets/MyScripts/ScriptsBrennofen/OfenController.cs:369-441 | the message is handled as its route says (`Handled`): colour messages with a coin change nothing; a start clears the tracking state, lowers ready, spawns the coin, enters step 0 and runs the routine as `Ran` describes until it is blocked or inside an unfinished action; a conveyor signal only sets its flag; a confirmable key is added to the received set and requests skip exactly when it is the current key and the step is not reached; any other key changes nothing |
| Controller.MovementController.Dispatch | Assets/MyScripts/ScriptsBrennofen/OfenController.cs:375-441 | each route's branch has exactly the effect `Handled` describes and keeps the controller's invariant |
| Controller.MovementController.StartRun | Assets/MyScripts/ScriptsBrennofen/OfenController.cs:397-408 | starting a run empties the received set, clears the conveyor signal, lowers ready, spawns the coin exactly when there is a prefab and makes step 0 current; the routine then runs as `Ran` describes from the world with the new coin and no signal: its launches are the head of the whole sequence's actions in order, each a genuine start with a fresh skip state, made only while every earlier one finished at once; the routine stops only blocked or inside an unfinished action, or with the run over |
| Controller.MovementController.Confirm | Assets/MyScripts/ScriptsBrennofen/OfenController.cs:427-441 | a confirmable key is always added, skip becomes true only for the current, unreached key and never becomes false; other keys change nothing |
| Controller.MovementController.SpawnCoin | Assets/MyScripts/ScriptsBrennofen/OfenController.cs:443-466 | with a prefab, a kinematic coin appears at (1.396, 1, -7.555) with no parent; without one, nothing |
| Controller.MovementController.MoveCoin | Assets/MyScripts/ScriptsBrennofen/ConveyorBelt.cs:109-120 | between frames the coin moves to a new position, pushed by the belt or carried while held; only its position changes and the controller's invariant is kept |
| Controller.MovementController.SpawnedCoin | Assets/MyScripts/ScriptsBrennofen/OfenController.cs:443-466 | there is a coin exactly when a prefab is configured, and it is kinematic, unparented and at the spawn point |
| Controller.MovementController.BeginSequence | Assets/MyScripts/ScriptsBrennofen/OfenController.cs:481-661 | the received set is empty, the conveyor signal is cleared, the confirmable keys are installed and step 0 is current; the routine runs (`Ran`) from the world with the signal cleared, launching the head of the sequence's actions in order from a fresh skip state, until it is blocked or inside an unfinished action |
| Controller.MovementController.ResetTracking | Assets/MyScripts/ScriptsBrennofen/OfenController.cs:483-641 | the received set, skip, reached, current key and signal are cleared, the confirmable keys are installed and step 0 is entered running with all its actions pending and nothing suspended; nothing else in the world changes |
| Controller.MovementController.EnterStep | Assets/MyScripts/ScriptsBrennofen/OfenController.cs:640-641 | entering a step makes its key current with the checkpoint not reached and all its actions pending |
| Controller.MovementController.FinishStep | Assets/MyScripts/ScriptsBrennofen/OfenController.cs:659-660 | after a step skip and reached are both false and the next step is entered with the received set kept, or the run ends after the last step |
| Controller.MovementController.NextStep | Assets/MyScripts/ScriptsBrennofen/OfenController.cs:657-660 | skip and reached are cleared and the following step is entered running, with all its actions pending and a fresh skip state |
| Controller.MovementController.EndRun | Assets/MyScripts/ScriptsBrennofen/OfenController.cs:663-673 | after the last step ready is raised and the run flag, keys, received set, current key and coin are cleared |
| Controller.MovementController.RunSegment | Assets/MyScripts/ScriptsBrennofen/OfenController.cs:637-660 | `Ran`: the launches made are the head of the remaining actions, in order, each a genuine start seeing the old skip state on the current step and a fresh one after, each started from the world the previous one left after it finished at once, with the run still going suspended on the last launch's task and a finished run having taken the coin away; the routine stops only blocked or inside an unfinished action; it blocks only on a non-final key not received, and never passes one: every step it leaves behind, and when the run ends every step from the first, has the final key or a received one (`Confirmed`); a skipped gate-free step finishes in the same call; the received set is untouched |
| Controller.MovementController.SegmentLoop | Assets/MyScripts/ScriptsBrennofen/OfenController.cs:637-660 | the loop stops only when the run ended, the routine blocked or an action is suspended, with `SegmentInv` (the `Ran` of the launches so far and the per-step facts) kept |
| Controller.MovementController.SegmentLaunch | Assets/MyScripts/ScriptsBrennofen/OfenController.cs:643-644 | starting the step's next pending action in the current world extends the segment's `Ran` by that launch and drops it from the agenda |
| Controller.MovementController.SegmentBlock | Assets/MyScripts/ScriptsBrennofen/OfenController.cs:646-655 | blocking on a non-final key not yet received keeps the segment's invariant with the checkpoint reached |
| Controller.MovementController.SegmentFinish | Assets/MyScripts/ScriptsBrennofen/OfenController.cs:657-673 | finishing a step whose key needs no wait keeps the segment's invariant, both when the next step is entered and when the run ends and the coin is taken away |
| Controller.MovementController.RanNothing | Assets/MyScripts/ScriptsBrennofen/OfenController.cs:637-644 | a routine that has launched nothing is a run that left the world, the agenda and the suspended task unchanged |
| Controller.MovementController.RanExtend | Assets/MyScripts/ScriptsBrennofen/OfenController.cs:643-644 | launching the head of the agenda while nothing is suspended extends a run by that launch |
| Controller.MovementController.RanEnds | Assets/MyScripts/ScriptsBrennofen/OfenController.cs:663-673 | a run that ends after its last launch is the same run with the coin taken away |
| Controller.MovementController.LaunchesEach | Assets/MyScripts/ScriptsBrennofen/OfenController.cs:643-644 | launch by launch: each is a genuine start with the skip state of its step, and each but the last finished at once and left the world the next started in |
| Controller.MovementController.ReachCheckpoint | Assets/MyScripts/ScriptsBrennofen/OfenController.cs:646-660 | with the actions done, a non-final key not yet received blocks the routine on the same step; any other key finishes the step at once, clearing skip |
| Controller.MovementController.StartNext | Assets/MyScripts/ScriptsBrennofen/OfenController.cs:643-644 | the first pending action is removed from the list and started; the launch record holds that action, the skip state it saw, the world before and after and the task left, and is a genuine start (`Starts`); under skip a gate-free action finishes at once |
| Controller.MovementController.Tick | Assets/MyScripts/ScriptsBrennofen/OfenController.cs:637-661 | no change outside a run or while blocked on an unreceived key; blocked on a received key, the step advances and the routine runs (`Ran`) through the next step's actions from a fresh skip state; otherwise the suspended task is resumed (`Resumes`) and the routine runs on from the world it left, staying on a running step whose non-final key has not been received; every step the frame leaves behind has the final key or a received one (`Confirmed`); a run still going ends the frame blocked or inside an unfinished action; the received set only grows during a run; skip plus a gate-free step advances within the frame; the run's end raises ready and drops the coin |
| Controller.MovementController.TickReleased | Assets/MyScripts/ScriptsBrennofen/OfenController.cs:650-661 | a received key releases the blocked routine: the step advances or the run ends, and the routine runs (`Ran`) from a fresh skip state through the next step's actions, until it is blocked or inside an unfinished action; every step it leaves behind has the final key or a received one (`Confirmed`) |
| Controller.MovementController.TickRunning | Assets/MyScripts/ScriptsBrennofen/OfenController.cs:643-661 | the suspended task is resumed for one frame (`Resumes`) and the routine runs on (`Ran`) from the world the resumption left, until it is blocked or inside an unfinished action; a step whose non-final key has not been received is not left, and every step left behind has the final key or a received one (`Confirmed`) |
| Controller.MovementController.ResumeActive | Assets/MyScripts/ScriptsBrennofen/OfenController.cs:643-644 | the suspended task is resumed as `Resumes` describes and the pending actions are unchanged; under skip a gate-free step has nothing suspended afterwards |
| Controller.MovementController.ApplyEffect | Assets/MyScripts/ScriptsBrennofen/OfenController.cs:591-599 | the coin, when there is one, becomes `Affected(e, coin)`; without a coin nothing changes |
| Controller.MovementController.Affected | Assets/MyScripts/ScriptsBrennofen/OfenController.cs:518-598 | a callback never moves the coin; re-parenting keeps its kinematic flag; `ParentCoin` hangs it under the carrier or detaches it for a null carrier; the object-4 callback re-parents only to an assigned object 4; the release makes it dynamic and detached |
| Controller.MovementController.ResumeMove | Assets/MyScripts/ScriptsBrennofen/OfenController.cs:691-704 | one frame of a move changes only that object's position; the task continues, with elapsed + dt and the position at Lerp(from, to, elapsed / duration), exactly when time is left and no skip is seen; otherwise it finishes exactly at the target |
| Controller.MovementController.ResumeRotate | Assets/MyScripts/ScriptsBrennofen/OfenController.cs:713-736 | one frame of a rotation changes only that object's turned angle, keeping it at its start value plus the angle applied so far; the task continues, with elapsed + dt, exactly when time is left and no skip is seen; finishing is within 0.0001 of the full angle, exact under skip |
| Controller.MovementController.ResumeGate | Assets/MyScripts/ScriptsBrennofen/OfenController.cs:259-283 | `GateStep`: without a coin the gate keeps waiting for it; a coin at or before the threshold with no signal is left alone and the gate keeps waiting; once the coin is past the threshold or the signal is set, the coin is frozen (kinematic) at the stop position; with the signal set the gate finishes, consuming the signal and making the coin dynamic; a held gate finishes exactly when the signal is set |
| Controller.MovementController.StartAction | Assets/MyScripts/ScriptsBrennofen/OfenController.cs:128-284 | `Starts`: a move targets its start position plus direction × distance and a null object makes a move or a rotation a no-op; a timed action with positive adjusted duration writes its first frame and is suspended with elapsed dt, otherwise it lands at its end state at once; a callback applies `Affected` and finishes; a gate with the signal already set puts the coin at its stop position and leaves the signal set, otherwise it takes its first `GateStep` pass; a parallel action starts every child in list order, each from the world the previous left, and is done exactly when all the children are; under skip every gate-free action finishes at once |
| Controller.MovementController.StartMove | Assets/MyScripts/ScriptsBrennofen/OfenController.cs:128-134 | `Starts` for a move: no-op for a null object; otherwise the end point is start + direction × distance, reached at once for duration ≤ 0, else the first frame leaves the object at its start position with the move suspended |
| Controller.MovementController.StartRotate | Assets/MyScripts/ScriptsBrennofen/OfenController.cs:167-170 | `Starts` for a rotation: no-op for a null object; otherwise the full angle at once for duration ≤ 0, else the first frame turns the object by angle/duration × dt with the rotation suspended |
| Controller.MovementController.StartGate | Assets/MyScripts/ScriptsBrennofen/OfenController.cs:250-284 | `Starts` for a gate: a signal already set snaps an existing coin to the stop position, finishes and leaves the signal set; otherwise the gate's first `GateStep` pass from waiting for the coin |
| Controller.MovementController.ResumeTask | Assets/MyScripts/ScriptsBrennofen/OfenController.cs:221-227 | `Resumes`: a move goes on by dt, at Lerp(from, to, elapsed / duration), exactly when time is left and no skip is seen, else lands on its target; a rotation likewise keeps the total at angle/duration × elapsed and ends within 0.0001 of the angle, exactly under skip; a wait goes on exactly when time is left and no skip is seen; a gate takes one `GateStep` pass; a parallel join resumes each child in list order and is done exactly when every child is; under skip any gate-free task finishes in this frame |
| Controller.MovementController.ResumeJoin | Assets/MyScripts/ScriptsBrennofen/OfenController.cs:221-227 | a parallel join resumes each child in list order, each from the world the previous left, and is done exactly when every child is (`Resumes`) |
| Controller.MovementController.CompleteInstantly | Assets/MyScripts/ScriptsBrennofen/OfenController.cs:137-290 | instant completion puts a move at position plus offset, applies the full rotation, leaves waits alone, applies a callback's `Affected` to the coin and puts an existing coin at a gate's stop position |
| Conveyor.RemoveFirst | Assets/MyScripts/ScriptsBrennofen/ConveyorBelt.cs:95 | removal drops exactly the first occurrence and keeps the order of the rest; an absent body leaves the list unchanged |
| Conveyor.RemoveFirstNoDuplicates | Assets/MyScripts/ScriptsBrennofen/ConveyorBelt.cs:92-96 | in a duplicate-free list the removed body is gone, every other body stays, and the list stays duplicate-free and one shorter |
| Conveyor.PushesExactlyLive | Assets/MyScripts/ScriptsBrennofen/ConveyorBelt.cs:109-120 | a physics step moves exactly the loaded bodies that still exist, each by the same step from its own position, none twice |
| Conveyor.Normalised | Assets/MyScripts/ScriptsBrennofen/ConveyorBelt.cs:63-66 | a zero direction becomes forward; any other becomes a positive multiple of itself of length one |
| Conveyor.NormalisedUnit | Assets/MyScripts/ScriptsBrennofen/ConveyorBelt.cs:126-133 | normalising an already normalised direction leaves it unchanged |
| Conveyor.TransportSurface.constructor | Assets/MyScripts/ScriptsBrennofen/ConveyorBelt.cs:30-67 | the belt starts empty with its direction normalised |
| Conveyor.TransportSurface.Revalidate | Assets/MyScripts/ScriptsBrennofen/ConveyorBelt.cs:124-134 | editing the direction normalises it the same way |
| Conveyor.TransportSurface.OnCollisionEnter | Assets/MyScripts/ScriptsBrennofen/ConveyorBelt.cs:70-84 | only a non-null body on the target layer that is not yet loaded is appended; the list never holds duplicates |
| Conveyor.TransportSurface.OnCollisionExit | Assets/MyScripts/ScriptsBrennofen/ConveyorBelt.cs:87-99 | only a body on the target layer is removed; other layers and null bodies change nothing |
| Conveyor.TransportSurface.FixedUpdate | Assets/MyScripts/ScriptsBrennofen/ConveyorBelt.cs:102-121 | speed 0 or an empty belt moves nothing; otherwise the moves are the list-order pushes of the live bodies |
| Spawner.Advance | Assets/MyScripts/ScriptsSortier/CubeSpawner.cs:21 | the index moves to the next colour and wraps from the last to the first, staying in range |
| Spawner.ThreeAdvancesRestore | Assets/MyScripts/ScriptsSortier/CubeSpawner.cs:21 | three spawns return the index to its previous value |
| Spawner.NthColor | Assets/MyScripts/ScriptsSortier/CubeSpawner.cs:8-9 | the first three cylinders are red, green and blue |
| Spawner.ColorsRepeat | Assets/MyScripts/ScriptsSortier/CubeSpawner.cs:8-21 | the colours repeat with period three |
| Spawner.NextIndex | Assets/MyScripts/ScriptsSortier/CubeSpawner.cs:19-21 | an index equal to the count modulo three picks that cylinder's colour and advances to the new count modulo three |
| Spawner.CylinderSpawner.constructor | Assets/MyScripts/ScriptsSortier/CubeSpawner.cs:9 | the index starts at 0 with nothing spawned |
| Spawner.CylinderSpawner.SpawnCylinder | Assets/MyScripts/ScriptsSortier/CubeSpawner.cs:12-22 | the cylinder gets the colour at the current index, the index advances modulo 3, and the n-th cylinder's colour is NthColor(n) |
| Spawner.FirstFourColors | Assets/MyScripts/ScriptsSortier/CubeSpawner.cs:8-21 | a fresh spawner paints red, green, blue, red |

## Left out

- MQTT transport, broker setup, topic subscription and connection handlers are I/O. Inbound messages are `OnMessage` calls between frames.
- UTF-8 decoding of the payload is not modelled; the payload arrives as a string.
- Recolouring the coin on the colour topic only changes a renderer. The model treats it as a message that changes no state.
- Rendering, `Instantiate` and the UI indicator's colours are left out. Ready is a boolean.
- Floating point is replaced by exact reals. This covers `Vector3` arithmetic, `Time.deltaTime` and the 0.0001 rotation tolerance.
- Text.EqualsIgnoreCase: folds ASCII letters only and needs equal lengths. .NET's invariant-culture comparison also applies non-ASCII case mappings and can ignore code points such as the soft hyphen U+00AD, so it may accept a payload of another length. The command word "read" is ASCII.
- Rotations are kept as the degrees turned per object. `RotateAround`'s effect on position and orientation is not computed, because it needs trigonometry.
- A parented coin does not follow its carrier's motion. Coin positions change only through gates and through `MoveCoin`, which stands in for physics.
- Controller.MovementController.ResumeTask: a finished nested coroutine or parallel join costs no extra frame. Unity may resume the parent one frame later.
- Controller.MovementController.CompleteInstantly: applies to an action that has not started. A Move's `hasStarted` end point is not kept, and the sequence routine never calls it.
- The pivots, object 5's axis and object 4's sub-object forward axis are read when the run starts. They are parameters of `FurnaceSequence`.
- Script.FurnaceSequence: the sequence is built inside `SequenceRoutine`, so a null object 4 sub-object (its `forward`, OfenController.cs:589, 602) or a null `rotationPivot4`/`rotationPivot5` (their `position`, OfenController.cs:573, 577, 581, 607) throws in the routine's first segment. By then the run flag is set, ready is lowered and the coin is spawned (OfenController.cs:402-405), while the checkpoint keys are never installed (OfenController.cs:634); the routine is gone, the flag stays set and every later start command is ignored. The model does not have this failure: the pivots are parameters, and a missing `Object4Sub` is treated like any null transform, which makes its moves no-ops.
- The controller's inspector-tunable settings (distances, durations, the object-5 angle and the pauses, OfenController.cs:55-88) are fixed at their default values, the constants of the `Script` module; object 5's axis is a parameter of `FurnaceSequence`.
- Controller.MovementController.StartMove: uses the direction as given. `MoveAction` normalises it (OfenController.cs:133); the sequence only uses unit axes and a transform's forward vector, which Unity keeps at unit length.
- Objects 3 and 4's sub-objects do not follow their parents. A Move of a sub-object starts from the sub-object's own recorded position, not from where its parent's motion or rotation has carried it.
- Controller.MovementController.StartAction: starts and resumes a parallel group's children in list order. Unity does not document the order in which coroutines started in one frame are resumed. The two gates of step 15 share one conveyor signal: in list order the first gate consumes it, while in the other order the second gate would consume it and the first would wait for another one.
- Controller.MovementController.CompleteInstantly: the parallel case completes its children in list order, but its contract states only that the scene stays total and the coin's existence is kept. The children's effects compose in order and are not summarised in one contract.
- The coin prefab is assumed to carry a Rigidbody. The gate's final release dereferences it without a null check.
- Conveyor.Normalised: the magnitude is given as a parameter because there is no square root. The zero test is exact rather than Unity's approximate `==`, and Unity returning zero for tiny vectors is not modelled.
- Conveyor.TransportSurface.FixedUpdate: the world direction is a parameter. `TransformDirection` applies the belt's rotation to the normalised direction (ConveyorBelt.cs:115), which is not modelled, so the pushes are not tied to `direction`.
- The belt's own collider and rigidbody setup and the layer-name lookup are Unity calls. The target layer index is a constructor parameter.
- Spawner.CylinderSpawner.SpawnCylinder: a missing prefab or renderer would throw before the index advances. The model assumes both exist.

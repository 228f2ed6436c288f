# Neon Ride 3D: the game's state machines, in Dafny

This project models the small step-by-step rules at the core of a browser racing game built
on React, three.js and a rigid-body physics engine:

- the keyboard hook, whose key-down and key-up handlers set and clear six driving flags
  (forward, backward, left, right, drift, handbrake), with several key codes sharing one flag
  (`keyboard_controls.dfy`, modules `Controls` and `Keyboard`);
- three car components that turn those flags, the car's speed and orientation into physics
  calls each frame:
  - the realistic car keeps a clamped, self-centring steering angle and issues gated
    forces and torques (`realistic_car.dfy`, module `Realistic`);
  - the advanced car picks a drift or grip handling mode, caps its thrust and tilts its body
    (`advanced_car.dfy`, module `Advanced`);
  - the simple car's handler maps one key code straight to at most one command per call;
    since a new handler is registered every frame and none is removed, one key press after n
    frames issues that command n times (`simple_car.dfy`, module `SimpleCar`);
- the game-state store: a six-field record replaced one field at a time, with a reset to the
  initial record and a guard for consumers outside the provider (`game_context.dfy`, module
  `Game`);
- the camera follower, which moves a smoothed position 5% of the way to a target behind the
  car each frame (`camera.dfy`, modules `Three` and `Camera`);
- the wheel-particle effect: emission rate and branch from the integer speed, creation gates,
  the per-frame update and filter, and the geometry buffers (`particles.dfy`, module
  `Particles`);
- the HUD's `m:ss` clock and its verbatim speed, lap and position fields (`hud.dfy`, module
  `Hud`).

Shared pieces live in `common.dfy`. `Wrappers` holds Option and Result. `Vectors` holds the
three-component real vectors and THREE's lerp. `Physics` holds the physics calls as a
`Command` datatype. `Numeric` holds Math.round and the km/h speed shown to the player.

Objects the source updates in place are classes with `modifies` clauses:

- the key records (`keys.current`);
- the realistic car's steering angle;
- the advanced car's friction and tilt;
- the game provider's state cell;
- THREE's vectors and camera;
- the particle list and its buffers.

Each method's `ensures` ties the new state to a pure function, and the lemmas about those
functions state what the game promises.

Inputs the model does not compute:

- **Physics calls** (`applyForce`, `applyLocalForce`, `applyTorque`) are returned as a
  command list in issue order, not carried out.
- **Math.sqrt** is an input `speed` with `IsSqrt(speed, vx² + vz²)`.
- **Yaw sine and cosine** are inputs.
- **Vector3.applyEuler** is a function parameter.
- **Math.random** is an oracle `rng: nat -> real`. Its values lie in [0, 1), and `rng(i)` is the
  i-th call's result. The particle methods take the next unused index and return it.

Points where the code does something other than what its names suggest; the model follows
the code:

- **Resistance direction.** RealisticCar.tsx:117 labels the force "Forces de résistance", yet
  lines 122-125 point it along the car's heading, not against its velocity. The frame issues
  it as written (`Realistic.ResistanceAsWritten`); see Findings.
- **Drift push condition.** The drift push at RealisticCar.tsx:129-132 needs only drift and
  speed > 3, not a steering key (`Realistic.DriftGate`).
- **Handbrake flag.** useKeyboardControls.ts:44-46 sets a handbrake flag, but no component
  in these files uses the hook, and each car keeps its own key record, so the flag drives no
  command.

## Model

| member | source | states |
|---|---|---|
| Vectors.Lerp | src/components/game/CameraController.tsx:31 | Vector3.lerp leaves a gap to the target of (1 - alpha) times the old gap; alpha 1 lands on the target; lerping toward itself stays put |
| Vectors.LerpOnSegment | src/components/game/CameraController.tsx:31 | with alpha in [0, 1] the lerped point lies on the segment between the two ends, coordinate by coordinate |
| Physics.Issue | src/components/game/RealisticCar.tsx:104-109 | a guarded physics call contributes exactly that call when its guard holds and nothing otherwise |
| Numeric.Round | src/components/game/RealisticCar.tsx:80 | Math.round gives the integer within half a unit, halves going up |
| Numeric.DisplaySpeed | src/components/game/Car.tsx:30-33 | the reported speed is round(3.6 × speed): non-negative and within 0.5 of 3.6 × speed |
| Keyboard.Binding | src/hooks/useKeyboardControls.ts:25-48 | each flag is bound exactly to its codes: forward to KeyZ and KeyW, backward to KeyS, left to KeyQ and KeyA, right to KeyD, drift to both Shift keys, handbrake to Space |
| Controls.With | src/hooks/useKeyboardControls.ts:24-48 | assigning one flag of the record sets that flag and leaves the other five unchanged |
| Controls.Apply | src/hooks/useKeyboardControls.ts:24-74 | a bound code sets (key-down) or clears (key-up) exactly its flag; an unbound code, having no case and no default, changes nothing |
| Keyboard.Press | src/hooks/useKeyboardControls.ts:24-48 | after a key-down every flag is its old value or-ed with "this code is bound to it" |
| Keyboard.Release | src/hooks/useKeyboardControls.ts:51-74 | after a key-up every flag is its old value and-ed with "this code is not bound to it" |
| Keyboard.PreventsDefault | src/hooks/useKeyboardControls.ts:44-46 | only a key-down of the code bound to handbrake (Space) suppresses the default action; no key-up does |
| Keyboard.UnboundCodeIgnored | src/hooks/useKeyboardControls.ts:25-48 | a code outside the table leaves the record unchanged going down or up |
| Keyboard.AliasRelease | src/hooks/useKeyboardControls.ts:53-70 | with two aliases of one flag pressed, releasing one clears the flag although the other is still held |
| Keyboard.RepeatedKeyDown | src/hooks/useKeyboardControls.ts:26-47 | any number n ≥ 1 of repeated key-downs of one code gives the same record as one key-down |
| Keyboard.PressIdempotent | src/hooks/useKeyboardControls.ts:24-48 | a second key-down of the same code changes nothing |
| Keyboard.OnlyKeyUpClears | src/hooks/useKeyboardControls.ts:51-74 | a set flag stays set through any run of events without a key-up bound to it |
| Keyboard.OnlyKeyDownSets | src/hooks/useKeyboardControls.ts:24-48 | a clear flag stays clear through any run of events without a key-down bound to it |
| Keyboard.KeyboardEvent.PreventDefault | src/hooks/useKeyboardControls.ts:45 | marks the event's default action as prevented |
| Keyboard.KeyboardControls.constructor | src/hooks/useKeyboardControls.ts:14-21 | all six flags start false |
| Keyboard.KeyboardControls.HandleKeyDown | src/hooks/useKeyboardControls.ts:24-49 | the record becomes Press of the old record, and the event is marked prevented exactly for Space |
| Keyboard.KeyboardControls.HandleKeyUp | src/hooks/useKeyboardControls.ts:51-75 | the record becomes Release of the old record; the event is not touched |
| Realistic.Binding | src/components/game/RealisticCar.tsx:49-67 | this component's table: forward KeyZ and KeyW, backward KeyS, left KeyQ and KeyA, right KeyD, drift both Shift keys; no code reaches a handbrake flag |
| Realistic.Steer | src/components/game/RealisticCar.tsx:85-96 | the angle stays in [-0.5, 0.5]; with left it becomes angle + 0.05, or 0.5 if that would pass 0.5; with right and not left, angle - 0.05 or -0.5; with neither its magnitude shrinks strictly (unless 0) and its sign is kept |
| Realistic.Recentre | src/components/game/RealisticCar.tsx:93-96 | n frames without steering keys multiply the angle by 0.9^n |
| Realistic.SteerRun | src/components/game/RealisticCar.tsx:88-96 | a run of frames none of which holds a steering key gives 0.9^(number of frames) times the starting angle |
| Realistic.LeftTakesPriority | src/components/game/RealisticCar.tsx:89-92 | with left held, right makes no difference |
| Realistic.RecentreShrinks | src/components/game/RealisticCar.tsx:93-96 | after any number of frames without steering keys the angle's magnitude has not grown and its sign has not flipped |
| Realistic.SteerRunBounded | src/components/game/RealisticCar.tsx:85-96 | whatever keys are held frame after frame, an angle in [-0.5, 0.5] (such as the initial 0) stays there |
| Realistic.ResistanceMagnitude | src/components/game/RealisticCar.tsx:118-120 | 0.02·speed² + 50·speed is at least 50·speed and positive for positive speed |
| Realistic.ResistanceAsWritten | src/components/game/RealisticCar.tsx:99-125 | the force as written is exactly minus the magnitude times (sin yaw, 0, cos yaw): its component along that axis is -magnitude, it has no sideways and no vertical part, and its length is the magnitude |
| Realistic.ResistanceAsWrittenPushesForward | src/components/game/RealisticCar.tsx:99-125 | for every yaw and every speed above the 0.1 gate, a car moving along its heading at that speed gets a force whose dot product with the velocity is +magnitude·speed > 0; at yaw 0 and 10 m/s the force is (0, 0, -502) |
| Realistic.Resistance | src/components/game/RealisticCar.tsx:117-126 | the corrected force opposes the velocity (its dot product with it is -magnitude·speed), has the source's magnitude and no vertical part |
| Realistic.Commands | src/components/game/RealisticCar.tsx:103-137 | a frame issues at most six commands, for the resistance vector it is given |
| Realistic.CommandsEmitted | src/components/game/RealisticCar.tsx:103-137 | a command is issued exactly when it is one of the six gated calls and its gate holds; the world force is the given resistance vector |
| Realistic.DriveGates | src/components/game/RealisticCar.tsx:104-109 | the motor force (0, 0, -2000) is issued iff forward is held and the brake force (0, 0, 1800) iff backward is held, independently |
| Realistic.SteeringGate | src/components/game/RealisticCar.tsx:112-115 | the steering torque (0, -angle·speed·800, 0) is issued iff speed > 0.5 and abs(angle) > 0.01 |
| Realistic.ResistanceGate | src/components/game/RealisticCar.tsx:99-126 | with the force as written: every world force issued needs speed > 0.1, acts at the car's position, is -magnitude along (sin yaw, 0, cos yaw) with no sideways or vertical part; above 0.1 it is always issued |
| Realistic.CorrectedResistanceGate | src/components/game/RealisticCar.tsx:117-126 | with the corrected force in the same branch, every world force issued needs speed > 0.1 and has dot product -magnitude·speed < 0 with the velocity |
| Realistic.DriftGate | src/components/game/RealisticCar.tsx:129-132 | the drift push (angle·1500, 0, 0) is issued iff drift is held and speed > 3 strictly |
| Realistic.StabilisingGate | src/components/game/RealisticCar.tsx:135-137 | the stabilising torque (-2000·rx, 0, -2000·rz) is issued iff abs(rx) > 0.1 or abs(rz) > 0.1 |
| Realistic.RealisticCar.constructor | src/components/game/RealisticCar.tsx:25-32 | the steering angle starts at 0 and all five flags false |
| Realistic.RealisticCar.HandleKeyDown | src/components/game/RealisticCar.tsx:49-57 | the five-flag record takes the key-down transition of this component's table; the angle is untouched |
| Realistic.RealisticCar.HandleKeyUp | src/components/game/RealisticCar.tsx:59-67 | the record takes the key-up transition of the same table; the angle is untouched |
| Realistic.RealisticCar.Frame | src/components/game/RealisticCar.tsx:78-138 | reports round(3.6·speed), updates the angle by Steer (keeping it in range), leaves the flags alone and issues Commands of the updated angle with the resistance as written |
| Realistic.RealisticCar.UpdateSteering | src/components/game/RealisticCar.tsx:89-96 | the stored angle becomes Steer of the old one and stays in [-0.5, 0.5] |
| Realistic.RealisticCar.IssueCommands | src/components/game/RealisticCar.tsx:99-137 | the calls issued one after another are exactly Commands with the resistance as written, in order |
| Advanced.Binding | src/components/game/AdvancedCar.tsx:29-69 | this component's table: z KeyZ, s KeyS, q KeyQ, d KeyD, shift both Shift keys; no code reaches a handbrake flag |
| Advanced.KeyUpClearsMatching | src/components/game/AdvancedCar.tsx:50-69 | a key-up clears exactly the flag its code is bound to; KeyW, KeyA and Space are not bound here |
| Advanced.Grip | src/components/game/AdvancedCar.tsx:90-99 | drift held iff friction 0.2 iff torque 12000; otherwise friction 0.7 and torque 8000 |
| Advanced.DriftTradesGripForTorque | src/components/game/AdvancedCar.tsx:91-99 | drift has less friction and 1.5 times the torque |
| Advanced.Commands | src/components/game/AdvancedCar.tsx:101-112 | a frame issues at most four commands |
| Advanced.CommandsEmitted | src/components/game/AdvancedCar.tsx:101-112 | a command is issued exactly when it is one of the four gated calls and its gate holds |
| Advanced.DriveGates | src/components/game/AdvancedCar.tsx:101-106 | thrust (0, 0, -25000) iff z is held and speed < 50 strictly; reverse (0, 0, 15000) iff s is held, at any speed |
| Advanced.TurnsIndependent | src/components/game/AdvancedCar.tsx:107-112 | q's torque is issued iff q is held and d's iff d is held, each whatever the other does; the two cancel |
| Advanced.SpeedFactor | src/components/game/AdvancedCar.tsx:116 | min(speed/20, 1) lies in [0, 1], is 1 iff speed ≥ 20 and speed/20 below that |
| Advanced.SpeedFactorMonotone | src/components/game/AdvancedCar.tsx:116 | a faster car never gets a smaller factor |
| Advanced.TiltZ | src/components/game/AdvancedCar.tsx:117-123 | the roll leans against the lateral velocity: negative when velocity·factor is positive, positive when it is negative, 0 when it is 0 |
| Advanced.TiltX | src/components/game/AdvancedCar.tsx:118 | the pitch has the sign of the forward velocity times the factor and a magnitude of exactly 0.01 times it |
| Advanced.TiltProperties | src/components/game/AdvancedCar.tsx:117-123 | drift multiplies the roll by exactly 1.5; the roll leans against the lateral velocity, within 0.03 (drift) or 0.02 of its magnitude |
| Advanced.AdvancedCar.constructor | src/components/game/AdvancedCar.tsx:16-23 | all flags start false, friction 0.7, no tilt |
| Advanced.AdvancedCar.HandleKeyDown | src/components/game/AdvancedCar.tsx:29-48 | the record takes the key-down transition of this component's table; friction and tilt are untouched |
| Advanced.AdvancedCar.HandleKeyUp | src/components/game/AdvancedCar.tsx:50-69 | the record takes the key-up transition of the same table; friction and tilt are untouched |
| Advanced.AdvancedCar.Frame | src/components/game/AdvancedCar.tsx:82-125 | reports round(3.6·speed), sets the friction of the handling mode, issues Commands, and sets roll and pitch only when the group is mounted |
| Advanced.AdvancedCar.UpdateGrip | src/components/game/AdvancedCar.tsx:91-99 | the friction and the returned torque are those of Grip for the drift flag |
| Advanced.AdvancedCar.IssueCommands | src/components/game/AdvancedCar.tsx:101-112 | the calls issued one after another are exactly Commands, in order |
| Advanced.AdvancedCar.UpdateTilt | src/components/game/AdvancedCar.tsx:115-124 | roll and pitch become TiltZ and TiltX of the velocity and the speed factor |
| SimpleCar.MoveOf | src/components/game/Car.tsx:40-57 | a move exists exactly for the eight listed codes |
| SimpleCar.HandleKeyPress | src/components/game/Car.tsx:36-57 | at most one command per handler call, none for an unlisted code; forces are along z only and torques about y only |
| SimpleCar.KeyPressAfterFrames | src/components/game/Car.tsx:29-62 | after n frames one key press runs the n registered handlers: a listed code issues exactly n commands, each the handler's command; an unlisted code issues none |
| SimpleCar.KeyPressRepeats | src/components/game/Car.tsx:36-61 | after two frames one KeyW press issues the accelerate force (0, 0, -15000) twice |
| SimpleCar.AliasesAgree | src/components/game/Car.tsx:41-56 | the letter key and the arrow key of a direction issue the same command |
| SimpleCar.OpposedPairs | src/components/game/Car.tsx:37-55 | accelerate is (0, 0, -15000) and brake its opposite; left is (0, 5000, 0) and right its opposite |
| SimpleCar.OtherKeysIgnored | src/components/game/Car.tsx:40-57 | KeyZ, KeyQ, Shift and Space issue nothing here |
| Game.Step | src/contexts/GameContext.tsx:44-77 | each setter writes only its own field, with the given value; start and pause set the flag; reset gives the initial record |
| Game.FieldsDetermineState | src/contexts/GameContext.tsx:4-11 | two records agreeing on all six fields are equal, so Step's field-wise frame pins the result |
| Game.StepContractDetermines | src/contexts/GameContext.tsx:44-77 | any record that keeps the fields an action does not write and gives the written field the action's value is Step's result, so Step's contract fixes the whole record |
| Game.ResetIdempotent | src/contexts/GameContext.tsx:68-77 | reset gives the initial record from any state, so resetting twice equals resetting once |
| Game.ScoreUntouched | src/contexts/GameContext.tsx:44-66 | through any run of actions without a reset the score keeps its value |
| Game.ScoreStaysZero | src/contexts/GameContext.tsx:35-77 | from a score of 0 the score is 0 after any run of actions |
| Game.ResetForgetsHistory | src/contexts/GameContext.tsx:68-77 | a run ending in a reset ends at the initial record whatever came before |
| Game.UseGame | src/contexts/GameContext.tsx:26-32 | fails with "useGame must be used within a GameProvider" iff no provider value is present, and otherwise returns that value |
| Game.GameProvider.constructor | src/contexts/GameContext.tsx:35-42 | the state starts as speed 0, time 0, lap 1, position 1, not playing, score 0 |
| Game.GameProvider.UpdateSpeed | src/contexts/GameContext.tsx:44-46 | the state becomes Step of the old state with UpdateSpeed |
| Game.GameProvider.UpdateTime | src/contexts/GameContext.tsx:48-50 | the state becomes Step of the old state with UpdateTime |
| Game.GameProvider.UpdateLap | src/contexts/GameContext.tsx:52-54 | the state becomes Step of the old state with UpdateLap |
| Game.GameProvider.UpdatePosition | src/contexts/GameContext.tsx:56-58 | the state becomes Step of the old state with UpdatePosition |
| Game.GameProvider.StartGame | src/contexts/GameContext.tsx:60-62 | the state becomes Step of the old state with StartGame |
| Game.GameProvider.PauseGame | src/contexts/GameContext.tsx:64-66 | the state becomes Step of the old state with PauseGame |
| Game.GameProvider.ResetGame | src/contexts/GameContext.tsx:68-77 | the state becomes Step of the old state with ResetGame, the initial record |
| Three.Vector3.constructor | src/components/game/CameraController.tsx:13-14 | a new Vector3 holds the given coordinates (the origin for `new Vector3()`) |
| Three.Vector3.Set | src/components/game/CameraController.tsx:24-28 | the vector holds exactly the three given coordinates |
| Three.Vector3.Lerp | src/components/game/CameraController.tsx:31 | the vector becomes Lerp of its old value toward the other vector's value |
| Three.Vector3.Copy | src/components/game/CameraController.tsx:32 | the vector takes the other vector's value |
| Three.Camera.LookAt | src/components/game/CameraController.tsx:35 | the camera aims at exactly the given point |
| Camera.Target | src/components/game/CameraController.tsx:18-28 | the target minus the car position is applyEuler of the offset (0, 6, 12) and the car's rotation triple |
| Camera.Follow | src/components/game/CameraController.tsx:31 | a camera already on a fixed target stays on it frame after frame |
| Camera.FollowGap | src/components/game/CameraController.tsx:31 | with a fixed target, the gap after n frames is 0.95^n times the starting gap |
| Camera.DecayFactor | src/components/game/CameraController.tsx:31 | 0.95^n lies in (0, 1] and shrinks strictly with every frame |
| Camera.FollowOnSegment | src/components/game/CameraController.tsx:31 | every smoothed position lies between the starting position and the target |
| Camera.SmoothingLags | src/components/game/CameraController.tsx:31-32 | from a point other than the target one smoothing step falls short of the target, so the camera is not put on the raw target |
| Camera.CameraController.constructor | src/components/game/CameraController.tsx:13-14 | the target and smoothed positions start at the origin, as two distinct fresh vectors |
| Camera.CameraController.Frame | src/components/game/CameraController.tsx:16-36 | the target is Target of the car pose, the smoothed position is the lerp by 0.05 toward it, the camera sits on the smoothed position and aims at the car plus (0, 1, 0) |
| Particles.NewParticle | src/components/game/ParticleSystem.tsx:47-67 | a new particle has lifetime 0 and a positive life span |
| Particles.NewParticleFields | src/components/game/ParticleSystem.tsx:50-63 | life span (0.5 + r)·lifeFactor lies in [0.5, 1.5)·lifeFactor; the particle appears 0.35 below the point and within half the spread on x and z; its vertical velocity lies in [0, 0.1) |
| Particles.Create | src/components/game/ParticleSystem.tsx:42-70 | a non-drift particle below speed 5 is refused before any draw; otherwise a first draw above 0.7 refuses it using one draw, and at most 0.7 pushes NewParticle from the next eight draws, nine in all; live lists stay live |
| Particles.AtWheel | src/components/game/ParticleSystem.tsx:109-129 | a wheel that does not fire adds nothing; one whose first draw does not exceed the threshold (0.7 drift, 0.85 normal) uses only that draw |
| Particles.AtWheelFires | src/components/game/ParticleSystem.tsx:109-129 | a wheel that fires (draw above the threshold, createParticle's speed gate passed, its draw at most 0.7) appends exactly the particle built at the car position plus that wheel's offset, using ten draws |
| Particles.Wheels | src/components/game/ParticleSystem.tsx:109-118 | the wheel pass appends at most one particle per wheel and keeps the existing ones in place |
| Particles.StyleOf | src/components/game/ParticleSystem.tsx:107-130 | the drift branch iff driftMode or speed > 60; the normal branch iff neither and speed > 20; nothing otherwise |
| Particles.Round | src/components/game/ParticleSystem.tsx:107-130 | one loop iteration appends at most one particle per wheel after the existing ones; the quiet branch changes nothing |
| Particles.Rounds | src/components/game/ParticleSystem.tsx:106-131 | n loop iterations append at most 4n particles and keep the existing ones in place |
| Particles.EmitRate | src/components/game/ParticleSystem.tsx:95 | min(floor(speed/10), 5) is at most 5, is the floor below that, and is 5 iff speed ≥ 50 |
| Particles.Emit | src/components/game/ParticleSystem.tsx:94-131 | a frame's emission appends at most 20 particles and keeps the existing ones in place |
| Particles.WheelParticleSpawned | src/components/game/ParticleSystem.tsx:47-67 | a particle created at a wheel has lifetime 0, a life span in [0.5, 1.5)·lifeFactor, sits 0.35 below the car and within 0.9 (x) or 1.5 (z) plus half the spread of its centre |
| Particles.EmitSpawn | src/components/game/ParticleSystem.tsx:94-131 | every particle a frame appends has those properties, with the drift life factor and spread iff driftMode or speed > 60 |
| Particles.EmitQuiet | src/components/game/ParticleSystem.tsx:119-130 | without drift and at speed ≤ 20 nothing is emitted and no random number is drawn |
| Particles.QuietRounds | src/components/game/ParticleSystem.tsx:106-131 | any number of quiet-branch iterations change nothing |
| Particles.Advance | src/components/game/ParticleSystem.tsx:141-148 | lifetime grows by 0.016; velocity gains 0.001 upward and is then scaled by 0.97 as a whole; the position moves by the new velocity |
| Particles.Survivors | src/components/game/ParticleSystem.tsx:139-163 | the filter keeps only particles whose new lifetime is below their life span, so a list of non-negative lifetimes comes out live |
| Particles.SurvivorsConcat | src/components/game/ParticleSystem.tsx:139-163 | the filter distributes over concatenation, so survivors keep their relative order |
| Particles.SurvivorsMembers | src/components/game/ParticleSystem.tsx:139-163 | a particle is kept iff it is the update of an old particle and still alive |
| Particles.PositionBuffer | src/components/game/ParticleSystem.tsx:151 | the position buffer has three entries per particle processed, dropped or kept |
| Particles.PositionBufferAt | src/components/game/ParticleSystem.tsx:151 | entries 3i to 3i + 2 are the i-th particle's updated coordinates |
| Particles.SizeBuffer | src/components/game/ParticleSystem.tsx:158-159 | the size buffer has one entry per particle processed, dropped or kept |
| Particles.SizeBufferSigns | src/components/game/ParticleSystem.tsx:158-162 | a particle of positive size is drawn with positive size iff the filter keeps it |
| Particles.ParticleSystem.constructor | src/components/game/ParticleSystem.tsx:24-25 | the particle list and both buffers start empty |
| Particles.ParticleSystem.CreateParticle | src/components/game/ParticleSystem.tsx:42-70 | the list and next draw index become those of Create |
| Particles.ParticleSystem.EmitAtWheel | src/components/game/ParticleSystem.tsx:110-117 | one wheel's draw and optional createParticle at that wheel, as AtWheel |
| Particles.ParticleSystem.EmitAtWheels | src/components/game/ParticleSystem.tsx:109-118 | the forEach over the four wheels, as Wheels |
| Particles.ParticleSystem.FilterCallback | src/components/game/ParticleSystem.tsx:141-148 | the callback's in-place updates give Advance of the particle |
| Particles.ParticleSystem.UpdateParticles | src/components/game/ParticleSystem.tsx:133-163 | the list becomes Survivors of the old list and the buffers PositionBuffer and SizeBuffer of it; the list stays live |
| Particles.ParticleSystem.EmitRound | src/components/game/ParticleSystem.tsx:107-130 | one loop iteration, as Round |
| Particles.ParticleSystem.EmitParticles | src/components/game/ParticleSystem.tsx:95-131 | the emission loop, as Emit |
| Particles.ParticleSystem.Frame | src/components/game/ParticleSystem.tsx:89-169 | below speed 1 nothing changes and nothing is drawn; otherwise the list is emitted into, then filtered, and the buffers describe the emitted list |
| Hud.Decimal | src/components/game/HUD.tsx:20 | toString of a whole number is at least one digit, one digit iff below 10, all characters digits, with no leading zero unless it is "0" |
| Hud.DecimalRoundTrip | src/components/game/HUD.tsx:20 | the decimal digits read back as the number |
| Hud.ToString | src/components/game/HUD.tsx:12 | a minus sign leads iff the number is negative |
| Hud.ToStringRoundTrip | src/components/game/HUD.tsx:12 | any whole number printed reads back as itself |
| Hud.PadStart | src/components/game/HUD.tsx:20 | padStart reaches the width, ends with the original string and fills the front with the filler |
| Hud.JsRem | src/components/game/HUD.tsx:20 | JavaScript's % keeps the dividend's sign, is smaller than the divisor in magnitude, and pairs with the quotient truncated toward zero |
| Hud.Minutes | src/components/game/HUD.tsx:20 | Math.floor(time / 60) is the m with 60m ≤ time < 60m + 60 |
| Hud.Clock | src/components/game/HUD.tsx:20 | the clock starts with the printed minutes followed by a colon and at least two more characters |
| Hud.ClockFields | src/components/game/HUD.tsx:20 | for time ≥ 0: minutes·60 + seconds = time, seconds in [0, 59], and the clock is the minutes, a colon and two zero-padded seconds digits |
| Hud.ClockRoundTrip | src/components/game/HUD.tsx:20 | a non-negative time reads back from its clock |
| Hud.Render | src/components/game/HUD.tsx:12-22 | the lap text starts with "LAP " and the position text with "POSITION ", each followed by a value; the speed is printed alone; the clock is Clock of the time |
| Hud.RenderShowsState | src/components/game/HUD.tsx:12-22 | speed, lap and position read back from their texts after the fixed labels; the clock reads back as the time |

## Left out

- Listener registration and removal, the physics subscriptions and all DOM I/O are left
  out. This covers useKeyboardControls.ts:77-83, AdvancedCar.tsx:25-28 and 71-79, and
  Car.tsx:19-27 and 60-61. Car.tsx adds a new listener every frame and returns a cleanup
  that the frame loop ignores, so a key press after n frames issues its command n times;
  `SimpleCar.KeyPressAfterFrames` states that count, but the listener list itself is not
  modelled. The handlers are modelled as operations called explicitly.
- RealisticCar.tsx:35-45 and 48-76 pass their setup functions to `useRef`, which stores them
  and never calls them. As written, the component never attaches its key handlers or
  subscriptions. The model gives the handlers as operations but does not claim they are
  attached.
- The physics engine (`useBox` bodies, mass, materials, integration) is not modelled. Its
  calls are recorded as `Command` values, and the kinematics are inputs.
- The friction assignment at AdvancedCar.tsx:93 and 97 is recorded as a field value.
- The tilt assignment in AdvancedCar.tsx is modelled as two fields, not a THREE group.
- Floating point is not modelled: all quantities are reals with exact arithmetic. Math.sqrt,
  the sine and cosine of the yaw, and Vector3.applyEuler are inputs. CameraController.tsx:21
  passes applyEuler a plain {x, y, z} object cast to an Euler; what THREE does with that
  object (whether the offset turns at all) is left to the `applyEuler` parameter. The
  camera's `lookAt` orientation maths is left out; only the aimed-at point is kept.
- The particle colour is kept as the hex code passed to THREE.Color. The colour buffer
  (ParticleSystem.tsx:135, 155 and 167) and the unused `alpha` at line 154 are left out,
  because they need THREE's colour conversion.
- The geometry `setAttribute` calls (ParticleSystem.tsx:166-168) are modelled as the
  `positionBuffer` and `sizeBuffer` fields; the Float32 conversion is not modelled.
- The drift-check `setInterval` (ParticleSystem.tsx:73-86) is timer-driven React state, so
  `driftMode` is an input. Its inner cleanup is discarded, so once set the flag is never
  cleared by this code.
- The texture loading and materials in ParticleSystem.tsx are not modelled.
- Rendering, JSX, the track, lighting and effects components, and the pages are not modelled.
- React re-rendering and context propagation are not modelled. The game store is a state
  cell with transitions.
- Game.GameState: numeric fields are whole numbers. The one setter any component calls is
  `updateSpeed`, with the result of Math.round.
- Hud.ToString: gives the plain decimal digits of a whole number. JavaScript's exponent form
  for very large numbers is not modelled. Non-integer times are also not modelled, since
  every time value is a whole number.
- Particles.Emit: states that the appended particles are bounded in number and the prefix
  is kept, not which particles are appended. `Particles.EmitSpawn` states what every
  appended particle looks like; the exact list is `Particles.Rounds`, and the
  `Particles.ParticleSystem.Frame` contract ties the method to it.

## Findings

| source | as written | input that shows it | evidently intended | confidence | as-written member | corrected member |
|---|---|---|---|---|---|---|
| src/components/game/RealisticCar.tsx:122-125 | the "resistance" force is -(sin yaw, 0, cos yaw) × (0.02·speed² + 50·speed), a fixed direction in the car's heading frame; at yaw 0 this is world -z, the direction in which the motor's local force (0, 0, -2000) pushes | yaw 0, velocity (0, 0, -10), speed 10: the force is (0, 0, -502), whose dot product with the velocity is +5020 > 0, so it speeds the car up | a resistance opposing the horizontal velocity with the same magnitude (dot product with the velocity ≤ 0) | not executed | Realistic.ResistanceAsWrittenPushesForward | Realistic.CorrectedResistanceGate |

# WillowVox engine core in Dafny

This project models the core of the WillowVox (WV-Core) engine:

- **The priority job pool** (`ThreadPool`). It has three job queues (High, Medium, Low) and a
  queue of wake-up tokens. Worker threads take one token, check the termination flag, scan the
  queues and run what they find.
- **The per-frame input state** (`InputState`). It holds the held, pressed and released flags for
  each abstract action, the movement and look axes, the pointer and the device tag.
- **The static query facades read by game code.** `InputManager` answers button, axis, device and
  motion queries. `GamepadInput` provides stick, trigger, d-pad and vibration helpers.
  `TouchInput` synthesises a touch from the pointer.
- **The asset cache.** `AssetProvider<T>` is a name-to-asset map that loads on demand.
  `AssetManager` keeps one provider per asset type.
- **The button translation of every platform back end.** These are Android, iOS, Desktop (GLFW),
  PS3, PS4, Xbox Series, Switch, Wii U, GameCube and Wii. Each `PollInput` turns one frame's
  hardware reading into the input state.

## How the model is built

Every operation is a pure function over immutable records. A function that updates C++ state
in place takes the old record and returns the new one. The hardware library's answer for the
frame is a parameter: XInput, `cellPad`, `scePad`, `padUpdate`, `VPADRead`, `PAD_ScanPads`,
`WPAD_*`, GLFW and the Android motion event. Button masks are sets of buttons, and `held &
~previous` is set difference. PS3 is the exception: its masks are kept as 16-bit words, because
the back end assembles them from two bytes. Floats are exact `real` numbers.

The thread pool is a sequential state machine:

- each transition is atomic (construction, `Start`, `Enqueue`, one worker-loop iteration,
  teardown);
- the wake-up queue is a counter of tokens;
- a log records the ids of the jobs that ran, so execution order can be stated.

The worker's scan is modelled twice, as written and as the design describes it (see Findings).

Where the design description and the code disagree, the model follows the code:

- The documented scan order is strict High, Medium, Low. As written, the loop probes the High
  queue on every iteration. The as-written scan is the primary model; the documented scan is
  modelled beside it.
- `InputDeviceType` in `include/wv/platform/InputState.h` has no `GameCubeController` or
  `WiiUGamePad` entry, although the GameCube, Wii U, `GamepadInput` and `TouchInput` code uses
  both. The model adds them at the end of the enumeration.

Where the code is evidently wrong (see Findings), the member named after the source operation
models the code as written, and the fix sits beside it under a name or rule set marked
"corrected":

- PS3, PS4 and Switch: `PollInput` and `MapPad` are the source's update, where the stick only
  ever sets movement flags. `PollInputCorrected` and `MapPadCorrected` decide the flags from the
  frame's stick alone.
- Xbox Series and GameCube: `ReadPad` and `PollInput` take a `Rules` value. `AsWritten` divides
  the sticks as the source does; `Corrected` clamps them to [-1, 1] (and, on the GameCube,
  makes Sprint follow the trigger).
- The thread pool's scan takes a `ScanOrder`, and the touch back ends a `HeldRule`, in the
  same way.

## Model

| member | source | states |
|---|---|---|
| `ThreadPool.PriorityOrdinals` | include/wv/threading/ThreadPool.h:11-16 | The priorities index the queue array as High 0, Medium 1, Low 2, and ordinal and priority convert back and forth. |
| `ThreadPool.Construct` | src/threading/ThreadPool.cpp:7-8 | A new pool has empty queues, no threads, no tokens and the termination flag clear. |
| `ThreadPool.Start` | src/threading/ThreadPool.cpp:25-29 | Start adds exactly `numThreads` running workers; a non-positive count adds none. Queues and tokens are untouched. |
| `ThreadPool.Enqueue` | src/threading/ThreadPool.cpp:31-37 | The job goes to the back of its own priority's queue, every other queue is unchanged, and exactly one wake-up token is posted. |
| `ThreadPool.EnqueueDefaultsToMedium` | include/wv/threading/ThreadPool.h:24 | Without an explicit priority, a job lands in the Medium queue. |
| `ThreadPool.Scan` | src/threading/ThreadPool.cpp:56-63 | The scan pops the head of the first non-empty probed queue. If it finds nothing, every probed queue was empty and nothing is removed. |
| `ThreadPool.WorkerStep` | src/threading/ThreadPool.cpp:39-69 | One loop iteration blocks exactly when no token is queued. Otherwise it consumes one token. With the flag set, the worker exits without touching the queues. A found, non-empty job is appended to the run log. |
| `ThreadPool.AsWrittenStepTouchesOnlyHigh` | src/threading/ThreadPool.cpp:56-63 | The scan as written only dequeues from High; it goes idle exactly when High is empty, whatever Medium and Low hold. |
| `ThreadPool.IntendedStepTakesFirstNonEmpty` | src/threading/ThreadPool.cpp:56-63 | The strict scan takes from High if possible, else Medium, else Low; it idles only when all three queues are empty. |
| `ThreadPool.ScansAgreeWhenHighNonEmpty` | src/threading/ThreadPool.cpp:56-63 | While High has work, the as-written and strict scans take the same step. |
| `ThreadPool.ScansDifferWhenOnlyLowerWork` | src/threading/ThreadPool.cpp:56-63 | With High empty and lower work queued, the as-written scan idles while the strict scan runs one job. |
| `ThreadPool.StepKeepsSchedule` | src/threading/ThreadPool.cpp:39-69 | A worker step preserves the run log followed by the queues in priority order. No job is lost, duplicated or overtaken by a lower one. |
| `ThreadPool.EnqueueAddsOneJob` | src/threading/ThreadPool.cpp:31-37 | Enqueue adds exactly the new job to the multiset of queued and run jobs. |
| `ThreadPool.StepConservesJobs` | src/threading/ThreadPool.cpp:39-69 | A worker step moves jobs from the queues to the run log without creating or losing any. |
| `ThreadPool.EnqueueKeepsWakeups` | src/threading/ThreadPool.cpp:31-37 | Enqueue keeps the invariant that every queued job has a wake-up token waiting for it. |
| `ThreadPool.IntendedStepKeepsWakeups` | src/threading/ThreadPool.cpp:39-69 | Under the strict scan, a step keeps the invariant that every queued job has a token. |
| `ThreadPool.RunSteps` | src/threading/ThreadPool.cpp:42-68 | `k` iterations of a live worker consume `k` tokens and never increase the number of queued jobs. |
| `ThreadPool.AsWrittenNeverRunsLower` | src/threading/ThreadPool.cpp:56-63 | However many iterations run, the as-written scan never removes a Medium or Low job. |
| `ThreadPool.IntendedStepMakesProgress` | src/threading/ThreadPool.cpp:56-67 | Under the strict scan, a woken worker with work pending removes exactly one job. |
| `ThreadPool.DrainRunsSchedule` | src/threading/ThreadPool.cpp:39-69 | When every queued job has a token, the strict scan drains all queues, and the log ends with the pending schedule. |
| `ThreadPool.ScheduleByPriority` | include/wv/threading/ThreadPool.h:11-16 | The pending schedule is all High jobs in arrival order, then Medium, then Low. |
| `ThreadPool.IntendedDrainOrder` | src/threading/ThreadPool.cpp:39-69 | Under the strict scan, all queued jobs run exactly once: High in FIFO order, then Medium, then Low. |
| `ThreadPool.MediumJobStranded` | src/threading/ThreadPool.cpp:56-63 | As written, a lone Medium job on a one-worker pool uses up its token without running and stays queued with no token left. |
| `ThreadPool.MediumJobRunsWhenScanIsStrict` | src/threading/ThreadPool.cpp:56-67 | The same Medium job runs at once under the strict scan. |
| `ThreadPool.JoinAll` | src/threading/ThreadPool.cpp:19-20 | With the flag set and a token per running worker, joining stops every worker and spends one token each. No job runs. |
| `ThreadPool.Teardown` | src/threading/ThreadPool.cpp:10-23 | The destructor posts two tokens per thread, which always covers the running workers. Every worker stops, the thread list empties, and queued jobs never run. |
| `Inputs.Ordinal` | include/wv/platform/InputState.h:16-55 | The 24 actions index the flag arrays 0 to 23; `Count` is last, and it alone takes the array size as its ordinal. |
| `Inputs.ActionAtOrdinal` | include/wv/platform/InputState.h:16-55 | Every action is recovered from its array index. |
| `Inputs.OrdinalInjective` | include/wv/platform/InputState.h:16-55 | Distinct actions occupy distinct array slots. |
| `Inputs.FlagsOfGet` | include/wv/platform/InputState.h:74-80 | A flag array built from a set of actions has an action's flag set exactly when the action is in the set. |
| `Inputs.InputState.ResetFrameStates` | include/wv/platform/InputState.h:120-130 | The frame reset clears every pressed and released flag, the pointer delta and the scroll. Held flags, axes, pointer position, pointer-down and device are kept. |
| `Inputs.DefaultStateIsBlank` | include/wv/platform/InputState.h:71-99 | A fresh state has no action pressed, held or released, an unknown device and the pointer up. The move and look axes, pointer, pointer delta and scroll are all 0. |
| `Inputs.ResetFrameStatesIdempotent` | include/wv/platform/InputState.h:120-130 | Resetting twice is the same as resetting once. |
| `Inputs.PressedOfSets` | include/wv/platform/InputState.h:102-105 | When the pressed array is `now - before`, an action is pressed exactly when it is down now and was up before. |
| `Inputs.ReleasedOfSets` | include/wv/platform/InputState.h:114-117 | When the released array is `before - now`, an action is released exactly when it was down before and is up now. |
| `Inputs.HeldOfSet` | include/wv/platform/InputState.h:108-111 | A held query reads the held array. |
| `Inputs.NewGamepadMapping` | include/wv/platform/InputState.h:166-176 | A new gamepad mapping has 32 button slots, each mapped to no action (`Count`). |
| `Analog.Clamp` | src/input/GamepadInput.cpp:48 | Clamping lands in the range and leaves in-range values unchanged. |
| `Analog.ClampIsNearest` | src/input/GamepadInput.cpp:48 | The clamped value is the in-range value nearest the input. |
| `Analog.Deadzone` | src/platform/Nintendo/SwitchPlatform.cpp:133-144 | The plain deadzone zeroes readings below the threshold and passes the others through unchanged. |
| `Analog.DeadzoneGap` | src/platform/Nintendo/WiiPlatform.cpp:171-182 | A plain deadzone never outputs a magnitude between zero and the threshold, and never amplifies. |
| `Analog.RescaledDeadzone` | src/platform/Xbox/XboxSeriesPlatform.cpp:161-175 | The rescaled deadzone zeroes readings below the threshold. It keeps in-range readings in [-1, 1], maps full deflection to full output and preserves the sign. |
| `Analog.RescaledDeadzoneMonotone` | src/platform/Xbox/XboxSeriesPlatform.cpp:161-175 | Pushing the stick further never lowers the rescaled output. |
| `Analog.TriggerRescale` | src/platform/Xbox/XboxSeriesPlatform.cpp:177-189 | The trigger rescale is zero below its deadzone, never negative, at most one for in-range input, and one at full pull. |
| `Bindings.WithMoves` | src/platform/Xbox/XboxSeriesPlatform.cpp:131-135 | Writing the four movement flags sets exactly those and leaves every other held flag alone. |
| `Bindings.Side` | src/platform/Xbox/XboxSeriesPlatform.cpp:144-158 | A stick axis is classed forward/right above 0.3, backward/left below -0.3 and neutral otherwise. |
| `Bindings.StickToDigital` | src/platform/Xbox/XboxSeriesPlatform.cpp:144-158 | The analog-to-digital rule only ever sets movement flags: each is its earlier value or the stick past 0.3 that way. No other flag changes. |
| `Bindings.ElseIfSpellingAgrees` | src/platform/PS3/PS3Platform.cpp:155-169 | The nested if/else spelling of the stick rule used by several back ends equals the flat one. |
| `Bindings.StickHoldsNoOpposites` | src/platform/Xbox/XboxSeriesPlatform.cpp:144-158 | Starting from cleared movement flags, the stick never holds two opposite directions. |
| `Bindings.StickOnlyMoves` | src/platform/PS4/PS4Platform.cpp:167-181 | The corrected rule decides each movement flag from this frame's stick alone and leaves the other flags alone. |
| `Bindings.StickOnlyIsClearedRule` | src/platform/PS4/PS4Platform.cpp:167-181 | The corrected rule is the as-written rule applied after clearing the movement flags. |
| `Bindings.StickKeepsSprint` | src/platform/Nintendo/GameCubePlatform.cpp:118-150 | The stick rule commutes with writing Sprint. |
| `Bindings.CentredStickAddsNothing` | src/platform/Xbox/XboxSeriesPlatform.cpp:144-158 | A stick inside the 0.3 band leaves the held flags exactly as they were. |
| `InputManager.GetButton` | src/input/InputManager.cpp:14-18 | Without a state every button reads up; with one, `GetButton` is the held flag. |
| `InputManager.GetButtonDown` | src/input/InputManager.cpp:20-24 | Without a state nothing is pressed; with one, `GetButtonDown` is the pressed flag. |
| `InputManager.GetButtonUp` | src/input/InputManager.cpp:26-30 | Without a state nothing is released; with one, `GetButtonUp` is the released flag. |
| `InputManager.ButtonQueriesReadTheirArrays` | src/input/InputManager.cpp:14-30 | The three button queries read the held, pressed and released arrays respectively. |
| `InputManager.AxisOfName` | src/input/InputManager.cpp:48-55 | Exactly the eight names MoveX/Horizontal, MoveY/Vertical, LookX/"Mouse X" and LookY/"Mouse Y" are recognised, each pair naming one axis. |
| `InputManager.RecognisedNames` | src/input/InputManager.cpp:43-58 | A name is recognised exactly when it is one of the eight axis names. |
| `InputManager.ShortName` | src/input/InputManager.cpp:48-55 | Every axis has a short name that resolves back to it. |
| `InputManager.AliasName` | src/input/InputManager.cpp:48-55 | Every axis has a second, different name (the Unity-style alias) that resolves back to it. |
| `InputManager.GetAxisInternal` | src/input/InputManager.cpp:43-58 | An axis query returns 0 without a state or for an unknown name, and otherwise the named axis of the state. |
| `InputManager.AxisRawAgrees` | src/input/InputManager.cpp:32-41 | `GetAxisRaw` and `GetAxis` return the same value for every name. |
| `InputManager.AliasesAgree` | src/input/InputManager.cpp:48-55 | An axis and its alias read the same value. |
| `InputManager.GetMovementVector` | src/input/InputManager.cpp:60-64 | The movement vector is (MoveX, MoveY), or zero without a state. |
| `InputManager.GetLookVector` | src/input/InputManager.cpp:66-70 | The look vector is (LookX, LookY), or zero without a state. |
| `InputManager.GetPointerPosition` | src/input/InputManager.cpp:72-76 | The pointer position is the state's pointer, or zero without a state. |
| `InputManager.GetPointerDelta` | src/input/InputManager.cpp:78-82 | The pointer delta is the state's delta, or zero without a state. |
| `InputManager.GetPointerDown` | src/input/InputManager.cpp:84-88 | The pointer is down only when a state says so. |
| `InputManager.GetScrollDelta` | src/input/InputManager.cpp:116-120 | The scroll delta is the state's, or zero without a state. |
| `InputManager.GetDeviceType` | src/input/InputManager.cpp:90-94 | The device is the state's tag, or `Unknown` without a state. |
| `InputManager.IsDeviceType` | src/input/InputManager.cpp:96-99 | The device test compares with the current device. |
| `InputManager.IsGamepad` | src/input/InputManager.cpp:101-109 | Gamepad means generic, Xbox, PlayStation, Switch or Wii Remote. |
| `InputManager.NintendoPadsAreNotGamepads` | src/input/InputManager.cpp:101-109 | A GameCube controller or Wii U GamePad is not reported as a gamepad. |
| `InputManager.IsTouchscreen` | src/input/InputManager.cpp:111-114 | Touchscreen means the current device is the touch screen. |
| `InputManager.GamepadAndTouchscreenExclusive` | src/input/InputManager.cpp:101-114 | No state is both a gamepad and a touch screen. |
| `InputManager.IsMoving` | src/input/InputManager.cpp:122-132 | Moving means a movement axis beyond 0.1 in magnitude or a movement action held. |
| `InputManager.IsLooking` | src/input/InputManager.cpp:134-140 | Looking means a look axis beyond 0.1 in magnitude. |
| `InputManager.HeldMoveMeansMoving` | src/input/InputManager.cpp:122-132 | Holding any movement action counts as moving, whatever the axes say. |
| `InputManager.StillMeansNotMoving` | src/input/InputManager.cpp:122-132 | With both axes within 0.1 and no movement action held, the player is not moving. |
| `InputManager.NoStateIsNeutral` | src/input/InputManager.cpp:14-140 | Before a state is set, every query gives its neutral answer. |
| `InputManager.FrameResetKeepsMotion` | src/input/InputManager.cpp:14-140 | After the frame reset, held buttons, moving and looking read as before, and nothing reads pressed or released. |
| `GamepadInput.Level` | src/input/GamepadInput.cpp:19-20 | A simulated trigger reads 1 when its action is held and 0 otherwise. |
| `GamepadInput.SetInputState` | src/input/GamepadInput.cpp:12-22 | Setting a state simulates the left trigger from Crouch and the right from Sprint. Clearing the state keeps the old trigger values. |
| `GamepadInput.SetInputStateKeepsTriggersDigital` | src/input/GamepadInput.cpp:12-22 | Simulated triggers only ever read 0 or 1. |
| `GamepadInput.GetTriggerLeftDown` | src/input/GamepadInput.cpp:73-76 | The left trigger is down exactly when its value exceeds the threshold. |
| `GamepadInput.GetTriggerRightDown` | src/input/GamepadInput.cpp:78-81 | The right trigger is down exactly when its value exceeds the threshold. |
| `GamepadInput.TriggersFollowCrouchAndSprint` | src/input/GamepadInput.cpp:12-22 | At the default threshold of 0.5, the left trigger is down exactly when Crouch is held and the right exactly when Sprint is held. |
| `GamepadInput.GetLeftStick` | src/input/GamepadInput.cpp:36-40 | The left stick is the movement vector. |
| `GamepadInput.RightStickComponent` | src/input/GamepadInput.cpp:42-56 | A look axis is divided by 100 and clamped to [-1, 1]. |
| `GamepadInput.GetRightStick` | src/input/GamepadInput.cpp:58-61 | The right stick is the clamped look vector over 100, always in the unit square, and zero without a state. |
| `GamepadInput.RightStickRecoversReading` | src/input/GamepadInput.cpp:42-56 | For back ends that scale the stick by 100 into the look axis, the right stick recovers the original reading. |
| `GamepadInput.GetDPad` | src/input/GamepadInput.cpp:83-96 | The d-pad vector comes from the movement flags; Right wins over Left and Backward over Forward. |
| `GamepadInput.ActionOf` | src/input/GamepadInput.cpp:98-168 | Each named pad button reads a real action. |
| `GamepadInput.ActionOfInjective` | src/input/GamepadInput.cpp:98-168 | No two named pad buttons read the same action. |
| `GamepadInput.GetPadButton` | src/input/GamepadInput.cpp:98-168 | Each pad-button query is the held query for its action. |
| `GamepadInput.DPadVectorMatchesGetters` | src/input/GamepadInput.cpp:83-120 | The d-pad vector agrees with the four d-pad button queries. |
| `GamepadInput.IsConnected` | src/input/GamepadInput.cpp:170-184 | Only player 0 can be connected, and only with a state whose device is one of the seven controller types. |
| `GamepadInput.ConnectedExtendsGamepad` | src/input/GamepadInput.cpp:170-184 | Every device `IsGamepad` accepts counts as connected. The only extra connected devices are the GameCube controller and the Wii U GamePad. |
| `GamepadInput.GetGamepadType` | src/input/GamepadInput.cpp:186-190 | The gamepad type is the current device, or `Unknown` without a state. |
| `GamepadInput.VibrationTarget` | src/input/GamepadInput.cpp:192-208 | Vibration requests go to player 0 of the attached platform and are dropped when no platform is attached. |
| `TouchInput.IsSupported` | src/input/TouchInput.cpp:161-167 | Touch is supported exactly on a touch screen or the Wii U GamePad. |
| `TouchInput.SupportsMultiTouch` | src/input/TouchInput.cpp:169-173 | Multi-touch support is the same as touch support. |
| `TouchInput.GetMaxTouchCount` | src/input/TouchInput.cpp:175-179 | Ten touches are reported where touch is supported, and none elsewhere. |
| `TouchInput.IsWiiUGamePad` | src/input/TouchInput.cpp:181-185 | The GamePad test holds only for a Wii U GamePad state, which supports touch. |
| `TouchInput.FindPreviousTouch` | src/input/TouchInput.cpp:61-69 | The lookup returns the first active previous touch with the finger id, and nothing only when there is none. |
| `TouchInput.PhaseOf` | src/input/TouchInput.cpp:36-55 | A touch begins exactly when finger 0 had no active touch last frame; otherwise it is moved or stationary. |
| `TouchInput.UpdateTouches` | src/input/TouchInput.cpp:19-59 | There is a single touch exactly when touch is supported and the pointer is down. It is finger 0 at the pointer with its delta, pressure 1 and active. |
| `TouchInput.SetInputState` | src/input/TouchInput.cpp:9-17 | Setting a state saves the current touches as the previous ones and rebuilds the touches. |
| `TouchInput.GetTouchCount` | src/input/TouchInput.cpp:71-74 | The count is the number of current touches. |
| `TouchInput.IsTouching` | src/input/TouchInput.cpp:76-79 | Touching means at least one touch. |
| `TouchInput.GetTouch` | src/input/TouchInput.cpp:81-87 | An in-range index returns that touch, and any other index returns the invalid touch. |
| `TouchInput.GetPrimaryTouch` | src/input/TouchInput.cpp:89-92 | The primary touch is touch 0. |
| `TouchInput.TouchBegan` | src/input/TouchInput.cpp:111-121 | A touch began when some current touch is in the Began phase. |
| `TouchInput.TouchMoved` | src/input/TouchInput.cpp:123-133 | A touch moved when some current touch is in the Moved phase. |
| `TouchInput.TouchEnded` | src/input/TouchInput.cpp:135-159 | A touch ended when some active previous touch's finger is missing from the current touches. |
| `TouchInput.HeldTouchBeginsOnce` | src/input/TouchInput.cpp:19-59 | A pointer held over two frames begins a touch on the first frame only, and ends nothing on either. |
| `TouchInput.LiftEndsTouch` | src/input/TouchInput.cpp:135-159 | Lifting the pointer ends the touch and leaves nothing touching. |
| `TouchInput.NoStateNoTouch` | src/input/TouchInput.cpp:19-24 | Without a state there are no touches, no phases and no touch capacity. |
| `TouchInput.GetTouchPosition` | src/input/TouchInput.cpp:99-103 | The touch position is the pointer, or zero without a state. |
| `TouchInput.GetTouchDelta` | src/input/TouchInput.cpp:105-109 | The touch delta is the pointer delta, or zero without a state. |
| `TouchInput.TouchSitsAtPointer` | src/input/TouchInput.cpp:27-35 | The primary touch sits at the pointer position with the pointer delta. |
| `Assets.GetAsset` | include/wv/assets/AssetProvider.h:20-31 | A cached name returns its asset with no load. An unknown name is loaded once, cached and returned. |
| `Assets.AddAsset` | include/wv/assets/AssetProvider.h:35-38 | Adding caches the asset under a new name. An existing name keeps its asset, because `emplace` does not overwrite. |
| `Assets.GetAssetMemoises` | include/wv/assets/AssetProvider.h:20-31 | A second request for the same name returns the same asset and loads nothing. |
| `Assets.GetAssetKeepsOtherNames` | include/wv/assets/AssetProvider.h:20-31 | Fetching one name leaves every other cached asset unchanged. |
| `Assets.AddAssetKeepsOtherNames` | include/wv/assets/AssetProvider.h:35-38 | Adding under one name leaves every other cached asset unchanged. |
| `Assets.AddThenGet` | include/wv/assets/AssetProvider.h:20-38 | An added asset is what later fetches return, without loading. Adding a second asset under the same name changes nothing. |
| `Assets.GetThenAddKeepsLoaded` | include/wv/assets/AssetProvider.h:20-38 | Once a name has been fetched, adding under that name has no effect. |
| `Assets.ProviderFor` | include/wv/assets/AssetManager.h:23-32 | A type's provider is its registered one, or a new empty provider. |
| `Assets.ManagerGetAsset` | include/wv/assets/AssetManager.h:19-36 | The manager fetch registers the type's provider if missing, then fetches through it. Other types' providers are untouched. |
| `Assets.ManagerAddAsset` | include/wv/assets/AssetManager.h:40-57 | The manager add registers the type's provider if missing, then adds through it. Other types' providers are untouched. |
| `Assets.ProviderCreatedOnce` | include/wv/assets/AssetManager.h:23-32 | A type's provider is created on first use and never again. |
| `Assets.ManagerGetAssetMemoises` | include/wv/assets/AssetManager.h:19-36 | Through the manager, a second fetch of the same name and type returns the same asset and loads nothing. |
| `Assets.ManagerAddThenGet` | include/wv/assets/AssetManager.h:19-57 | An asset added through the manager is what a later fetch of that type and name returns, without loading. |
| `XboxSeries.StickAxisOvershoots` | src/platform/Xbox/XboxSeriesPlatform.cpp:161-175 | As written, the reading -32768 normalises below -1. |
| `XboxSeries.StickAxis` | src/platform/Xbox/XboxSeriesPlatform.cpp:161-175 | The corrected normalisation keeps every reading in [-1, 1] and agrees with the original everywhere except -32768. |
| `XboxSeries.TriggerAxis` | src/platform/Xbox/XboxSeriesPlatform.cpp:177-189 | A trigger byte maps into [0, 1]: 0 below the threshold of 30 and 1 at 255. |
| `XboxSeries.Axis` | src/platform/Xbox/XboxSeriesPlatform.cpp:161-175 | Under the corrected rules a stick value lies in [-1, 1]; both rule sets agree on every reading but -32768. |
| `XboxSeries.ReadPad` | src/platform/Xbox/XboxSeriesPlatform.cpp:55-94 | The old mask becomes the previous one. A failed read releases every button and centres sticks and triggers. Triggers stay in [0, 1]; sticks stay in [-1, 1] only under the corrected rules. |
| `XboxSeries.RulesAgreeAwayFromMinimum` | src/platform/Xbox/XboxSeriesPlatform.cpp:75-78 | Unless a thumbstick reads -32768, the as-written and corrected reads give the same pad record. |
| `XboxSeries.MapPad` | src/platform/Xbox/XboxSeriesPlatform.cpp:96-158 | The left stick drives movement and the right stick drives look, scaled by 100 with Y inverted. Only the action arrays and axes change. |
| `XboxSeries.PollInput` | src/platform/Xbox/XboxSeriesPlatform.cpp:49-53 | A poll reads the controller, maps it and tags the device as an Xbox controller. Under the corrected rules the movement axes stay in [-1, 1]. |
| `XboxSeries.AsWrittenPollOvershoots` | src/platform/Xbox/XboxSeriesPlatform.cpp:75-78 | As written, a left stick reading of -32768 puts the movement axis below -1; corrected, it reads -1. |
| `XboxSeries.HeldMapping` | src/platform/Xbox/XboxSeriesPlatform.cpp:102-158 | A holds Action1 and Jump, B holds Action2, B or View holds MenuBack, and the triggers past 0.5 hold Crouch and Sprint. Each movement flag is its d-pad direction or the stick. |
| `XboxSeries.PressedMapping` | src/platform/Xbox/XboxSeriesPlatform.cpp:137-142 | A, B and Menu are pressed when down now and up at the previous read; a pressed action is also held. |
| `XboxSeries.UndrivenActionsUnchanged` | src/platform/Xbox/XboxSeriesPlatform.cpp:118-142 | Actions the controller does not drive keep their previous flags, and the released array is untouched. |
| `XboxSeries.DisconnectedPadIsNeutral` | src/platform/Xbox/XboxSeriesPlatform.cpp:84-94 | A disconnected controller holds and presses nothing and centres every axis. |
| `XboxSeries.SteadyReadingNoPress` | src/platform/Xbox/XboxSeriesPlatform.cpp:57-58 | Reading the same state twice raises no press the second time. |
| `XboxSeries.VibrationTarget` | src/platform/Xbox/XboxSeriesPlatform.cpp:230-241 | Vibration is sent only for players 0 to 3. |
| `XboxSeries.StopVibrationTarget` | src/platform/Xbox/XboxSeriesPlatform.cpp:243-246 | Stopping vibration targets the same players as setting it. |
| `XboxSeries.HasFeature` | src/platform/Xbox/XboxSeriesPlatform.cpp:223-228 | The Xbox reports exactly "gamepad" and "filesystem". |
| `DesktopPlatform.ScrollCallback` | src/platform/Desktop/DesktopPlatform.cpp:12-16 | A scroll event adds its offsets to the pending totals and changes nothing else. |
| `DesktopPlatform.DeliverAdds` | src/platform/Desktop/DesktopPlatform.cpp:12-16 | Once the callback is registered, a sequence of scroll events adds up their offsets; before that they change nothing. |
| `DesktopPlatform.ProcessEvents` | src/platform/Desktop/DesktopPlatform.cpp:43-54 | Event processing empties the scroll accumulator and leaves keys, mouse buttons and cursor untouched. |
| `DesktopPlatform.FrameScrollIsSum` | src/platform/Desktop/DesktopPlatform.cpp:43-54 | The frame's scroll is the sum of the events delivered since the last frame, or 0 while no callback is registered. |
| `DesktopPlatform.UpdateKeyboardInput` | src/platform/Desktop/DesktopPlatform.cpp:91-152 | The keyboard sets the device to keyboard and mouse. The movement axes are W minus S and D minus A. |
| `DesktopPlatform.KeyboardHeld` | src/platform/Desktop/DesktopPlatform.cpp:112-140 | WASD, E and Q hold the six movement actions; Escape, Space, LeftShift and LeftControl hold MenuOpen, Jump, Crouch and Sprint. |
| `DesktopPlatform.TabDrivesNothing` | src/platform/Desktop/DesktopPlatform.cpp:107 | Tab is read but changes nothing in the input state. |
| `DesktopPlatform.KeyboardPressed` | src/platform/Desktop/DesktopPlatform.cpp:119-135 | WASD, Escape and Enter are pressed when down now and up at the previous poll. |
| `DesktopPlatform.KeyboardAxes` | src/platform/Desktop/DesktopPlatform.cpp:142-148 | Each keyboard axis is -1, 0 or 1; it is positive exactly when only the positive key is down. |
| `DesktopPlatform.KeyboardLeavesTheRest` | src/platform/Desktop/DesktopPlatform.cpp:91-152 | The keyboard pass leaves look, pointer, scroll, released flags and the mouse-driven actions alone. |
| `DesktopPlatform.UpdateMouseInput` | src/platform/Desktop/DesktopPlatform.cpp:154-209 | The mouse delta is measured from the previous poll's cursor and drives look. The pointer is the cursor, pointer-down is the left button and the scroll is the frame's vertical scroll. |
| `DesktopPlatform.MouseButtons` | src/platform/Desktop/DesktopPlatform.cpp:174-196 | The left, right and middle buttons hold Action1-3 and press them on a rising edge. Left and right also report releases; middle does not. |
| `DesktopPlatform.ScrollCycles` | src/platform/Desktop/DesktopPlatform.cpp:201-205 | Scrolling up past 0.1 presses CycleRight and down past -0.1 presses CycleLeft. A small scroll leaves both cycle flags as they were. |
| `DesktopPlatform.UpdateGamepadInput` | src/platform/Desktop/DesktopPlatform.cpp:211-252 | A present gamepad overrides the device and axes and holds its buttons' actions. Pressed and released flags are untouched, and with no gamepad nothing changes. |
| `DesktopPlatform.PollInput` | src/platform/Desktop/DesktopPlatform.cpp:56-82 | Without a window nothing changes. Otherwise the scroll callback becomes registered, the previous keys, buttons and cursor become this poll's, the scroll waits for the frame reset, and the device is the gamepad when one is present and keyboard and mouse otherwise. |
| `DesktopPlatform.ScrollBeforeFirstPollIsLost` | src/platform/Desktop/DesktopPlatform.cpp:56-68 | Scrolls before the first windowed poll are lost; after it registers the callback, the next frame reports their sum. |
| `DesktopPlatform.NoPadKeyboardAxes` | src/platform/Desktop/DesktopPlatform.cpp:56-82 | With no gamepad the movement axes come from the keys and look comes from the mouse delta. |
| `DesktopPlatform.PadOverridesHeld` | src/platform/Desktop/DesktopPlatform.cpp:229-239 | A gamepad overwrites the mouse's held Action1 but not its press, so Action1 can read pressed yet not held. |
| `DesktopPlatform.SteadyReadsNoPress` | src/platform/Desktop/DesktopPlatform.cpp:79-81 | Polling the same inputs twice raises no press or release and no pointer motion the second time. |
| `DesktopPlatform.FirstPollDeltaIsPosition` | src/platform/Desktop/DesktopPlatform.cpp:161-165 | The first poll's pointer delta is the cursor's full position, measured from the origin. |
| `DesktopPlatform.ResetInputFrameState` | src/platform/Desktop/DesktopPlatform.cpp:84-89 | The frame reset clears pressed and released flags and the scroll and keeps held flags. |
| `DesktopPlatform.ScrollSeenOnce` | src/platform/Desktop/DesktopPlatform.cpp:84-89 | After a frame reset the same scroll is not reported again and cycles nothing. |
| `DesktopPlatform.HasFeature` | src/platform/Desktop/DesktopPlatform.cpp:290-298 | The desktop reports exactly its listed features. |
| `Ps3Platform.ButtonBitsArePositions` | src/platform/PS3/PS3Platform.cpp:13-28 | The sixteen button constants are the sixteen single bits of the word. |
| `Ps3Platform.ButtonBitsDisjoint` | src/platform/PS3/PS3Platform.cpp:13-28 | No two button constants share a bit. |
| `Ps3Platform.ButtonWord` | src/platform/PS3/PS3Platform.cpp:108 | The button word keeps the digital-1 byte low and the digital-2 byte high, and both can be read back. |
| `Ps3Platform.ButtonWordOfBytes` | src/platform/PS3/PS3Platform.cpp:108 | Splitting a word into its bytes and reassembling it gives the word back. |
| `Ps3Platform.BytesCarryTheirButtons` | src/platform/PS3/PS3Platform.cpp:13-28 | Select and Start sit in the first byte, Cross and Circle in the second. |
| `Ps3Platform.PressedBit` | src/platform/PS3/PS3Platform.cpp:150-153 | A button is set in `now & ~prev` exactly when it is down now and was up before. |
| `Ps3Platform.NormalizeAxis` | src/platform/PS3/PS3Platform.cpp:172-183 | A stick byte maps into [-1, 1) with 128 centred, and never to a magnitude inside the deadzone. |
| `Ps3Platform.ReadPad` | src/platform/PS3/PS3Platform.cpp:85-108 | The old word becomes the previous one. Without a connected pad and fresh data, the buttons clear and the sticks centre; otherwise the word and sticks come from the data. |
| `Ps3Platform.MapButtons` | src/platform/PS3/PS3Platform.cpp:126-153 | The left stick drives movement with Y inverted; the right stick drives look, scaled by 100 with Y inverted. |
| `Ps3Platform.MapPad` | src/platform/PS3/PS3Platform.cpp:155-169 | As written, each movement flag stays as the incoming state held it, or is set when the stick is past 0.3 that way; it is never cleared. |
| `Ps3Platform.MapPadCorrected` | src/platform/PS3/PS3Platform.cpp:155-169 | Corrected, each movement flag is decided by this frame's stick alone. |
| `Ps3Platform.PollInput` | src/platform/PS3/PS3Platform.cpp:79-169 | A poll reads the pad, maps it and tags the device as a PlayStation controller. As written, a movement flag is its incoming value or the stick past 0.3 that way. |
| `Ps3Platform.PollInputCorrected` | src/platform/PS3/PS3Platform.cpp:79-169 | Corrected, the same poll decides each movement flag from this frame's stick alone. |
| `Ps3Platform.HeldMapping` | src/platform/PS3/PS3Platform.cpp:137-147 | Cross holds Action1 and Jump, L2 and R2 hold Crouch and Sprint, Start holds MenuOpen, and Select or Circle holds MenuBack. |
| `Ps3Platform.PressedMapping` | src/platform/PS3/PS3Platform.cpp:150-153 | Cross, Circle and Start press Action1, Action2 and MenuOpen on a rising edge. Jump gets no pressed flag. |
| `Ps3Platform.AbsentPadIsNeutral` | src/platform/PS3/PS3Platform.cpp:85-169 | A disconnected pad or empty data holds no button action, presses nothing and centres every axis. The movement flags keep their incoming values. |
| `Ps3Platform.AbsentPadIsNeutralCorrected` | src/platform/PS3/PS3Platform.cpp:85-169 | Corrected, an absent pad also releases all four movement flags. |
| `Ps3Platform.SteadyReadingNoPress` | src/platform/PS3/PS3Platform.cpp:150-153 | Reading the same data twice raises no press the second time. |
| `Ps3Platform.AsWrittenOnlyAddsMoves` | src/platform/PS3/PS3Platform.cpp:155-169 | The as-written update gives the same pressed flags, axes and non-movement held flags as the corrected one; each of the four movement flags is the incoming flag or the corrected one. |
| `Ps3Platform.StickLatchesForward` | src/platform/PS3/PS3Platform.cpp:155-169 | As written, MoveForward stays held after the stick returns to centre. |
| `Ps3Platform.CentredStickReleasesForward` | src/platform/PS3/PS3Platform.cpp:155-169 | Corrected, centring the stick releases MoveForward. |
| `Ps3Platform.HasFeature` | src/platform/PS3/PS3Platform.cpp:215-220 | The PS3 reports exactly its listed features. |
| `Ps4Platform.NormalizeAxis` | src/platform/PS4/PS4Platform.cpp:184-195 | A stick byte maps into [-1, 1) with 128 centred. |
| `Ps4Platform.ReadPad` | src/platform/PS4/PS4Platform.cpp:91-128 | The old mask becomes the previous one. A failed read clears the buttons, centres the sticks and zeroes the triggers. |
| `Ps4Platform.MapButtons` | src/platform/PS4/PS4Platform.cpp:130-165 | The left stick drives movement with Y inverted; the right stick drives look, scaled by 100 with Y inverted. |
| `Ps4Platform.MapPad` | src/platform/PS4/PS4Platform.cpp:167-181 | As written, each movement flag stays as the incoming state held it, or is set when the stick is past 0.3 that way; it is never cleared. |
| `Ps4Platform.MapPadCorrected` | src/platform/PS4/PS4Platform.cpp:167-181 | Corrected, each movement flag is decided by this frame's stick alone. |
| `Ps4Platform.PollInput` | src/platform/PS4/PS4Platform.cpp:85-181 | Without an open pad handle, the poll only tags the device. Otherwise it reads, maps and tags it as a PlayStation controller; as written, a movement flag is its incoming value or the stick past 0.3 that way. |
| `Ps4Platform.PollInputCorrected` | src/platform/PS4/PS4Platform.cpp:85-181 | Corrected, the same poll with an open handle decides each movement flag from this frame's stick alone. |
| `Ps4Platform.HeldMapping` | src/platform/PS4/PS4Platform.cpp:143-159 | Cross holds Action1 and Jump, Circle holds Action2 and MenuBack, Options holds MenuOpen, and L2/R2 above 64 hold Crouch and Sprint. |
| `Ps4Platform.PressedMapping` | src/platform/PS4/PS4Platform.cpp:162-165 | Cross, Circle and Options press on a rising edge; Jump gets no pressed flag. |
| `Ps4Platform.FailedReadIsNeutral` | src/platform/PS4/PS4Platform.cpp:118-181 | A failed read holds no button or trigger action, presses nothing and centres every axis. The movement flags keep their incoming values. |
| `Ps4Platform.FailedReadIsNeutralCorrected` | src/platform/PS4/PS4Platform.cpp:118-181 | Corrected, a failed read also releases all four movement flags. |
| `Ps4Platform.ClosedPadKeepsState` | src/platform/PS4/PS4Platform.cpp:93-94 | With no open handle, polling changes nothing but the device tag. |
| `Ps4Platform.SteadyReadingNoPress` | src/platform/PS4/PS4Platform.cpp:162-165 | Reading the same report twice raises no press the second time. |
| `Ps4Platform.AsWrittenOnlyAddsMoves` | src/platform/PS4/PS4Platform.cpp:167-181 | The as-written update gives the same pressed flags, axes and non-movement held flags as the corrected one; each of the four movement flags is the incoming flag or the corrected one. |
| `Ps4Platform.StickLatchesLeft` | src/platform/PS4/PS4Platform.cpp:167-181 | As written, MoveLeft stays held after the stick returns to centre. |
| `Ps4Platform.CentredStickReleasesLeft` | src/platform/PS4/PS4Platform.cpp:167-181 | Corrected, centring the stick releases MoveLeft. |
| `Ps4Platform.Shutdown` | src/platform/PS4/PS4Platform.cpp:66-77 | Shutdown closes an open handle once and marks it closed; a closed pad closes nothing. |
| `Ps4Platform.ShutdownTwice` | src/platform/PS4/PS4Platform.cpp:66-77 | A second shutdown closes nothing. |
| `Ps4Platform.VibrationParams` | src/platform/PS4/PS4Platform.cpp:234-246 | Vibration is sent only with an open handle, each motor at its strength times 255 truncated to a byte. |
| `Ps4Platform.StopVibrationSendsZero` | src/platform/PS4/PS4Platform.cpp:248-251 | Stopping vibration sends zero to both motors. |
| `Ps4Platform.HasFeature` | src/platform/PS4/PS4Platform.cpp:227-232 | The PS4 reports exactly its listed features. |
| `SwitchPlatform.NormalizeAxis` | src/platform/Nintendo/SwitchPlatform.cpp:133-144 | A stick coordinate over 32768 lands in [-1, 1), and readings within ±4915 read as centred. |
| `SwitchPlatform.ReadPad` | src/platform/Nintendo/SwitchPlatform.cpp:60-80 | The old mask becomes the previous one, and the mask and sticks come from the update. |
| `SwitchPlatform.MapButtons` | src/platform/Nintendo/SwitchPlatform.cpp:82-114 | The left stick drives movement with Y inverted; the right stick drives look, scaled by 100 with Y inverted. |
| `SwitchPlatform.MapPad` | src/platform/Nintendo/SwitchPlatform.cpp:116-130 | As written, each movement flag stays as the incoming state held it, or is set when the stick is past 0.3 that way; it is never cleared. |
| `SwitchPlatform.MapPadCorrected` | src/platform/Nintendo/SwitchPlatform.cpp:116-130 | Corrected, each movement flag is decided by this frame's stick alone. |
| `SwitchPlatform.PollInput` | src/platform/Nintendo/SwitchPlatform.cpp:54-131 | A poll updates the pad, maps it and tags the device as a Switch controller. As written, a movement flag is its incoming value or the stick past 0.3 that way. |
| `SwitchPlatform.PollInputCorrected` | src/platform/Nintendo/SwitchPlatform.cpp:54-131 | Corrected, the same poll decides each movement flag from this frame's stick alone. |
| `SwitchPlatform.HeldMapping` | src/platform/Nintendo/SwitchPlatform.cpp:98-108 | A holds Action1 and Jump, ZL and ZR hold Crouch and Sprint, Plus holds MenuOpen, and Minus or B holds MenuBack. |
| `SwitchPlatform.PressedMapping` | src/platform/Nintendo/SwitchPlatform.cpp:111-114 | A, B and Plus press on a rising edge. Jump gets no pressed flag although A holds it. |
| `SwitchPlatform.SteadyReadingNoPress` | src/platform/Nintendo/SwitchPlatform.cpp:111-114 | Reading the same report twice raises no press the second time. |
| `SwitchPlatform.AsWrittenOnlyAddsMoves` | src/platform/Nintendo/SwitchPlatform.cpp:116-130 | The as-written update gives the same pressed flags, axes and non-movement held flags as the corrected one; each of the four movement flags is the incoming flag or the corrected one. |
| `SwitchPlatform.StickLatchesRight` | src/platform/Nintendo/SwitchPlatform.cpp:116-130 | As written, MoveRight stays held after the stick returns to centre. |
| `SwitchPlatform.CentredStickReleasesRight` | src/platform/Nintendo/SwitchPlatform.cpp:116-130 | Corrected, centring the stick releases MoveRight. |
| `SwitchPlatform.HasFeature` | src/platform/Nintendo/SwitchPlatform.cpp:176-181 | The Switch reports exactly its listed features. |
| `WiiUPlatform.NormalizeAxis` | src/platform/Nintendo/WiiUPlatform.cpp:158-170 | A GamePad stick value keeps the unit range and reads 0 inside the 0.15 deadzone. |
| `WiiUPlatform.ReadPad` | src/platform/Nintendo/WiiUPlatform.cpp:61-90 | The old mask becomes the previous one. A read error releases every button and centres the sticks. |
| `WiiUPlatform.MapPad` | src/platform/Nintendo/WiiUPlatform.cpp:92-155 | The left stick drives movement; the right stick drives look, scaled by 100 with Y inverted. |
| `WiiUPlatform.PollInput` | src/platform/Nintendo/WiiUPlatform.cpp:55-59 | A poll reads the GamePad, maps it and tags the device as a Wii U GamePad. |
| `WiiUPlatform.HeldMapping` | src/platform/Nintendo/WiiUPlatform.cpp:116-155 | Plus or Home holds MenuOpen, B or Minus holds MenuBack, and ZL and ZR hold Crouch and Sprint. Each movement flag is its d-pad direction or the stick. |
| `WiiUPlatform.PressedMapping` | src/platform/Nintendo/WiiUPlatform.cpp:135-139 | A, B and Plus press on a rising edge; Home holds MenuOpen but never presses it. |
| `WiiUPlatform.ReadErrorIsNeutral` | src/platform/Nintendo/WiiUPlatform.cpp:64-90 | A read error holds and presses nothing and centres every axis. |
| `WiiUPlatform.MovementTracksInputs` | src/platform/Nintendo/WiiUPlatform.cpp:127-155 | Because the d-pad writes the movement flags every frame, they never outlive their cause. |
| `WiiUPlatform.SteadyReadingNoPress` | src/platform/Nintendo/WiiUPlatform.cpp:135-139 | Reading the same status twice raises no press the second time. |
| `WiiUPlatform.HasFeature` | src/platform/Nintendo/WiiUPlatform.cpp:202-208 | The Wii U reports gamepad, touch screen and file system. |
| `GameCubePlatform.StickAxisOvershoots` | src/platform/Nintendo/GameCubePlatform.cpp:153-167 | As written, the reading -128 normalises below -1. |
| `GameCubePlatform.StickAxis` | src/platform/Nintendo/GameCubePlatform.cpp:153-167 | The corrected normalisation keeps every reading in [-1, 1] and agrees with the original except at -128. |
| `GameCubePlatform.TriggerAxis` | src/platform/Nintendo/GameCubePlatform.cpp:169-181 | A trigger byte maps into [0, 1]. |
| `GameCubePlatform.TriggerCut` | src/platform/Nintendo/GameCubePlatform.cpp:118-122 | A trigger passes the 0.5 cut exactly from the raw value 141 up. |
| `GameCubePlatform.ReadPad` | src/platform/Nintendo/GameCubePlatform.cpp:55-66 | The old mask becomes the previous one, and the held mask and triggers come from the scan. |
| `GameCubePlatform.Axis` | src/platform/Nintendo/GameCubePlatform.cpp:153-167 | With the correction, every stick axis is in [-1, 1]. |
| `GameCubePlatform.MapPad` | src/platform/Nintendo/GameCubePlatform.cpp:68-150 | The main stick drives movement; the C stick drives look, scaled by 100 with Y inverted. |
| `GameCubePlatform.PollInput` | src/platform/Nintendo/GameCubePlatform.cpp:49-53 | A poll scans the pad, maps it and tags the device as a GameCube controller. |
| `GameCubePlatform.HeldMapping` | src/platform/Nintendo/GameCubePlatform.cpp:107-150 | A holds Action1 and Jump, B holds Action2 and MenuBack, Z holds Crouch, and L or the left trigger from 141 holds CycleLeft. Each movement flag is its d-pad direction or the stick. |
| `GameCubePlatform.PressedFromDownMask` | src/platform/Nintendo/GameCubePlatform.cpp:131-134 | Pressed flags come from the library's down mask alone, not from the stored previous buttons. |
| `GameCubePlatform.SprintTracksTrigger` | src/platform/Nintendo/GameCubePlatform.cpp:118-122 | Corrected, Sprint is held exactly while the right trigger reads 141 or more. |
| `GameCubePlatform.SprintLatches` | src/platform/Nintendo/GameCubePlatform.cpp:118-122 | As written, Sprint stays held after the right trigger is released. |
| `GameCubePlatform.CorrectedPadAgrees` | src/platform/Nintendo/GameCubePlatform.cpp:153-167 | Away from the reading -128, the corrected pad record is the original one. |
| `GameCubePlatform.HeldUnderRules` | src/platform/Nintendo/GameCubePlatform.cpp:107-150 | Under either rules, the held flags are the stick rule applied over the button holds. The two rules differ only in Sprint, which as written also keeps its earlier value. |
| `GameCubePlatform.HasFeature` | src/platform/Nintendo/GameCubePlatform.cpp:213-218 | The GameCube reports exactly gamepad and file system. |
| `WiiPlatform.NormalizeAxis` | src/platform/Nintendo/WiiPlatform.cpp:171-182 | A Nunchuk reading is offset from its centre and divided by 128. Offsets within ±19 read 0; the rest pass through unscaled, within ±255/128. |
| `WiiPlatform.Folded` | src/platform/Nintendo/WiiPlatform.cpp:81-85 | Nunchuk Z folds into the Home bit and C into the 1 bit; no other bit is added. |
| `WiiPlatform.ReadRemote` | src/platform/Nintendo/WiiPlatform.cpp:58-104 | The old mask becomes the previous one, and the held mask gains at most Home and 1. Without a Nunchuk the axes are 0. The IR pointer is divided by 640 and 480, and its old value is kept when invalid. |
| `WiiPlatform.MapRemote` | src/platform/Nintendo/WiiPlatform.cpp:106-168 | The Nunchuk drives movement. Without a valid IR reading, look keeps its previous value. |
| `WiiPlatform.PollInput` | src/platform/Nintendo/WiiPlatform.cpp:52-56 | A poll reads the remote, maps it and tags the device as a Wii Remote. |
| `WiiPlatform.HeldMapping` | src/platform/Nintendo/WiiPlatform.cpp:118-168 | A holds Action1 and Jump, B holds Action2 and MenuBack, 1 and 2 hold Action3 and Action4, Home holds MenuOpen, and Minus/Plus cycle. Each movement flag is its d-pad direction or the Nunchuk. |
| `WiiPlatform.PressedFromDownMask` | src/platform/Nintendo/WiiPlatform.cpp:148-152 | Pressed flags come from the library's down mask alone. |
| `WiiPlatform.NoNunchukCentres` | src/platform/Nintendo/WiiPlatform.cpp:87-92 | Without a Nunchuk the movement axes are 0 and movement comes from the d-pad alone. |
| `WiiPlatform.LookFollowsPointer` | src/platform/Nintendo/WiiPlatform.cpp:110-116 | Look follows the IR pointer: a centred pointer reads 0, a pointer inside the screen width keeps horizontal look within ±100, and a lost pointer keeps the old look. |
| `WiiPlatform.NunchukZOpensMenu` | src/platform/Nintendo/WiiPlatform.cpp:81-85 | As written, Nunchuk Z holds MenuOpen without pressing it and leaves Crouch as it was. |
| `WiiPlatform.FoldedButtonsAsWritten` | src/platform/Nintendo/WiiPlatform.cpp:81-85 | As written, Z holds MenuOpen and C holds Action3; Crouch and Sprint never change. |
| `WiiPlatform.NunchukDrivesCrouchSprint` | src/platform/Nintendo/WiiPlatform.cpp:81-85 | Corrected, Z holds Crouch and C holds Sprint, and Home and 1 come from the remote alone. |
| `WiiPlatform.HasFeature` | src/platform/Nintendo/WiiPlatform.cpp:214-220 | The Wii reports gamepad, motion and file system. |
| `TouchSlots.GetTouchPoint` | src/platform/Android/AndroidPlatform.cpp:351-359 | The lookup returns the first active slot carrying the id, and nothing only when no slot does. |
| `TouchSlots.FirstFree` | src/platform/Android/AndroidPlatform.cpp:361-373 | The first free slot is the lowest inactive one; there is none only when every slot is in use. |
| `TouchSlots.AllocateTouchPoint` | src/platform/Android/AndroidPlatform.cpp:361-373 | Allocation claims the lowest free slot for the id and changes nothing else. A full table is left as it is and yields no slot. |
| `TouchSlots.ReleaseTouchPoint` | src/platform/Android/AndroidPlatform.cpp:375-386 | Release frees only the first slot carrying the id; an unknown id changes nothing. |
| `TouchSlots.ActiveCountUpdate` | src/platform/Android/AndroidPlatform.cpp:361-386 | Rewriting one slot changes the count of active slots by that slot's change alone. |
| `TouchSlots.AllocateReleaseCounts` | src/platform/Android/AndroidPlatform.cpp:361-386 | A successful allocation adds one active slot, and releasing a known id removes one. |
| `TouchSlots.AllocateFreshKeepsUnique` | src/platform/Android/AndroidPlatform.cpp:361-373 | Allocating an id not yet in use keeps active ids unique, and the new slot is found by lookup. |
| `TouchSlots.ReleaseKeepsUnique` | src/platform/Android/AndroidPlatform.cpp:375-386 | Release keeps active ids unique, and the released id is no longer found. |
| `TouchSlots.AllocateThenRelease` | src/platform/Android/AndroidPlatform.cpp:361-386 | Allocating an id and releasing it restores the table, except the slot's id becomes -1. |
| `TouchSlots.FullTableRefuses` | src/platform/Android/AndroidPlatform.cpp:361-373 | When every slot is active, allocation fails and leaves the table unchanged. |
| `TouchSlots.AllActiveWhenCountFull` | src/platform/Android/AndroidPlatform.cpp:361-373 | A full active count means every slot is active. |
| `TouchSlots.MoveTo` | src/platform/Android/AndroidPlatform.cpp:153-158 | Moving a touch rewrites only that slot's position. |
| `TouchControls.DefaultButtonActions` | src/platform/Android/AndroidPlatform.cpp:56-78 | The default buttons drive exactly Action1, Action2, Jump and MenuOpen. |
| `TouchControls.FirstHit` | src/platform/Android/AndroidPlatform.cpp:283-291 | The hit test finds the first non-joystick control whose circle contains the point, and nothing only when none does. |
| `TouchControls.ButtonUnder` | src/platform/Android/AndroidPlatform.cpp:283-291 | A hit names one of the buttons' actions, and there is none only when no button is under the point. |
| `TouchControls.PressUnder` | src/platform/Android/AndroidPlatform.cpp:260-270 | A touch on a button adds exactly that button's action and reports it handled. |
| `TouchControls.TouchStep` | src/platform/Android/AndroidPlatform.cpp:203-292 | One touch adds only button actions and claims the joystick or look only when it is free. |
| `TouchControls.ScanSlots` | src/platform/Android/AndroidPlatform.cpp:203-293 | The pass over the table only ever adds button actions. |
| `TouchControls.StickMoves` | src/platform/Android/AndroidPlatform.cpp:324-335 | Joystick displacement past 0.5 moves that way; screen-down is backward. |
| `TouchControls.HeldSet` | src/platform/Android/AndroidPlatform.cpp:324-343 | As written, the held set is the buttons; corrected, it is the buttons plus the stick's moves. |
| `TouchControls.WriteState` | src/platform/Android/AndroidPlatform.cpp:314-343 | The joystick drives movement with Y inverted and the look delta drives look and pointer delta. Held, pressed and released flags come from this frame's buttons against the last. |
| `TouchControls.StillCarried` | src/platform/Android/AndroidPlatform.cpp:295-312 | A claimed id survives only while an active slot still carries it; otherwise it is reset to -1. |
| `TouchControls.ProcessTouchInput` | src/platform/Android/AndroidPlatform.cpp:188-344 | The touch pass records only button actions. Joystick and look ids are free or still carried. Edges are this frame's buttons against the previous ones. |
| `TouchControls.PollInput` | src/platform/Android/AndroidPlatform.cpp:178-186 | After the pass the current buttons become the previous ones and the device is the touch screen. |
| `TouchControls.PollBackEnd` | src/platform/iOS/iOSPlatform.cpp:57-65 | A back-end poll keeps the table and controls and records only button actions. |
| `TouchControls.EdgeRule` | src/platform/Android/AndroidPlatform.cpp:337-343 | An action is pressed on a rising and released on a falling edge, never both. |
| `TouchControls.HeldAsWritten` | src/platform/Android/AndroidPlatform.cpp:337-343 | As written, an action is held exactly when a button for it is touched. |
| `TouchControls.HeldCorrected` | src/platform/Android/AndroidPlatform.cpp:324-343 | Corrected, an action is held when its button is touched or the joystick points its way. |
| `TouchControls.SteadyButtonsNoEdges` | src/platform/Android/AndroidPlatform.cpp:337-343 | The same buttons two frames running raise no press or release. |
| `TouchControls.StickHoldsMovement` | src/platform/Android/AndroidPlatform.cpp:324-335 | Corrected, each movement flag follows the virtual joystick past 0.5. |
| `TouchControls.AsWrittenStickHoldsNothing` | src/platform/Android/AndroidPlatform.cpp:324-343 | As written with the default controls, no movement flag is ever held: the copy loop overwrites what the stick set. |
| `TouchControls.PushedJoystickExample` | src/platform/Android/AndroidPlatform.cpp:324-343 | A joystick pushed fully up moves the axis to 1 but holds MoveForward only under the correction. |
| `AndroidPlatform.SetupVirtualControls` | src/platform/Android/AndroidPlatform.cpp:56-78 | Setup replaces the controls with the five defaults and leaves the touch table alone. |
| `AndroidPlatform.SetupVirtualControlsIdempotent` | src/platform/Android/AndroidPlatform.cpp:56-78 | Because setup clears first, running it twice is the same as once. |
| `AndroidPlatform.Press` | src/platform/Android/AndroidPlatform.cpp:132-144 | A down event puts the pointer in the lowest free slot, with its start at the touch point; a full table ignores it. |
| `AndroidPlatform.MoveAll` | src/platform/Android/AndroidPlatform.cpp:146-161 | A move event only repositions slots and never changes which are in use or their ids. |
| `AndroidPlatform.HandleInputEvent` | src/platform/Android/AndroidPlatform.cpp:111-176 | Motion events are handled (1) and others are not (0). Down, move, up and cancel press, move and release; other motion leaves the table alone. |
| `AndroidPlatform.SameSlotsSameCount` | src/platform/Android/AndroidPlatform.cpp:146-161 | A move event keeps the number of touches. |
| `AndroidPlatform.EventCounts` | src/platform/Android/AndroidPlatform.cpp:111-176 | Down adds a touch when a slot is free, up or cancel removes the pointer's touch, and anything else keeps the count. |
| `AndroidPlatform.SameSlotsKeepUnique` | src/platform/Android/AndroidPlatform.cpp:146-161 | A move event keeps touch ids unique. |
| `AndroidPlatform.PressFreshKeepsUnique` | src/platform/Android/AndroidPlatform.cpp:132-144 | Pressing a new pointer keeps touch ids unique. |
| `AndroidPlatform.EventsKeepUniqueIds` | src/platform/Android/AndroidPlatform.cpp:111-176 | If down events carry new pointers, every event keeps touch ids unique. |
| `AndroidPlatform.PressPlacesTouch` | src/platform/Android/AndroidPlatform.cpp:132-144 | A new pointer lands in the first free slot, where lookup finds it. |
| `AndroidPlatform.ReleaseForgetsPointer` | src/platform/Android/AndroidPlatform.cpp:163-169 | After up or cancel the pointer is no longer tracked. |
| `AndroidPlatform.MoveAllKeepsUnnamed` | src/platform/Android/AndroidPlatform.cpp:146-161 | A slot whose pointer is not in the move event keeps its position. |
| `AndroidPlatform.FindUnique` | src/platform/Android/AndroidPlatform.cpp:351-359 | With unique ids, the lookup of an active slot's id finds that slot. |
| `AndroidPlatform.MovedPointerLands` | src/platform/Android/AndroidPlatform.cpp:146-161 | A tracked pointer named in a move event ends at that event's position. |
| `AndroidPlatform.ButtonTapPresses` | src/platform/Android/AndroidPlatform.cpp:188-343 | A tap on the A button presses and holds Action1 on the next poll. |
| `AndroidPlatform.LiftedTableReleasesAll` | src/platform/Android/AndroidPlatform.cpp:188-343 | With every finger lifted, the poll holds no button, frees the joystick and look, and releases exactly last frame's buttons. |
| `AndroidPlatform.LoneMenuTapClaimsJoystick` | src/platform/Android/AndroidPlatform.cpp:234-239 | The menu button sits on the left half, so a lone tap on it is claimed by the joystick and never opens the menu. |
| `AndroidPlatform.HasFeature` | src/platform/Android/AndroidPlatform.cpp:424-429 | Android reports exactly touch screen and file system. |
| `IosPlatform.SetupVirtualControls` | src/platform/iOS/iOSPlatform.cpp:67-79 | Setup appends the five defaults to whatever controls are there, without clearing. |
| `IosPlatform.Repeated` | src/platform/iOS/iOSPlatform.cpp:67-79 | After n setups there are 5n controls. |
| `IosPlatform.SetupTimes` | src/platform/iOS/iOSPlatform.cpp:67-79 | Setting up n times from nothing gives n copies of the defaults and leaves the table alone. |
| `IosPlatform.RepeatedButtonUnder` | src/platform/iOS/iOSPlatform.cpp:67-79 | Any number of repeated setups finds the same button under every point as one setup. |
| `IosPlatform.RepeatedSetupSamePoll` | src/platform/iOS/iOSPlatform.cpp:81-239 | Polling with controls set up several times gives the same state as with one setup. |
| `IosPlatform.HasFeature` | src/platform/iOS/iOSPlatform.cpp:273-278 | iOS reports exactly touch screen and file system. |

## Left out

- Concurrency: the pool's atomics, lock-free queues and the blocking wait are modelled as one
  atomic transition per step, with the wake-up queue as a counter. Interleavings inside a step
  and memory ordering are not modelled.
- Thread creation and `std::function` calls: a job is an id; an empty `std::function` is a job
  that is skipped.
- Logging (`Logger::Log`, `Logger::EngineLog`) has no effect on the modelled state and is left out.
- Floating point: all `float` and `double` arithmetic is exact `real` arithmetic. Rounding,
  NaN and infinities are not modelled.
- Hardware and library calls (XInput, `cellPad`, `scePad`, `padUpdate`, `VPADRead`,
  `PAD_ScanPads`, `WPAD_*`, GLFW and the Android input queue) become parameters holding
  their answer for the frame.
- The virtual joystick's square-root clamp and the look deltas kept in function-local statics
  (Android and iOS `ProcessTouchInput`) are parameters: they need a square root and hidden
  cross-frame state.
- AndroidPlatform.HandleInputEvent: pointer coordinates arrive already divided by the screen
  size. The division by a possibly-zero width is not modelled.
- The iOS UIKit touch handlers are not part of this model. The iOS table is handled by the same
  slot functions as Android's.
- Ps4Platform.VibrationParams: requires strengths in [0, 1]. Outside that range the C++ cast
  to a byte is undefined and is not modelled.
- The desktop vibration functions only log and are left out.
- XboxSeries.VibrationTarget: only the guard on the player index is modelled. The motor speeds,
  strength times 65535 cast to a 16-bit word, are not.
- GamepadInput.VibrationTarget: the strengths are forwarded to the platform unchanged and are not
  modelled; only where the request goes is.
- The per-component getters (`GetLeftStickX`, `GetRightStickY`, `GetTriggerLeft` and the like),
  the individual button getters and `TouchInput::GetTouches` are covered by the vector
  functions, `GamepadInput.GetPadButton` and the touch sequence itself.
- The Switch down mask (`padGetButtonsDown`) is read but unused by the source, so it is not
  modelled.
- The GameCube previous-buttons field is stored but never read for pressed flags. It is kept
  in the record but not used by the mapping.
- WiiPlatform.ReadRemote: IR coordinates are not range-checked by the source, so the look
  bound of `WiiPlatform.LookFollowsPointer` holds only for on-screen coordinates.
- WiiPlatform.NormalizeAxis: the Nunchuk axis is not clamped by the source, so it can reach
  ±255/128. The model states that range rather than [-1, 1].
- InputManager, GamepadInput and TouchInput keep a `const InputState*` from `SetInputState`
  (InputManager.cpp:7,9, GamepadInput.cpp:7,12, TouchInput.cpp:5,9), so their C++ getters see any
  later in-place change to the caller's state. The model's facades (`GamepadInput.Facade`,
  `TouchInput.Facade` and the `InputManager` queries) hold a value copy instead: their getters
  read the state as it was at `SetInputState`. Only the trigger levels and the touch list are
  snapshots in the source too.
- The graphics contexts, the user data and asset paths, platform names, `Initialize` and
  `GetPrimaryInputDevice` carry no logic worth stating and are left out.
- The asset loaders (`AssetLoader<T>::Load`) are a parameter `load`. Asset types are a
  `TypeTag`, and `shared_ptr` identity is value equality.
- Desktop gamepad axes are passed through without a deadzone, as in the source. Stick-sign
  conventions of the SDKs are not modelled beyond what each back end writes.

## Findings

| source | as written | input that shows it | evidently intended | confidence | as-written member | corrected member |
|---|---|---|---|---|---|---|
| src/threading/ThreadPool.cpp:56-63 | Every scan iteration dequeues from the High queue, whatever the loop index | One worker and one Medium job: the worker takes the job's token, finds High empty and goes back to sleep, so the job is never run | Probe queue `i` on iteration `i` (High, then Medium, then Low) | medium, not executed | `ThreadPool.MediumJobStranded` | `ThreadPool.IntendedDrainOrder` |
| src/platform/Xbox/XboxSeriesPlatform.cpp:161-175 | The thumbstick value is divided by 32767 | `sThumbLX = -32768` gives a stick value below -1 | Stick values within [-1, 1] | high, not executed | `XboxSeries.AsWrittenPollOvershoots` | `XboxSeries.StickAxis` |
| src/platform/Nintendo/GameCubePlatform.cpp:153-167 | The stick value is divided by 127 | A stick reading of -128 gives a value below -1 | Stick values within [-1, 1] | high, not executed | `GameCubePlatform.StickAxisOvershoots` | `GameCubePlatform.StickAxis` |
| src/platform/Android/AndroidPlatform.cpp:324-343 | The movement flags set from the joystick are overwritten by the button copy loop that follows | Joystick pushed fully up: `moveAxisY` is 1 but MoveForward is not held | The joystick holds the movement actions | high, not executed | `TouchControls.AsWrittenStickHoldsNothing` | `TouchControls.StickHoldsMovement` |
| src/platform/iOS/iOSPlatform.cpp:219-236 | The same as Android: the button copy loop overwrites the movement flags the joystick set | Joystick pushed fully up: `moveAxisY` is 1 but MoveForward is not held | The joystick holds the movement actions | high, not executed | `TouchControls.AsWrittenStickHoldsNothing` | `TouchControls.StickHoldsMovement` |
| src/platform/PS3/PS3Platform.cpp:155-169 | The stick only ever sets movement flags true, and nothing else writes them | Stick up on one frame, centred on the next: MoveForward stays held | Movement flags follow the stick each frame | medium, not executed | `Ps3Platform.StickLatchesForward` | `Ps3Platform.CentredStickReleasesForward` |
| src/platform/PS4/PS4Platform.cpp:167-181 | The stick only ever sets movement flags true, and nothing else writes them | Stick left on one frame, centred on the next: MoveLeft stays held | Movement flags follow the stick each frame | medium, not executed | `Ps4Platform.StickLatchesLeft` | `Ps4Platform.CentredStickReleasesLeft` |
| src/platform/Nintendo/SwitchPlatform.cpp:116-130 | The stick only ever sets movement flags true, and nothing else writes them | Stick right on one frame, centred on the next: MoveRight stays held | Movement flags follow the stick each frame | medium, not executed | `SwitchPlatform.StickLatchesRight` | `SwitchPlatform.CentredStickReleasesRight` |
| src/platform/Nintendo/GameCubePlatform.cpp:118-122 | The right trigger only ever sets Sprint true, and nothing else writes it | Trigger fully pulled on one frame, released on the next: Sprint stays held | Sprint follows the right trigger | medium, not executed | `GameCubePlatform.SprintLatches` | `GameCubePlatform.SprintTracksTrigger` |
| src/platform/Nintendo/WiiPlatform.cpp:81-85 | Nunchuk Z sets the Home bit and C sets the 1 bit, although the comments say crouch and sprint | Z alone holds MenuOpen and leaves Crouch unchanged | Z holds Crouch and C holds Sprint | medium, not executed | `WiiPlatform.NunchukZOpensMenu` | `WiiPlatform.NunchukDrivesCrouchSprint` |

The latch findings assume that the same `InputState` is passed to `PollInput` on every frame,
with only `ResetFrameStates` in between. That reset keeps the held flags.

# Laser-scanner controller firmware: a Dafny model

This project models the sequential logic of the Teensy firmware of a laser-scanner and microscope
controller. It covers:

- the text command protocol that parses and dispatches serial messages, with the last good command
  and script recording (`MessageParser`);
- the serial framing in front of that protocol (`DataCom`, `ReceiverSerial`);
- the sequencer: its dataflow modules (clock, input and output triggers, trigger processor, pulsar,
  laser slot), which follow a two-phase update/refresh protocol (`SequencerModules`), and the
  pipeline that steps them (`SequencerPipeline`), and the chains of `getState` calls that links
  between clocks create (`ClockLinks`);
- the display double buffer read by the display interrupt (`ScannerDisplay`), the blueprint array of
  the renderer (`Renderer2D`) and the figure builders that append vertices to it (`Graphics`);
- the mirror coordinate clamp (`ScannerMirrors`), the laser state with its push/pop stack (`Laser`),
  the optotuner power (`OptoTuner`), and the character classifiers and name lookups (`Utils`);
- the alternative dictionary-based parser in `misc/` (`MiscParser`): a bounded command table with
  first-match dispatch and a `'/'`-delimited tokenizer.

Each source file becomes one Dafny module. Code that changes state becomes a class with fields, and
its methods are proved against pure specification functions. For example, `MessageParser.Run` is
the scanner, `MessageParser.Execute` the bookkeeping of one command, `SequencerModules.TrgCompute`
the trigger processor and `MiscParser.MRun` the misc tokenizer. The properties are then proved
about those functions as lemmas.

C integer widths are written out where they matter (`IntWidth`):

- the `uint32_t` time differences of `millis()`;
- the `int8_t` results of the name lookups;
- the `int16_t` sum in the mirror clamp.

Time (`millis()`), input pins, the files on the SD card, `String::toInt` and the outcome of
hardware commands are parameters. Pin writes are kept as ghost logs.

The host-side sender's scripts use a trigger-processor command named `SET_PRC`. The firmware's own
name for that command is `SET_TRG` (src/messageParser.h:112), and this model follows the firmware.

## Model

| member | source | states |
|---|---|---|
| IntWidth.ElapsedMs | src/Class_Sequencer.h:337 | `millis() - timer` as a uint32_t difference: the plain difference, or the difference plus 2^32 after the clock wrapped |
| IntWidth.Constrain | src/Class_Laser.cpp:76 | Arduino `constrain`: the result lies in [lo, hi], equals x when x is in range, and equals the nearer bound otherwise |
| IntWidth.ConstrainMonotone | src/Class_Laser.cpp:76 | `constrain` is monotone in its argument |
| IntWidth.WrapInt8 | src/Utils.cpp:40-53 | storing an int into an int8_t: the result is in [-128, 127], congruent mod 256, and unchanged when it already fits |
| Utils.IsDigit | src/Utils.cpp:14-19 | true iff the character is '-', '.' or '0'..'9' |
| Utils.IsNumber | src/Utils.cpp:34-38 | true iff the string is non-empty and its first character is a digit character |
| Utils.OnlyFirstCharacterCounts | src/Utils.cpp:34-38 | "1abc", "-" and ".x" count as numbers; "", "a1" and "/5" do not |
| Utils.FirstIndex | src/Utils.cpp:44-51 | the index of the first equal name, or the table length when no name is equal |
| Utils.LinearSearch | src/Utils.cpp:44-51 | the search loop returns exactly `FirstIndex` |
| Utils.GetIndexLaserFromName | src/Utils.cpp:40-53 | the first matching index, stored as int8_t; 0 when no name matches; a valid matching index when the table has at most 128 names |
| Utils.GetIndexClassFromName | src/Utils.cpp:55-68 | the same for class names: the first matching index, or 0 when none matches |
| Utils.Verbosity.constructor | src/Utils.cpp:7 | `verboseMode` starts at the given default |
| Utils.Verbosity.SetVerboseMode | src/Utils.cpp:9-12 | `verboseMode` becomes the given flag |
| DataCom.ComReceiver.constructor | src/dataCom.cpp:13-14 | the buffer starts empty and ack mode off |
| DataCom.ComReceiver.Init | src/dataCom.cpp:28-42 | `init` empties the buffer and turns ack mode off |
| DataCom.ComReceiver.SetAckMode | src/dataCom.cpp:22 | ack mode becomes the given flag |
| DataCom.ComReceiver.GetAckMode | src/dataCom.cpp:23 | returns the last value set |
| DataCom.ComReceiver.Receive | src/dataCom.cpp:44-66 | every frame handed on ends with its only '\n'; the frames followed by the new buffer equal the old buffer followed by the input; the buffer never holds a '\n' |
| DataCom.ConcatPush | src/dataCom.cpp:58-64 | handing on one more frame extends the concatenation of the frames by that frame |
| ReceiverSerial.SerialReceiver.constructor | src/receiverSerial.cpp:6-11 | the buffer starts empty and ack mode off |
| ReceiverSerial.SerialReceiver.Init | src/receiverSerial.cpp:6-11 | `init` turns ack mode off |
| ReceiverSerial.SerialReceiver.SetAckMode | src/receiverSerial.cpp:34 | ack mode becomes the given flag |
| ReceiverSerial.SerialReceiver.GetAckMode | src/receiverSerial.cpp:35 | returns the last value set |
| ReceiverSerial.SerialReceiver.UpdateReceive | src/receiverSerial.cpp:17-25 | characters are appended in order up to and including the first '\n'; the result is true iff the input holds a '\n', and then reading stops right after it; otherwise all the input is consumed |
| ReceiverSerial.SerialReceiver.UseReceivedString | src/receiverSerial.cpp:27-31 | returns the buffer, terminator included, and empties it |
| ScannerMirrors.ClampAxisAsWritten | src/hardware.h:33-42 | the clamp as written, with the int16_t sum wrapping, still lands in [MIN, MAX] |
| ScannerMirrors.SetMirrorsToAsWritten | src/hardware.h:31-50 | the written coordinates as the code computes them lie within the mirror range of each axis |
| ScannerMirrors.AsWrittenWrapsAround | src/hardware.h:31-42 | input (30720, 0) is written as MAX, but (30721, 0) is written as MIN where MAX is intended |
| ScannerMirrors.ClampAxis | src/hardware.h:33-42 | pos + CENTER when it is in range, MAX above the range, MIN below it |
| ScannerMirrors.SetMirrorsTo | src/hardware.h:31-50 | each axis is offset by its centre and clamped to its own range, independently of the other axis |
| ScannerMirrors.AsWrittenAgreesBelowOverflow | src/hardware.h:33-42 | the code as written and the corrected clamp agree whenever the int16_t sum does not overflow |
| ScannerMirrors.RecenterMirrors | src/hardware.h:51-54 | recentering writes (CENTER_MIRROR_ADX, CENTER_MIRROR_ADY), which is what input (0, 0) gives |
| ScannerMirrors.SetMirrorsToMonotone | src/hardware.h:39-42 | each output depends only on its own axis and is monotone in it |
| Laser.Applied | src/Class_Laser.cpp:114-120 | the state after `setToCurrentState`: power constrained to [0, MAX_LASER_POWER], the other fields kept, and nothing changed when the power is in range |
| Laser.AppliedIdempotent | src/Class_Laser.cpp:114-120 | applying the current state twice is applying it once |
| Laser.SwitchOps | src/Class_Laser.cpp:33-51 | the pin operations of `setSwitch`: a digital write without carrier; with carrier, PWM at the carrier duty for on, and output mode with a low write for off |
| Laser.Laser.constructor | src/Class_Laser.cpp:10-15 | the default state, an empty stack and the given pins |
| Laser.Laser.Init | src/Class_Laser.cpp:17-26 | sets the pins and empties the state stack |
| Laser.Laser.SetSwitch | src/Class_Laser.cpp:33-51 | only pin writes; `myState` is not modified |
| Laser.Laser.SetPower | src/Class_Laser.cpp:53-56 | writes the constrained power to the pin; `myState` is not modified |
| Laser.Laser.SetStateSwitch | src/Class_Laser.cpp:58-65 | the switch state becomes s; the pins are written only when it changed |
| Laser.Laser.ToggleStateSwitch | src/Class_Laser.cpp:68-72 | negates the switch state and writes it |
| Laser.Laser.SetStatePower | src/Class_Laser.cpp:74-78 | stores the constrained power, while the pin receives the unclamped value |
| Laser.Laser.SetStateCarrier | src/Class_Laser.cpp:81-89 | stores the carrier flag and rewrites the switch with it |
| Laser.Laser.SetStateBlanking | src/Class_Laser.cpp:92 | stores the blanking flag |
| Laser.Laser.UpdateBlank | src/Class_Laser.cpp:94-101 | switches the laser off when blanking is on, otherwise does nothing; `myState` is not modified |
| Laser.Laser.SetToCurrentState | src/Class_Laser.cpp:114-120 | the state becomes `Applied` of the old state, so it is unchanged when the power is in range |
| Laser.Laser.SetState | src/Class_Laser.cpp:103-107 | after `setState(s)`, `getCurrentState()` returns s when s's power is in range |
| Laser.Laser.ResetState | src/Class_Laser.cpp:109-112 | restores the default state and leaves the stack untouched |
| Laser.Laser.GetCurrentState | src/Class_Laser.cpp:121 | returns `myState` |
| Laser.Laser.PushState | src/Class_Laser.cpp:123 | pushes the current state on the stack |
| Laser.Laser.PopState | src/Class_Laser.cpp:124-128 | on a non-empty stack, the state becomes the top entry and the stack loses it |
| Laser.Laser.ClearStateStack | src/Class_Laser.cpp:129 | empties the stack |
| Laser.PushThenPop | src/Class_Laser.cpp:123-128 | a push followed by a pop restores both the state and the stack |
| Laser.ToggleTwice | src/Class_Laser.cpp:68-72 | toggling the switch twice restores the state |
| OptoTuner.OptoTune.DefaultPower | src/Class_OptoTuner.h:51 | `MAX_OPTOTUNE_POWER >> 1` |
| OptoTuner.OptoTune.constructor | src/Class_OptoTuner.h:17-20 | the constructor runs `init`: power is the default and is written to the pin |
| OptoTuner.OptoTune.Init | src/Class_OptoTuner.h:22-31 | power becomes `MAX_OPTOTUNE_POWER >> 1` and is written to the pin |
| OptoTuner.OptoTune.SetStatePower | src/Class_OptoTuner.h:33-37 | for a uint16_t power p, stores `constrain(p, 0, MAX_OPTOTUNE_POWER)` and writes it |
| OptoTuner.OptoTune.SetPower | src/Class_OptoTuner.h:39-42 | for a uint16_t power p, writes the constrained power; the stored power is unchanged |
| OptoTuner.OptoTune.SetToCurrentState | src/Class_OptoTuner.h:44-47 | rewrites the stored power; the power is unchanged |
| OptoTuner.SetToCurrentStateTwice | src/Class_OptoTuner.h:44-47 | applying the current state twice leaves the power unchanged and writes it twice |
| ScannerDisplay.Display.constructor | src/scannerDisplay.cpp:20-63 | the state `init` leaves, with two fresh, distinct buffers |
| ScannerDisplay.Display.Init | src/scannerDisplay.cpp:20-63 | both buffers hold the centre point; both sizes and the reading head are 0; no swap is pending; buffer 1 is current and buffer 2 hidden; not running |
| ScannerDisplay.Display.StartDisplay | src/scannerDisplay.cpp:65-73 | running becomes true only if it was false and the timer starts; it stays true if it already was |
| ScannerDisplay.Display.StopDisplay | src/scannerDisplay.cpp:74-77 | running is false afterwards |
| ScannerDisplay.Display.WriteOnHiddenBuffer | src/scannerDisplay.cpp:92-99 | only element `index` of the hidden buffer changes; the current buffer is untouched |
| ScannerDisplay.Display.RequestBufferSwap | src/scannerDisplay.cpp:101 | only sets the swap flag |
| ScannerDisplay.Display.ResizeBuffer | src/scannerDisplay.cpp:103-114 | only `newSizeBufferDisplay` changes; the displayed size does not |
| ScannerDisplay.Display.DisplayIsr | src/scannerDisplay.cpp:123-193 | a swap happens only when requested at reading head 0: it adopts the new size, exchanges the buffers and clears the flag; the head then advances mod the size, or stays when the size is 0; `size == 0 || head < size` and distinct buffers are kept |
| Renderer2D.Push | src/renderer2D.cpp:27-35 | a point is appended when the blueprint holds fewer than MAX_NUM_POINTS points; otherwise the blueprint is unchanged |
| Renderer2D.AppendAll | src/renderer2D.cpp:27-35 | appending points one by one reaches min(size + count, MAX_NUM_POINTS) |
| Renderer2D.AppendAllCapped | src/renderer2D.cpp:27-35 | appending points one by one is the concatenation cut at MAX_NUM_POINTS |
| Renderer2D.Transformed | src/renderer2D.cpp:46-65 | the rendered points are the pose transform applied to each blueprint point |
| Renderer2D.Renderer.constructor | src/renderer2D.cpp:8-16 | an empty blueprint and the identity pose |
| Renderer2D.Renderer.CurrentPose | src/renderer2D.cpp:8-16 | the centre, angle and scale globals |
| Renderer2D.Renderer.GetLastPoint | src/renderer2D.cpp:23-25 | on a non-empty blueprint, returns its last point |
| Renderer2D.Renderer.AddToBlueprint | src/renderer2D.cpp:27-35 | writes at `sizeBlueprint` and increments it when there is room, otherwise changes nothing; size <= MAX_NUM_POINTS is kept |
| Renderer2D.Renderer.WriteInBluePrintArray | src/renderer2D.cpp:40-43 | changes only the given index, and only when it is in range; the size is unchanged |
| Renderer2D.Renderer.RenderFigure | src/renderer2D.cpp:46-65 | hidden slots 0..size-1 receive the transformed blueprint and the rest are unchanged; a resize to size and a swap are requested; the blueprint and the current buffer are unchanged |
| Renderer2D.Renderer.ClearBlueprint | src/renderer2D.cpp:67-74 | the size becomes 0, and a resize to 0 and a swap are requested |
| Graphics.LinePoints | src/graphics.cpp:95-111 | n points, the i-th being `from` plus i steps |
| Graphics.LineEndpoints | src/graphics.cpp:95-111 | the first point is `from`; with at least two points, the last is `from + (lenX, lenY)` |
| Graphics.CirclePoints | src/graphics.cpp:123-136 | n + 1 points, because the loop runs to i <= n |
| Graphics.RectangleAfterCount | src/graphics.cpp:148-157 | a rectangle appends 2*nx + 2*ny vertices, capacity permitting, and keeps the earlier points |
| Graphics.ZigZagLines | src/graphics.cpp:206 | the number of rows, ny / 2 (halved again in mode 1), stored as uint8_t |
| Graphics.ZigZagRowPoints | src/graphics.cpp:208-225 | one row appends 2*nx + 6 vertices in mode 0, 2*nx + 30 in mode 1 |
| Graphics.ZigZagPoints | src/graphics.cpp:190-248 | the total vertex count of a zigzag in each mode |
| Graphics.ZigZagMode0Count | src/graphics.cpp:190-225 | for ny < 512, in mode 0 a zigzag appends (ny/2) * (2*nx + 6) vertices |
| Graphics.ZigZagPointsSplit | src/graphics.cpp:190-248 | the mode-1 count is the outward pass followed by the return pass |
| Graphics.Scene.constructor | src/graphics.cpp:6 | `clearModeFlag` starts true |
| Graphics.Scene.SetClearMode | src/graphics.cpp:62-65 | the clear mode becomes the given flag |
| Graphics.Scene.GetClearMode | src/graphics.cpp:67-70 | returns the last value set |
| Graphics.Scene.ResetGlobalPose | src/graphics.cpp:30-35 | centre (0, 0), angle 0, scale 1 |
| Graphics.Scene.ClearScene | src/graphics.cpp:43-60 | empties the blueprint, requests a resize to 0 and a swap, and stops the display |
| Graphics.Scene.UpdateScene | src/graphics.cpp:72-77 | clears the blueprint and stops the display iff `clearModeFlag` is set |
| Graphics.Scene.AddVertex | src/graphics.cpp:79-86 | appends one point, capacity permitting |
| Graphics.Scene.AddVertexTimes | src/graphics.cpp:88-92 | for k <= 255, appends k copies of the point, capacity permitting |
| Graphics.Scene.DrawLine | src/graphics.cpp:95-111 | appends the n points of `LinePoints`, capacity permitting |
| Graphics.Scene.DrawLineFromOrigin | src/graphics.cpp:113-121 | the same line, from the origin |
| Graphics.Scene.DrawCircle | src/graphics.cpp:123-136 | appends n + 1 points, capacity permitting |
| Graphics.Scene.DrawCircleCentered | src/graphics.cpp:138-146 | the same circle, centred on the origin |
| Graphics.Scene.DrawSide | src/graphics.cpp:148-157 | one side of a rectangle: a line that starts at the previous last point |
| Graphics.Scene.DrawRectangle | src/graphics.cpp:148-157 | four sides, each from the previous last point: 2*nx + 2*ny vertices, capacity permitting |
| Graphics.Scene.DrawRectangleCentered | src/graphics.cpp:159-167 | the same rectangle, with its corner at minus half the size |
| Graphics.Scene.DrawSquare | src/graphics.cpp:169-178 | a rectangle with equal sides: 4*n vertices, capacity permitting |
| Graphics.Scene.DrawSquareCentered | src/graphics.cpp:180-188 | the same square, centred |
| Graphics.Scene.ZigZagSegment | src/graphics.cpp:208-225 | one segment of a row: `repeats` copies of a point and a line of n points; earlier points are kept |
| Graphics.Scene.ZigZagRow | src/graphics.cpp:208-225 | one row appends `ZigZagRowPoints` vertices, capacity permitting |
| Graphics.Scene.ZigZagRows | src/graphics.cpp:208-247 | `lines` rows append `lines * ZigZagRowPoints` vertices, capacity permitting |
| Graphics.Scene.DrawZigZag | src/graphics.cpp:190-248 | appends `ZigZagPoints` vertices, capacity permitting, and keeps the earlier points |
| Graphics.Scene.DrawZigZagCentered | src/graphics.cpp:250-260 | the same zigzag, centred |
| SequencerModules.ResetIdempotent | src/Class_Sequencer.h:118-122 | resetting twice at the same instant is resetting once |
| SequencerModules.ClockUpdate | src/Class_Sequencer.h:329-343 | a linked clock copies the linked state into `active`; an unlinked clock toggles, and restarts its timer, iff it is active and more than a period has passed |
| SequencerModules.ClockTogglesOncePerInstant | src/Class_Sequencer.h:337-341 | two clock updates at the same instant toggle at most once |
| SequencerModules.TrgCompute | src/Class_Sequencer.h:523-586 | the state always becomes the input; without an event the output is false and the counter and phase stay; an event runs the burst/skip counter step |
| SequencerModules.EventRun | src/Class_Sequencer.h:551-584 | the outputs of n consecutive events, one per event |
| SequencerModules.EventRunAppend | src/Class_Sequencer.h:551-584 | a run of a + b events is a run of a events followed by a run of b |
| SequencerModules.BurstEvents | src/Class_Sequencer.h:560-564 | in the burst phase, the events up to counter `burst` all output true |
| SequencerModules.SkipEvents | src/Class_Sequencer.h:573-579 | in the skip phase, the events up to counter `skip` all output false |
| SequencerModules.FirstBurstAfterReset | src/Class_Sequencer.h:452-456 | after reset, the first offset + burst events output true and the next outputs false and enters the skip phase |
| SequencerModules.SteadyCycle | src/Class_Sequencer.h:558-580 | from the skip phase: skip falses, burst + 1 trues, one false, then the cycle repeats |
| SequencerModules.DefaultSettingsDropEverySecondEvent | src/Class_Sequencer.h:444-447 | with the `init` settings (burst 1, skip 0, offset 0), three events give true, false, true |
| SequencerModules.PulsarWindow | src/Class_Sequencer.h:663-664 | without wrap-around of t_off + t_on, the output is true iff t_off < elapsed <= t_off + t_on |
| SequencerModules.PulsarCompute | src/Class_Sequencer.h:657-666 | a true input restarts the timer; the output is the window test on the time since the restart |
| SequencerModules.PulsarQuietWhileTriggered | src/Class_Sequencer.h:657-666 | while the input is true, a pulsar outputs false |
| SequencerModules.Compute | src/Class_Sequencer.h:161 | the default `computeNextState` is the identity; the trigger processor and the pulsar override it |
| SequencerModules.UpdateVars | src/Class_Sequencer.h:149-158 | `nextState` moves only when the module is active and linked, and then to the computed output |
| SequencerModules.RefreshVars | src/Class_Sequencer.h:168-184 | always ends with state == nextState; the action runs iff it is the first call or state != nextState |
| SequencerModules.RefreshIdempotent | src/Class_Sequencer.h:168-184 | a second refresh runs no action and changes nothing |
| SequencerModules.HeldHighInputRetriggers | src/Class_Sequencer.h:532-549 | under RISE, a held-high input is detected again every second step, because `refresh` overwrites the compared `state` |
| SequencerModules.Module.constructor | src/Class_Sequencer.h:82-85 | `baseInit` then the class's own `init`: a clock starts inactive, a trigger processor with state true, and timers at now |
| SequencerModules.Module.BaseInit | src/Class_Sequencer.h:95-116 | no link, active, state and nextState false, firstTime true |
| SequencerModules.Module.SetState | src/Class_Sequencer.h:90 | sets `active` |
| SequencerModules.Module.Start | src/Class_Sequencer.h:88 | active becomes true |
| SequencerModules.Module.Stop | src/Class_Sequencer.h:89 | active becomes false |
| SequencerModules.Module.ToggleState | src/Class_Sequencer.h:91 | negates `active` |
| SequencerModules.Module.SetPin | src/Class_Sequencer.h:226-230 | a trigger's pin becomes the given pin; the other parameters are unchanged |
| SequencerModules.Module.IsActive | src/Class_Sequencer.h:92 | returns `active` |
| SequencerModules.Module.SetInputLink | src/Class_Sequencer.h:129 | the input link becomes the given module |
| SequencerModules.Module.Reset | src/Class_Sequencer.h:118-122 | `reset` as each class overrides it, given by `ResetVars` |
| SequencerModules.Module.ClockStep | src/Class_Sequencer.h:329-343 | the clock's update, as `ClockUpdate` |
| SequencerModules.Module.GetState | src/Class_Sequencer.h:136 | a clock updates itself and returns its state; an input trigger returns its pin; any other module returns its state unchanged |
| SequencerModules.Module.ComputeNextState | src/Class_Sequencer.h:161 | dispatches on the class, as `Compute` |
| SequencerModules.Module.TrgComputeNextState | src/Class_Sequencer.h:523-586 | the trigger processor's step, as `TrgCompute` |
| SequencerModules.Module.PulsarComputeNextState | src/Class_Sequencer.h:657-666 | the pulsar's step, as `PulsarCompute` |
| SequencerModules.Module.Update | src/Class_Sequencer.h:149-158 | a clock runs its own rule; another module runs `UpdateVars` on the linked module's state, a linked clock being updated first |
| SequencerModules.Module.BaseUpdate | src/Class_Sequencer.h:149-158 | the base `update` of a linked module that is not a clock |
| SequencerModules.Module.LinkedUpdate | src/Class_Sequencer.h:151-155 | an active module reads its link and stores the computed next state |
| SequencerModules.Module.PullLink | src/Class_Sequencer.h:153 | `ptr_fromModule->getState()`: the value read, and the linked clock's own update |
| SequencerModules.Module.Refresh | src/Class_Sequencer.h:168-184 | the new state is `RefreshVars`; the action log grows by one entry iff `RefreshVars` says the action runs |
| SequencerModules.Module.Action | src/Class_Sequencer.h:398-401 | the output trigger writes its state to its pin |
| SequencerModules.Module.SetPeriodMs | src/Class_Sequencer.h:306-310 | sets the period and restarts the clock timer |
| SequencerModules.Module.SetTriggerParam | src/Class_Sequencer.h:458-469 | sets all four parameters, then resets: the counter becomes -offset and the phase BURST |
| SequencerModules.Module.SetMode | src/Class_Sequencer.h:471-475 | sets the mode and resets |
| SequencerModules.Module.SetBurst | src/Class_Sequencer.h:476-480 | sets the burst length and resets |
| SequencerModules.Module.SetSkip | src/Class_Sequencer.h:481-485 | sets the skip length and resets |
| SequencerModules.Module.SetOffset | src/Class_Sequencer.h:486-490 | sets the offset and resets to the new -offset |
| SequencerModules.Module.SetPulsarParam | src/Class_Sequencer.h:638-643 | sets t_off and t_on and restarts the pulsar timer |
| ClockLinks.GetStateCalls | src/Class_Sequencer.h:320-343 | the nested `getState` calls of a `getState`, within a call budget: between 1 and the budget; a module that is not a linked clock returns at once |
| ClockLinks.MoreFuelSameCalls | src/Class_Sequencer.h:320-343 | a larger budget gives the same count once a `getState` has returned |
| ClockLinks.SetInputLink | src/messageParser.cpp:753-767 | `SET_LNK_SEQ` sets the target's link to the source and keeps every other link |
| ClockLinks.AsWrittenMutualClocksNeverReturn | src/Class_Sequencer.h:320-343 | two clocks linked to each other: `getState` on either does not return within any budget |
| ClockLinks.RankedGetStateReturns | src/Class_Sequencer.h:320-343 | with no cycle of clocks, a `getState` on a clock of rank r returns within r + 2 calls |
| ClockLinks.SetInputLinkChecked | src/messageParser.cpp:753-767 | the corrected link command either keeps the links or sets the one link; a link that is not clock-to-clock is always set |
| ClockLinks.CheckedLinkKeepsRanking | src/messageParser.cpp:753-767 | the corrected link command keeps the clock links free of cycles |
| ClockLinks.CheckedLinkGetStateReturns | src/Class_Sequencer.h:320-343 | after the corrected link command every clock's `getState` returns |
| SequencerPipeline.PassCalls | src/hardware.cpp:297-302 | one pass calls every pipeline module once, in pipeline order |
| SequencerPipeline.Sequencer.constructor | src/hardware.cpp:164-218 | the global module arrays, an empty pipeline and an inactive sequencer |
| SequencerPipeline.Sequencer.SetState | src/hardware.cpp:220-223 | sets `activeSequencer` |
| SequencerPipeline.Sequencer.GetState | src/hardware.cpp:225 | returns the last value set, which starts false |
| SequencerPipeline.Sequencer.GetModulePtr | src/hardware.cpp:238-264 | element `index mod count` of class c's array for c in 0..5, of that class's kind; NULL for any other c |
| SequencerPipeline.Sequencer.ClearPipeline | src/hardware.cpp:266-269 | the pipeline is empty afterwards |
| SequencerPipeline.Sequencer.AddModulePipeline | src/hardware.cpp:271-291 | NULL or an already present pointer leaves the pipeline unchanged; otherwise the module is appended; the pipeline stays duplicate-free |
| SequencerPipeline.Sequencer.Reset | src/hardware.cpp:227-232 | `reset()` on every pipeline module; the pipeline and the modules outside it are unchanged |
| SequencerPipeline.UpdateStep | src/Class_Sequencer.h:149-158 | one `update()` on values: a clock runs its own rule, a linked module reads its link (a linked clock updating first), an unlinked module stays; only the module and its input change |
| SequencerPipeline.UpdateFold | src/hardware.cpp:299-300 | the states after the update pass on values keep their C widths |
| SequencerPipeline.UpdateFoldSnoc | src/hardware.cpp:299-300 | the fold over one more module is one more `UpdateStep` |
| SequencerPipeline.UpdateFoldFrame | src/hardware.cpp:299-300 | the update pass leaves every module that is neither in the pass nor the input of a module in it |
| SequencerPipeline.RefreshWorld | src/hardware.cpp:301-302 | the refresh pass on values: every module of the pass gets `RefreshVars`; every other module is kept |
| SequencerPipeline.StepFrame | src/hardware.cpp:293-304 | the update pass then the refresh pass leave every module that is neither in the pipeline nor the input of a pipeline module |
| SequencerPipeline.RefreshWorldSnoc | src/hardware.cpp:301-302 | refreshing one more distinct module changes that module only |
| SequencerPipeline.Sequencer.Update | src/hardware.cpp:293-304 | inactive: nothing changes; active: the action, update and refresh passes run in pipeline order, every registered module ends in its state of `RefreshWorld(UpdateFold(...))` from the states before, and every pipeline module has state == nextState |
| SequencerPipeline.Sequencer.UpdateKeeps | src/hardware.cpp:293-304 | after `Update`, a module neither in the pipeline nor the input of a pipeline module is in its state from before |
| SequencerPipeline.Sequencer.Passes | src/hardware.cpp:295-303 | the three passes of an active sequencer, with the same result as `Update` |
| SequencerPipeline.Sequencer.ActionPass | src/hardware.cpp:297-298 | `action()` on every pipeline module in order; no module's configuration or state changes |
| SequencerPipeline.Sequencer.UpdatePass | src/hardware.cpp:299-300 | `update()` on every pipeline module in order; the modules end in the states `UpdateFold` gives and keep their configuration |
| SequencerPipeline.Sequencer.UpdateAt | src/hardware.cpp:299-300 | the i-th `update()` of the pass takes the fold over the first i modules one step further |
| SequencerPipeline.Sequencer.UpdateOne | src/Class_Sequencer.h:149-158 | one `update()` call takes the registered modules from states w to `UpdateStep(w, m)` |
| SequencerPipeline.Sequencer.UpdateHeap | src/Class_Sequencer.h:149-158 | `update()` gives the module and its input the states named; every other module and every configuration is unchanged |
| SequencerPipeline.Sequencer.UpdateCore | src/Class_Sequencer.h:149-158 | `update()` of a registered module, with the module's own contract and a frame over the other registered modules |
| SequencerPipeline.Sequencer.UpdateValid | src/Class_Sequencer.h:149-158 | `update()` of a registered module keeps every registered module well formed |
| SequencerPipeline.Sequencer.UpdateStepAsCalls | src/Class_Sequencer.h:149-158 | `UpdateStep` on the current states gives the module and its input exactly the states `Module.Update` promises |
| SequencerPipeline.Sequencer.RefreshPass | src/hardware.cpp:301-302 | `refresh()` on every pipeline module in order; the modules end in the states `RefreshWorld` gives, so each pipeline module has state == nextState |
| SequencerPipeline.Sequencer.RefreshAt | src/hardware.cpp:301-302 | the i-th `refresh()` of the pass extends `RefreshWorld` over the first i modules by one |
| SequencerPipeline.Sequencer.RefreshOne | src/Class_Sequencer.h:168-184 | one `refresh()` gives the module `RefreshVars` of its state; every other module keeps its state |
| SequencerPipeline.Sequencer.SetStateAllClocks | src/hardware.cpp:165-171 | clocks 1..NUM_CLOCKS-1 take the given `active`; clock 0 and every other module keep theirs |
| SequencerPipeline.Sequencer.ResetAllClocks | src/hardware.cpp:173-179 | clocks 1..NUM_CLOCKS-1 restart their timers; clock 0 and every other module are unchanged |
| SequencerPipeline.Sequencer.ResetClockAt | src/hardware.cpp:175-178 | one turn of the loop restarts clock k's timer and keeps the other modules as the loop invariant says |
| MessageParser.ToBool | src/messageParser.cpp:21-32 | a number gives 1 or 0 by `toInt() > 0`; "on" gives 1, "off" gives 0, anything else -1 |
| MessageParser.ToClassID | src/messageParser.cpp:34-54 | a number passes through unchanged, as int8_t, because the range guard can never hold; a known lower-case name gives its index; anything else gives 0 |
| MessageParser.ToTableID | src/messageParser.cpp:56-95 | the lookup shared by `toLaserID` and `toTrgMode`: number as is, a known name's index, -1 otherwise |
| MessageParser.ToLaserID | src/messageParser.cpp:56-75 | an unknown laser name gives -1; a known one its index |
| MessageParser.ToTrgMode | src/messageParser.cpp:77-95 | an unknown mode name gives -1; a known one its index |
| MessageParser.StepChar | src/messageParser.cpp:226-405 | one loop turn: argument and command characters, the separator, '\n', the skipped '\r' and ' ', and abort on anything else |
| MessageParser.Run | src/messageParser.cpp:214-406 | the scan of a message: the commands interpreted, how it ended, and the final scanner variables |
| MessageParser.LookupArity | src/messageParser.cpp:417-1846 | the argument counts of the first table entry with that name, or none when no entry has it |
| MessageParser.Interpret | src/messageParser.cpp:417-1846 | success is `Accepted`, so an unknown command fails and changes nothing; only the recording commands, LOAD_PRM and VERBOSE change the globals; the last good command never changes here |
| MessageParser.Execute | src/messageParser.cpp:353-379 | a successful recordable command becomes the last good command; any other command leaves it |
| MessageParser.ExecuteAllSnoc | src/messageParser.cpp:214-406 | the globals after n + 1 commands are those after n, then one more command |
| MessageParser.Parser.constructor | src/messageParser.cpp:6-7 | not recording, an empty script, no last command |
| MessageParser.Parser.BeginRecordingScript | src/messageParser.cpp:100-104 | clears the script and turns recording on |
| MessageParser.Parser.EndRecordingScript | src/messageParser.cpp:105-108 | only turns recording off |
| MessageParser.Parser.AddRecordingScript | src/messageParser.cpp:110-113 | turns recording on and keeps the script |
| MessageParser.Parser.InterpretCommand | src/messageParser.cpp:417-1846 | the globals and the success flag are `Interpret` of the command with the first numArgs arguments |
| MessageParser.Parser.ExecuteAtomicCommand | src/messageParser.cpp:330-384 | builds the atomic string, interprets the command, and does the last-good and recording bookkeeping, as `Execute` |
| MessageParser.Parser.ParseStringMessage | src/messageParser.cpp:174-409 | the result is always true; the globals are those after the tokenized commands, executed in order |
| MessageParser.EmptyStack | src/messageParser.cpp:192-198 | SIZE_CMD_STACK empty arguments |
| MessageParser.ScanCharacter | src/messageParser.cpp:226-405 | the loop body short of interpreting agrees with `StepChar`: continue, interpret, or stop with the variables unchanged |
| MessageParser.AdvanceOnContinue | src/messageParser.cpp:214 | the loop invariant survives a character that continues the scan |
| MessageParser.AdvanceOnDispatch | src/messageParser.cpp:330-384 | the loop invariant survives a completed command and the parser reset |
| MessageParser.AdvanceOnAbort | src/messageParser.cpp:262-264 | on an abort, the commands completed so far are all the commands |
| MessageParser.NoOverflowAhead | src/messageParser.cpp:238 | the loop never writes past the argument stack |
| MessageParser.RunStep | src/messageParser.cpp:214-406 | one step of the scan |
| MessageParser.RunAppend | src/messageParser.cpp:214-406 | scanning a + b is scanning a, then b from where it stopped |
| MessageParser.BadCharacterAborts | src/messageParser.cpp:398-405 | a character outside the protocol aborts the rest; commands completed before it stay executed |
| MessageParser.ClassClashAborts | src/messageParser.cpp:231-266 | an argument character in CMD, or a command character in NUMBER, aborts |
| MessageParser.EndOfCommand | src/messageParser.cpp:289-391 | '\n' is skipped in START, interprets the command and resets in CMD, and aborts in NUMBER and SEPARATOR |
| MessageParser.SeparatorOnlyAfterArgument | src/messageParser.cpp:269-287 | ',' is accepted only in NUMBER, where it closes the argument and moves to SEPARATOR; elsewhere it aborts |
| MessageParser.NumArgsCountsSeparators | src/messageParser.cpp:269-287 | within one command, numArgs grows by exactly the number of separators |
| MessageParser.FewSeparatorsNeverOverflow | src/messageParser.cpp:231-287 | a message with fewer separators than free slots never writes past the stack |
| MessageParser.ReadArgChars | src/messageParser.cpp:231-240 | argument characters are appended to the current argument |
| MessageParser.ReadCmdChars | src/messageParser.cpp:251-258 | command characters are appended to the command name |
| MessageParser.ArgsRead | src/messageParser.cpp:337-340 | the scanner state after the argument part of an atomic string |
| MessageParser.ReadOneArg | src/messageParser.cpp:231-287 | one argument and its separator fill the current empty slot |
| MessageParser.ReadArgs | src/messageParser.cpp:337-340 | the argument part of an atomic string fills the first slots in order |
| MessageParser.AtomicStringRoundTrip | src/messageParser.cpp:337-342 | re-parsing the atomic string of a well-formed command interprets exactly that command and completes |
| MessageParser.RunDispatchesWellFormed | src/messageParser.cpp:226-391 | every interpreted command has a non-empty upper-case name and argument-character arguments |
| MessageParser.RepeatReparsesSameCommand | src/messageParser.cpp:337-362 | re-parsing the atomic string of any command the scan interpreted yields that same command, which is what REPEAT relies on |
| MessageParser.ExecuteWhileRecording | src/messageParser.cpp:359-370 | one command while recording appends its atomic string iff it succeeds and is recordable |
| MessageParser.RecordingAppendsGoodCommands | src/messageParser.cpp:359-370 | while recording, the script grows by the atomic strings of the successful recordable commands, in order |
| MessageParser.ExecuteWhileNotRecording | src/messageParser.cpp:365 | one command while not recording leaves the script |
| MessageParser.NotRecordingKeepsScript | src/messageParser.cpp:365 | while not recording, the script does not change |
| MessageParser.LastGoodCommandKept | src/messageParser.cpp:359-363 | the last good command is the atomic string of the last successful recordable command, or the old one |
| MiscParser.CString | misc/parser.hpp:69-81 | the characters before the first NUL |
| MiscParser.CStringUpTo | misc/parser.hpp:69-81 | a NUL at index k with none before it ends the C string there |
| MiscParser.DefaultCommand | misc/parser.hpp:45 | the default-constructed command is well formed |
| MiscParser.SetName | misc/parser.hpp:69-81 | succeeds iff a NUL occurs within the first 16 characters; on failure the command is unchanged |
| MiscParser.SetNumArgs | misc/parser.hpp:87-94 | accepts only n <= 5; otherwise returns false and leaves the count |
| MiscParser.MakeCommand | misc/parser.hpp:46-50 | the constructor's setters: the name when accepted, the count when at most 5, the function pointer |
| MiscParser.AssignCommand | misc/parser.hpp:59-67 | assigning a well-formed command copies it, so self-assignment changes nothing |
| MiscParser.TryCmd | misc/parser.hpp:96-110 | runs the function only when the names and counts are equal, and otherwise returns false |
| MiscParser.FirstSuccess | misc/parser.cpp:3-11 | the index of the first entry whose `tryCmd` succeeds, or the table size |
| MiscParser.CmdDictionnary.constructor | misc/parser.hpp:123 | an empty dictionary |
| MiscParser.CmdDictionnary.Copy | misc/parser.hpp:124-127 | the copy has the same entries |
| MiscParser.CmdDictionnary.Assign | misc/parser.hpp:129-133 | equal `numCmds` and the first `numCmds` entries copied |
| MiscParser.CmdDictionnary.AddCommand | misc/parser.hpp:145-148 | stores at `numCmds` and increments it iff there are fewer than 25 commands; otherwise nothing changes |
| MiscParser.CmdDictionnary.InterpretCommand | misc/parser.cpp:3-11 | true iff some entry's `tryCmd` succeeds; exactly the matching entries up to the first success are run |
| MiscParser.CmdDictionnary.IsInDictionnary | misc/parser.cpp:14-19 | true iff some entry's `checkCmd` holds; no function is run |
| MiscParser.MStepChar | misc/parser.cpp:44-88 | one character of the tokenizer: argument, command, delimiter by state, or a write past a buffer |
| MiscParser.MRun | misc/parser.cpp:44-88 | the calls dispatched, in order, and the final scanner state |
| MiscParser.Parser.constructor | misc/parser.hpp:166 | counters 0 and the buffers cleared |
| MiscParser.Parser.SetCmdDict | misc/parser.hpp:170-172 | the parser uses the given dictionary |
| MiscParser.Parser.ScanCharacter | misc/parser.cpp:50-88 | one loop turn agrees with `MStepChar` |
| MiscParser.Parser.ParseStringMessage | misc/parser.cpp:26-91 | the static scanner state becomes that of the scan of the message and its NUL; the result is false iff some dispatched call failed |
| MiscParser.LeadingDelimiterIgnored | misc/parser.cpp:86 | a delimiter in START is ignored |
| MiscParser.ReadCmdChars | misc/parser.cpp:56-60 | command characters are appended to the command and set the state to CMD |
| MiscParser.ReadArgChars | misc/parser.cpp:50-54 | argument characters are appended to the current argument and set the state to NUMBER |
| MiscParser.CommandThenDelimiter | misc/parser.cpp:62-80 | a command followed by a delimiter dispatches it with the current numArgs and resets the counters |
| MiscParser.TrailingCommandDispatched | misc/parser.cpp:44 | the NUL terminator is scanned, so a trailing command is dispatched |
| MiscParser.ArgumentCarriesOver | misc/parser.cpp:37-70 | an argument with no command after it stays counted in the static `numArgs` |
| MiscParser.ArgumentCountedByNextMessage | misc/parser.cpp:37-39 | so the next message's command is dispatched with one argument more |
| MiscParser.AsWrittenTrailingDelimiterDispatchesEmptyName | misc/parser.cpp:62-88 | as written, "SET/" dispatches SET, and then also an empty name on the NUL |
| MiscParser.AsWrittenTrailingDelimiterFails | misc/parser.cpp:62-90 | so the message fails whenever no entry has the empty name |
| MiscParser.CorrectedTrailingDelimiter | misc/parser.cpp:62-88 | with the state reset after a delimiter, "SET/" dispatches SET only |
| MiscParser.CorrectedNamesNonEmpty | misc/parser.cpp:62-88 | with the reset, no dispatched name is ever empty |
| MiscParser.CorrectedParseNamesNonEmpty | misc/parser.cpp:26-91 | the same for a whole message |

## Left out

- Pin and peripheral I/O (`analogWrite`, `digitalWrite`, `pinMode`, LED blinks, `resetBoard`,
  `Gpio::init`, the LCD and TFT drivers): pin writes are ghost logs at most. Inputs are a
  `pins` parameter.
- SD card access (`readScript`, `saveScript`, `printDirectory`): the files are a map parameter.
- The hardware test routines (`Lasers::test`, `OptoTuners::test`, `Scanner::test*Range`): these
  are timing loops with trigonometry.
- Floating-point geometry:
  - points are opaque `real` pairs;
  - the per-point transform of `renderFigure` is a function parameter;
  - `drawSpiral` and the circle coordinates are not modelled; a circle's unit-circle points are
    a parameter.
- Interrupt concurrency: `displayISR` is one atomic step between main-side calls, not true
  preemption. `millis()` is an explicit time parameter.
- MessageParser.Interpret: the hardware effects of `interpretCommand` are an abstract outcome
  (`env.outcome`), which includes the per-command argument-format checks. The nested re-parse
  that `REPEAT` and `EXE_PRM` run is not modelled; only their success flag is.
- MessageParser.ParseStringMessage: requires a message of at most 255 characters, because the
  uint8_t loop index never reaches a longer length. It also requires that the scan never writes
  past the 50-slot argument stack, because `argStack[numArgs]` is unchecked.
- Utils.GetIndexLaserFromName: `isSmallCaps` has no return statement, so its value is undefined;
  it is a function parameter. The name tables and the `NUM_*` sizes are parameters too, because
  their definitions are not part of this model. `String::toInt` is a parameter.
- Laser: src/Class_Laser.h disagrees with src/Class_Laser.cpp on field names, and this model
  follows the .cpp. In the sequencer, a laser is a module with the base behaviour, because
  src/Class_Laser.h does not derive `Laser` from `Module`.
- SequencerModules.Module.LinksOk: the heap model of a module step excludes every clock-to-clock
  link, including finite chains of clocks, which do terminate in the source. `Clock::getState` calls
  `update`, which calls the link's `getState`. The chains themselves are modelled on values in
  `ClockLinks`: a finite chain returns, and a cycle does not (see Findings).
- ClockLinks.SetInputLinkChecked: the corrected link command is stated through a rank that proves
  the links acyclic, and the cycle test is a ghost predicate; how the firmware would walk the chain
  is not modelled. The step model of the sequencer keeps the stricter `LinksOk`.
- SequencerModules.Module: the six module classes are one class with a constant `kind`. The names,
  ids and `getParamString` are left out, because they are only used for display.
- MiscParser.SetName: the source stores the caller's pointer; the model stores the name as a
  value, so later changes to the caller's buffer are not seen.
- MiscParser.Command: a value type whose setters return the new command. Fields the default
  constructor leaves uninitialised are "" and 0.
- MiscParser.Parser: the statics `numArgs`, `indexArgString` and `indexCmdString` are fields of
  the single parser. The argument stack `char[5][6]` is one row-major array of 30 characters.
- MiscParser.Parser.ParseStringMessage: requires a message shorter than 255 characters. It also
  requires that no write goes past the fixed buffers, because the source does not check this.
- `abortParsing`, `getRestMessage` and `getRestMessageNL` (misc/parser.hpp) are left out: they
  are called back from inside a dispatched function to change the running parse.
- The `ARRAY_SIZE` constructor of `CmdDictionnary` and `setCmdDict(const Command[])` are left
  out, because they are marked as not working in the source.
- misc/parser.h is a non-compiling duplicate of misc/parser.hpp and is left out.
- The host-side sender script and the build hook are left out; they do no parsing.

## Findings

| source | as written | input that shows it | evidently intended | confidence | as-written member | corrected member |
|---|---|---|---|---|---|---|
| src/hardware.h:33-42 | `pos + CENTER_MIRROR_AD` is computed in int16_t, so a large position wraps to a negative value before the clamp | `setMirrorsTo(30721, 0)`: 30721 + 2047 = 32768 wraps to -32768, so x is written as MIN_MIRRORS_ADX | a position above the range is written as MAX_MIRRORS_ADX (the clamp, monotone in the input) | not executed | ScannerMirrors.AsWrittenWrapsAround | ScannerMirrors.SetMirrorsToMonotone |
| src/Class_Sequencer.h:320-343 | `SET_LNK_SEQ` (src/messageParser.cpp:753-767) writes any link, and `Clock::getState` runs `update`, which calls the linked module's `getState` | `SET_LNK_SEQ` with arguments (0, 0, 0, 1), then with (0, 1, 0, 0): clocks 0 and 1 read each other, so `getState` on either recurses without bound | a link that would close a cycle of clocks is refused, so every `getState` returns | not executed | ClockLinks.AsWrittenMutualClocksNeverReturn | ClockLinks.CheckedLinkGetStateReturns |
| misc/parser.cpp:62-88 | after a delimiter closes a command, `myState` stays CMD, so the next delimiter (or the NUL terminator) dispatches again with an empty name | `"SET/"`: dispatches `SET` and then `""` with 0 arguments, so the result is false unless some entry has the empty name | a delimiter ends the command and the state goes back to START, so a trailing '/' is harmless | not executed | MiscParser.AsWrittenTrailingDelimiterDispatchesEmptyName | MiscParser.CorrectedNamesNonEmpty |

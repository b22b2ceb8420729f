# Trill ring sensor with a GUI: command channel, dispatch, touch publication and telemetry timing

This project models the sequential logic of a Bela sketch (`render.cpp`) that reads a
Trill ring touch sensor, publishes the detected touches to shared arrays, lets a
browser GUI reconfigure the sensor through a pipe, and sends telemetry to the GUI
from the audio callback. Four pieces are modelled and proved:

1. **Command decode** (module `Commands`, method `Render.GuiCallback`). A GUI message
   is a decoded JSON object, modelled as `map<string, JsonValue>`. The key table
   `gKeys` pairs five field names with command kinds. For each entry, in table
   order, the callback writes a `Command{id, value}` into the pipe when the field is
   present and numeric. `Decode` is the specification of the commands written.
   `GuiCallback` is the loop itself, and it is proved to append exactly `Decode(json)`
   and to return `false`.
2. **Drain and dispatch** (modules `Channel` and `Sensor`, method `Render.DrainCommands`).
   The pipe is a FIFO sequence. The drain loop reads until the pipe is empty and
   applies each command to the sensor state, class `Sensor.TrillSensor`. The class
   stands in for the driver's setters. The specification is `ApplyAll`, a fold of
   `Apply` over the queue. `ApplyAllIsSummary` describes the result field by field:
   the last command of each kind wins, untouched fields keep their values, and every
   baseline request is counted.
3. **Touch publication** (module `Touches`). The first `n` detector touches are
   copied into the two `NUM_TOUCH` arrays, and the active count is set to `n`.
   Slots from `n` on keep what an earlier cycle left there.
4. **Telemetry timing** (module `Telemetry`). A counter persists across audio
   callbacks. A frame whose counter has reached the threshold sends buffers 0 to 4
   in order. The counter then restarts, so it reads 1 after that frame.
   `RunClosedForm` gives the whole schedule in closed form. `RunSplit` shows that
   the schedule does not depend on how frames are divided between callbacks.

The C++ `float` values are modelled as `real`. A C++ float-to-int conversion
(`numBits = value`, `(Trill::Mode)value`) is `Sensor.Truncate`, which rounds toward
zero. The float comparison `count >= gTimePeriod*audioSampleRate` becomes
`count >= threshold`, where `threshold` is that product rounded up. For an integer
counter the two comparisons agree.

Three details of the code that the model keeps as written:
- A bit-resolution command passes the loop's local `speed` along with the new
  resolution. That variable is initialised to 0 and never reassigned, so every
  bit-resolution command sets the scan speed to 0 (render.cpp:85-86, 121-124).
- Each loop iteration publishes the touches first and then drains the pipe
  (render.cpp:91-95, then 102-131).
- After an emission the counter is set to 0 and then incremented in the same
  frame, so it reads 1 (render.cpp:173-175).

## Model

| member | source | states |
|---|---|---|
| Commands.Name | render.cpp:55-62 | the field name paired with each kind in the key table; no contract of its own, described by `NamesAreDistinct` and `DecodeCorrect` |
| Commands.Keys | render.cpp:55-62 | the key table's kinds in visiting order; a constant with no contract of its own, described by `RankIsPosition`, `KeysAreRanked` and `KeysRankSorted` |
| Commands.Rank | render.cpp:42-62 | each command kind has a position (its enumerator value) that lies within the key table; that the entry there is the kind is `RankIsPosition` |
| Commands.KeysAreRanked | render.cpp:55-62 | every entry of the key table sits at the rank of its own kind, so no kind appears twice |
| Commands.RankIsPosition | render.cpp:55-62 | every command kind appears in the key table |
| Commands.NamesAreDistinct | render.cpp:55-62 | different kinds have different field names |
| Commands.KeysRankSorted | render.cpp:55-62 | the table lists the kinds in strictly increasing rank (prescaler, baseline, noiseThreshold, numBits, mode) |
| Commands.DecodeKeys | render.cpp:71-79 | decoding a list of table entries emits at most one command per entry |
| Commands.Decode | render.cpp:68-81 | the commands one message makes the callback write; no contract of its own, characterised by `DecodeCorrect` |
| Commands.DecodeKeysSound | render.cpp:71-79 | every emitted command has a kind from the visited entries and comes from a present, numeric field of that kind, whose value it carries unchanged |
| Commands.DecodeKeysOrdered | render.cpp:71-79 | commands come out in table order, whatever the message |
| Commands.DecodeKeysEmits | render.cpp:71-79 | a visited kind whose field is present and numeric is always emitted |
| Commands.DecodeCorrect | render.cpp:68-81 | a message yields exactly one command per table field that is present and numeric, in table order, with its value and the paired id, and nothing else |
| Commands.DecodeKeysAgree | render.cpp:73-76 | the decoder reads only whether table fields are numeric, and their numbers |
| Commands.DecodeDependsOnlyOnTableFields | render.cpp:73-76 | two messages that agree on the numeric table fields decode to the same commands |
| Commands.DecodeIgnoresUnknownField | render.cpp:71-79 | adding a field whose name is not in the table, with any value, changes nothing and raises no error |
| Commands.DecodeIgnoresNonNumericField | render.cpp:73 | a table field with a non-numeric value is treated as absent |
| Commands.DecodeMixedMessage | render.cpp:68-81 | `{prescaler: 3, bogus: "x"}` yields exactly `[Command(Prescaler, 3)]` |
| Channel.Pipe.constructor | render.cpp:153 | a new pipe is empty |
| Channel.Pipe.WriteNonRt | render.cpp:77 | writing appends the command at the back of the queue |
| Channel.Pipe.ReadRt | render.cpp:104 | reading succeeds exactly when the queue is non-empty and then returns and removes the oldest command; otherwise the queue is unchanged |
| Sensor.Truncate | render.cpp:122 | the float-to-int conversion drops the fraction toward zero: the result is within 1 of the input, with no greater magnitude and never of the opposite sign |
| Sensor.TruncateSymmetric | render.cpp:122 | truncation is symmetric about zero and keeps whole numbers |
| Sensor.Apply | render.cpp:106-130 | the effect of one arm of the dispatch `switch` on the sensor settings; no contract of its own, described by `ApplyAllIsSummary` and implemented by `TrillSensor.Dispatch` |
| Sensor.ApplyAll | render.cpp:104-131 | the FIFO drain as a fold of `Apply`, oldest command first; no contract of its own, described by `ApplyAllIsSummary` and `ApplyAllConcat` |
| Sensor.ApplyAllConcat | render.cpp:104-131 | draining a queue in two parts has the same effect as draining it whole |
| Sensor.ApplyAllIsSummary | render.cpp:104-131 | after FIFO dispatch, prescaler, noise threshold, bit resolution and mode hold the last value sent for them (truncated for bits and mode) or their old value; speed is 0 if any bit-resolution command came; baseline resets grow by the number of baseline commands; nothing else changes |
| Sensor.DispatchNumBitsTen | render.cpp:121-124 | dispatching `NumBits(10)` sets the bit resolution to 10 and the scan speed to 0 and changes nothing else |
| Sensor.TrillSensor.constructor | render.cpp:18 | the sensor object starts in the given configuration (the driver's start-up settings are not visible) |
| Sensor.TrillSensor.Dispatch | render.cpp:106-130 | one arm of the switch changes the sensor state exactly as `Apply` says |
| Touches.Overlay | render.cpp:91-94 | the slots below `n` take the detector's values and the slots from `n` on keep their previous values |
| Touches.OverlayAbsorbs | render.cpp:91-95 | publishing the same touches again changes nothing; a later publication of at least as many touches hides the earlier one |
| Touches.TouchState.constructor | render.cpp:25-29 | the touch arrays start as `NUM_TOUCH` zeros and the active count as 0 |
| Touches.TouchState.Publish | render.cpp:91-95 | after publication, location and size slots `0..n-1` equal the detector's outputs, slots `n` and above are unchanged, and the active count is `n` |
| Telemetry.Frame | render.cpp:166-175 | after any frame the counter is at least 1, and it never exceeds the threshold (or 1), so the unsigned counter never wraps |
| Telemetry.Run | render.cpp:163-176 | the per-frame loop of `render` over `f` frames as a repetition of `Frame`; no contract of its own, given in closed form by `RunClosedForm` and split by `RunSplit` |
| Telemetry.RunClosedForm | render.cpp:161-176 | starting from a counter in range, after `f` frames the counter is `(c+f-1) mod T + 1` and `(c+f-1) div T` emissions of buffers 0..4 have been sent |
| Telemetry.RunSplit | render.cpp:161-176 | the counter persists across callbacks: running `a` then `b` frames equals running `a+b` frames |
| Telemetry.EmitsEveryPeriod | render.cpp:163-175 | counting frames from start-up, frame `j` sends buffers 0..4 exactly when `j` is a positive multiple of the threshold |
| Telemetry.FrameCounter.constructor | render.cpp:161 | the static counter starts at 0 |
| Telemetry.FrameCounter.Render | render.cpp:159-177 | one callback of `audioFrames` frames sends exactly the schedule that `Run` gives and leaves the counter where `Run` leaves it |
| Render.GuiCallback | render.cpp:68-81 | the callback appends exactly `Decode(json)` to the pipe and returns `false` |
| Render.DrainCommands | render.cpp:102-131 | the drain empties the pipe and leaves the sensor in `ApplyAll` of its old state over the old queue, in FIFO order |
| Render.LoopIteration | render.cpp:89-131 | one loop iteration publishes the touches and then applies every queued command, leaving the pipe empty |
| Render.LastOfDecode | render.cpp:71-79 | in a decoded message, the last command of a kind carries that kind's numeric field, and there is none when the field is absent or not numeric |
| Render.CountOfDecode | render.cpp:71-79 | a message requests at most one baseline reset, exactly when its `baseline` field is numeric |
| Render.MessageEffect | render.cpp:68-131 | one GUI message, decoded and drained, sets each setting whose field is numeric (truncated for numBits and mode), sets the speed to 0 with numBits, counts one baseline reset for a numeric `baseline`, and changes nothing else |

## Left out

- Centroid detection (`cd.process`, `cd.getNumTouches`, `cd.touchLocation`, `cd.touchSize`, `cd.setup`, `cd.setWrapAround`) runs in a library whose source is not part of this model. Its outputs are the inputs `n`, `touchLocation` and `touchSize` of `Publish`.
- The pipe's lock-free implementation, its bounded capacity and overflow behaviour, and the thread split between the GUI callback, the sensor loop and the audio callback are not modelled. The pipe is a plain FIFO sequence, and each operation runs to completion on its own.
- The Trill driver (`readI2C`, `setup`, `setMode(Trill::DIFF)` and the setters) consists of foreign calls. The setters become the fields of `TrillSensor`. The parameter types of `setPrescaler` and `setNoiseThreshold` are not visible, so the model stores the command value as it is.
- The GUI transport (`gui.setup`, `setControlDataCallback`, `sendBuffer`) and JSON parsing are I/O. Only the ids of the sent buffers, in order, are modelled, not their contents.
- `usleep`, `Bela_stopRequested`, `Bela_runAuxiliaryTask`, `printf`, `fprintf`, `setup` and the empty `cleanup` are scheduling, start-up and logging. The outer `while(!Bela_stopRequested())` loop is modelled as one iteration, `LoopIteration`. The raw sensor read that starts each iteration is left out.
- Floating point: values are reals. The narrowing of the JSON double into the command's `float` is not modelled. A float-to-int conversion whose result is out of range is undefined in C++, and `Truncate` does not model that case.
- Telemetry.Frame: the threshold is an integer, the float product `gTimePeriod*audioSampleRate` rounded up, so rounding in the float product is not modelled.
- Touches.TouchState.Publish: requires `n <= NUM_TOUCH`. The source does not check this. The detector is set up with `NUM_TOUCH` slots, so it never reports more, and a larger count would write past the arrays.

/** The sketch's glue: the GUI callback that decodes a message into the pipe,
    the sensor loop's drain-and-dispatch, one iteration of the sensor loop, and
    what a single GUI message does to the sensor configuration end to end. */
module Render {
  import opened Commands
  import opened Channel
  import opened Sensor
  import opened Touches

  /** The GUI callback: for each table entry in order, write a command into the
      pipe when the message has that field with a numeric value. It never
      reports the message as handled. */
  method GuiCallback(json: JsonObject, pipe: Pipe) returns (handled: bool)
    modifies pipe
    ensures pipe.queue == old(pipe.queue) + Decode(json)
    ensures !handled
  {
    var i := 0;
    assert Keys[i..] == Keys;
    while i < |Keys|
      invariant 0 <= i <= |Keys|
      invariant pipe.queue + DecodeKeys(Keys[i..], json) == old(pipe.queue) + Decode(json)
    {
      var id := Keys[i];
      ghost var before := pipe.queue;
      DecodeKeysStep(Keys, i, json);
      if Name(id) in json && json[Name(id)].Number? {
        pipe.WriteNonRt(Command(id, json[Name(id)].num));
      }
      assert pipe.queue == before + Emit(id, json);
      AppendAssoc(before, Emit(id, json), DecodeKeys(Keys[i + 1..], json));
      i := i + 1;
    }
    handled := false;
  }

  lemma AppendAssoc(a: seq<Command>, b: seq<Command>, c: seq<Command>)
    ensures (a + b) + c == a + (b + c)
  {
  }

  /** The decoder's loop visits one table entry per pass. */
  lemma DecodeKeysStep(keys: seq<CommandId>, i: nat, json: JsonObject)
    requires i < |keys|
    ensures DecodeKeys(keys[i..], json) == Emit(keys[i], json) + DecodeKeys(keys[i + 1..], json)
  {
    assert keys[i..][1..] == keys[i + 1..];
  }

  /** The sensor loop's drain: read commands until the pipe reports none and
      dispatch each, oldest first. */
  method DrainCommands(pipe: Pipe, sensor: TrillSensor)
    modifies pipe, sensor
    ensures pipe.queue == []
    ensures sensor.State() == ApplyAll(old(sensor.State()), old(pipe.queue))
  {
    var speed := 0;
    var got, command := pipe.ReadRt();
    while got
      invariant got ==> (ApplyAll(sensor.State(), [command] + pipe.queue)
                         == ApplyAll(old(sensor.State()), old(pipe.queue)))
      invariant !got ==> (pipe.queue == []
                          && sensor.State() == ApplyAll(old(sensor.State()), old(pipe.queue)))
      decreases |pipe.queue| + if got then 1 else 0
    {
      ghost var rest := pipe.queue;
      sensor.Dispatch(command, speed);
      assert ([command] + rest)[1..] == rest;
      got, command := pipe.ReadRt();
      if got {
        assert rest == [command] + pipe.queue;
      }
    }
  }

  /** One iteration of the sensor loop after the sensor read: publish the
      detector's touches, then drain and dispatch every queued command. */
  method LoopIteration(touches: TouchState, pipe: Pipe, sensor: TrillSensor,
                       n: nat, touchLocation: seq<real>, touchSize: seq<real>)
    requires touches.Valid()
    requires n <= NUM_TOUCH && n <= |touchLocation| && n <= |touchSize|
    modifies touches, touches.location, touches.size, pipe, sensor
    ensures touches.Valid()
    ensures touches.location[..] == Overlay(old(touches.location[..]), touchLocation, n)
    ensures touches.size[..] == Overlay(old(touches.size[..]), touchSize, n)
    ensures touches.numActive == n
    ensures pipe.queue == []
    ensures sensor.State() == ApplyAll(old(sensor.State()), old(pipe.queue))
  {
    touches.Publish(n, touchLocation, touchSize);
    DrainCommands(pipe, sensor);
  }

  /** In a batch where no kind occurs twice, each kind occurs at most once. */
  lemma {:induction false} CountAtMostOnce(cmds: seq<Command>, id: CommandId)
    requires forall k, l :: 0 <= k < l < |cmds| ==> cmds[k].id != cmds[l].id
    ensures Count(cmds, id) <= 1
    decreases |cmds|
  {
    if cmds != [] {
      var init := cmds[..|cmds| - 1];
      assert forall k :: 0 <= k < |init| ==> init[k] == cmds[k];
      CountAtMostOnce(init, id);
      if cmds[|cmds| - 1].id == id {
        assert forall k :: 0 <= k < |init| ==> init[k].id != id;
      }
    }
  }

  /** The value a message gives a field, if it gives one. */
  function Field(json: JsonObject, id: CommandId): Option<real>
  {
    if IsNumeric(json, Name(id)) then Some(json[Name(id)].num) else None
  }

  /** The last command of a kind in a decoded message is that kind's field. */
  lemma LastOfDecode(json: JsonObject, id: CommandId)
    ensures Last(Decode(json), id) == Field(json, id)
  {
    var r := Decode(json);
    DecodeKeysSound(Keys, json);
    LastNone(r, id);
    if IsNumeric(json, Name(id)) {
      RankIsPosition(id);
      DecodeKeysEmits(Keys, json, id);
    }
    if Last(r, id).Some? {
      LastSome(r, id);
      var k :| 0 <= k < |r| && r[k] == Command(id, Last(r, id).value);
      assert r[k].id == id;
    }
  }

  /** A decoded message requests a baseline recalibration at most once: exactly
      when its `baseline` field is numeric. */
  lemma CountOfDecode(json: JsonObject)
    ensures Count(Decode(json), Baseline) == if IsNumeric(json, "baseline") then 1 else 0
  {
    var r := Decode(json);
    KeysRankSorted();
    DecodeKeysOrdered(Keys, json);
    assert forall k, l :: 0 <= k < l < |r| ==> r[k].id != r[l].id;
    CountAtMostOnce(r, Baseline);
    DecodeKeysSound(Keys, json);
    if IsNumeric(json, Name(Baseline)) {
      RankIsPosition(Baseline);
      DecodeKeysEmits(Keys, json, Baseline);
    }
  }

  /** One GUI message, decoded into the pipe and drained: each setting whose
      field the message carries as a number takes that value (truncated for
      the bit resolution and the mode), the scan speed becomes 0 with a new bit
      resolution, a numeric `baseline` field requests exactly one
      recalibration, and nothing else changes. */
  lemma MessageEffect(cfg: Config, json: JsonObject)
    ensures var after := ApplyAll(cfg, Decode(json));
      && after.prescaler == ValueOr(Field(json, Prescaler), cfg.prescaler)
      && after.noiseThreshold == ValueOr(Field(json, NoiseThreshold), cfg.noiseThreshold)
      && after.numBits == TruncatedOr(Field(json, NumBits), cfg.numBits)
      && after.speed == (if IsNumeric(json, "numBits") then 0 else cfg.speed)
      && after.mode == TruncatedOr(Field(json, Mode), cfg.mode)
      && after.baselineResets == cfg.baselineResets + (if IsNumeric(json, "baseline") then 1 else 0)
  {
    ApplyAllIsSummary(cfg, Decode(json));
    LastOfDecode(json, Prescaler);
    LastOfDecode(json, NoiseThreshold);
    LastOfDecode(json, NumBits);
    LastOfDecode(json, Mode);
    CountOfDecode(json);
  }
}

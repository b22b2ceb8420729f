/** The touch sensor's configuration as the command dispatcher changes it. The
    sensor driver's setters are foreign calls; each is replaced by the field of
    sensor state it sets. */
module Sensor {
  import opened Commands

  datatype Option<T> = None | Some(value: T)

  /** C++ conversion of a floating-point value to an integer: the fraction is
      discarded, rounding toward zero. */
  function Truncate(x: real): (n: int)
    ensures 0.0 <= x ==> 0 <= n && n as real <= x < n as real + 1.0
    ensures x < 0.0 ==> n <= 0 && n as real - 1.0 < x <= n as real
  {
    if x >= 0.0 then x.Floor else -((-x).Floor)
  }

  /** Truncation is symmetric about zero and leaves whole numbers alone. */
  lemma TruncateSymmetric(x: real, m: int)
    ensures Truncate(-x) == -Truncate(x)
    ensures Truncate(m as real) == m
  {
  }

  /** The sensor settings the dispatcher writes, plus the number of baseline
      recalibrations it has requested. */
  datatype Config = Config(
    prescaler: real,
    noiseThreshold: real,
    numBits: int,
    speed: int,
    mode: int,
    baselineResets: nat)

  /** The scan speed passed with every bit-resolution change: the loop's local
      `speed`, initialised to 0 and never reassigned. */
  const LOOP_SCAN_SPEED: int := 0

  /** The effect of dispatching one command. */
  function Apply(cfg: Config, cmd: Command): Config
  {
    match cmd.id
    case Prescaler => cfg.(prescaler := cmd.value)
    case Baseline => cfg.(baselineResets := cfg.baselineResets + 1)
    case NoiseThreshold => cfg.(noiseThreshold := cmd.value)
    case NumBits => cfg.(speed := LOOP_SCAN_SPEED, numBits := Truncate(cmd.value))
    case Mode => cfg.(mode := Truncate(cmd.value))
  }

  /** The effect of dispatching `cmds` first to last. */
  function ApplyAll(cfg: Config, cmds: seq<Command>): Config
    decreases |cmds|
  {
    if cmds == [] then cfg else ApplyAll(Apply(cfg, cmds[0]), cmds[1..])
  }

  /** The value of the last command of kind `id` in `cmds`, if there is one. */
  function Last(cmds: seq<Command>, id: CommandId): Option<real>
  {
    if cmds == [] then None
    else if cmds[|cmds| - 1].id == id then Some(cmds[|cmds| - 1].value)
    else Last(cmds[..|cmds| - 1], id)
  }

  /** `Last` finds nothing exactly when no command has kind `id`. */
  lemma {:induction false} LastNone(cmds: seq<Command>, id: CommandId)
    ensures Last(cmds, id).None? <==> forall k :: 0 <= k < |cmds| ==> cmds[k].id != id
    decreases |cmds|
  {
    if cmds != [] && cmds[|cmds| - 1].id != id {
      var init := cmds[..|cmds| - 1];
      LastNone(init, id);
      assert forall k :: 0 <= k < |init| ==> init[k] == cmds[k];
    }
  }

  /** What `Last` finds is a command of kind `id` followed by no other of that
      kind. */
  lemma {:induction false} LastSome(cmds: seq<Command>, id: CommandId)
    requires Last(cmds, id).Some?
    ensures exists k :: 0 <= k < |cmds| && cmds[k] == Command(id, Last(cmds, id).value)
                        && forall l :: k < l < |cmds| ==> cmds[l].id != id
    decreases |cmds|
  {
    var n := |cmds| - 1;
    if cmds[n].id != id {
      var init := cmds[..n];
      LastSome(init, id);
      var k :| 0 <= k < |init| && init[k] == Command(id, Last(init, id).value)
               && forall l :: k < l < |init| ==> init[l].id != id;
      assert cmds[k] == init[k];
      assert forall l :: k < l < n ==> cmds[l] == init[l];
    } else {
      assert cmds[n] == Command(id, Last(cmds, id).value);
    }
  }

  /** The number of commands of kind `id` in `cmds`. */
  function Count(cmds: seq<Command>, id: CommandId): (n: nat)
    ensures n <= |cmds|
    ensures n == 0 <==> forall k :: 0 <= k < |cmds| ==> cmds[k].id != id
  {
    if cmds == [] then 0
    else
      var n := Count(cmds[..|cmds| - 1], id);
      assert forall k :: 0 <= k < |cmds| - 1 ==> cmds[..|cmds| - 1][k] == cmds[k];
      n + if cmds[|cmds| - 1].id == id then 1 else 0
  }

  function ValueOr(v: Option<real>, default: real): real
  {
    if v.Some? then v.value else default
  }

  function TruncatedOr(v: Option<real>, default: int): int
  {
    if v.Some? then Truncate(v.value) else default
  }

  /** The configuration after a batch of commands, described field by field:
      each setting holds the value of the last command of its kind, or keeps
      its old value when the batch has none; the scan speed becomes the loop's
      speed when any bit-resolution command arrived; every baseline command is
      counted. */
  function Summary(cfg: Config, cmds: seq<Command>): Config
  {
    Config(
      prescaler := ValueOr(Last(cmds, Prescaler), cfg.prescaler),
      noiseThreshold := ValueOr(Last(cmds, NoiseThreshold), cfg.noiseThreshold),
      numBits := TruncatedOr(Last(cmds, NumBits), cfg.numBits),
      speed := if Last(cmds, NumBits).Some? then LOOP_SCAN_SPEED else cfg.speed,
      mode := TruncatedOr(Last(cmds, Mode), cfg.mode),
      baselineResets := cfg.baselineResets + Count(cmds, Baseline))
  }

  /** Dispatching a batch in two parts is dispatching it whole. */
  lemma {:induction false} ApplyAllConcat(cfg: Config, a: seq<Command>, b: seq<Command>)
    ensures ApplyAll(cfg, a + b) == ApplyAll(ApplyAll(cfg, a), b)
    decreases |a|
  {
    if a != [] {
      assert a + b != [] && (a + b)[0] == a[0];
      assert (a + b)[1..] == a[1..] + b;
      ApplyAllConcat(Apply(cfg, a[0]), a[1..], b);
    } else {
      assert a + b == b;
    }
  }

  /** Draining a queue of commands in FIFO order leaves every setting at the
      value of the last command of its kind, changes nothing that no command
      addressed, and counts every baseline request. */
  lemma {:induction false} ApplyAllIsSummary(cfg: Config, cmds: seq<Command>)
    ensures ApplyAll(cfg, cmds) == Summary(cfg, cmds)
    decreases |cmds|
  {
    if cmds != [] {
      var init, c := cmds[..|cmds| - 1], cmds[|cmds| - 1];
      assert cmds == init + [c];
      ApplyAllConcat(cfg, init, [c]);
      ApplyAllIsSummary(cfg, init);
    }
  }

  /** A bit-resolution command sets the truncated value and the loop's scan
      speed 0, and nothing else. */
  lemma DispatchNumBitsTen(cfg: Config)
    ensures ApplyAll(cfg, [Command(NumBits, 10.0)])
         == cfg.(numBits := 10, speed := 0)
  {
  }

  /** The sensor driver's state that the dispatcher changes through its setters. */
  class TrillSensor {
    var prescaler: real
    var noiseThreshold: real
    var numBits: int
    var speed: int
    var mode: int
    var baselineResets: nat

    function State(): Config
      reads this
    {
      Config(prescaler, noiseThreshold, numBits, speed, mode, baselineResets)
    }

    constructor (initial: Config)
      ensures State() == initial
    {
      prescaler := initial.prescaler;
      noiseThreshold := initial.noiseThreshold;
      numBits := initial.numBits;
      speed := initial.speed;
      mode := initial.mode;
      baselineResets := initial.baselineResets;
    }

    /** One arm of the dispatcher's `switch`; `speed` is the loop's local scan
        speed passed along with a new bit resolution. */
    method Dispatch(cmd: Command, loopSpeed: int)
      requires loopSpeed == LOOP_SCAN_SPEED
      modifies this
      ensures State() == Apply(old(State()), cmd)
    {
      var value := cmd.value;
      match cmd.id {
        case Prescaler =>
          prescaler := value;
        case Baseline =>
          baselineResets := baselineResets + 1;
        case NoiseThreshold =>
          noiseThreshold := value;
        case NumBits =>
          var bits := Truncate(value);
          speed, numBits := loopSpeed, bits;
        case Mode =>
          mode := Truncate(value);
      }
    }
  }
}

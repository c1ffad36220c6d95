/** `do_move` with its obstacle interlock, and one step of the safety monitor
    that maintains the obstacle flag. */
module Motion {
  import opened Collaborators

  /** The actuator command `do_move` issues for a direction ("back" drives backward). */
  function Actuator(d: Direction): Effect {
    match d
    case Forward => MotorForward
    case Back => MotorBackward
    case Left => MotorLeft
    case Right => MotorRight
  }

  /** The effects of `do_move(d)` while the obstacle flag reads `obstacle`:
      refuse forward travel while the flag is set, otherwise announce the
      move and, with hardware present, drive and then stop. */
  function MoveEffects(obstacle: bool, hardware: bool, d: Direction): seq<Effect> {
    if obstacle && d == Forward then [Say("Path blocked.")]
    else [Say("Moving " + DirectionName(d))] + (if hardware then [Actuator(d), MotorStop] else [])
  }

  /** What a move does, observed by kind of effect: one announcement, at most
      one actuator command followed by one stop, and no camera or model call. */
  lemma MoveObservables(obstacle: bool, hardware: bool, d: Direction)
    ensures var r := MoveEffects(obstacle, hardware, d);
            && Keep(r, Speaking) == [Say(if obstacle && d == Forward then "Path blocked." else "Moving " + DirectionName(d))]
            && Keep(r, Driving) == (if (obstacle && d == Forward) || !hardware then [] else [Actuator(d), MotorStop])
            && Keep(r, Thinking) == [] && Keep(r, Seeing) == [] && Keep(r, Camera) == []
  {
    var r := MoveEffects(obstacle, hardware, d);
    var say := r[0];
    forall k: Kind ensures Keep(r, k) == (if KindOf(say) == k then [say] else []) + Keep(r[1..], k) {
      assert r == [say] + r[1..];
      KeepAppend([say], r[1..], k);
      KeepOne(say, k);
    }
    if |r| == 3 {
      var a := Actuator(d);
      forall k: Kind ensures Keep(r[1..], k) == (if KindOf(a) == k then [a] else []) + (if k == Driving then [MotorStop] else []) {
        assert r[1..] == [a] + [MotorStop];
        KeepAppend([a], [MotorStop], k);
        KeepOne(a, k);
        KeepOne(MotorStop, k);
      }
    }
  }

  /** The interlock: a move never drives forward while the obstacle flag is
      set, and forward travel is the only one the flag blocks. */
  lemma InterlockBlocksOnlyForward(obstacle: bool, hardware: bool, d: Direction)
    ensures obstacle ==> MotorForward !in MoveEffects(obstacle, hardware, d)
    ensures obstacle && d == Forward ==> MoveEffects(obstacle, hardware, d) == [Say("Path blocked.")]
    ensures hardware && d != Forward ==> Actuator(d) in MoveEffects(obstacle, hardware, d)
  {
    var r := MoveEffects(obstacle, hardware, d);
    if hardware && d != Forward {
      assert r[1] == Actuator(d);
    }
  }

  /** SAFE_DISTANCE in metres. */
  const SafeDistance: real := 0.35

  /** The flag after one safety-monitor cycle, and whether that cycle called stop(). */
  datatype SafetyOutcome = SafetyOutcome(obstacle: bool, stopIssued: bool)

  /** One cycle of `safety_monitor`: the sensor (if present) reads `distance`. */
  function SafetyStep(obstacle: bool, sensor: bool, hardware: bool, distance: real): (r: SafetyOutcome)
    ensures r.obstacle <==> sensor && distance < SafeDistance
    ensures r.stopIssued <==> sensor && distance < SafeDistance && !obstacle && hardware
  {
    if sensor && distance < SafeDistance then
      if !obstacle then SafetyOutcome(true, hardware) else SafetyOutcome(true, false)
    else SafetyOutcome(false, false)
  }

  /** A close reading followed by a forward request: the monitor stops the
      motors (once per obstacle episode) and the forward move is refused. */
  lemma CloseObstacleSuppressesForward(obstacle: bool, hardware: bool, distance: real)
    requires distance < SafeDistance
    ensures var s := SafetyStep(obstacle, true, hardware, distance);
            && s.obstacle
            && (s.stopIssued <==> hardware && !obstacle)
            && MoveEffects(s.obstacle, hardware, Forward) == [Say("Path blocked.")]
  {
  }
}

/** The voice loop of the controller: dormant until the wake word, then a
    session that handles commands until "bye"/"sleep" or until a minute has
    passed since the last recognised command. One safety-monitor cycle runs
    before each input is handled, so the obstacle flag a command sees is the
    one the monitor left. */
module Session {
  import opened Text
  import opened Collaborators
  import opened Motion
  import opened Perception
  import opened Classifier
  import opened Commands

  const WakeWord := "hey blue"

  /** ACTIVE_TIMEOUT, in seconds. */
  const ActiveTimeout := 60

  /** Where the loop is: waiting for the wake word, in a session whose last
      recognised command came at `last`, or in a session waiting for the
      answer to "Which direction?". */
  datatype Mode = Dormant | Listening(last: int) | AwaitingDirection(last: int)

  datatype State = State(mode: Mode, obstacle: bool)

  /** One listen: the distance the sensor reads in the monitor cycle that
      precedes it, what the recogniser delivered, the clock when it was
      recognised (the reading stored as last_interaction), and the clock when
      the session deadline is next checked. */
  datatype Input = Input(distance: real, heard: Heard, at: int, after: int)

  datatype ModeStep = ModeStep(mode: Mode, effects: seq<Effect>)
  datatype StepResult = StepResult(state: State, effects: seq<Effect>)
  datatype RunResult = RunResult(state: State, trace: seq<Effect>)

  /** The recogniser heard the wake word, in any letter case. */
  predicate IsWake(heard: Heard) {
    heard.Speech? && Contains(Lower(heard.transcript), WakeWord)
  }

  /** The deadline check at the head of the session loop: the session goes
      on while less than ActiveTimeout has passed since `last`, and says
      "Sleeping." when it ends. */
  function CheckDeadline(last: int, clock: int, effects: seq<Effect>): ModeStep {
    if clock - last < ActiveTimeout then ModeStep(Listening(last), effects)
    else ModeStep(Dormant, effects + [Say("Sleeping.")])
  }

  /** How the loop handles one input in a mode, with the flag at `obstacle`,
      after trace h. */
  function SessionStep(env: Env, obstacle: bool, mode: Mode, inp: Input, h: seq<Effect>): ModeStep {
    match mode
    case Dormant =>
      if IsWake(inp.heard) then CheckDeadline(inp.at, inp.after, [Say("Yes?")])
      else ModeStep(Dormant, [])
    case Listening(last) =>
      if !inp.heard.Speech? then CheckDeadline(last, inp.after, [])
      else
        var cmd := Lower(inp.heard.transcript);
        var effects := CommandEffects(env, obstacle, cmd, h);
        (match Route(cmd)
         case EndSession => ModeStep(Dormant, effects + [Say("Sleeping.")])
         case MoveRoute(None) => ModeStep(AwaitingDirection(inp.at), effects)
         case _ => CheckDeadline(inp.at, inp.after, effects))
    case AwaitingDirection(last) =>
      CheckDeadline(last, inp.after, FollowUpEffects(obstacle, env.hardware, inp.heard))
  }

  /** One input: a monitor cycle, then the loop's handling of the input. */
  function Step(env: Env, s: State, inp: Input, h: seq<Effect>): StepResult {
    var safety := SafetyStep(s.obstacle, env.sensor, env.hardware, inp.distance);
    var stop := if safety.stopIssued then [MotorStop] else [];
    var m := SessionStep(env, safety.obstacle, s.mode, inp, h + stop);
    StepResult(State(m.mode, safety.obstacle), stop + m.effects)
  }

  /** The inputs handled one after another, starting in state s after trace h. */
  function Run(env: Env, s: State, inputs: seq<Input>, h: seq<Effect>): RunResult
    decreases |inputs|
  {
    if inputs == [] then RunResult(s, h)
    else
      var r := Step(env, s, inputs[0], h);
      Run(env, r.state, inputs[1..], h + r.effects)
  }

  /** Outside a session only the wake word does anything; it is answered
      with "Yes?". */
  lemma WakeWordOpensSession(env: Env, obstacle: bool, inp: Input, h: seq<Effect>)
    ensures var m := SessionStep(env, obstacle, Dormant, inp, h);
            && (m.effects != [] <==> IsWake(inp.heard))
            && (IsWake(inp.heard) ==> m.effects[0] == Say("Yes?"))
            && (!IsWake(inp.heard) ==> m == ModeStep(Dormant, []))
            && (IsWake(inp.heard) && inp.after - inp.at < ActiveTimeout ==> m.mode == Listening(inp.at))
  {
  }

  /** The wake word is recognised whatever its letter case. */
  lemma WakeWordAnyCase()
    ensures IsWake(Speech("Hey Blue"))
  {
    assert Lower("Hey Blue") == WakeWord;
    ContainsAt(WakeWord, WakeWord, 0);
  }

  /** The wake word is recognised anywhere in the utterance. */
  lemma WakeWordAnywhere(prefix: string, suffix: string)
    ensures IsWake(Speech(prefix + "hey blue" + suffix))
  {
    var t := prefix + "hey blue" + suffix;
    var low := Lower(t);
    assert low[|prefix|..|prefix| + 8] == WakeWord by {
      forall i | 0 <= i < 8 ensures low[|prefix| + i] == WakeWord[i] {
        assert t[|prefix| + i] == WakeWord[i];
      }
    }
    ContainsAt(low, WakeWord, |prefix|);
  }

  /** A recognised command restarts the minute: what follows depends on
      the clock reading at that command, not on when the previous one came. */
  lemma CommandRestartsDeadline(env: Env, obstacle: bool, last1: int, last2: int, inp: Input, h: seq<Effect>)
    requires inp.heard.Speech?
    ensures SessionStep(env, obstacle, Listening(last1), inp, h) == SessionStep(env, obstacle, Listening(last2), inp, h)
    ensures var cmd := Lower(inp.heard.transcript);
            Route(cmd) != EndSession && Route(cmd) != MoveRoute(None) && inp.after - inp.at < ActiveTimeout ==>
              SessionStep(env, obstacle, Listening(last1), inp, h).mode == Listening(inp.at)
  {
  }

  /** Silence, an unintelligible utterance or a recogniser failure changes
      nothing but the clock: the deadline still counts from the last command. */
  lemma SilenceKeepsDeadline(env: Env, obstacle: bool, last: int, inp: Input, h: seq<Effect>)
    requires !inp.heard.Speech?
    ensures var m := SessionStep(env, obstacle, Listening(last), inp, h);
            if inp.after - last < ActiveTimeout then m == ModeStep(Listening(last), [])
            else m == ModeStep(Dormant, [Say("Sleeping.")])
  {
  }

  /** The session never outlives its deadline: a step that leaves the loop
      listening does so within ActiveTimeout of the last recognised command. */
  lemma SessionWithinDeadline(env: Env, obstacle: bool, mode: Mode, inp: Input, h: seq<Effect>)
    ensures var m := SessionStep(env, obstacle, mode, inp, h);
            m.mode.Listening? ==> inp.after - m.mode.last < ActiveTimeout
  {
  }

  /** Every way out of a session (exit word, deadline) ends with "Sleeping.". */
  lemma SessionEndsSleeping(env: Env, obstacle: bool, mode: Mode, inp: Input, h: seq<Effect>)
    requires mode != Dormant || IsWake(inp.heard)
    ensures var m := SessionStep(env, obstacle, mode, inp, h);
            m.mode == Dormant ==> |m.effects| > 0 && m.effects[|m.effects| - 1] == Say("Sleeping.")
  {
  }

  /** "bye" or "sleep" ends the session at once, deadline or not, with
      "Going to sleep." and then "Sleeping.". */
  lemma ExitWordEndsSession(env: Env, obstacle: bool, last: int, inp: Input, h: seq<Effect>)
    requires inp.heard.Speech? && IsExit(Lower(inp.heard.transcript))
    ensures SessionStep(env, obstacle, Listening(last), inp, h)
              == ModeStep(Dormant, [Say("Going to sleep."), Say("Sleeping.")])
  {
    RoutePriority(Lower(inp.heard.transcript));
  }

  /** A move without a direction asks once; the next input is its answer,
      after which the loop is never waiting for a direction again. */
  lemma DirectionAskedOnce(env: Env, obstacle: bool, last: int, inp: Input, next: Input, h: seq<Effect>)
    requires inp.heard.Speech? && Route(Lower(inp.heard.transcript)) == MoveRoute(None)
    ensures var m := SessionStep(env, obstacle, Listening(last), inp, h);
            && m == ModeStep(AwaitingDirection(inp.at), [Say(WhichDirection)])
            && !SessionStep(env, obstacle, m.mode, next, h + m.effects).mode.AwaitingDirection?
            && SessionStep(env, obstacle, m.mode, next, h + m.effects).effects[..|FollowUpEffects(obstacle, env.hardware, next.heard)|]
                 == FollowUpEffects(obstacle, env.hardware, next.heard)
  {
  }

  /** "hey blue" said during a session is not special: it has none of the
      keywords, so it goes to the language model like any question. */
  lemma WakeWordInSessionIsAQuestion(env: Env, obstacle: bool, last: int, inp: Input, h: seq<Effect>)
    requires inp.heard.Speech? && Lower(inp.heard.transcript) == WakeWord
    ensures SessionStep(env, obstacle, Listening(last), inp, h)
              == CheckDeadline(inp.at, inp.after, ModelPathEffects(env, obstacle, WakeWord, h))
  {
    HeyBlueIsAQuestion();
  }

  lemma HeyBlueIsAQuestion()
    ensures Route(WakeWord) == ModelRoute
  {
    HeyBlueNotExitOrExplore();
    HeyBlueNotSeeOrMove();
    RoutePriority(WakeWord);
  }

  lemma HeyBlueNotExitOrExplore()
    ensures !IsExit(WakeWord) && !AsksExplore(WakeWord)
  {
    MissingPair(WakeWord, "bye", 0);
    MissingChar(WakeWord, "sleep", 's');
    MissingChar(WakeWord, "explore", 'x');
    MissingChar(WakeWord, "scan", 's');
  }

  lemma HeyBlueNotSeeOrMove()
    ensures !AsksSee(WakeWord) && !AsksMove(WakeWord)
  {
    MissingChar(WakeWord, "what do you see", 'w');
    MissingChar(WakeWord, "look at this", 'k');
    MissingChar(WakeWord, "move", 'm');
    MissingChar(WakeWord, "go", 'g');
    MissingChar(WakeWord, "turn", 't');
  }

  /** The monitor cycle before each input keeps the flag in step with the
      sensor, and while the flag is set nothing in that step drives forward. */
  lemma StepKeepsInterlock(env: Env, s: State, inp: Input, h: seq<Effect>)
    ensures var r := Step(env, s, inp, h);
            && (r.state.obstacle <==> env.sensor && inp.distance < SafeDistance)
            && (r.state.obstacle ==> MotorForward !in r.effects)
  {
    var safety := SafetyStep(s.obstacle, env.sensor, env.hardware, inp.distance);
    if safety.obstacle {
      var stop := if safety.stopIssued then [MotorStop] else [];
      var m := SessionStep(env, true, s.mode, inp, h + stop);
      SessionStepNeverForward(env, s.mode, inp, h + stop);
      assert Step(env, s, inp, h).effects == stop + m.effects;
    }
  }

  lemma ForwardFreeBeforeSleep(e: seq<Effect>)
    requires MotorForward !in e
    ensures MotorForward !in e + [Say("Sleeping.")]
  {
  }

  lemma SessionStepNeverForward(env: Env, mode: Mode, inp: Input, h: seq<Effect>)
    ensures MotorForward !in SessionStep(env, true, mode, inp, h).effects
  {
    match mode
    case Dormant =>
    case Listening(last) =>
      if inp.heard.Speech? {
        var e := CommandEffects(env, true, Lower(inp.heard.transcript), h);
        assert MotorForward !in e by {
          BlockedCommandNeverForward(env, Lower(inp.heard.transcript), h);
        }
        ForwardFreeBeforeSleep(e);
      }
    case AwaitingDirection(last) =>
      BlockedFollowUpNeverForward(env.hardware, inp.heard);
  }

  /** Handling the inputs from position k on is one step on input k, then the rest. */
  lemma RunFrom(env: Env, s: State, inputs: seq<Input>, k: nat, h: seq<Effect>)
    requires k < |inputs|
    ensures var r := Step(env, s, inputs[k], h);
            Run(env, s, inputs[k..], h) == Run(env, r.state, inputs[k + 1..], h + r.effects)
  {
    assert inputs[k..][0] == inputs[k];
    assert inputs[k..][1..] == inputs[k + 1..];
  }

  /** A run only ever adds to the trace. */
  lemma {:induction false} RunExtends(env: Env, s: State, inputs: seq<Input>, h: seq<Effect>)
    ensures |h| <= |Run(env, s, inputs, h).trace|
    ensures Run(env, s, inputs, h).trace[..|h|] == h
    decreases |inputs|
  {
    if inputs != [] {
      var r := Step(env, s, inputs[0], h);
      RunExtends(env, r.state, inputs[1..], h + r.effects);
      assert (h + r.effects)[..|h|] == h;
    }
  }

  /** Handling a stream in two parts is handling it whole. */
  lemma {:induction false} RunSplits(env: Env, s: State, a: seq<Input>, b: seq<Input>, h: seq<Effect>)
    ensures var mid := Run(env, s, a, h);
            Run(env, s, a + b, h) == Run(env, mid.state, b, mid.trace)
    decreases |a|
  {
    if a == [] {
      assert a + b == b;
    } else {
      var r := Step(env, s, a[0], h);
      assert (a + b)[0] == a[0] && (a + b)[1..] == a[1..] + b;
      assert Run(env, s, a + b, h) == Run(env, r.state, a[1..] + b, h + r.effects);
      RunSplits(env, r.state, a[1..], b, h + r.effects);
    }
  }
}

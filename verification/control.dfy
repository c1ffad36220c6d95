/** The controller as the program runs it: one object holding the obstacle
    flag the safety monitor maintains and everything it has done so far,
    with a method per action and the main loop over a stream of inputs.
    Each method is proved to do exactly what the corresponding function of
    the model says. */
module Control {
  import opened Text
  import opened Collaborators
  import opened Motion
  import opened Perception
  import opened Classifier
  import opened Commands
  import opened Session

  class Robot {
    /** The hardware and collaborators the controller was started with. */
    const env: Env
    /** `obstacle_detected`. */
    var obstacle: bool
    /** Every effect so far, in order. */
    var trace: seq<Effect>

    constructor (env: Env)
      ensures this.env == env && !obstacle && trace == []
    {
      this.env := env;
      obstacle := false;
      trace := [];
    }

    /** `speak(text)`. */
    method Speak(text: string)
      modifies this`trace
      ensures trace == old(trace) + [Say(text)]
    {
      trace := trace + [Say(text)];
    }

    /** `capture_image(file)`: the path of the picture taken. */
    method CaptureImage(file: string) returns (path: string)
      modifies this`trace
      ensures path == file
      ensures trace == old(trace) + [Capture(file)]
    {
      trace := trace + [Capture(file)];
      path := file;
    }

    /** `llm_query(prompt, system)`: the completion, or an apology when inference fails. */
    method LlmQuery(prompt: string, system: string) returns (reply: string)
      modifies this`trace
      ensures reply == LlmCall(env, old(trace), system, prompt).reply
      ensures trace == old(trace) + [LlmCall(env, old(trace), system, prompt)]
    {
      var outcome := env.llm(trace, system, prompt);
      match outcome {
        case Completion(content) => reply := content;
        case InferenceError => reply := ThinkingApology;
      }
      trace := trace + [Llm(system, prompt, reply)];
    }

    /** `get_vision_description(image, prompt)`: the description, or an
        apology when the request fails. */
    method VisionDescription(image: string, prompt: string) returns (description: string)
      modifies this`trace
      ensures description == VisionCall(env, old(trace), image, prompt).description
      ensures trace == old(trace) + [VisionCall(env, old(trace), image, prompt)]
    {
      var outcome := env.vision(trace, image, prompt);
      match outcome {
        case Described(content) => description := content;
        case VisionError => description := SeeingApology;
      }
      trace := trace + [Vision(image, prompt, description)];
    }

    /** `do_move(d)`. */
    method DoMove(d: Direction)
      modifies this`trace
      ensures trace == old(trace) + MoveEffects(obstacle, env.hardware, d)
    {
      if obstacle && d == Forward {
        Speak("Path blocked.");
        return;
      }
      Speak("Moving " + DirectionName(d));
      if env.hardware {
        if d == Forward {
          trace := trace + [MotorForward];
        } else if d == Back {
          trace := trace + [MotorBackward];
        } else if d == Left {
          trace := trace + [MotorLeft];
        } else {
          trace := trace + [MotorRight];
        }
        trace := trace + [MotorStop];
      }
    }

    /** `do_see()`. */
    method DoSee()
      modifies this`trace
      ensures trace == old(trace) + SeeEffects(env, old(trace))
    {
      Speak("Let me check what is in front of me.");
      var path := CaptureImage(SeeImage);
      assert trace == old(trace) + [Say("Let me check what is in front of me."), Capture(SeeImage)];
      var description := VisionDescription(path, SeePrompt);
      Speak("I see " + description);
    }

    /** `do_explore()`: four frames, a right turn between frames when the
        hardware is there, a final right turn, and one summary of what the
        frames showed. */
    method DoExplore()
      modifies this`trace
      ensures trace == old(trace) + ExploreEffects(env, obstacle, old(trace))
    {
      ghost var h := trace;
      Speak("Starting area scan.");
      ghost var start := trace;
      var observations: seq<string> := [];
      for i := 0 to ScanFrames
        invariant trace == start + ScanRounds(env, obstacle, start, i)
        invariant observations == Observations(ScanRounds(env, obstacle, start, i))
      {
        ghost var before := trace;
        var path := CaptureImage(ScanFile(i));
        var description := VisionDescription(path, ScanPrompt);
        ghost var described := trace;
        observations := observations + [description];
        if i < ScanFrames - 1 {
          if env.hardware {
            DoMove(Right);
          }
        }
        assert trace == described + TurnAfter(env, obstacle, i);
        NextFrame(env, obstacle, start, i, before, described, trace, description);
      }
      ghost var frames := trace;
      DoMove(Right);
      Speak("Analyzing data.");
      var summary := LlmQuery(SummaryPrompt(observations), SummarySystem);
      Speak("Report: " + summary);
      ExploreAssembled(env, obstacle, h, frames, trace, summary);
    }

    /** One cycle of `safety_monitor`, with the sensor reading `distance`. */
    method SafetyMonitorStep(distance: real)
      modifies this
      ensures var s := SafetyStep(old(obstacle), env.sensor, env.hardware, distance);
              && obstacle == s.obstacle
              && trace == old(trace) + (if s.stopIssued then [MotorStop] else [])
    {
      if env.sensor && distance < SafeDistance {
        if !obstacle {
          if env.hardware {
            trace := trace + [MotorStop];
          }
          obstacle := true;
        }
      } else {
        obstacle := false;
      }
    }

    /** The model path: classify-or-answer, then act on the reply. */
    method ModelPath(cmd: string)
      modifies this`trace
      ensures trace == old(trace) + ModelPathEffects(env, obstacle, cmd, old(trace))
    {
      var raw := LlmQuery(ClassifyPrompt(cmd), ParserSystem);
      var reaction := React(env.decode(JsonCandidate(raw)));
      Act(cmd, reaction);
    }

    /** Acting on the model's reply to a command, or asking the model the
        command itself when the reply was not an object. */
    method Act(cmd: string, reaction: Reaction)
      modifies this`trace
      ensures trace == old(trace) + ReactionEffects(env, obstacle, cmd, reaction, old(trace))
    {
      match reaction {
        case Reply(text) => Speak(text);
        case MoveTo(d) => DoMove(d);
        case MoveWhere => Speak("Move where?");
        case ExploreNow => DoExplore();
        case SeeNow => DoSee();
        case Ignore =>
        case Blind =>
          var fallback := LlmQuery(cmd, FallbackSystem);
          Speak(fallback);
      }
    }

    /** One recognised command, up to the request for a missing direction;
        the route it took tells the loop whether to end the session or
        listen for a direction. */
    method HandleCommand(cmd: string) returns (route: Destination)
      modifies this`trace
      ensures route == Route(cmd)
      ensures trace == old(trace) + CommandEffects(env, obstacle, cmd, old(trace))
    {
      RoutePriority(cmd);
      if Contains(cmd, "bye") || Contains(cmd, "sleep") {
        Speak("Going to sleep.");
        route := EndSession;
      } else if Contains(cmd, "explore") || Contains(cmd, "scan") {
        DoExplore();
        route := ExploreRoute;
      } else if Contains(cmd, "what do you see") || Contains(cmd, "look at this") {
        DoSee();
        route := SeeRoute;
      } else if Contains(cmd, "move") || Contains(cmd, "go") || Contains(cmd, "turn") {
        SpokenDirectionSpec(cmd);
        if Contains(cmd, "left") {
          DoMove(Left);
          route := MoveRoute(Some(Left));
        } else if Contains(cmd, "right") {
          DoMove(Right);
          route := MoveRoute(Some(Right));
        } else if Contains(cmd, "back") {
          DoMove(Back);
          route := MoveRoute(Some(Back));
        } else if Contains(cmd, "forward") {
          DoMove(Forward);
          route := MoveRoute(Some(Forward));
        } else {
          Speak(WhichDirection);
          route := MoveRoute(None);
        }
      } else {
        ModelPath(cmd);
        route := ModelRoute;
      }
    }

    /** `main_robot_loop` over a finite stream of inputs, with one
        safety-monitor cycle before each listen: wait for the wake word,
        then handle commands until an exit word or until the minute since
        the last recognised command has run out. The run stops where the
        stream does. */
    method MainLoop(inputs: seq<Input>)
      modifies this
      ensures var r := Run(env, State(Dormant, old(obstacle)), inputs, old(trace) + [Say("System Ready.")]);
              trace == r.trace && obstacle == r.state.obstacle
    {
      Speak("System Ready.");
      ghost var target := Run(env, State(Dormant, obstacle), inputs, trace);
      var k := 0;
      while k < |inputs|
        invariant 0 <= k <= |inputs|
        invariant Run(env, State(Dormant, obstacle), inputs[k..], trace) == target
        decreases |inputs| - k
      {
        var inp := inputs[k];
        StepThrough(env, State(Dormant, obstacle), inputs, k, trace);
        k := k + 1;
        SafetyMonitorStep(inp.distance);
        if inp.heard.Speech? && Contains(Lower(inp.heard.transcript), WakeWord) {
          ghost var woke := trace;
          Speak("Yes?");
          var last := inp.at;
          var clock := inp.after;
          var exit := false;
          DeadlineShift(env, last, clock, [Say("Yes?")], obstacle, inputs[k..], woke);
          while clock - last < ActiveTimeout
            invariant 0 <= k <= |inputs|
            invariant Resume(env, CheckDeadline(last, clock, []), obstacle, inputs[k..], trace) == target
            decreases |inputs| - k
          {
            if k == |inputs| {
              return;
            }
            assert trace + [] == trace;
            var exhausted;
            k, last, clock, exit, exhausted := SessionListen(inputs, k, last);
            if exhausted {
              return;
            }
            if exit {
              break;
            }
          }
          if !exit {
            assert [] + [Say("Sleeping.")] == [Say("Sleeping.")];
          }
          Speak("Sleeping.");
        } else {
          assert trace + [] == trace;
        }
      }
    }

    /** One pass of the session loop: a monitor cycle, one listen and what
        it leads to, including the listen for a missing direction. It ends
        the session on an exit word (`exit`), and reports when the stream ran
        out while a direction was awaited (`exhausted`); otherwise it gives
        the new last_interaction and the clock at the next deadline check. */
    method SessionListen(inputs: seq<Input>, k: nat, last: int) returns (next: nat, last': int, clock: int, exit: bool, exhausted: bool)
      requires k < |inputs|
      modifies this
      ensures k < next <= |inputs|
      ensures var goal := Run(env, State(Listening(last), old(obstacle)), inputs[k..], old(trace));
              && (exhausted ==> next == |inputs| && trace == goal.trace && obstacle == goal.state.obstacle)
              && (!exhausted && exit ==> Run(env, State(Dormant, obstacle), inputs[next..], trace + [Say("Sleeping.")]) == goal)
              && (!exhausted && !exit ==> Resume(env, CheckDeadline(last', clock, []), obstacle, inputs[next..], trace) == goal)
    {
      var inp := inputs[k];
      StepThrough(env, State(Listening(last), obstacle), inputs, k, trace);
      next := k + 1;
      SafetyMonitorStep(inp.distance);
      exit, exhausted := false, false;
      last', clock := last, inp.after;
      if inp.heard.Speech? {
        var cmd := Lower(inp.heard.transcript);
        ghost var listened := trace;
        var route := HandleCommand(cmd);
        last' := inp.at;
        if route == EndSession {
          ghost var effects := CommandEffects(env, obstacle, cmd, listened);
          assert listened + (effects + [Say("Sleeping.")]) == trace + [Say("Sleeping.")];
          exit := true;
        } else if route == MoveRoute(None) {
          if next == |inputs| {
            exhausted := true;
            return;
          }
          next, clock := ListenForDirection(inputs, next, last');
        } else {
          DeadlineShift(env, last', clock, CommandEffects(env, obstacle, cmd, listened), obstacle, inputs[next..], listened);
        }
      }
    }

    /** The listen that answers "Which direction?", with the monitor cycle
        before it; the clock is read at the next deadline check. */
    method ListenForDirection(inputs: seq<Input>, k: nat, last: int) returns (next: nat, clock: int)
      requires k < |inputs|
      modifies this
      ensures next == k + 1
      ensures Resume(env, CheckDeadline(last, clock, []), obstacle, inputs[next..], trace)
                == Run(env, State(AwaitingDirection(last), old(obstacle)), inputs[k..], old(trace))
    {
      var answer := inputs[k];
      StepThrough(env, State(AwaitingDirection(last), obstacle), inputs, k, trace);
      next := k + 1;
      SafetyMonitorStep(answer.distance);
      ghost var answered := trace;
      FollowUp(answer.heard);
      clock := answer.after;
      DeadlineShift(env, last, clock, FollowUpEffects(obstacle, env.hardware, answer.heard), obstacle, inputs[next..], answered);
    }

    /** The answer to "Which direction?". */
    method FollowUp(heard: Heard)
      modifies this`trace
      ensures trace == old(trace) + FollowUpEffects(obstacle, env.hardware, heard)
    {
      if !heard.Speech? {
        Speak("Timed out.");
        return;
      }
      var answer := Lower(heard.transcript);
      SpokenDirectionSpec(answer);
      if Contains(answer, "left") {
        DoMove(Left);
      } else if Contains(answer, "right") {
        DoMove(Right);
      } else if Contains(answer, "back") {
        DoMove(Back);
      } else if Contains(answer, "forward") {
        DoMove(Forward);
      } else {
        Speak("I did not hear a direction.");
      }
    }
  }

  /** The trace after frame i of a scan, in terms of the frames before it. */
  lemma NextFrame(env: Env, obstacle: bool, start: seq<Effect>, i: nat, before: seq<Effect>, described: seq<Effect>,
                  after: seq<Effect>, description: string)
    requires i < ScanFrames
    requires before == start + ScanRounds(env, obstacle, start, i)
    requires description == VisionCall(env, before + [Capture(ScanFile(i))], ScanFile(i), ScanPrompt).description
    requires described == before + [Capture(ScanFile(i))] + [VisionCall(env, before + [Capture(ScanFile(i))], ScanFile(i), ScanPrompt)]
    requires after == described + TurnAfter(env, obstacle, i)
    ensures after == start + ScanRounds(env, obstacle, start, i + 1)
    ensures Observations(ScanRounds(env, obstacle, start, i + 1))
              == Observations(ScanRounds(env, obstacle, start, i)) + [description]
  {
    var prev := ScanRounds(env, obstacle, start, i);
    var round := ScanRound(env, obstacle, start + prev, i);
    assert ScanRounds(env, obstacle, start, i + 1) == prev + round;
    ScanRoundObservation(env, obstacle, start + prev, i);
    ObservationsAppend(prev, round);
  }

  /** The trace after an explore, assembled from its parts. */
  lemma ExploreAssembled(env: Env, obstacle: bool, h: seq<Effect>, frames: seq<Effect>, after: seq<Effect>, summary: string)
    requires frames == h + [Say("Starting area scan.")] + ExploreRounds(env, obstacle, h)
    requires var before := frames + MoveEffects(obstacle, env.hardware, Right) + [Say("Analyzing data.")];
             var query := LlmCall(env, before, SummarySystem, SummaryPrompt(Observations(ExploreRounds(env, obstacle, h))));
             summary == query.reply && after == before + [query] + [Say("Report: " + summary)]
    ensures after == h + ExploreEffects(env, obstacle, h)
  {
    var rounds := ExploreRounds(env, obstacle, h);
    var turn := MoveEffects(obstacle, env.hardware, Right);
    var before := ExploreBeforeSummary(env, obstacle, h);
    var query := ExploreSummary(env, obstacle, h);
    assert before == [Say("Starting area scan.")] + rounds + turn + [Say("Analyzing data.")];
    Regroup(h, [Say("Starting area scan.")], rounds, turn, [Say("Analyzing data.")]);
    assert ExploreEffects(env, obstacle, h) == before + [query, Say("Report: " + query.reply)];
  }

  /** Where a run goes on from once a step has had its effects: the mode
      the step left and what it added to the trace. */
  ghost function Resume(env: Env, m: ModeStep, obstacle: bool, rest: seq<Input>, h: seq<Effect>): RunResult {
    Run(env, State(m.mode, obstacle), rest, h + m.effects)
  }

  /** Handling the inputs from position k on is the monitor cycle, the
      loop's handling of input k, then the rest. */
  lemma StepThrough(env: Env, s: State, inputs: seq<Input>, k: nat, h: seq<Effect>)
    requires k < |inputs|
    ensures var safety := SafetyStep(s.obstacle, env.sensor, env.hardware, inputs[k].distance);
            var stop := if safety.stopIssued then [MotorStop] else [];
            Run(env, s, inputs[k..], h)
              == Resume(env, SessionStep(env, safety.obstacle, s.mode, inputs[k], h + stop), safety.obstacle, inputs[k + 1..], h + stop)
  {
    var safety := SafetyStep(s.obstacle, env.sensor, env.hardware, inputs[k].distance);
    var stop := if safety.stopIssued then [MotorStop] else [];
    var m := SessionStep(env, safety.obstacle, s.mode, inputs[k], h + stop);
    var r := Step(env, s, inputs[k], h);
    assert Run(env, s, inputs[k..], h) == Run(env, r.state, inputs[k + 1..], h + r.effects) by {
      RunFrom(env, s, inputs, k, h);
    }
    assert r.state == State(m.mode, safety.obstacle) && r.effects == stop + m.effects by {
      StepParts(env, s, inputs[k], h);
    }
    Associate(h, stop, m.effects);
  }

  /** A step is its monitor cycle's stop, if any, then the session step. */
  lemma StepParts(env: Env, s: State, inp: Input, h: seq<Effect>)
    ensures var safety := SafetyStep(s.obstacle, env.sensor, env.hardware, inp.distance);
            var stop := if safety.stopIssued then [MotorStop] else [];
            var m := SessionStep(env, safety.obstacle, s.mode, inp, h + stop);
            Step(env, s, inp, h) == StepResult(State(m.mode, safety.obstacle), stop + m.effects)
  {
  }

  lemma Associate(h: seq<Effect>, a: seq<Effect>, b: seq<Effect>)
    ensures h + (a + b) == h + a + b
  {
  }

  /** The deadline check does not care whether effects are counted before or after it. */
  lemma DeadlineShift(env: Env, last: int, clock: int, e: seq<Effect>, obstacle: bool, rest: seq<Input>, h: seq<Effect>)
    ensures Resume(env, CheckDeadline(last, clock, e), obstacle, rest, h)
              == Resume(env, CheckDeadline(last, clock, []), obstacle, rest, h + e)
  {
    if clock - last < ActiveTimeout {
      assert h + e + [] == h + e;
    } else {
      assert [] + [Say("Sleeping.")] == [Say("Sleeping.")];
      assert h + (e + [Say("Sleeping.")]) == h + e + [Say("Sleeping.")];
    }
  }
}

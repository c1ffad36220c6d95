/** `do_see` and `do_explore`: camera captures, vision descriptions, the
    turns between the frames of a scan, and the one summary query. */
module Perception {
  import opened Text
  import opened Collaborators
  import opened Motion

  const SeeImage := "current_view.jpg"
  const SeePrompt := "Describe what is directly in front of you briefly."
  const ScanPrompt := "Describe this scene very briefly."
  const SummarySystem := "You are a robot summarizer."

  /** The number of frames in one area scan. */
  const ScanFrames: nat := 4

  /** The effects of `do_see()` made after trace h. */
  function SeeEffects(env: Env, h: seq<Effect>): seq<Effect> {
    var intro := [Say("Let me check what is in front of me."), Capture(SeeImage)];
    var v := VisionCall(env, h + intro, SeeImage, SeePrompt);
    intro + [v, Say("I see " + v.description)]
  }

  /** Looking ends in speech even when the vision request fails: the
      apology is what gets reported. */
  lemma SeeAlwaysReports(env: Env, h: seq<Effect>)
    ensures var r := SeeEffects(env, h);
            && |r| == 4 && r[1] == Capture(SeeImage) && r[2].Vision? && r[2].image == SeeImage
            && r[3] == Say("I see " + r[2].description)
            && (env.vision(h + r[..2], SeeImage, SeePrompt).VisionError? ==> r[3] == Say("I see " + SeeingApology))
            && Keep(r, Driving) == [] && Keep(r, Thinking) == []
  {
    var r := SeeEffects(env, h);
    assert r == [r[0], r[1]] + ([r[2], r[3]] + []);
    KeepPair(r[0], r[1], [r[2], r[3]] + [], Driving);
    KeepPair(r[2], r[3], [], Driving);
    KeepPair(r[0], r[1], [r[2], r[3]] + [], Thinking);
    KeepPair(r[2], r[3], [], Thinking);
  }

  /** The image file of frame i: f"scan_{i}.jpg". A frame number is a
      single digit (ScanFileIsStr). */
  function ScanFile(i: nat): string
    requires i < ScanFrames
  {
    "scan_" + [Digit(i)] + ".jpg"
  }

  lemma ScanFileIsStr(i: nat)
    requires i < ScanFrames
    ensures ScanFile(i) == "scan_" + NatToString(i) + ".jpg"
  {
  }

  /** The turn after frame i: a right turn between frames, only when
      hardware is present. */
  function TurnAfter(env: Env, obstacle: bool, i: nat): seq<Effect> {
    if i < ScanFrames - 1 && env.hardware then MoveEffects(obstacle, env.hardware, Right) else []
  }

  /** Frame i of a scan, made after trace h: capture, describe, turn. */
  function ScanRound(env: Env, obstacle: bool, h: seq<Effect>, i: nat): seq<Effect>
    requires i < ScanFrames
  {
    var file := ScanFile(i);
    [Capture(file), VisionCall(env, h + [Capture(file)], file, ScanPrompt)] + TurnAfter(env, obstacle, i)
  }

  /** The first n frames of a scan, made after trace h. */
  function ScanRounds(env: Env, obstacle: bool, h: seq<Effect>, n: nat): seq<Effect>
    requires n <= ScanFrames
    decreases n
  {
    if n == 0 then []
    else
      var prev := ScanRounds(env, obstacle, h, n - 1);
      prev + ScanRound(env, obstacle, h + prev, n - 1)
  }

  /** The prompt of the summary query over the observations, joined in order. */
  function SummaryPrompt(observations: seq<string>): string {
    "I spun around 360 degrees. Here is what I saw: " + Join(observations, " ") + ". Summarize the room in 2 sentences."
  }

  /** The four frames of `do_explore()` made after trace h. */
  function ExploreRounds(env: Env, obstacle: bool, h: seq<Effect>): seq<Effect> {
    ScanRounds(env, obstacle, h + [Say("Starting area scan.")], ScanFrames)
  }

  /** Everything `do_explore()` does before its summary query. */
  function ExploreBeforeSummary(env: Env, obstacle: bool, h: seq<Effect>): seq<Effect> {
    [Say("Starting area scan.")] + ExploreRounds(env, obstacle, h)
      + MoveEffects(obstacle, env.hardware, Right) + [Say("Analyzing data.")]
  }

  /** The summary query of `do_explore()`, over the frames' observations. */
  function ExploreSummary(env: Env, obstacle: bool, h: seq<Effect>): Effect {
    LlmCall(env, h + ExploreBeforeSummary(env, obstacle, h), SummarySystem,
            SummaryPrompt(Observations(ExploreRounds(env, obstacle, h))))
  }

  /** The effects of `do_explore()` made after trace h. */
  function ExploreEffects(env: Env, obstacle: bool, h: seq<Effect>): seq<Effect> {
    var summary := ExploreSummary(env, obstacle, h);
    ExploreBeforeSummary(env, obstacle, h) + [summary, Say("Report: " + summary.reply)]
  }

  /** An explore in its five parts: the opening announcement, the frames,
      the final turn, the closing announcement, and the summary with its report. */
  lemma ExploreParts(env: Env, obstacle: bool, h: seq<Effect>)
    ensures var summary := ExploreSummary(env, obstacle, h);
            ExploreEffects(env, obstacle, h)
              == [Say("Starting area scan.")] + ExploreRounds(env, obstacle, h) + MoveEffects(obstacle, env.hardware, Right)
                 + [Say("Analyzing data.")] + [summary, Say("Report: " + summary.reply)]
  {
  }

  /** An explore, by kind of effect: the frames' effects, the final turn's,
      the three announcements and the summary query. */
  lemma ExploreKeep(env: Env, obstacle: bool, h: seq<Effect>, k: Kind)
    ensures var summary := ExploreSummary(env, obstacle, h);
            var says := if k == Speaking then [Say("Starting area scan.")] else [];
            Keep(ExploreEffects(env, obstacle, h), k)
              == says + Keep(ExploreRounds(env, obstacle, h), k) + Keep(MoveEffects(obstacle, env.hardware, Right), k)
                 + (if k == Speaking then [Say("Analyzing data.")] else [])
                 + ((if k == Thinking then [summary] else [])
                 + (if k == Speaking then [Say("Report: " + summary.reply)] else []))
  {
    var summary := ExploreSummary(env, obstacle, h);
    ExploreParts(env, obstacle, h);
    KeepExploreShape(ExploreRounds(env, obstacle, h), MoveEffects(obstacle, env.hardware, Right),
                     summary, Say("Report: " + summary.reply), k);
  }

  /** Any trace shaped like an explore, by kind of effect. */
  lemma KeepExploreShape(rounds: seq<Effect>, turn: seq<Effect>, summary: Effect, report: Effect, k: Kind)
    requires summary.Llm? && report.Say?
    ensures Keep([Say("Starting area scan.")] + rounds + turn + [Say("Analyzing data.")] + [summary, report], k)
              == (if k == Speaking then [Say("Starting area scan.")] else []) + Keep(rounds, k) + Keep(turn, k)
                 + (if k == Speaking then [Say("Analyzing data.")] else [])
                 + ((if k == Thinking then [summary] else []) + (if k == Speaking then [report] else []))
  {
    var start := [Say("Starting area scan.")];
    var tail := [Say("Analyzing data.")];
    assert [summary, report] == [summary, report] + [];
    KeepFive(start, rounds, turn, tail, [summary, report] + [], k);
    KeepOne(start[0], k);
    KeepOne(tail[0], k);
    KeepPair(summary, report, [], k);
  }

  /** An explore, for a kind that is neither speech nor a model query: the
      frames' effects and the final turn's. */
  lemma ExploreKeepSilent(env: Env, obstacle: bool, h: seq<Effect>, k: Kind)
    requires k != Speaking && k != Thinking
    ensures Keep(ExploreEffects(env, obstacle, h), k)
              == Keep(ExploreRounds(env, obstacle, h), k) + Keep(MoveEffects(obstacle, env.hardware, Right), k)
  {
    var summary := ExploreSummary(env, obstacle, h);
    ExploreParts(env, obstacle, h);
    KeepSilentShape(ExploreRounds(env, obstacle, h), MoveEffects(obstacle, env.hardware, Right),
                    summary, Say("Report: " + summary.reply), k);
  }

  lemma KeepSilentShape(rounds: seq<Effect>, turn: seq<Effect>, summary: Effect, report: Effect, k: Kind)
    requires summary.Llm? && report.Say? && k != Speaking && k != Thinking
    ensures Keep([Say("Starting area scan.")] + rounds + turn + [Say("Analyzing data.")] + [summary, report], k)
              == Keep(rounds, k) + Keep(turn, k)
  {
    KeepExploreShape(rounds, turn, summary, report, k);
    var a, b := Keep(rounds, k), Keep(turn, k);
    assert [] + a + b + [] + ([] + []) == a + b;
  }

  /** Every capture is immediately followed by a description of that image. */
  ghost predicate CapturesDescribed(s: seq<Effect>) {
    forall j :: 0 <= j < |s| && s[j].Capture? ==>
      j + 1 < |s| && s[j + 1].Vision? && s[j + 1].image == s[j].file
  }

  lemma CapturesDescribedAppend(a: seq<Effect>, b: seq<Effect>)
    requires CapturesDescribed(a) && CapturesDescribed(b)
    ensures CapturesDescribed(a + b)
  {
    forall j | 0 <= j < |a + b| && (a + b)[j].Capture?
      ensures j + 1 < |a + b| && (a + b)[j + 1].Vision? && (a + b)[j + 1].image == (a + b)[j].file
    {
      if j < |a| {
        assert a[j].Capture?;
      } else {
        assert b[j - |a|].Capture?;
      }
    }
  }

  /** The captures of the first n frames, in frame order. */
  function Captures(n: nat): seq<Effect>
    requires n <= ScanFrames
    decreases n
  {
    if n == 0 then [] else Captures(n - 1) + [Capture(ScanFile(n - 1))]
  }

  /** n right turns, each followed by its stop. */
  function Turns(n: nat): seq<Effect>
    decreases n
  {
    if n == 0 then [] else Turns(n - 1) + [MotorRight, MotorStop]
  }

  /** n announcements of a right turn. */
  function Announcements(n: nat): seq<Effect>
    decreases n
  {
    if n == 0 then [] else Announcements(n - 1) + [Say("Moving " + DirectionName(Right))]
  }

  /** What the turn after frame i leaves of kind k: between frames, with
      hardware present, one announcement, one right turn and one stop. */
  function TurnOfKind(env: Env, i: nat, k: Kind): seq<Effect> {
    if !(i < ScanFrames - 1 && env.hardware) then []
    else if k == Driving then [MotorRight, MotorStop]
    else if k == Speaking then [Say("Moving " + DirectionName(Right))]
    else []
  }

  /** The turn after a frame, by kind. */
  lemma TurnAfterKeep(env: Env, obstacle: bool, i: nat, k: Kind)
    ensures Keep(TurnAfter(env, obstacle, i), k) == TurnOfKind(env, i, k)
  {
    if i < ScanFrames - 1 && env.hardware {
      MoveObservables(obstacle, env.hardware, Right);
    }
  }

  /** One frame, by kind: its capture, its vision call, and the turn after it. */
  lemma ScanRoundKeep(env: Env, obstacle: bool, h: seq<Effect>, i: nat, k: Kind)
    requires i < ScanFrames
    ensures var r := ScanRound(env, obstacle, h, i);
            && |r| >= 2 && r[0] == Capture(ScanFile(i)) && r[1].Vision?
            && r[1].image == ScanFile(i) && r[1].prompt == ScanPrompt
            && r[2..] == TurnAfter(env, obstacle, i)
            && Keep(r, k) == (if k == Camera then [r[0]] else []) + (if k == Seeing then [r[1]] else [])
                             + Keep(TurnAfter(env, obstacle, i), k)
  {
    var r := ScanRound(env, obstacle, h, i);
    var t := TurnAfter(env, obstacle, i);
    KeepPair(r[0], r[1], t, k);
  }

  /** A turn between frames neither captures nor describes. */
  lemma TurnAfterInert(env: Env, obstacle: bool, i: nat)
    ensures var t := TurnAfter(env, obstacle, i);
            forall j :: 0 <= j < |t| ==> !t[j].Capture? && !t[j].Vision?
  {
  }

  /** One frame makes one vision call, on its own file. */
  lemma ScanRoundSeeing(env: Env, obstacle: bool, h: seq<Effect>, i: nat)
    requires i < ScanFrames
    ensures Keep(ScanRound(env, obstacle, h, i), Seeing)
              == [VisionCall(env, h + [Capture(ScanFile(i))], ScanFile(i), ScanPrompt)]
  {
    ScanRoundKeep(env, obstacle, h, i, Seeing);
    TurnAfterKeep(env, obstacle, i, Seeing);
  }

  /** What one frame leaves of a kind other than camera and vision: the turn after it. */
  lemma ScanRoundTurnKeep(env: Env, obstacle: bool, h: seq<Effect>, i: nat, k: Kind)
    requires i < ScanFrames
    requires k != Camera && k != Seeing
    ensures Keep(ScanRound(env, obstacle, h, i), k) == TurnOfKind(env, i, k)
  {
    ScanRoundKeep(env, obstacle, h, i, k);
    TurnAfterKeep(env, obstacle, i, k);
  }

  /** One frame observes one thing: the description of its own image. */
  lemma ScanRoundObservation(env: Env, obstacle: bool, h: seq<Effect>, i: nat)
    requires i < ScanFrames
    ensures Observations(ScanRound(env, obstacle, h, i))
              == [VisionCall(env, h + [Capture(ScanFile(i))], ScanFile(i), ScanPrompt).description]
  {
    ObservationsOfVisionCalls(ScanRound(env, obstacle, h, i));
    ScanRoundSeeing(env, obstacle, h, i);
  }

  lemma ScanRoundDescribed(env: Env, obstacle: bool, h: seq<Effect>, i: nat)
    requires i < ScanFrames
    ensures CapturesDescribed(ScanRound(env, obstacle, h, i))
  {
    var r := ScanRound(env, obstacle, h, i);
    var t := TurnAfter(env, obstacle, i);
    assert r == [r[0], r[1]] + t;
    TurnAfterInert(env, obstacle, i);
    forall j | 2 <= j < |r| ensures !r[j].Capture? {
      assert r[j] == t[j - 2];
    }
  }

  /** The frames' captures come in frame order, each immediately described. */
  lemma ScanRoundsCaptures(env: Env, obstacle: bool, h: seq<Effect>, n: nat)
    requires n <= ScanFrames
    ensures var r := ScanRounds(env, obstacle, h, n);
            CapturesDescribed(r) && Keep(r, Camera) == Captures(n)
  {
    ScanRoundsDescribed(env, obstacle, h, n);
    ScanRoundsCamera(env, obstacle, h, n);
  }

  lemma {:induction false} ScanRoundsDescribed(env: Env, obstacle: bool, h: seq<Effect>, n: nat)
    requires n <= ScanFrames
    ensures CapturesDescribed(ScanRounds(env, obstacle, h, n))
    decreases n
  {
    if n > 0 {
      var prev := ScanRounds(env, obstacle, h, n - 1);
      var last := ScanRound(env, obstacle, h + prev, n - 1);
      assert ScanRounds(env, obstacle, h, n) == prev + last;
      ScanRoundsDescribed(env, obstacle, h, n - 1);
      ScanRoundDescribed(env, obstacle, h + prev, n - 1);
      CapturesDescribedAppend(prev, last);
    }
  }

  lemma {:induction false} ScanRoundsCamera(env: Env, obstacle: bool, h: seq<Effect>, n: nat)
    requires n <= ScanFrames
    ensures Keep(ScanRounds(env, obstacle, h, n), Camera) == Captures(n)
    decreases n
  {
    if n > 0 {
      var prev := ScanRounds(env, obstacle, h, n - 1);
      var last := ScanRound(env, obstacle, h + prev, n - 1);
      ScanRoundsCamera(env, obstacle, h, n - 1);
      assert Keep(ScanRounds(env, obstacle, h, n), Camera) == Keep(prev, Camera) + Keep(last, Camera) by {
        KeepAppend(prev, last, Camera);
      }
      assert Keep(last, Camera) == [Capture(ScanFile(n - 1))] by {
        ScanRoundCamera(env, obstacle, h + prev, n - 1);
      }
    }
  }

  /** One frame takes one picture, of its own file. */
  lemma ScanRoundCamera(env: Env, obstacle: bool, h: seq<Effect>, i: nat)
    requires i < ScanFrames
    ensures Keep(ScanRound(env, obstacle, h, i), Camera) == [Capture(ScanFile(i))]
  {
    ScanRoundKeep(env, obstacle, h, i, Camera);
    TurnAfterKeep(env, obstacle, i, Camera);
  }

  /** Vision call e describes frame i's file with the scan prompt. */
  ghost predicate DescribesFrame(e: Effect, i: nat)
    requires i < ScanFrames
  {
    e.Vision? && e.image == ScanFile(i) && e.prompt == ScanPrompt
  }

  lemma FramesExtend(pv: seq<Effect>, vc: Effect, n: nat)
    requires 0 < n <= ScanFrames && |pv| == n - 1 && DescribesFrame(vc, n - 1)
    requires forall i :: 0 <= i < n - 1 ==> DescribesFrame(pv[i], i)
    ensures forall i :: 0 <= i < n ==> DescribesFrame((pv + [vc])[i], i)
  {
    forall i | 0 <= i < n ensures DescribesFrame((pv + [vc])[i], i) {
      if i < n - 1 {
        assert (pv + [vc])[i] == pv[i];
      }
    }
  }

  /** The frames' vision calls describe the frames' files, in frame order,
      with the scan prompt. */
  lemma {:induction false} ScanRoundsVision(env: Env, obstacle: bool, h: seq<Effect>, n: nat)
    requires n <= ScanFrames
    ensures var v := Keep(ScanRounds(env, obstacle, h, n), Seeing);
            && |v| == n
            && forall i :: 0 <= i < n ==> DescribesFrame(v[i], i)
    decreases n
  {
    if n > 0 {
      var prev := ScanRounds(env, obstacle, h, n - 1);
      var last := ScanRound(env, obstacle, h + prev, n - 1);
      var vc := VisionCall(env, h + prev + [Capture(ScanFile(n - 1))], ScanFile(n - 1), ScanPrompt);
      var v, pv := Keep(ScanRounds(env, obstacle, h, n), Seeing), Keep(prev, Seeing);
      ScanRoundsVision(env, obstacle, h, n - 1);
      assert v == Keep(prev + last, Seeing);
      assert Keep(prev + last, Seeing) == pv + Keep(last, Seeing) by {
        KeepAppend(prev, last, Seeing);
      }
      assert Keep(last, Seeing) == [vc] by {
        ScanRoundSeeing(env, obstacle, h + prev, n - 1);
      }
      FramesExtend(pv, vc, n);
    }
  }

  /** What the turns of the first n frames leave of kind k: n turns (all
      frames turn but the last), each announced, stopped and driven only with
      hardware present. */
  function TurnsOfKind(env: Env, n: nat, k: Kind): seq<Effect> {
    var turns := if !env.hardware then 0 else if n < ScanFrames then n else ScanFrames - 1;
    if k == Driving then Turns(turns) else if k == Speaking then Announcements(turns) else []
  }

  /** Frame n - 1 adds to the turns of the frames before it what the turn after it leaves of kind k. */
  lemma TurnsOfKindStep(env: Env, n: nat, k: Kind)
    requires 0 < n <= ScanFrames
    ensures TurnsOfKind(env, n, k) == TurnsOfKind(env, n - 1, k) + TurnOfKind(env, n - 1, k)
  {
  }

  /** The frames make no model query, and turn right (announced) after
      every frame but the last, with hardware present. */
  lemma {:induction false} ScanRoundsTurns(env: Env, obstacle: bool, h: seq<Effect>, n: nat, k: Kind)
    requires n <= ScanFrames
    requires k != Camera && k != Seeing
    ensures Keep(ScanRounds(env, obstacle, h, n), k) == TurnsOfKind(env, n, k)
    decreases n
  {
    if n > 0 {
      ScanRoundsTurns(env, obstacle, h, n - 1, k);
      ScanRoundsTurnStep(env, obstacle, h, n, k);
      TurnsOfKindStep(env, n, k);
    }
  }

  /** The first n frames, by a kind other than camera and vision: the first
      n - 1 frames, then the turn after frame n - 1. */
  lemma ScanRoundsTurnStep(env: Env, obstacle: bool, h: seq<Effect>, n: nat, k: Kind)
    requires 0 < n <= ScanFrames
    requires k != Camera && k != Seeing
    ensures Keep(ScanRounds(env, obstacle, h, n), k) == Keep(ScanRounds(env, obstacle, h, n - 1), k) + TurnOfKind(env, n - 1, k)
  {
    var prev := ScanRounds(env, obstacle, h, n - 1);
    var last := ScanRound(env, obstacle, h + prev, n - 1);
    assert Keep(ScanRounds(env, obstacle, h, n), k) == Keep(prev, k) + Keep(last, k) by {
      KeepAppend(prev, last, k);
    }
    assert Keep(last, k) == TurnOfKind(env, n - 1, k) by {
      ScanRoundTurnKeep(env, obstacle, h + prev, n - 1, k);
    }
  }

  /** The names of the four scan files. */
  lemma ScanFileNames()
    ensures Captures(ScanFrames) == [Capture("scan_0.jpg"), Capture("scan_1.jpg"), Capture("scan_2.jpg"), Capture("scan_3.jpg")]
  {
    assert ScanFile(0) == "scan_0.jpg" && ScanFile(1) == "scan_1.jpg";
    assert ScanFile(2) == "scan_2.jpg" && ScanFile(3) == "scan_3.jpg";
  }

  /** In `do_explore()` every capture is immediately followed by a
      description of that image. */
  lemma ExploreDescribed(env: Env, obstacle: bool, h: seq<Effect>)
    ensures CapturesDescribed(ExploreEffects(env, obstacle, h))
  {
    var start := [Say("Starting area scan.")];
    var rounds := ExploreRounds(env, obstacle, h);
    var turn := MoveEffects(obstacle, env.hardware, Right);
    var tail := [Say("Analyzing data.")];
    var summary := ExploreSummary(env, obstacle, h);
    var fin := [summary, Say("Report: " + summary.reply)];
    assert CapturesDescribed(start + rounds) by {
      ScanRoundsCaptures(env, obstacle, h + start, ScanFrames);
      CapturesDescribedAppend(start, rounds);
    }
    assert CapturesDescribed(start + rounds + turn) by {
      CapturesDescribedAppend(start + rounds, turn);
    }
    assert CapturesDescribed(start + rounds + turn + tail) by {
      CapturesDescribedAppend(start + rounds + turn, tail);
    }
    CapturesDescribedAppend(start + rounds + turn + tail, fin);
    ExploreParts(env, obstacle, h);
  }

  /** `do_explore()` captures exactly `scan_0.jpg` .. `scan_3.jpg`, in that
      order, and describes each capture immediately after taking it. */
  lemma ExploreCaptures(env: Env, obstacle: bool, h: seq<Effect>)
    ensures var r := ExploreEffects(env, obstacle, h);
            && CapturesDescribed(r)
            && Keep(r, Camera) == [Capture("scan_0.jpg"), Capture("scan_1.jpg"), Capture("scan_2.jpg"), Capture("scan_3.jpg")]
  {
    var r := ExploreEffects(env, obstacle, h);
    var rounds := ExploreRounds(env, obstacle, h);
    ExploreDescribed(env, obstacle, h);
    assert Keep(r, Camera) == Keep(rounds, Camera) by {
      ExploreKeepSilent(env, obstacle, h, Camera);
      MoveObservables(obstacle, env.hardware, Right);
    }
    assert Keep(rounds, Camera) == Captures(ScanFrames) by {
      ScanRoundsCaptures(env, obstacle, h + [Say("Starting area scan.")], ScanFrames);
    }
    ScanFileNames();
  }

  /** Any trace shaped like an explore observes what its frames observe,
      when its final turn describes nothing. */
  lemma ObservationsExploreShape(rounds: seq<Effect>, turn: seq<Effect>, summary: Effect, report: Effect)
    requires Keep(turn, Seeing) == [] && summary.Llm? && report.Say?
    ensures Observations([Say("Starting area scan.")] + rounds + turn + [Say("Analyzing data.")] + [summary, report])
              == Observations(rounds)
  {
    var start := [Say("Starting area scan.")];
    var tail := [Say("Analyzing data.")];
    ObservationsOfVisionCalls(turn);
    assert [summary, report] == [summary] + [report];
    ObservationsAppend([summary], [report]);
    ObservationsAppend(start + rounds + turn + tail, [summary, report]);
    ObservationsAppend(start + rounds + turn, tail);
    ObservationsAppend(start + rounds, turn);
    ObservationsAppend(start, rounds);
  }

  /** The observations of `do_explore()` are the four frames' descriptions,
      in capture order: observation i describes `scan_i.jpg`. */
  lemma ExploreObservations(env: Env, obstacle: bool, h: seq<Effect>)
    ensures var r := ExploreEffects(env, obstacle, h);
            var obs := Observations(r);
            && obs == Observations(ExploreRounds(env, obstacle, h))
            && |obs| == ScanFrames && |Keep(r, Seeing)| == ScanFrames
            && forall i :: 0 <= i < ScanFrames ==>
                 Keep(r, Seeing)[i].Vision? && Keep(r, Seeing)[i].image == ScanFile(i) && Keep(r, Seeing)[i].prompt == ScanPrompt
                 && obs[i] == DescriptionOf(Keep(r, Seeing)[i])
  {
    var rounds := ExploreRounds(env, obstacle, h);
    var turn := MoveEffects(obstacle, env.hardware, Right);
    var summary := ExploreSummary(env, obstacle, h);
    var r := ExploreEffects(env, obstacle, h);
    assert Keep(r, Seeing) == Keep(rounds, Seeing) by {
      ExploreKeepSilent(env, obstacle, h, Seeing);
      MoveObservables(obstacle, env.hardware, Right);
    }
    assert Observations(r) == Observations(rounds) by {
      ExploreParts(env, obstacle, h);
      MoveObservables(obstacle, env.hardware, Right);
      ObservationsExploreShape(rounds, turn, summary, Say("Report: " + summary.reply));
    }
    ScanRoundsVision(env, obstacle, h + [Say("Starting area scan.")], ScanFrames);
    ObservationsOfVisionCalls(r);
  }

  /** `do_explore()` makes exactly one model query, the summary over its
      observations, and its last act is to speak the report. */
  lemma ExploreSummarizesOnce(env: Env, obstacle: bool, h: seq<Effect>)
    ensures var r := ExploreEffects(env, obstacle, h);
            && Keep(r, Thinking) == [ExploreSummary(env, obstacle, h)]
            && ExploreSummary(env, obstacle, h).system == SummarySystem
            && ExploreSummary(env, obstacle, h).prompt == SummaryPrompt(Observations(r))
            && r[|r| - 1] == Say("Report: " + ExploreSummary(env, obstacle, h).reply)
  {
    ScanRoundsTurns(env, obstacle, h + [Say("Starting area scan.")], ScanFrames, Thinking);
    ExploreKeep(env, obstacle, h, Thinking);
    MoveObservables(obstacle, env.hardware, Right);
    ExploreObservations(env, obstacle, h);
  }

  /** `do_explore()` with hardware turns right four times, each turn stopped;
      without hardware it drives nothing (the final move is still announced). */
  lemma ExploreTurns(env: Env, obstacle: bool, h: seq<Effect>)
    ensures var r := ExploreEffects(env, obstacle, h);
            Keep(r, Driving) == if env.hardware then Turns(4) else []
  {
    var rounds := ExploreRounds(env, obstacle, h);
    var turn := MoveEffects(obstacle, env.hardware, Right);
    assert Keep(ExploreEffects(env, obstacle, h), Driving) == Keep(rounds, Driving) + Keep(turn, Driving) by {
      ExploreKeepSilent(env, obstacle, h, Driving);
    }
    assert Keep(rounds, Driving) == TurnsOfKind(env, ScanFrames, Driving) by {
      ScanRoundsTurns(env, obstacle, h + [Say("Starting area scan.")], ScanFrames, Driving);
    }
    assert Keep(turn, Driving) == if env.hardware then [MotorRight, MotorStop] else [] by {
      MoveObservables(obstacle, env.hardware, Right);
    }
  }

  lemma {:induction false} TurnsNeverForward(n: nat)
    ensures MotorForward !in Turns(n)
  {
    if n > 0 {
      TurnsNeverForward(n - 1);
    }
  }

  /** Looking and exploring never drive forward: an explore only turns right. */
  lemma PerceptionNeverForward(env: Env, obstacle: bool, h: seq<Effect>)
    ensures MotorForward !in SeeEffects(env, h)
    ensures MotorForward !in ExploreEffects(env, obstacle, h)
  {
    SeeAlwaysReports(env, h);
    KeepMembership(SeeEffects(env, h), MotorForward);
    ExploreTurns(env, obstacle, h);
    TurnsNeverForward(4);
    KeepMembership(ExploreEffects(env, obstacle, h), MotorForward);
  }
}

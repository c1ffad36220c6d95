/** What one recognised command does once the session loop has it: the fast
    path (explore, look, move), the model path (classify-or-answer, then
    act on the reply, or answer blindly), and the follow-up that asks for a
    missing direction. */
module Commands {
  import opened Text
  import opened Collaborators
  import opened Motion
  import opened Perception
  import opened Classifier

  /** The effects of acting on the model's reply, made after trace h. */
  function ReactionEffects(env: Env, obstacle: bool, cmd: string, reaction: Reaction, h: seq<Effect>): seq<Effect> {
    match reaction
    case Reply(text) => [Say(text)]
    case MoveTo(d) => MoveEffects(obstacle, env.hardware, d)
    case MoveWhere => [Say("Move where?")]
    case ExploreNow => ExploreEffects(env, obstacle, h)
    case SeeNow => SeeEffects(env, h)
    case Ignore => []
    case Blind => BlindAnswer(env, cmd, h)
  }

  /** The fallback: ask the model the command itself and speak whatever it says. */
  function BlindAnswer(env: Env, cmd: string, h: seq<Effect>): seq<Effect> {
    var answer := LlmCall(env, h, FallbackSystem, cmd);
    [answer, Say(answer.reply)]
  }

  /** The classify-or-answer query for a command, made after trace h. */
  function ClassifierCall(env: Env, cmd: string, h: seq<Effect>): Effect {
    LlmCall(env, h, ParserSystem, ClassifyPrompt(cmd))
  }

  /** How the controller reacts to the classifier's reply text. */
  function Interpret(env: Env, reply: string): Reaction {
    React(env.decode(JsonCandidate(reply)))
  }

  /** The effects of the model path for a command, made after trace h. */
  function ModelPathEffects(env: Env, obstacle: bool, cmd: string, h: seq<Effect>): seq<Effect> {
    var query := ClassifierCall(env, cmd, h);
    [query] + ReactionEffects(env, obstacle, cmd, Interpret(env, query.reply), h + [query])
  }

  const WhichDirection := "Which direction?"

  /** The effects of a command that the session loop handles without
      listening again: everything but the request for a missing direction. */
  function CommandEffects(env: Env, obstacle: bool, cmd: string, h: seq<Effect>): seq<Effect> {
    match Route(cmd)
    case EndSession => [Say("Going to sleep.")]
    case ExploreRoute => ExploreEffects(env, obstacle, h)
    case SeeRoute => SeeEffects(env, h)
    case MoveRoute(Some(d)) => MoveEffects(obstacle, env.hardware, d)
    case MoveRoute(None) => [Say(WhichDirection)]
    case ModelRoute => ModelPathEffects(env, obstacle, cmd, h)
  }

  /** The answer to "Which direction?": a move, or an apology. It is only
      searched for a direction (an exit word here is not an exit), and it
      never asks again. */
  function FollowUpEffects(obstacle: bool, hardware: bool, heard: Heard): seq<Effect> {
    if !heard.Speech? then [Say("Timed out.")]
    else
      match SpokenDirection(Lower(heard.transcript))
      case Some(d) => MoveEffects(obstacle, hardware, d)
      case None => [Say("I did not hear a direction.")]
  }

  /** What the reaction to a reply asks of the language model: nothing,
      except the blind answer (one query on the command) and an explore
      (its one summary). */
  lemma ReactionThinking(env: Env, obstacle: bool, cmd: string, reaction: Reaction, h: seq<Effect>)
    ensures Keep(ReactionEffects(env, obstacle, cmd, reaction, h), Thinking) ==
              match reaction
              case Blind => [LlmCall(env, h, FallbackSystem, cmd)]
              case ExploreNow => [ExploreSummary(env, obstacle, h)]
              case _ => []
    ensures |Keep(ReactionEffects(env, obstacle, cmd, reaction, h), Thinking)| <= 1
  {
    var r := ReactionEffects(env, obstacle, cmd, reaction, h);
    match reaction
    case Reply(text) =>
      assert Keep(r, Thinking) == [] by {
        KeepOne(Say(text), Thinking);
      }
    case MoveTo(d) =>
      assert Keep(r, Thinking) == [] by {
        MoveObservables(obstacle, env.hardware, d);
      }
    case MoveWhere =>
      assert Keep(r, Thinking) == [] by {
        KeepOne(Say("Move where?"), Thinking);
      }
    case ExploreNow =>
      assert r == ExploreEffects(env, obstacle, h);
      assert Keep(r, Thinking) == [ExploreSummary(env, obstacle, h)] by {
        ExploreSummarizesOnce(env, obstacle, h);
      }
    case SeeNow =>
      assert r == SeeEffects(env, h);
      assert Keep(r, Thinking) == [] by {
        SeeAlwaysReports(env, h);
      }
    case Ignore =>
    case Blind =>
      var answer := LlmCall(env, h, FallbackSystem, cmd);
      assert r == [answer, Say(answer.reply)];
      assert Keep(r, Thinking) == [answer] by {
        QueryThenSpeech(answer, answer.reply);
      }
  }

  /** The classify-or-answer query is made under the parser instruction and
      quotes the command. */
  lemma ClassifierCallQuotes(env: Env, cmd: string, h: seq<Effect>)
    ensures ClassifierCall(env, cmd, h).system == ParserSystem
    ensures Contains(ClassifierCall(env, cmd, h).prompt, cmd)
  {
    ClassifyPromptQuotesCommand(cmd);
  }

  /** The model path starts with the classify-or-answer query and asks the
      model at most one more thing: the blind answer to the command or an
      explore's summary. */
  lemma ModelPathThinking(env: Env, obstacle: bool, cmd: string, h: seq<Effect>)
    ensures var r := ModelPathEffects(env, obstacle, cmd, h);
            && r[0] == ClassifierCall(env, cmd, h)
            && 1 <= |Keep(r, Thinking)| <= 2 && Keep(r, Thinking)[0] == ClassifierCall(env, cmd, h)
  {
    var query := ClassifierCall(env, cmd, h);
    var reaction := Interpret(env, query.reply);
    var rest := ReactionEffects(env, obstacle, cmd, reaction, h + [query]);
    ReactionThinking(env, obstacle, cmd, reaction, h + [query]);
    LeadingQuery(query, rest);
    assert ModelPathEffects(env, obstacle, cmd, h) == [query] + rest;
  }

  /** A query followed by effects with at most one query: one or two queries, the first one first. */
  lemma LeadingQuery(query: Effect, rest: seq<Effect>)
    requires query.Llm? && |Keep(rest, Thinking)| <= 1
    ensures 1 <= |Keep([query] + rest, Thinking)| <= 2 && Keep([query] + rest, Thinking)[0] == query
  {
    KeepCons(query, rest, Thinking);
  }

  /** A classifier reply the decoder rejects is followed by exactly one more
      query, the command itself under the fallback instruction, whose
      answer is spoken, whatever that answer is. */
  lemma UndecodableReplyAnswersBlindly(env: Env, obstacle: bool, cmd: string, h: seq<Effect>)
    requires env.decode(JsonCandidate(ClassifierCall(env, cmd, h).reply)) == None
    ensures var query := ClassifierCall(env, cmd, h);
            var answer := LlmCall(env, h + [query], FallbackSystem, cmd);
            && ModelPathEffects(env, obstacle, cmd, h) == [query, answer, Say(answer.reply)]
            && answer.system == FallbackSystem && answer.prompt == cmd
  {
    var query := ClassifierCall(env, cmd, h);
    var answer := LlmCall(env, h + [query], FallbackSystem, cmd);
    BlindReaction(env, obstacle, cmd, Interpret(env, query.reply), h + [query]);
    assert ModelPathEffects(env, obstacle, cmd, h) == [query] + [answer, Say(answer.reply)];
  }

  lemma BlindReaction(env: Env, obstacle: bool, cmd: string, reaction: Reaction, h: seq<Effect>)
    requires reaction == Blind
    ensures var answer := LlmCall(env, h, FallbackSystem, cmd);
            ReactionEffects(env, obstacle, cmd, reaction, h) == [answer, Say(answer.reply)]
  {
  }

  /** `json.loads("")` raises, so a reply with no brace at all (or with a
      closing brace only somewhere other than at its very end) is answered
      blindly. */
  lemma BracelessReplyAnswersBlindly(env: Env, obstacle: bool, cmd: string, h: seq<Effect>)
    requires env.decode("") == None
    requires var reply := ClassifierCall(env, cmd, h).reply;
             '{' !in reply && !(|reply| > 0 && reply[|reply| - 1] == '}')
    ensures Interpret(env, ClassifierCall(env, cmd, h).reply) == Blind
    ensures |Keep(ModelPathEffects(env, obstacle, cmd, h), Thinking)| == 2
  {
    ModelPathThinking(env, obstacle, cmd, h);
    var query := ClassifierCall(env, cmd, h);
    var rest := ReactionEffects(env, obstacle, cmd, Blind, h + [query]);
    KeepCons(query, rest, Thinking);
    ReactionThinking(env, obstacle, cmd, Blind, h + [query]);
  }

  /** A CHAT reply is answered in one query: its response is spoken and the
      model is not asked again. */
  lemma ChatAnswersInOneQuery(env: Env, obstacle: bool, cmd: string, h: seq<Effect>, text: string)
    requires Interpret(env, ClassifierCall(env, cmd, h).reply) == Reply(text)
    ensures ModelPathEffects(env, obstacle, cmd, h) == [ClassifierCall(env, cmd, h), Say(text)]
    ensures |Keep(ModelPathEffects(env, obstacle, cmd, h), Thinking)| == 1
  {
    var query := ClassifierCall(env, cmd, h);
    ModelPathSplit(env, obstacle, cmd, h);
    ReplyReaction(env, obstacle, cmd, Interpret(env, query.reply), h + [query], text);
    QueryThenSpeech(query, text);
    QueryBeforeSpeech(query, ReactionEffects(env, obstacle, cmd, Interpret(env, query.reply), h + [query]), text);
  }

  lemma QueryBeforeSpeech(query: Effect, rest: seq<Effect>, text: string)
    requires rest == [Say(text)]
    ensures [query] + rest == [query, Say(text)]
  {
  }

  /** The model path is the classifier query, then the reaction to its reply. */
  lemma ModelPathSplit(env: Env, obstacle: bool, cmd: string, h: seq<Effect>)
    ensures var query := ClassifierCall(env, cmd, h);
            ModelPathEffects(env, obstacle, cmd, h)
              == [query] + ReactionEffects(env, obstacle, cmd, Interpret(env, query.reply), h + [query])
  {
  }

  lemma ReplyReaction(env: Env, obstacle: bool, cmd: string, reaction: Reaction, h: seq<Effect>, text: string)
    requires reaction == Reply(text)
    ensures ReactionEffects(env, obstacle, cmd, reaction, h) == [Say(text)]
  {
  }

  lemma QueryThenSpeech(query: Effect, text: string)
    requires query.Llm?
    ensures Keep([query, Say(text)], Thinking) == [query]
  {
    KeepPair(query, Say(text), [], Thinking);
    KeepOne(query, Thinking);
    KeepOne(Say(text), Thinking);
  }

  /** The fast path never consults the classifier: a move or a look asks the
      model nothing, an explore only for its summary. */
  lemma FastPathSkipsModel(env: Env, obstacle: bool, cmd: string, h: seq<Effect>)
    requires Route(cmd) in {ExploreRoute, SeeRoute} || Route(cmd).MoveRoute?
    ensures Keep(CommandEffects(env, obstacle, cmd, h), Thinking) ==
              if Route(cmd) == ExploreRoute then [ExploreSummary(env, obstacle, h)] else []
  {
    match Route(cmd)
    case ExploreRoute => ExploreSummarizesOnce(env, obstacle, h);
    case SeeRoute => SeeAlwaysReports(env, h);
    case MoveRoute(Some(d)) => MoveObservables(obstacle, env.hardware, d);
    case MoveRoute(None) => KeepOne(Say(WhichDirection), Thinking);
  }

  /** The follow-up drives only in a direction it heard and consults
      neither the camera nor a model; a failed listen times out and a
      direction-less answer is apologised for. */
  lemma FollowUpSettles(obstacle: bool, hardware: bool, heard: Heard)
    ensures var r := FollowUpEffects(obstacle, hardware, heard);
            && Keep(r, Thinking) == [] && Keep(r, Seeing) == [] && Keep(r, Camera) == []
            && (!heard.Speech? ==> r == [Say("Timed out.")])
            && (heard.Speech? && SpokenDirection(Lower(heard.transcript)).None? ==>
                  r == [Say("I did not hear a direction.")])
            && (heard.Speech? && SpokenDirection(Lower(heard.transcript)).Some? ==>
                  r == MoveEffects(obstacle, hardware, SpokenDirection(Lower(heard.transcript)).value))
  {
    var r := FollowUpEffects(obstacle, hardware, heard);
    if !heard.Speech? {
      assert r == [Say("Timed out.")];
      KeepOne(r[0], Thinking);
      KeepOne(r[0], Seeing);
      KeepOne(r[0], Camera);
    } else {
      var found := SpokenDirection(Lower(heard.transcript));
      if found.Some? {
        assert r == MoveEffects(obstacle, hardware, found.value);
        MoveObservables(obstacle, hardware, found.value);
      } else {
        assert r == [Say("I did not hear a direction.")];
        KeepOne(r[0], Thinking);
        KeepOne(r[0], Seeing);
        KeepOne(r[0], Camera);
      }
    }
  }

  /** "bye" in answer to "Which direction?" is not an exit: it names no
      direction, so the controller says it did not hear one. */
  lemma FollowUpIgnoresExit(obstacle: bool, hardware: bool)
    ensures FollowUpEffects(obstacle, hardware, Speech("Bye")) == [Say("I did not hear a direction.")]
  {
    assert Lower("Bye") == "bye";
    MissingChar("bye", "left", 'l');
    MissingChar("bye", "right", 'r');
    MissingChar("bye", "back", 'a');
    MissingChar("bye", "forward", 'f');
    SpokenDirectionSpec("bye");
  }

  /** While the obstacle flag is set, no command drives forward: the
      interlock in the move holds on every path that reaches it. */
  lemma BlockedCommandNeverForward(env: Env, cmd: string, h: seq<Effect>)
    ensures MotorForward !in CommandEffects(env, true, cmd, h)
    ensures MotorForward !in ModelPathEffects(env, true, cmd, h)
  {
    var query := ClassifierCall(env, cmd, h);
    var rest := ReactionEffects(env, true, cmd, Interpret(env, query.reply), h + [query]);
    assert MotorForward !in ModelPathEffects(env, true, cmd, h) by {
      ModelPathSplit(env, true, cmd, h);
      ReactionNeverForward(env, cmd, Interpret(env, query.reply), h + [query]);
      ForwardFreeAfter(query, rest);
    }
    match Route(cmd)
    case EndSession =>
    case ExploreRoute =>
      assert MotorForward !in ExploreEffects(env, true, h) by {
        PerceptionNeverForward(env, true, h);
      }
    case SeeRoute =>
      assert MotorForward !in SeeEffects(env, h) by {
        PerceptionNeverForward(env, true, h);
      }
    case MoveRoute(Some(d)) =>
      assert MotorForward !in MoveEffects(true, env.hardware, d) by {
        InterlockBlocksOnlyForward(true, env.hardware, d);
      }
    case MoveRoute(None) =>
    case ModelRoute =>
  }

  lemma ForwardFreeAfter(query: Effect, rest: seq<Effect>)
    requires query.Llm? && MotorForward !in rest
    ensures MotorForward !in [query] + rest
  {
  }

  lemma ReactionNeverForward(env: Env, cmd: string, reaction: Reaction, h: seq<Effect>)
    ensures MotorForward !in ReactionEffects(env, true, cmd, reaction, h)
  {
    PerceptionNeverForward(env, true, h);
    match reaction
    case MoveTo(d) => InterlockBlocksOnlyForward(true, env.hardware, d);
    case _ =>
  }

  /** ... and neither does the answer to "Which direction?". */
  lemma BlockedFollowUpNeverForward(hardware: bool, heard: Heard)
    ensures MotorForward !in FollowUpEffects(true, hardware, heard)
  {
    if heard.Speech? && SpokenDirection(Lower(heard.transcript)).Some? {
      InterlockBlocksOnlyForward(true, hardware, SpokenDirection(Lower(heard.transcript)).value);
    }
  }
}

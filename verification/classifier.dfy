/** How the controller reads a recognised command: the keyword router that
    decides between ending the session, the fast path and the model path,
    the direction words it looks for, and the interpretation of the model's
    JSON reply on the model path. */
module Classifier {
  import opened Text
  import opened Collaborators

  /** Where a lower-cased command goes. */
  datatype Destination =
    | EndSession                        // "bye" or "sleep"
    | ExploreRoute                      // "explore" or "scan"
    | SeeRoute                          // "what do you see" or "look at this"
    | MoveRoute(direction: Option<Direction>)  // "move", "go" or "turn"
    | ModelRoute                        // anything else: ask the language model

  /** The command ends the session. */
  predicate IsExit(cmd: string) {
    Contains(cmd, "bye") || Contains(cmd, "sleep")
  }

  predicate AsksExplore(cmd: string) {
    Contains(cmd, "explore") || Contains(cmd, "scan")
  }

  predicate AsksSee(cmd: string) {
    Contains(cmd, "what do you see") || Contains(cmd, "look at this")
  }

  predicate AsksMove(cmd: string) {
    Contains(cmd, "move") || Contains(cmd, "go") || Contains(cmd, "turn")
  }

  /** Python's `word in v` for the values the controller tests: a substring
      of a string, an element of a list, a key of a dict. (On a number,
      boolean or null the test raises; `React` handles that before asking.) */
  predicate Holds(v: Json, word: string) {
    match v
    case JString(s) => Contains(s, word)
    case JArray(items) => JString(word) in items
    case JObject(fields) => word in fields
    case JScalar => false
  }

  /** The order in which a spoken command is searched for a direction. */
  const SpokenOrder: seq<Direction> := [Left, Right, Back, Forward]

  /** The order in which the model's MOVE argument is searched for a direction. */
  const ArgOrder: seq<Direction> := [Left, Right, Forward, Back]

  /** The position in `order` of the first direction whose name `v` holds,
      or -1 when it holds none of them: an `if/elif` chain over `order`. */
  function FirstMatch(order: seq<Direction>, v: Json): (r: int)
    ensures -1 <= r < |order|
    ensures r == -1 <==> forall i :: 0 <= i < |order| ==> !Holds(v, DirectionName(order[i]))
    ensures 0 <= r ==> Holds(v, DirectionName(order[r]))
    ensures 0 <= r ==> forall i :: 0 <= i < r ==> !Holds(v, DirectionName(order[i]))
    decreases |order|
  {
    if order == [] then -1
    else if Holds(v, DirectionName(order[0])) then 0
    else
      var k := FirstMatch(order[1..], v);
      if k < 0 then -1 else k + 1
  }

  /** The direction a spoken text names first, in the spoken order. */
  function SpokenDirection(text: string): Option<Direction> {
    var i := FirstMatch(SpokenOrder, JString(text));
    if i < 0 then None else Some(SpokenOrder[i])
  }

  /** The keyword router, in its order of priority. */
  function Route(cmd: string): Destination {
    if IsExit(cmd) then EndSession
    else if AsksExplore(cmd) then ExploreRoute
    else if AsksSee(cmd) then SeeRoute
    else if AsksMove(cmd) then MoveRoute(SpokenDirection(cmd))
    else ModelRoute
  }

  /** The router is a priority order: a command is routed to the first
      class whose keywords it contains, whatever later classes it also
      matches, and only a command with none of the keywords reaches the
      language model. */
  lemma RoutePriority(cmd: string)
    ensures Route(cmd) == EndSession <==> IsExit(cmd)
    ensures Route(cmd) == ExploreRoute <==> !IsExit(cmd) && AsksExplore(cmd)
    ensures Route(cmd) == SeeRoute <==> !IsExit(cmd) && !AsksExplore(cmd) && AsksSee(cmd)
    ensures Route(cmd).MoveRoute? <==> !IsExit(cmd) && !AsksExplore(cmd) && !AsksSee(cmd) && AsksMove(cmd)
    ensures Route(cmd) == ModelRoute <==> !IsExit(cmd) && !AsksExplore(cmd) && !AsksSee(cmd) && !AsksMove(cmd)
  {
  }

  /** A spoken direction is found exactly when one of the four direction
      words occurs in the text, and "left" wins over everything, "right"
      over "back" and "forward", "back" over "forward". */
  lemma SpokenDirectionSpec(text: string)
    ensures SpokenDirection(text).None? <==>
              !Contains(text, "left") && !Contains(text, "right") && !Contains(text, "back") && !Contains(text, "forward")
    ensures Contains(text, "left") ==> SpokenDirection(text) == Some(Left)
    ensures !Contains(text, "left") && Contains(text, "right") ==> SpokenDirection(text) == Some(Right)
    ensures !Contains(text, "left") && !Contains(text, "right") && Contains(text, "back") ==> SpokenDirection(text) == Some(Back)
    ensures SpokenDirection(text) == Some(Forward) <==>
              !Contains(text, "left") && !Contains(text, "right") && !Contains(text, "back") && Contains(text, "forward")
  {
    var v := JString(text);
    var i := FirstMatch(SpokenOrder, v);
    assert Holds(v, DirectionName(SpokenOrder[0])) == Contains(text, "left");
    assert Holds(v, DirectionName(SpokenOrder[1])) == Contains(text, "right");
    assert Holds(v, DirectionName(SpokenOrder[2])) == Contains(text, "back");
    assert Holds(v, DirectionName(SpokenOrder[3])) == Contains(text, "forward");
  }

  /** "goodbye" ends the session although it also contains "go": the exit
      test comes before the movement keywords. */
  lemma GoodbyeEndsSession()
    ensures Route("goodbye") == EndSession
  {
    ContainsAt("goodbye", "bye", 4);
  }

  /** "turn" contains a movement keyword and none of the keywords before it. */
  lemma TurnKeywords()
    ensures !IsExit("turn") && !AsksExplore("turn") && !AsksSee("turn") && AsksMove("turn")
  {
    ContainsAt("turn", "turn", 0);
    MissingChar("turn", "bye", 'y');
    MissingChar("turn", "sleep", 's');
    MissingChar("turn", "explore", 'x');
    MissingChar("turn", "scan", 's');
    MissingChar("turn", "what do you see", 'w');
    MissingChar("turn", "look at this", 'l');
  }

  lemma TurnNamesNoDirection()
    ensures SpokenDirection("turn") == None
  {
    MissingChar("turn", "left", 'l');
    MissingChar("turn", "right", 'i');
    MissingChar("turn", "back", 'b');
    MissingChar("turn", "forward", 'f');
    SpokenDirectionSpec("turn");
  }

  /** "turn" alone names no direction, so the controller has to ask for one. */
  lemma TurnAsksDirection()
    ensures Route("turn") == MoveRoute(None)
  {
    TurnKeywords();
    TurnNamesNoDirection();
  }

  const ParserSystem := "You are a JSON command parser."
  const FallbackSystem := "Answer briefly."

  /** n spaces: the indentation of the prompt's lines inside the source. */
  function Spaces(n: nat): (r: string)
    ensures |r| == n && forall i :: 0 <= i < n ==> r[i] == ' '
  {
    if n == 0 then "" else " " + Spaces(n - 1)
  }

  const Indent := Spaces(32)
  const ClassifyHead := "\n" + Indent + "User said: \""
  const ClassifyTail := "\"\n" + Indent + "\n"
    + Indent + "Instructions:\n"
    + Indent + "1. If this is a COMMAND to Move/Explore/See, return JSON:\n"
    + Indent + "   {\"intent\": \"MOVE\", \"arg\": \"left/right\"} OR {\"intent\": \"EXPLORE\"} OR {\"intent\": \"SEE\"}\n"
    + Indent + "\n"
    + Indent + "2. If this is a QUESTION or CHAT, answer it immediately in the JSON:\n"
    + Indent + "   {\"intent\": \"CHAT\", \"response\": \"Your short, witty answer here.\"}\n"
    + Indent + "\n"
    + Indent + "OUTPUT JSON ONLY.\n"
    + Indent

  /** The one-shot prompt that asks the model to classify or answer. */
  function ClassifyPrompt(cmd: string): string {
    ClassifyHead + cmd + ClassifyTail
  }

  /** The prompt quotes the command in full. */
  lemma ClassifyPromptQuotesCommand(cmd: string)
    ensures Contains(ClassifyPrompt(cmd), cmd)
    ensures ClassifyPrompt(cmd)[..|ClassifyHead|] == ClassifyHead
  {
    ContainsInfix(ClassifyHead, cmd, ClassifyTail);
    assert ClassifyPrompt(cmd)[..|ClassifyHead|] == ClassifyHead;
  }

  /** The text handed to the JSON decoder: `raw[raw.find('{'):raw.rfind('}') + 1]`. */
  function JsonCandidate(raw: string): (r: string)
    ensures '{' in raw && '}' in raw && Find(raw, '{') <= RFind(raw, '}') ==>
              r == raw[Find(raw, '{')..RFind(raw, '}') + 1] && r[0] == '{' && r[|r| - 1] == '}'
    ensures '{' in raw && '}' in raw && RFind(raw, '}') < Find(raw, '{') ==> r == []
    ensures '{' in raw && '}' !in raw ==> r == []
    ensures '{' !in raw ==> r == (if |raw| > 0 && raw[|raw| - 1] == '}' then "}" else [])
  {
    Slice(raw, Find(raw, '{'), RFind(raw, '}') + 1)
  }

  /** An object embedded in chatter is recovered exactly, as long as no
      opening brace occurs before it and no closing brace after it. */
  lemma JsonCandidateRecovers(before: string, obj: string, after: string)
    requires |obj| >= 2 && obj[0] == '{' && obj[|obj| - 1] == '}'
    requires '{' !in before && '}' !in after
    ensures JsonCandidate(before + obj + after) == obj
  {
    var raw := before + obj + after;
    var first, last := |before|, |before| + |obj| - 1;
    assert raw[first] == '{' && raw[last] == '}';
    forall i | 0 <= i < first ensures raw[i] != '{' {
      assert raw[i] == before[i];
    }
    forall i | last < i < |raw| ensures raw[i] != '}' {
      assert raw[i] == after[i - last - 1];
    }
    assert Find(raw, '{') == first;
    assert RFind(raw, '}') == last;
    assert raw[first..last + 1] == obj;
  }

  /** What the controller does with the model's reply once decoded. */
  datatype Reaction =
    | Reply(text: string)       // CHAT: speak the answer
    | MoveTo(direction: Direction)  // MOVE with a recognised argument
    | MoveWhere                 // MOVE without one: "Move where?"
    | ExploreNow                // EXPLORE
    | SeeNow                    // SEE
    | Ignore                    // any other intent: nothing happens
    | Blind                     // the reply could not be used: answer blindly

  const DefaultResponse := "I am not sure what you mean."

  /** The value of a field, or a default when the field is absent (`dict.get`). */
  function Field(fields: map<string, Json>, key: string, default: Json): Json {
    if key in fields then fields[key] else default
  }

  /** The reaction to a decoded reply (None when `json.loads` raised). A value
      that is not an object, an intent that is not a string, a response that
      is not a string and an argument `in` cannot search all raise, which
      sends the command to the blind answer. */
  function React(decoded: Option<Json>): Reaction {
    match decoded
    case None => Blind
    case Some(JObject(fields)) =>
      var intent := Field(fields, "intent", JString("CHAT"));
      if !intent.JString? then Blind
      else if Upper(intent.s) == "CHAT" then
        var response := Field(fields, "response", JString(DefaultResponse));
        if response.JString? then Reply(response.s) else Blind
      else if Upper(intent.s) == "MOVE" then
        var arg := Field(fields, "arg", JString(""));
        if arg.JScalar? then Blind
        else
          var i := FirstMatch(ArgOrder, arg);
          if i < 0 then MoveWhere else MoveTo(ArgOrder[i])
      else if Upper(intent.s) == "EXPLORE" then ExploreNow
      else if Upper(intent.s) == "SEE" then SeeNow
      else Ignore
    case Some(_) => Blind
  }

  /** The reaction to an object reply, by its fields: a missing intent
      means CHAT, the intent is compared case-insensitively, only a usable
      reply avoids the blind answer. */
  lemma ReactToObject(fields: map<string, Json>)
    ensures "intent" !in fields || (fields["intent"].JString? && Upper(fields["intent"].s) == "CHAT") ==>
              React(Some(JObject(fields))) ==
                if "response" !in fields then Reply(DefaultResponse)
                else if fields["response"].JString? then Reply(fields["response"].s)
                else Blind
    ensures "intent" in fields && !fields["intent"].JString? ==> React(Some(JObject(fields))) == Blind
    ensures "intent" in fields && fields["intent"].JString? && Upper(fields["intent"].s) == "EXPLORE" ==>
              React(Some(JObject(fields))) == ExploreNow
    ensures "intent" in fields && fields["intent"].JString? && Upper(fields["intent"].s) == "SEE" ==>
              React(Some(JObject(fields))) == SeeNow
    ensures React(Some(JObject(fields))) == Ignore <==>
              "intent" in fields && fields["intent"].JString?
              && Upper(fields["intent"].s) !in {"CHAT", "MOVE", "EXPLORE", "SEE"}
  {
    assert Upper("CHAT") == "CHAT";
  }

  /** Non-objects are never used: a list, a string or a number as the whole
      reply sends the command to the blind answer. */
  lemma ReactNeedsObject(v: Json)
    requires !v.JObject?
    ensures React(Some(v)) == Blind
  {
  }

  /** A MOVE reply moves in the first direction its argument names, in the
      argument order, asks "Move where?" when it names none, and falls back
      to the blind answer when the argument is a number, boolean or null. */
  lemma ReactToMove(fields: map<string, Json>)
    requires "intent" in fields && fields["intent"].JString? && Upper(fields["intent"].s) == "MOVE"
    ensures var arg := Field(fields, "arg", JString(""));
            var i := FirstMatch(ArgOrder, arg);
            React(Some(JObject(fields))) ==
              if arg.JScalar? then Blind else if i < 0 then MoveWhere else MoveTo(ArgOrder[i])
  {
    assert Upper(fields["intent"].s) != "CHAT";
  }

  lemma BackOrForwardArgument()
    ensures FirstMatch(ArgOrder, JString("back or forward")) == 2
  {
    var text := "back or forward";
    ContainsAt(text, "forward", 8);
    MissingChar(text, "left", 'l');
    MissingChar(text, "right", 'i');
    var arg := JString(text);
    assert !Holds(arg, DirectionName(ArgOrder[0])) && !Holds(arg, DirectionName(ArgOrder[1]));
    assert Holds(arg, DirectionName(ArgOrder[2]));
  }

  /** The MOVE argument is searched left, right, forward, back, unlike a
      spoken command (left, right, back, forward): an argument naming both
      "forward" and "back" goes forward. */
  lemma ArgumentPrefersForward()
    ensures React(Some(JObject(map["intent" := JString("move"), "arg" := JString("back or forward")])))
              == MoveTo(Forward)
  {
    assert Upper("move") == "MOVE";
    ReactToMove(map["intent" := JString("move"), "arg" := JString("back or forward")]);
    BackOrForwardArgument();
  }

  /** A spoken command naming both "back" and "forward" goes back. */
  lemma SpeechPrefersBack()
    ensures SpokenDirection("back or forward") == Some(Back)
  {
    var text := "back or forward";
    ContainsAt(text, "back", 0);
    MissingChar(text, "left", 'l');
    MissingChar(text, "right", 'i');
    SpokenDirectionSpec(text);
  }

  /** The MOVE reply the prompt shows moves in the direction it names. */
  lemma MoveReplyRoundTrip()
    ensures React(Some(JObject(map["intent" := JString("MOVE"), "arg" := JString("left")]))) == MoveTo(Left)
  {
    assert Upper("MOVE") == "MOVE";
    ReactToMove(map["intent" := JString("MOVE"), "arg" := JString("left")]);
    ContainsAt("left", "left", 0);
  }

  /** The CHAT reply the prompt shows is answered by speaking its response. */
  lemma ChatReplyRoundTrip(answer: string)
    ensures React(Some(JObject(map["intent" := JString("CHAT"), "response" := JString(answer)]))) == Reply(answer)
  {
    assert Upper("CHAT") == "CHAT";
  }

  /** An explicit "chat" intent, in any letter case, without a response
      speaks the default answer. */
  lemma ChatWithoutResponse()
    ensures React(Some(JObject(map["intent" := JString("chat")]))) == Reply(DefaultResponse)
  {
    ReactToObject(map["intent" := JString("chat")]);
    assert Upper("chat") == "CHAT";
  }

  /** A CHAT reply whose response is not a string cannot be spoken: the
      blind answer follows. */
  lemma ChatScalarResponse()
    ensures React(Some(JObject(map["intent" := JString("CHAT"), "response" := JScalar]))) == Blind
  {
    assert Upper("CHAT") == "CHAT";
  }

  /** A MOVE argument given as a list is searched by element. */
  lemma ListArgument()
    ensures React(Some(JObject(map["intent" := JString("MOVE"), "arg" := JArray([JString("right")])]))) == MoveTo(Right)
  {
    assert Upper("MOVE") == "MOVE";
    ReactToMove(map["intent" := JString("MOVE"), "arg" := JArray([JString("right")])]);
    var lst := JArray([JString("right")]);
    assert !Holds(lst, DirectionName(ArgOrder[0]));
    assert Holds(lst, DirectionName(ArgOrder[1]));
  }

  lemma UpNamesNoDirection()
    ensures FirstMatch(ArgOrder, JString("up")) == -1
  {
    MissingChar("up", "left", 'l');
    MissingChar("up", "right", 'r');
    MissingChar("up", "forward", 'f');
    MissingChar("up", "back", 'b');
    var up := JString("up");
    assert forall i :: 0 <= i < |ArgOrder| ==> !Holds(up, DirectionName(ArgOrder[i]));
  }

  /** A MOVE argument naming no direction asks "Move where?". */
  lemma UnknownArgument()
    ensures React(Some(JObject(map["intent" := JString("MOVE"), "arg" := JString("up")]))) == MoveWhere
  {
    assert Upper("MOVE") == "MOVE";
    ReactToMove(map["intent" := JString("MOVE"), "arg" := JString("up")]);
    UpNamesNoDirection();
  }

  /** A number as MOVE argument cannot be searched: the blind answer follows. */
  lemma ScalarArgument()
    ensures React(Some(JObject(map["intent" := JString("MOVE"), "arg" := JScalar]))) == Blind
  {
    assert Upper("MOVE") == "MOVE";
    ReactToMove(map["intent" := JString("MOVE"), "arg" := JScalar]);
  }
}

/** What the controller sees of the world: the effects it has on its
    collaborators (speech, motors, camera, vision and language models),
    recorded as a trace, and the collaborators themselves as total functions
    that already return text. */
module Collaborators {
  import opened Text

  datatype Option<T> = None | Some(value: T)

  /** The four directions `do_move` is called with. */
  datatype Direction = Left | Right | Back | Forward

  /** The word for a direction, as `do_move` receives it and as it is spoken. */
  function DirectionName(d: Direction): string {
    match d
    case Left => "left"
    case Right => "right"
    case Back => "back"
    case Forward => "forward"
  }

  /** One observable effect of the controller, in the order it happens. */
  datatype Effect =
    | Say(text: string)                                     // speak(text)
    | MotorForward | MotorBackward | MotorLeft | MotorRight  // robot_hw.forward() ...
    | MotorStop                                             // robot_hw.stop()
    | Capture(file: string)                                 // capture_image(file)
    | Vision(image: string, prompt: string, description: string)
    | Llm(system: string, prompt: string, reply: string)

  /** The kind of an effect: which collaborator it reaches. */
  datatype Kind = Speaking | Driving | Camera | Seeing | Thinking

  function KindOf(e: Effect): Kind {
    match e
    case Say(_) => Speaking
    case Capture(_) => Camera
    case Vision(_, _, _) => Seeing
    case Llm(_, _, _) => Thinking
    case _ => Driving
  }

  /** The effects of s of kind k, in their order. */
  function Keep(s: seq<Effect>, k: Kind): (r: seq<Effect>)
    ensures |r| <= |s|
    decreases |s|
  {
    if s == [] then [] else (if KindOf(s[0]) == k then [s[0]] else []) + Keep(s[1..], k)
  }

  lemma {:induction false} KeepAppend(a: seq<Effect>, b: seq<Effect>, k: Kind)
    ensures Keep(a + b, k) == Keep(a, k) + Keep(b, k)
    decreases |a|
  {
    if a == [] {
      assert a + b == b;
    } else {
      assert (a + b)[0] == a[0] && (a + b)[1..] == a[1..] + b;
      var x := if KindOf(a[0]) == k then [a[0]] else [];
      assert Keep(a + b, k) == x + Keep(a[1..] + b, k);
      KeepAppend(a[1..], b, k);
      assert x + (Keep(a[1..], k) + Keep(b, k)) == x + Keep(a[1..], k) + Keep(b, k);
    }
  }

  lemma KeepCons(e: Effect, s: seq<Effect>, k: Kind)
    ensures Keep([e] + s, k) == (if KindOf(e) == k then [e] else []) + Keep(s, k)
  {
    assert ([e] + s)[1..] == s;
  }

  lemma KeepOne(e: Effect, k: Kind)
    ensures Keep([e], k) == if KindOf(e) == k then [e] else []
  {
    assert [e][1..] == [];
  }

  lemma KeepPair(a: Effect, b: Effect, t: seq<Effect>, k: Kind)
    ensures Keep([a, b] + t, k) == Keep([a], k) + Keep([b], k) + Keep(t, k)
  {
    assert [a, b] + t == [a] + ([b] + t);
    KeepCons(a, [b] + t, k);
    KeepCons(b, t, k);
    KeepOne(a, k);
    KeepOne(b, k);
  }

  lemma KeepFive(a: seq<Effect>, b: seq<Effect>, c: seq<Effect>, d: seq<Effect>, e: seq<Effect>, k: Kind)
    ensures Keep(a + b + c + d + e, k) == Keep(a, k) + Keep(b, k) + Keep(c, k) + Keep(d, k) + Keep(e, k)
  {
    KeepAppend(a + b + c + d, e, k);
    KeepAppend(a + b + c, d, k);
    KeepAppend(a + b, c, k);
    KeepAppend(a, b, k);
  }

  /** Regrouping a trace made of five parts. */
  lemma Regroup(a: seq<Effect>, b: seq<Effect>, c: seq<Effect>, d: seq<Effect>, e: seq<Effect>)
    ensures a + b + c + d + e == a + (b + c + d + e)
  {
  }

  /** An effect occurs in a trace exactly when it occurs among the trace's
      effects of its kind. */
  lemma {:induction false} KeepMembership(s: seq<Effect>, e: Effect)
    ensures e in s <==> e in Keep(s, KindOf(e))
    decreases |s|
  {
    if s != [] {
      assert s == [s[0]] + s[1..];
      KeepCons(s[0], s[1..], KindOf(e));
      KeepMembership(s[1..], e);
    }
  }

  /** The descriptions returned by the vision calls of s, in call order. */
  function Observations(s: seq<Effect>): seq<string>
    decreases |s|
  {
    if s == [] then []
    else (if s[0].Vision? then [s[0].description] else []) + Observations(s[1..])
  }

  lemma {:induction false} ObservationsAppend(a: seq<Effect>, b: seq<Effect>)
    ensures Observations(a + b) == Observations(a) + Observations(b)
    decreases |a|
  {
    if a == [] {
      assert a + b == b;
    } else {
      assert (a + b)[0] == a[0] && (a + b)[1..] == a[1..] + b;
      ObservationsAppend(a[1..], b);
    }
  }

  /** The description an effect carries, if it is a vision call. */
  function DescriptionOf(e: Effect): string {
    if e.Vision? then e.description else ""
  }

  /** The observations are the descriptions of the vision calls, one for one. */
  lemma {:induction false} ObservationsOfVisionCalls(s: seq<Effect>)
    ensures |Observations(s)| == |Keep(s, Seeing)|
    ensures forall i :: 0 <= i < |Observations(s)| ==>
              Observations(s)[i] == DescriptionOf(Keep(s, Seeing)[i])
    decreases |s|
  {
    if s != [] {
      ObservationsOfVisionCalls(s[1..]);
      var o, v := Observations(s), Keep(s, Seeing);
      var o', v' := Observations(s[1..]), Keep(s[1..], Seeing);
      if s[0].Vision? {
        assert o == [s[0].description] + o';
        assert v == [s[0]] + v';
        forall i | 0 <= i < |o| ensures o[i] == DescriptionOf(v[i]) {
          if i > 0 {
            assert o[i] == o'[i - 1] && v[i] == v'[i - 1];
          }
        }
      } else {
        assert o == o' && v == v';
      }
    }
  }

  /** What the speech recogniser delivers for one listen: a transcript, or
      one of the failures the loops swallow (WaitTimeoutError,
      UnknownValueError, any other exception). */
  datatype Heard = Speech(transcript: string) | ListenTimeout | Unintelligible | RecognizerError

  /** What one language-model call yields before llm_query's policy applies. */
  datatype LlmOutcome = Completion(content: string) | InferenceError

  /** What one vision request yields before get_vision_description's policy applies. */
  datatype VisionOutcome = Described(content: string) | VisionError

  /** A decoded JSON value, as far as the controller can tell values apart:
      numbers, booleans and null all behave alike (they have no `.get`, no
      `.upper`, and `x in v` raises on them), so one constructor stands for them. */
  datatype Json = JString(s: string) | JArray(items: seq<Json>) | JObject(fields: map<string, Json>) | JScalar

  /** The language model: given the trace so far, a system prompt and a user
      prompt, an outcome. The trace lets replies differ from call to call. */
  type LanguageModel = (seq<Effect>, string, string) -> LlmOutcome

  /** The vision model: given the trace so far, an image path and a prompt, an outcome. */
  type VisionModel = (seq<Effect>, string, string) -> VisionOutcome

  /** `json.loads`: None when it raises. */
  type JsonDecoder = string -> Option<Json>

  /** The hardware and collaborators the controller was started with. */
  datatype Env = Env(
    hardware: bool,        // robot_hw is not None
    sensor: bool,          // sensor is not None
    llm: LanguageModel,
    vision: VisionModel,
    decode: JsonDecoder)

  const ThinkingApology := "I am having trouble thinking."
  const SeeingApology := "I cannot see right now."

  /** llm_query's policy: the completion's text, or an apology when inference fails. */
  function LlmText(o: LlmOutcome): string {
    match o
    case Completion(content) => content
    case InferenceError => ThinkingApology
  }

  /** get_vision_description's policy: the description, or an apology when the request fails. */
  function VisionText(o: VisionOutcome): string {
    match o
    case Described(content) => content
    case VisionError => SeeingApology
  }

  /** The effect of `llm_query(prompt, system)` made after trace h. */
  function LlmCall(env: Env, h: seq<Effect>, system: string, prompt: string): Effect {
    Llm(system, prompt, LlmText(env.llm(h, system, prompt)))
  }

  /** The effect of `get_vision_description(image, prompt)` made after trace h. */
  function VisionCall(env: Env, h: seq<Effect>, image: string, prompt: string): Effect {
    Vision(image, prompt, VisionText(env.vision(h, image, prompt)))
  }
}

/** `utils/prompt_gen.py`: choosing the language-model backend, checking its
    API key, and the shape of the two-part storyboard `generate` returns.

    The chat-completion call is a collaborator: given the client and the
    request it returns the reply's first choice's content or raises. A reply
    that cannot be read (no choices, no content) raises inside the same `try`,
    so it is an outcome of the call as well. The prompt texts are represented
    by what they embed, not by their wording.
 */
module PromptGen {
  import opened Results
  import opened PyText

  const GeminiSelector := "gemini-1.5-flash"
  const GptSelector := "gpt4o"
  /** The model name the OpenAI path sends, whatever the selector's case. */
  const GptModel := "gpt-4o"
  const GeminiKeyVar := "GEMINI_API_KEY"
  const OpenAiKeyVar := "OPENAI_API_KEY"
  const GeminiBaseUrl := "https://generativelanguage.googleapis.com/v1beta/openai/"
  const Temperature: real := 0.8
  const DefaultEmotion := "emotionally expressive"
  const Part1ErrorPrefix := "❌ Error generating Part 1: "
  const Part2ErrorPrefix := "❌ Error generating Part 2: "
  const UnsupportedPrefix := "❌ Unsupported model: "
  const MissingKeyError := "❌ API key must be provided or set in the .env file."

  /** The `lyric_emotions` argument: a string, or a dictionary of which only
      the `"label"` entry matters. */
  datatype LyricEmotions = Plain(text: string) | Mapping(labelEntry: Option<string>)

  datatype Backend = Gemini | OpenAI

  datatype Client = Client(backend: Backend, apiKey: string, baseUrl: Option<string>)

  /** A request's user message, by the facts it embeds: Part 1 asks for an
      8-second prompt from the lyrics and both emotions; Part 2 continues the
      text of Part 1. */
  datatype Prompt<A> =
    | Part1Prompt(lyrics: string, emotion: string, audio: A)
    | Part2Prompt(part1: string, emotion: string, audio: A, lyrics: string)

  datatype ChatRequest<A> = ChatRequest(model: string, prompt: Prompt<A>, temperature: real)

  /** What one `generate` call did: the client it set up, the requests it
      sent in order, and the list it returned. */
  datatype Storyboard<A> = Storyboard(client: Client, requests: seq<ChatRequest<A>>, parts: seq<string>)

  type Chat<!A> = (Client, ChatRequest<A>) -> Result<string>

  /** `model_name.lower()` compared with the two accepted selectors. */
  function Selected(modelName: string): (b: Option<Backend>)
    ensures b == Some(Gemini) <==> Lower(modelName) == GeminiSelector
    ensures b == Some(OpenAI) <==> Lower(modelName) == GptSelector
  {
    if Lower(modelName) == GeminiSelector then Some(Gemini)
    else if Lower(modelName) == GptSelector then Some(OpenAI)
    else None
  }

  function KeyVar(b: Backend): string {
    match b
    case Gemini => GeminiKeyVar
    case OpenAI => OpenAiKeyVar
  }

  /** `os.getenv(name)` is truthy: set and not empty. */
  predicate HasKey(env: map<string, string>, name: string) {
    name in env && env[name] != ""
  }

  /** `emotion_text`: a string is used as it is, a dictionary gives its
      `"label"` entry or the default. */
  function EmotionText(le: LyricEmotions): (t: string)
    ensures le.Plain? ==> t == le.text
    ensures le.Mapping? && le.labelEntry.Some? ==> t == le.labelEntry.value
    ensures le.Mapping? && le.labelEntry.None? ==> t == "emotionally expressive"
  {
    match le
    case Plain(text) => text
    case Mapping(entry) => match entry case Some(l) => l case None => DefaultEmotion
  }

  /** The model name both requests carry: Gemini keeps the caller's spelling,
      the OpenAI path always sends `gpt-4o`. */
  function RequestModel(b: Backend, modelName: string): string {
    match b
    case Gemini => modelName
    case OpenAI => GptModel
  }

  function MakeClient(b: Backend, key: string): Client {
    match b
    case Gemini => Client(Gemini, key, Some(GeminiBaseUrl))
    case OpenAI => Client(OpenAI, key, None)
  }

  /** The text a call contributes to the result: the stripped reply, or the
      error line for part `n`. */
  function PartText(n: nat, reply: Result<string>): string {
    match reply
    case Ok(text) => Strip(text)
    case Raised(e) => (if n == 1 then Part1ErrorPrefix else Part2ErrorPrefix) + e
  }

  /** `generate(lyric_emotions, emotion_audio_result, lyrics_text, model_name)`. */
  function Generate<A>(le: LyricEmotions, audio: A, lyrics: string, modelName: string,
                       env: map<string, string>, chat: Chat<A>): (r: Result<Storyboard<A>>)
    ensures r.Raised? <==> Selected(modelName).None? || !HasKey(env, KeyVar(Selected(modelName).value))
    ensures Selected(modelName).None? ==> r == Raised(UnsupportedPrefix + modelName)
    ensures Selected(modelName).Some? && r.Raised? ==> r.error == MissingKeyError
    ensures r.Ok? ==>
      && r.value.client.backend == Selected(modelName).value
      && r.value.client.apiKey == env[KeyVar(r.value.client.backend)]
    ensures r.Ok? ==> 1 <= |r.value.parts| <= 2 && |r.value.requests| == |r.value.parts|
    ensures r.Ok? ==> forall i :: 0 <= i < |r.value.requests| ==>
      && r.value.requests[i].model == RequestModel(r.value.client.backend, modelName)
      && r.value.requests[i].temperature == 0.8
      && r.value.parts[i] == PartText(i + 1, chat(r.value.client, r.value.requests[i]))
    ensures r.Ok? ==> r.value.requests[0].prompt == Part1Prompt(lyrics, EmotionText(le), audio)
    ensures r.Ok? ==> (|r.value.parts| == 1 <==> chat(r.value.client, r.value.requests[0]).Raised?)
    ensures r.Ok? && |r.value.parts| == 2 ==>
      r.value.requests[1].prompt == Part2Prompt(r.value.parts[0], EmotionText(le), audio, lyrics)
  {
    match Selected(modelName)
    case None => Raised(UnsupportedPrefix + modelName)
    case Some(b) =>
      if !HasKey(env, KeyVar(b)) then Raised(MissingKeyError)
      else
        var client := MakeClient(b, env[KeyVar(b)]);
        var model := RequestModel(b, modelName);
        var emotion := EmotionText(le);
        var first := ChatRequest(model, Part1Prompt(lyrics, emotion, audio), Temperature);
        match chat(client, first)
        case Raised(e) => Ok(Storyboard(client, [first], [PartText(1, Raised(e))]))
        case Ok(reply1) =>
          var part1 := Strip(reply1);
          var second := ChatRequest(model, Part2Prompt(part1, emotion, audio, lyrics), Temperature);
          Ok(Storyboard(client, [first, second], [part1, PartText(2, chat(client, second))]))
  }

  /** A selector is accepted in any mix of upper and lower case. */
  lemma SelectorIgnoresCase(a: string, b: string)
    requires |a| == |b|
    requires forall k :: 0 <= k < |a| ==> LowerChar(a[k]) == LowerChar(b[k])
    ensures Selected(a) == Selected(b)
  {
    assert Lower(a) == Lower(b);
  }

  /** When Part 1 fails, the result is the single error line and Part 2 is
      never requested. */
  lemma Part1FailureShape<A>(le: LyricEmotions, audio: A, lyrics: string, modelName: string,
                             env: map<string, string>, chat: Chat<A>)
    requires Generate(le, audio, lyrics, modelName, env, chat).Ok?
    requires var g := Generate(le, audio, lyrics, modelName, env, chat).value;
      chat(g.client, g.requests[0]).Raised?
    ensures var g := Generate(le, audio, lyrics, modelName, env, chat).value;
      && g.parts == [Part1ErrorPrefix + chat(g.client, g.requests[0]).error]
      && |g.requests| == 1
  {
  }

  /** When both calls succeed the result is the two stripped replies, and the
      second request carries the first reply's text. */
  lemma FullSuccessShape<A>(le: LyricEmotions, audio: A, lyrics: string, modelName: string,
                            env: map<string, string>, chat: Chat<A>)
    requires Generate(le, audio, lyrics, modelName, env, chat).Ok?
    requires var g := Generate(le, audio, lyrics, modelName, env, chat).value;
      forall i :: 0 <= i < |g.requests| ==> chat(g.client, g.requests[i]).Ok?
    ensures var g := Generate(le, audio, lyrics, modelName, env, chat).value;
      && |g.parts| == 2
      && g.parts == [Strip(chat(g.client, g.requests[0]).value), Strip(chat(g.client, g.requests[1]).value)]
      && g.requests[1].prompt.part1 == g.parts[0]
  {
  }
}

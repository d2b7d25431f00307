/**
 * mychatui/adapters/anyllm.py: the any-llm adapter.  `completion` picks the
 * API base from the model name and the OPENAI_API_URL environment variable,
 * calls the any-llm SDK and turns a non-None response into the
 * `{role, content}` record of the chat history, with the role always
 * "assistant".
 */
module AnyLlm {
  import opened PyValues
  import opened PyStrings
  import opened Completions
  import AiSuite

  /** The arguments `completion(model=, messages=, api_base=)` passes to the SDK. */
  datatype Request = Request(model: string, messages: seq<Value>, apiBase: Option<string>)

  /** `getChatHistory`: the tab's history is passed on unchanged. */
  function GetChatHistory(history: seq<Value>): (r: seq<Value>)
    ensures r == history
  {
    history
  }

  /** `getResponse`: the content of the first choice under the fixed role "assistant". */
  function GetResponse(choices: seq<ChatChoice>): (r: Result<Value>)
    ensures choices == [] <==> r == Err(IndexError)
    ensures r.Ok? ==> r.value.Dict? && r.value.entries.Keys == {StrKey("role"), StrKey("content")}
    ensures r.Ok? ==> r.value.entries[StrKey("role")] == Str("assistant")
    ensures r.Ok? ==> r.value.entries[StrKey("content")] == choices[0].message.content
  {
    if choices == [] then Err(IndexError)
    else Ok(RoleContent(Str("assistant"), choices[0].message.content))
  }

  /**
   * The API base `completion` passes on: the value of OPENAI_API_URL
   * (`env`, Nothing when unset) exactly when the model name contains
   * "openai", and None otherwise.
   */
  function ApiBase(model: string, env: Option<string>): (r: Option<string>)
    ensures (exists i :: OccursAt(model, "openai", i)) ==> r == env
    ensures !(exists i :: OccursAt(model, "openai", i)) ==> r == Nothing
  {
    if Contains(model, "openai") then env else Nothing
  }

  /**
   * `completion(model, messages, base_url)`: the SDK call is the parameter
   * `sdk`, which returns Nothing for a None response and the response's
   * choices otherwise.  A None response is returned as None.
   */
  function Completion(model: string, messages: seq<Value>, baseUrl: Option<string>, env: Option<string>,
                      sdk: Request -> Option<seq<ChatChoice>>): (r: Result<Value>)
    ensures sdk(Request(model, messages, ApiBase(model, env))).Nothing? ==> r == Ok(None)
    ensures sdk(Request(model, messages, ApiBase(model, env))).Some? ==>
              r == GetResponse(sdk(Request(model, messages, ApiBase(model, env))).value)
  {
    var response := sdk(Request(model, messages, ApiBase(model, env)));
    if response.Nothing? then Ok(None) else GetResponse(response.value)
  }

  /** The `base_url` argument is overwritten before use: it never changes the outcome. */
  lemma BaseUrlIgnored(model: string, messages: seq<Value>, b1: Option<string>, b2: Option<string>,
                       env: Option<string>, sdk: Request -> Option<seq<ChatChoice>>)
    ensures Completion(model, messages, b1, env, sdk) == Completion(model, messages, b2, env, sdk)
  {
  }

  /** For a model whose name does not contain "openai", the environment is never consulted. */
  lemma NonOpenAiModelIgnoresEnvironment(model: string, messages: seq<Value>, baseUrl: Option<string>,
                                         e1: Option<string>, e2: Option<string>,
                                         sdk: Request -> Option<seq<ChatChoice>>)
    requires !Contains(model, "openai")
    ensures Completion(model, messages, baseUrl, e1, sdk) == Completion(model, messages, baseUrl, e2, sdk)
  {
  }

  /**
   * A successful completion is a record whose role is "assistant" and whose
   * content is the first choice's content; it fails only on an empty
   * choice list.
   */
  lemma CompletionOutcome(model: string, messages: seq<Value>, baseUrl: Option<string>, env: Option<string>,
                          sdk: Request -> Option<seq<ChatChoice>>)
    ensures var response := sdk(Request(model, messages, ApiBase(model, env)));
            var r := Completion(model, messages, baseUrl, env, sdk);
            (r.Err? <==> response.Some? && response.value == []) &&
            (r.Ok? && r.value != None ==>
               r.value.entries[StrKey("role")] == Str("assistant") &&
               r.value.entries[StrKey("content")] == response.value[0].message.content)
  {
  }

  /**
   * The any-llm record agrees with aisuite's direct branch on the same
   * choices once the role is replaced by "assistant".
   */
  lemma AgreesWithDirectBranch(choices: seq<ChatChoice>)
    requires choices != []
    ensures var m := choices[0].message;
            GetResponse(choices)
            == AiSuite.GetResponseFromChatCompletionResponse([ChatChoice(ChatMessage(Str("assistant"), m.content))] + choices[1..])
    ensures choices[0].message.role == Str("assistant") ==>
              GetResponse(choices) == AiSuite.GetResponseFromChatCompletionResponse(choices)
  {
  }

  /** The model names the client lists: only an "openai:" model receives the configured base. */
  lemma ApiBaseExamples(url: string)
    ensures ApiBase("openai:jarvis:latest", Some(url)) == Some(url)
    ensures ApiBase("ollama:qwen2.5:latest", Some(url)) == Nothing
  {
    assert OccursAt("openai:jarvis:latest", "openai", 0);
    AbsentCharacter("ollama:qwen2.5:latest", "openai", 1);
  }
}

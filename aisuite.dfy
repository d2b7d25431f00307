/**
 * mychatui/adapters/aisuite.py: turns an aisuite completion response into
 * the `{role, content}` record of the chat history.  aisuite's own
 * ChatCompletionResponse is read by attribute access; any other response
 * (an OpenAI response object) is converted with `to_dict()` and read with
 * `getBeanValue`.
 */
module AiSuite {
  import opened PyValues
  import opened PyStrings
  import opened BeanUtils
  import opened Completions

  /** The shapes `getResponse` tells apart with `isinstance`. */
  datatype Response =
    | ChatCompletionResponse(choices: seq<ChatChoice>)
      /** Any other response object: what its `to_dict()` returns, or Nothing when it has no `to_dict`. */
    | OtherResponse(toDict: Option<map<Key, Value>>)

  /** `getChatHistory`: the tab's history is passed on unchanged. */
  function GetChatHistory(history: seq<Value>): (r: seq<Value>)
    ensures r == history
  {
    history
  }

  /** `getResponseFromChatCompletionResponse`: role and content of the first choice, verbatim. */
  function GetResponseFromChatCompletionResponse(choices: seq<ChatChoice>): (r: Result<Value>)
    ensures choices == [] <==> r == Err(IndexError)
    ensures choices != [] ==> r == Ok(RoleContent(choices[0].message.role, choices[0].message.content))
  {
    if choices == [] then Err(IndexError)
    else
      var choice := choices[0];
      Ok(RoleContent(choice.message.role, choice.message.content))
  }

  /** `response_dict.get("choices", [])` */
  function ChoicesOf(responseDict: map<Key, Value>): Value
  {
    if StrKey("choices") in responseDict then responseDict[StrKey("choices")] else List([])
  }

  /**
   * `getResponseFromOpenAiResponse`: element 0 of `to_dict()["choices"]`,
   * then `getBeanValue(choice, "message.content")` and `"message.role"`
   * with the default None.
   */
  function GetResponseFromOpenAiResponse(toDict: Option<map<Key, Value>>): (r: Result<Value>)
    ensures toDict.Nothing? ==> r == Err(AttributeError)
    ensures (toDict.Some? && (StrKey("choices") !in toDict.value || ChoicesOf(toDict.value) == List([])))
            ==> r == Err(IndexError)
  {
    if toDict.Nothing? then Err(AttributeError)
    else
      var choice :- Subscript(ChoicesOf(toDict.value), 0);
      var content :- BeanValue(choice, "message." + "content", None);
      var role :- BeanValue(choice, "message." + "role", None);
      Ok(RoleContent(role, content))
  }

  /** `getResponse`: dispatch on the response's class. */
  function GetResponse(response: Response): (r: Result<Value>)
    ensures response.ChatCompletionResponse? ==> r == GetResponseFromChatCompletionResponse(response.choices)
    ensures response.OtherResponse? ==> r == GetResponseFromOpenAiResponse(response.toDict)
    ensures r.Ok? ==> r.value.Dict? && r.value.entries.Keys == {StrKey("role"), StrKey("content")}
  {
    match response
    case ChatCompletionResponse(choices) => GetResponseFromChatCompletionResponse(choices)
    case OtherResponse(toDict) => GetResponseFromOpenAiResponse(toDict)
  }

  /** The message fields the dictionary branch reads: `choice.message.<field>`, falsy values as None. */
  function DictField(choice: Value, field: string): Value
  {
    if Truthy(choice) then TruthyOr(Lookup(Lookup(choice, "message"), field), None) else None
  }

  /**
   * The dictionary branch reads `message.content` and `message.role` of
   * the first choice; a missing or falsy field (content "" included)
   * becomes None.  It raises only what `choices[0]` raises.
   */
  lemma DictBranchReadsMessage(responseDict: map<Key, Value>)
    ensures var first := Subscript(ChoicesOf(responseDict), 0);
            GetResponseFromOpenAiResponse(Some(responseDict))
            == if first.Err? then Err(first.error)
               else Ok(RoleContent(DictField(first.value, "role"), DictField(first.value, "content")))
  {
    var first := Subscript(ChoicesOf(responseDict), 0);
    if first.Ok? {
      MessagePath(first.value, "content");
      MessagePath(first.value, "role");
    }
  }

  lemma MessagePath(choice: Value, field: string)
    requires field == "content" || field == "role"
    ensures BeanValue(choice, "message." + field, None) == Ok(DictField(choice, field))
  {
    assert "message." + field == "message" + "." + field;
    TwoKeyPath(choice, "message", field, None);
  }

  /** What `to_dict()` gives for a ChatCompletionResponse-shaped value: `{"choices": [{"message": {"role": .., "content": ..}}, ..]}`. */
  function ChoicesAsDict(choices: seq<ChatChoice>): map<Key, Value>
  {
    map[StrKey("choices") := List(seq(|choices|, i requires 0 <= i < |choices| =>
      Dict(map[StrKey("message") := RoleContent(choices[i].message.role, choices[i].message.content)])))]
  }

  /**
   * Both branches normalise the same data to the same record when role and
   * content are truthy; for a falsy content the dictionary branch gives
   * None where the direct branch keeps the value.
   */
  lemma BranchesAgree(choices: seq<ChatChoice>)
    requires choices != []
    ensures var m := choices[0].message;
            GetResponse(OtherResponse(Some(ChoicesAsDict(choices))))
            == Ok(RoleContent(TruthyOr(m.role, None), TruthyOr(m.content, None)))
    ensures var m := choices[0].message;
            Truthy(m.role) && Truthy(m.content) ==>
              GetResponse(OtherResponse(Some(ChoicesAsDict(choices)))) == GetResponse(ChatCompletionResponse(choices))
  {
    var d := ChoicesAsDict(choices);
    DictBranchReadsMessage(d);
    var m := choices[0].message;
    var first := Dict(map[StrKey("message") := RoleContent(m.role, m.content)]);
    assert Subscript(ChoicesOf(d), 0) == Ok(first);
    assert Lookup(first, "message") == RoleContent(m.role, m.content);
  }

  /** `{"choices": [{"message": {"role": "assistant", "content": "hi"}}]}` through `to_dict()` gives `{"role": "assistant", "content": "hi"}`. */
  lemma AssistantHiExample()
    ensures GetResponse(OtherResponse(Some(ChoicesAsDict([ChatChoice(ChatMessage(Str("assistant"), Str("hi")))]))))
            == Ok(RoleContent(Str("assistant"), Str("hi")))
    ensures GetResponse(ChatCompletionResponse([ChatChoice(ChatMessage(Str("assistant"), Str("hi")))]))
            == Ok(RoleContent(Str("assistant"), Str("hi")))
  {
    BranchesAgree([ChatChoice(ChatMessage(Str("assistant"), Str("hi")))]);
  }
}

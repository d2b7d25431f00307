/**
 * mychatui/app.py: the chat-tab logic of the `App` window, with the widget,
 * file and HTML layers abstracted.  A tab keeps its model name, its chat
 * history (a list of `{role, content}` records), the cursor into the user's
 * earlier inputs and the text of its entry field.  The application keeps
 * the configuration, the tab counter and the tab view's names, tabs and
 * current selection.
 */
module App {
  import opened PyValues
  import opened PyStrings
  import opened Settings

  /**
   * The literal prefixes of the user's and the AI's chat entries, as the
   * source file spells them: the UTF-8 bytes of an emoji read as
   * Windows-1252 text, followed by " You: " or " AI: ".
   */
  const UserPrefix: string := "\U{F0}\U{178}\U{A7}\U{2018} You: "
  const AiPrefix: string := "\U{F0}\U{178}\U{A4}\U{2013} AI: "

  /** `{"role": role, "content": content}` */
  function Entry(role: string, content: string): (e: Value)
    ensures e.Dict? && e.entries.Keys == {StrKey("role"), StrKey("content")}
    ensures e.entries[StrKey("role")] == Str(role) && e.entries[StrKey("content")] == Str(content)
  {
    Pair("role", Str(role), "content", Str(content))
  }

  /** The entry `send_message` appends for the text `message`. */
  function UserEntry(message: string): (e: Value)
    ensures Matches(e, "role", Str("user"))
    ensures FieldOf(e, "content") == Str("<p>" + UserPrefix + message + "</p>")
  {
    Entry("user", "<p>" + UserPrefix + message + "</p>")
  }

  /**
   * The entry `get_ai_response` appends: an error paragraph when an error
   * is passed, otherwise the AI prefix and the rendered reply, or the text
   * "Unexpected Response" when the reply is None.  `render` stands for the
   * markdown renderer.
   */
  function AiEntry(responseText: Value, error: Option<string>, render: Value -> string): (e: Value)
    ensures Matches(e, "role", Str("assistant")) && HasField(e, "content")
    ensures error.Some? ==> FieldOf(e, "content") == Str("<p>Error: " + error.value + "</p>")
    ensures error.Nothing? && responseText == None ==> FieldOf(e, "content") == Str(AiPrefix + "Unexpected Response")
    ensures error.Nothing? && responseText != None ==> FieldOf(e, "content") == Str(AiPrefix + render(responseText))
  {
    if error.Some? then Entry("assistant", "<p>Error: " + error.value + "</p>")
    else
      var html := if responseText == None then "Unexpected Response" else render(responseText);
      Entry("assistant", AiPrefix + html)
  }

  // ---------------------------------------------------------------- input history

  /**
   * The exception that reading one entry raises in the comprehension below:
   * `msg["role"]` first, then `msg["content"]` for a user entry.
   */
  function EntryError(e: Value): Option<PyError>
  {
    match GetItem(e, "role")
    case Err(k) => Some(k)
    case Ok(role) =>
      if role == Str("user") && GetItem(e, "content").Err? then Some(GetItem(e, "content").error) else Nothing
  }

  /**
   * `[msg["content"] for msg in chat_history if msg["role"] == "user"]`:
   * the contents of the user's entries in order.  The entries are read
   * front to back, so the exception raised is the one of the first entry
   * that cannot be read.
   */
  function UserMessages(history: seq<Value>): (r: Result<seq<Value>>)
    ensures r.Ok? <==> forall i :: 0 <= i < |history| ==> EntryError(history[i]).Nothing?
    ensures r.Err? ==> exists i :: 0 <= i < |history| && EntryError(history[i]) == Some(r.error) &&
                                   forall j :: 0 <= j < i ==> EntryError(history[j]).Nothing?
    ensures r.Ok? ==> |r.value| <= |history|
    ensures r.Ok? ==> (r.value == [] <==> forall i :: 0 <= i < |history| ==> !Matches(history[i], "role", Str("user")))
    ensures r.Err? ==> r.error == KeyError || r.error == TypeError
  {
    if history == [] then Ok([])
    else
      assert forall i :: 1 <= i < |history| ==> history[i] == history[1..][i - 1];
      var role :- GetItem(history[0], "role");
      if role == Str("user") then
        var content :- GetItem(history[0], "content");
        var rest :- UserMessages(history[1..]);
        Ok([content] + rest)
      else
        var rest := UserMessages(history[1..]);
        if rest.Err? then
          assert EntryError(history[0]).Nothing?;
          var i :| 0 <= i < |history[1..]| && EntryError(history[1..][i]) == Some(rest.error) &&
                   forall j :: 0 <= j < i ==> EntryError(history[1..][j]).Nothing?;
          assert EntryError(history[i + 1]) == Some(rest.error);
          rest
        else
          rest
  }

  /** A user entry without content stops the comprehension before a later entry that is not a dictionary is read. */
  lemma FirstFailingEntryDecides()
    ensures UserMessages([Dict(map[StrKey("role") := Str("user")]), Str("x")]) == Err(KeyError)
  {
    var e := Dict(map[StrKey("role") := Str("user")]);
    assert GetItem(e, "role") == Ok(Str("user")) && GetItem(e, "content") == Err(KeyError);
  }

  /** Appending a user entry adds its content as the latest user message. */
  lemma {:induction false} UserMessagesAppendUser(history: seq<Value>, message: string)
    requires UserMessages(history).Ok?
    ensures UserMessages(history + [UserEntry(message)])
            == Ok(UserMessages(history).value + [FieldOf(UserEntry(message), "content")])
  {
    var e := UserEntry(message);
    var c := FieldOf(e, "content");
    if history == [] {
      assert [e][1..] == [];
      assert GetItem(e, "role") == Ok(Str("user")) && GetItem(e, "content") == Ok(c);
      var none := UserMessages([e][1..]);
      assert none == Ok([]);
      assert [c] + none.value == [c] == [] + [c];
      assert UserMessages([e]) == Ok([c]);
      assert history + [e] == [e];
    } else {
      var h := history + [e];
      assert h[0] == history[0];
      assert h[1..] == history[1..] + [e];
      var rest := UserMessages(history[1..]);
      UserMessagesAppendUser(history[1..], message);
      assert UserMessages(h[1..]) == Ok(rest.value + [c]);
      if GetItem(history[0], "role").value == Str("user") {
        var content := GetItem(history[0], "content").value;
        assert [content] + (rest.value + [c]) == ([content] + rest.value) + [c];
      }
    }
  }

  /** Appending an AI entry leaves the user messages as they were. */
  lemma {:induction false} UserMessagesAppendAi(history: seq<Value>, responseText: Value, error: Option<string>,
                                                render: Value -> string)
    ensures UserMessages(history + [AiEntry(responseText, error, render)]) == UserMessages(history)
  {
    var e := AiEntry(responseText, error, render);
    if history == [] {
      assert [e][1..] == [];
    } else {
      assert (history + [e])[1..] == history[1..] + [e];
      UserMessagesAppendAi(history[1..], responseText, error, render);
    }
  }

  /**
   * `[msg["content"] for msg in chat_history]`, the list `update_textbox_html`
   * joins: every entry's content in order, or the exception of the first
   * entry whose content cannot be read.
   */
  function Contents(history: seq<Value>): (r: Result<seq<Value>>)
    ensures r.Ok? <==> forall i :: 0 <= i < |history| ==> GetItem(history[i], "content").Ok?
    ensures r.Ok? ==> |r.value| == |history| &&
                      forall i :: 0 <= i < |history| ==> r.value[i] == GetItem(history[i], "content").value
    ensures r.Err? ==> exists i :: 0 <= i < |history| && GetItem(history[i], "content") == Err(r.error) &&
                                   forall j :: 0 <= j < i ==> GetItem(history[j], "content").Ok?
  {
    if history == [] then Ok([])
    else
      assert forall i :: 1 <= i < |history| ==> history[i] == history[1..][i - 1];
      var content :- GetItem(history[0], "content");
      var rest := Contents(history[1..]);
      if rest.Err? then
        var i :| 0 <= i < |history[1..]| && GetItem(history[1..][i], "content") == Err(rest.error) &&
                 forall j :: 0 <= j < i ==> GetItem(history[1..][j], "content").Ok?;
        assert GetItem(history[i + 1], "content") == Err(rest.error);
        Err(rest.error)
      else
        Ok([content] + rest.value)
  }

  /** `"".join(parts)`: the strings concatenated, TypeError when a part is not a string. */
  function Join(parts: seq<Value>): (r: Result<string>)
    ensures r.Ok? <==> forall i :: 0 <= i < |parts| ==> parts[i].Str?
    ensures r.Err? ==> r.error == TypeError
  {
    if parts == [] then Ok("")
    else if !parts[0].Str? then Err(TypeError)
    else
      assert forall i :: 1 <= i < |parts| ==> parts[i] == parts[1..][i - 1];
      var rest :- Join(parts[1..]);
      Ok(parts[0].s + rest)
  }

  /** Joining one more string appends it to the joined text. */
  lemma {:induction false} JoinAppend(parts: seq<Value>, text: string)
    requires Join(parts).Ok?
    ensures Join(parts + [Str(text)]) == Ok(Join(parts).value + text)
  {
    if parts == [] {
      assert [Str(text)][1..] == [] && Join([]) == Ok("");
      assert Join([Str(text)]) == Ok(text + "");
      assert parts + [Str(text)] == [Str(text)] && Join(parts).value + text == text == text + "";
    } else {
      var p := parts + [Str(text)];
      assert p[0] == parts[0] && p[1..] == parts[1..] + [Str(text)];
      JoinAppend(parts[1..], text);
      assert parts[0].s + (Join(parts[1..]).value + text) == (parts[0].s + Join(parts[1..]).value) + text;
    }
  }

  /** Reading one more entry's content appends it to the list of contents. */
  lemma {:induction false} ContentsAppend(history: seq<Value>, e: Value)
    requires Contents(history).Ok? && GetItem(e, "content").Ok?
    ensures Contents(history + [e]) == Ok(Contents(history).value + [GetItem(e, "content").value])
  {
    if history == [] {
      var c := GetItem(e, "content").value;
      assert [e][1..] == [] && Contents([]) == Ok([]);
      assert Contents([e]) == Ok([c] + []);
      assert history + [e] == [e] && Contents(history).value + [c] == [c] == [c] + [];
    } else {
      var h := history + [e];
      assert h[0] == history[0] && h[1..] == history[1..] + [e];
      ContentsAppend(history[1..], e);
      var c := GetItem(history[0], "content").value;
      var rest := Contents(history[1..]).value;
      assert Contents(h) == Ok([c] + (rest + [GetItem(e, "content").value]));
      assert [c] + (rest + [GetItem(e, "content").value]) == ([c] + rest) + [GetItem(e, "content").value];
    }
  }

  /**
   * The first step of `update_textbox_html` (app.py:656): the history's
   * contents joined into one HTML text.  The comprehension runs to the end
   * before the join, so a missing content raises KeyError even when an
   * earlier content is not a string.
   */
  function HistoryHtml(history: seq<Value>): (r: Result<string>)
    ensures r.Ok? <==> forall i :: 0 <= i < |history| ==> GetItem(history[i], "content").Ok? &&
                                                          GetItem(history[i], "content").value.Str?
    ensures r.Err? ==> r.error == KeyError || r.error == TypeError
    ensures Contents(history).Err? ==> r == Err(Contents(history).error)
  {
    var parts :- Contents(history);
    Join(parts)
  }

  /** The exception `update_textbox_html` raises on `history`, if any. */
  function RenderFailure(history: seq<Value>): (r: Option<PyError>)
    ensures r.Nothing? <==> HistoryHtml(history).Ok?
    ensures r.Some? ==> r.value == HistoryHtml(history).error
  {
    if HistoryHtml(history).Ok? then Nothing else Some(HistoryHtml(history).error)
  }

  /** Appending an entry with string content appends that content to the rendered HTML. */
  lemma HistoryHtmlAppend(history: seq<Value>, e: Value, text: string)
    requires HistoryHtml(history).Ok?
    requires GetItem(e, "content") == Ok(Str(text))
    ensures HistoryHtml(history + [e]) == Ok(HistoryHtml(history).value + text)
  {
    ContentsAppend(history, e);
    JoinAppend(Contents(history).value, text);
  }

  /** The entries the application appends always render: appending one fails exactly where the history already fails. */
  lemma AppendedEntriesRender(history: seq<Value>, message: string, responseText: Value, error: Option<string>,
                              render: Value -> string)
    ensures HistoryHtml(history + [UserEntry(message)]).Ok? <==> HistoryHtml(history).Ok?
    ensures HistoryHtml(history + [AiEntry(responseText, error, render)]).Ok? <==> HistoryHtml(history).Ok?
  {
    var u := UserEntry(message);
    var a := AiEntry(responseText, error, render);
    assert forall i :: 0 <= i < |history| ==> (history + [u])[i] == history[i] && (history + [a])[i] == history[i];
    assert (history + [u])[|history|] == u && (history + [a])[|history|] == a;
  }

  /** The comprehension raises before the join: a missing content is a KeyError even after a content that is not a string. */
  lemma ComprehensionBeforeJoin()
    ensures HistoryHtml([Dict(map[StrKey("content") := Int(1)]), Dict(map[])]) == Err(KeyError)
    ensures HistoryHtml([Dict(map[StrKey("content") := Int(1)])]) == Err(TypeError)
  {
    var e := Dict(map[StrKey("content") := Int(1)]);
    assert GetItem(e, "content") == Ok(Int(1));
    assert GetItem(Dict(map[]), "content") == Err(KeyError);
    assert Contents([e, Dict(map[])]) == Err(KeyError);
    assert [e][1..] == [] && Contents([]) == Ok([]);
    assert Contents([e]) == Ok([Int(1)] + []);
  }

  /** A loaded entry without content makes rendering after a send raise KeyError. */
  lemma SendAfterContentlessEntryFails(message: string)
    ensures RenderFailure([Dict(map[StrKey("role") := Str("user")]), UserEntry(message)]) == Some(KeyError)
  {
    var e := Dict(map[StrKey("role") := Str("user")]);
    assert GetItem(e, "content") == Err(KeyError);
    assert Contents([e, UserEntry(message)]) == Err(KeyError);
  }

  /**
   * The cursor after one step of `navigate_history` over `count` user
   * messages (count at least 1): a None cursor starts at `count`, the step
   * is added, and the result is clamped to 0 below and to `count` above.
   */
  function NavigatedIndex(index: Option<int>, count: nat, direction: int): (r: int)
    ensures 0 <= r <= count
    ensures var moved := (if index.Nothing? then count else index.value) + direction;
            (moved < 0 ==> r == 0) && (moved >= count ==> r == count) &&
            (0 <= moved < count ==> r == moved)
  {
    var moved := (if index.Nothing? then count else index.value) + direction;
    if moved < 0 then 0 else if moved >= count then count else moved
  }

  /**
   * The text left in the entry field with the cursor at `index`: empty at
   * the end of the list, otherwise the text of that message with every
   * user prefix removed.  `getText` stands for the HTML-to-text step.
   */
  function ShownText(messages: seq<Value>, index: nat, getText: Value -> string): string
    requires index <= |messages|
  {
    if index == |messages| then "" else ReplaceAll(getText(messages[index]), UserPrefix, "")
  }

  /** The first step up from a fresh cursor selects the latest user message. */
  lemma FirstUpSelectsLatest(count: nat)
    requires count >= 1
    ensures NavigatedIndex(Nothing, count, -1) == count - 1
    ensures NavigatedIndex(Nothing, count, 1) == count
  {
  }

  /**
   * Sending a message and then stepping up from a fresh cursor puts the
   * sent text back in the entry, when the HTML-to-text step reduces the
   * stored paragraph to its text and the text does not itself hold the
   * prefix.
   */
  lemma RecallSentMessage(history: seq<Value>, message: string, getText: Value -> string)
    requires UserMessages(history).Ok?
    requires getText(Str("<p>" + UserPrefix + message + "</p>")) == UserPrefix + message
    requires !Contains(message, UserPrefix)
    ensures UserMessages(history + [UserEntry(message)]).Ok?
    ensures var messages := UserMessages(history + [UserEntry(message)]).value;
            var i := NavigatedIndex(Nothing, |messages|, -1);
            i < |messages| && ShownText(messages, i, getText) == message
  {
    UserMessagesAppendUser(history, message);
    StripPrefix(UserPrefix, message);
  }

  // ---------------------------------------------------------------- configuration

  /** The configuration written when there is no configuration file. */
  function AppDefaultConfig(): (c: Config)
    ensures c.Keys == {"api_key", "model", "font_size", "active_tabs", "user_models"}
    ensures c["font_size"] == Int(DefaultFontSize)
  {
    map["api_key" := Str(""), "model" := Str(""), "font_size" := Int(DefaultFontSize),
        "active_tabs" := StrList(["Tab 1"]), "user_models" := DefaultUserModels()]
  }

  /** `if "active_tabs" not in config: config["active_tabs"] = ["Tab 1"]` */
  function WithActiveTabs(config: Config): (r: Config)
    ensures r.Keys == config.Keys + {"active_tabs"}
    ensures "active_tabs" in config ==> r == config
    ensures "active_tabs" !in config ==> r["active_tabs"] == StrList(["Tab 1"])
    ensures forall k :: k in config ==> r[k] == config[k]
  {
    if "active_tabs" in config then config else config["active_tabs" := StrList(["Tab 1"])]
  }

  /**
   * What `load_config` leaves in `self.config`: the default configuration
   * when there is no file (`file` is Nothing), otherwise the file's object
   * with font_size, active_tabs and user_models defaulted in that order.
   */
  function LoadedConfig(file: Option<Config>): Result<Config>
  {
    if file.Nothing? then Ok(AppDefaultConfig())
    else WithUserModels(WithActiveTabs(WithFontSize(file.value)))
  }

  /** A configuration that the loader's three guards all accept. */
  predicate Settled(config: Config)
  {
    "font_size" in config && "active_tabs" in config && ModelsNeedDefault(config) == Ok(false)
  }

  /** The active_tabs and font_size defaults leave the user_models guard as it was. */
  lemma GuardSeesFileModels(file: Config)
    ensures ModelsNeedDefault(WithActiveTabs(WithFontSize(file))) == ModelsNeedDefault(file)
  {
    var c := WithActiveTabs(WithFontSize(file));
    assert ("user_models" in c) == ("user_models" in file);
    if "user_models" in file {
      assert c["user_models"] == file["user_models"];
    }
  }

  /**
   * Loading a file fills exactly the three defaulted keys, keeps every other
   * key, and fails only where the user_models guard raises.
   */
  lemma LoadedFromFile(file: Config)
    ensures var r := LoadedConfig(Some(file));
            (r.Err? <==> ModelsNeedDefault(file).Err?) &&
            (r.Ok? ==> r.value.Keys == file.Keys + {"font_size", "active_tabs", "user_models"}) &&
            (r.Ok? ==> forall k :: k in file && k != "user_models" ==> r.value[k] == file[k])
  {
    GuardSeesFileModels(file);
  }

  /**
   * The values loading a file fills in: font_size and active_tabs only when
   * absent, user_models kept when the guard accepts it and replaced by the
   * default list otherwise.
   */
  lemma LoadedDefaults(file: Config)
    ensures var r := LoadedConfig(Some(file));
            (r.Ok? && "font_size" !in file ==> r.value["font_size"] == Int(DefaultFontSize)) &&
            (r.Ok? && "active_tabs" !in file ==> r.value["active_tabs"] == StrList(["Tab 1"])) &&
            (r.Ok? && "user_models" in file && ModelsNeedDefault(file) == Ok(false) ==> r.value["user_models"] == file["user_models"]) &&
            (r.Ok? && ModelsNeedDefault(file) == Ok(true) ==> r.value["user_models"] == DefaultUserModels())
  {
    GuardSeesFileModels(file);
  }

  /** A settled configuration loads back unchanged. */
  lemma {:induction false} SettledLoadsUnchanged(config: Config)
    requires Settled(config)
    ensures LoadedConfig(Some(config)) == Ok(config)
  {
  }

  /** Every successful load yields a settled configuration, so loading is idempotent. */
  lemma LoadIsIdempotent(file: Option<Config>)
    requires LoadedConfig(file).Ok?
    ensures Settled(LoadedConfig(file).value)
    ensures LoadedConfig(Some(LoadedConfig(file).value)) == LoadedConfig(file)
  {
    var r := LoadedConfig(file).value;
    if file.Some? {
      var c := WithActiveTabs(WithFontSize(file.value));
      if ModelsNeedDefault(c).value {
        assert r["user_models"] == DefaultUserModels();
      } else {
        assert r == c;
      }
    }
    SettledLoadsUnchanged(r);
  }

  /**
   * The file branch of `load_config`, step by step on the loaded object:
   * font_size, then active_tabs, then the user_models guard, which may
   * raise and leave the first two filled in.
   */
  method FillDefaults(loaded: Config) returns (config: Config, err: Option<PyError>)
    ensures err.Nothing? <==> LoadedConfig(Some(loaded)).Ok?
    ensures err.Nothing? ==> config == LoadedConfig(Some(loaded)).value && "font_size" in config
    ensures err.Some? ==> err.value == LoadedConfig(Some(loaded)).error && config == WithActiveTabs(WithFontSize(loaded))
  {
    config := loaded;
    if "font_size" !in config {
      config := config["font_size" := Int(DefaultFontSize)];
    }
    if "active_tabs" !in config {
      config := config["active_tabs" := StrList(["Tab 1"])];
    }
    assert config == WithActiveTabs(WithFontSize(loaded));
    var need := ModelsNeedDefault(config);
    if need.Err? {
      return config, Some(need.error);
    }
    if need.value {
      config := config["user_models" := DefaultUserModels()];
    }
    return config, Nothing;
  }

  /** `save_config`: active_tabs becomes the tab view's names, in order; nothing else changes. */
  function SavedConfig(config: Config, names: seq<string>): (r: Config)
    ensures r.Keys == config.Keys + {"active_tabs"}
    ensures r["active_tabs"] == StrList(names)
    ensures forall k :: k in config && k != "active_tabs" ==> r[k] == config[k]
  {
    config["active_tabs" := StrList(names)]
  }

  /** Saving a settled configuration and loading it again restores the saved tab names. */
  lemma SaveThenLoad(config: Config, names: seq<string>)
    requires Settled(config)
    ensures LoadedConfig(Some(SavedConfig(config, names))) == Ok(SavedConfig(config, names))
  {
    var s := SavedConfig(config, names);
    assert s["user_models"] == config["user_models"];
    assert ModelsNeedDefault(s) == ModelsNeedDefault(config);
    SettledLoadsUnchanged(s);
  }

  /** The configuration of tests/test_app.py. */
  function TestConfig(): Config
  {
    map["api_key" := Str("test_key"), "model" := Str("test_model"), "font_size" := Int(14),
        "active_tabs" := StrList(["Tab 1", "Tab 2"]),
        "user_models" := List([ModelEntry("Test Model", "test_model")])]
  }

  /**
   * The tests' expectations: the default configuration loads back as itself,
   * an existing complete file loads unchanged, and saving with three tabs
   * rewrites only active_tabs.
   */
  lemma ConfigTestCases()
    ensures LoadedConfig(Some(AppDefaultConfig())) == Ok(AppDefaultConfig())
    ensures LoadedConfig(Some(TestConfig())) == Ok(TestConfig())
    ensures SavedConfig(TestConfig(), ["Tab 1", "Tab 2", "Tab 3"])
            == TestConfig()["active_tabs" := StrList(["Tab 1", "Tab 2", "Tab 3"])]
  {
    SettledLoadsUnchanged(AppDefaultConfig());
    assert TestConfig()["user_models"].items[0].Dict?;
    SettledLoadsUnchanged(TestConfig());
  }

  // ---------------------------------------------------------------- saved tabs

  /** The name `add_new_tab` gives an unnamed tab: "Tab {tab_count}". */
  function AutoTabName(count: nat): string
  {
    "Tab " + NatToString(count)
  }

  /** Distinct counter values give distinct automatic names. */
  lemma AutoTabNamesDistinct(m: nat, n: nat)
    requires m != n
    ensures AutoTabName(m) != AutoTabName(n)
  {
    NatToStringValue(m);
    NatToStringValue(n);
    assert AutoTabName(m)[4..] == NatToString(m);
    assert AutoTabName(n)[4..] == NatToString(n);
  }

  /** `{"tab_name": name, "model_name": model, "chat_history": history}` */
  function TabPayload(name: string, model: Value, history: seq<Value>): (d: Value)
    ensures d.Dict? && d.entries.Keys == {StrKey("tab_name"), StrKey("model_name"), StrKey("chat_history")}
  {
    Dict(map[StrKey("tab_name") := Str(name), StrKey("model_name") := model, StrKey("chat_history") := List(history)])
  }

  /** `d.get(key, default)` on a decoded JSON object. */
  function DictGet(d: map<Key, Value>, key: string, default: Value): Value
  {
    if StrKey(key) in d then d[StrKey(key)] else default
  }

  /** A decoded tab file whose tab name is a string and whose history is a list, where present. */
  predicate WellFormedPayload(data: Value)
    requires data.Dict?
  {
    DictGet(data.entries, "tab_name", Str("New Tab")).Str? && DictGet(data.entries, "chat_history", List([])).List?
  }

  /** `tab_data.get("tab_name", "New Tab")` */
  function OpenedName(data: Value): (r: string)
    requires data.Dict? && WellFormedPayload(data)
    ensures StrKey("tab_name") !in data.entries ==> r == "New Tab"
    ensures StrKey("tab_name") in data.entries ==> data.entries[StrKey("tab_name")] == Str(r)
  {
    DictGet(data.entries, "tab_name", Str("New Tab")).s
  }

  /** `tab_data.get("model_name")` */
  function OpenedModel(data: Value): (r: Value)
    requires data.Dict?
    ensures StrKey("model_name") !in data.entries ==> r == None
    ensures StrKey("model_name") in data.entries ==> r == data.entries[StrKey("model_name")]
  {
    DictGet(data.entries, "model_name", None)
  }

  /** `tab_data.get("chat_history", [])` */
  function OpenedHistory(data: Value): (r: seq<Value>)
    requires data.Dict? && WellFormedPayload(data)
    ensures StrKey("chat_history") !in data.entries ==> r == []
    ensures StrKey("chat_history") in data.entries ==> data.entries[StrKey("chat_history")] == List(r)
  {
    DictGet(data.entries, "chat_history", List([])).items
  }

  /** Opening what saving a tab wrote restores its name, model and history. */
  lemma PayloadRoundTrip(name: string, model: Value, history: seq<Value>)
    ensures var d := TabPayload(name, model, history);
            WellFormedPayload(d) && OpenedName(d) == name && OpenedModel(d) == model && OpenedHistory(d) == history
  {
  }

  /** An empty tab file opens a tab "New Tab" with no model and no history. */
  lemma EmptyPayloadDefaults()
    ensures WellFormedPayload(Dict(map[]))
    ensures OpenedName(Dict(map[])) == "New Tab" && OpenedModel(Dict(map[])) == None && OpenedHistory(Dict(map[])) == []
  {
  }

  /** A saved tab: the file name `"{name}.json"` in the configuration directory, and its content. */
  datatype SavedTab = SavedTab(fileName: string, data: Value)

  // ---------------------------------------------------------------- objects

  /**
   * The tab view's bookkeeping: the names are distinct, each has a tab,
   * and distinct names never share one.
   */
  ghost predicate TabBook(names: seq<string>, tabs: map<string, Tab>)
  {
    (forall i, j :: 0 <= i < |names| && 0 <= j < |names| && names[i] == names[j] ==> i == j) &&
    (forall n :: n in tabs <==> n in names) &&
    (forall m, n {:trigger tabs[m], tabs[n]} :: m in tabs && n in tabs && m != n ==> tabs[m] != tabs[n])
  }

  /** Adding a new name with a tab no other name has keeps the bookkeeping. */
  lemma TabBookAppend(names: seq<string>, tabs: map<string, Tab>, name: string, tab: Tab)
    requires TabBook(names, tabs) && name !in tabs
    requires forall n :: n in tabs ==> tabs[n] != tab
    ensures TabBook(names + [name], tabs[name := tab])
  {
  }

  /** A tab of the tab view, with the attributes the application sets on it. */
  class Tab {
    var model: Value
    var chatHistory: seq<Value>
    var historyIndex: Option<int>
    /** The text in the tab's entry field. */
    var entryText: string

    /** The tab as `add_new_tab` and `create_chat_widgets` leave it. */
    constructor (model: Value)
      ensures this.model == model && chatHistory == [] && historyIndex == Nothing && entryText == ""
    {
      this.model := model;
      chatHistory := [];
      historyIndex := Nothing;
      entryText := "";
    }
  }

  class ChatApp {
    var config: Config
    var fontSize: Value
    var tabCount: nat
    /** The tab view's names in order (`_name_list`). */
    var tabNames: seq<string>
    var tabOf: map<string, Tab>
    /** The name `tab_view.get()` returns; "" when there is no tab. */
    var currentTab: string

    /** The tab view's bookkeeping, and the selection is a tab. */
    ghost predicate Valid()
      reads this
    {
      TabBook(tabNames, tabOf) &&
      (currentTab in tabOf || (tabNames == [] && currentTab == ""))
    }

    /** The application before `load_config` and `init_ui` run. */
    constructor ()
      ensures Valid()
      ensures config == map[] && fontSize == Int(DefaultFontSize) && tabCount == 0
      ensures tabNames == [] && tabOf == map[] && currentTab == ""
    {
      config := map[];
      fontSize := Int(DefaultFontSize);
      tabCount := 0;
      tabNames := [];
      tabOf := map[];
      currentTab := "";
    }

    /**
     * `load_config`: `file` is the decoded configuration file, Nothing
     * when it does not exist.  A guard that raises leaves the partly
     * defaulted configuration in place and the font size as it was.
     */
    method LoadConfig(file: Option<Config>) returns (err: Option<PyError>)
      modifies this`config, this`fontSize
      ensures err.Nothing? <==> LoadedConfig(file).Ok?
      ensures err.Nothing? ==> config == LoadedConfig(file).value && fontSize == config["font_size"]
      ensures err.Some? ==> err.value == LoadedConfig(file).error && file.Some? &&
                            config == WithActiveTabs(WithFontSize(file.value)) && fontSize == old(fontSize)
    {
      if file.Nothing? {
        config := AppDefaultConfig();
        assert "font_size" in config;
        fontSize := Get(config, "font_size", Int(DefaultFontSize));
        return Nothing;
      }
      var e;
      config, e := FillDefaults(file.value);
      if e.Some? {
        return e;
      }
      assert config == LoadedConfig(file).value && "font_size" in config;
      fontSize := Get(config, "font_size", Int(DefaultFontSize));
      return Nothing;
    }

    /** `save_config`: the data written is the configuration with the current tab names. */
    method SaveConfig()
      modifies this
      ensures config == SavedConfig(old(config), tabNames)
      ensures fontSize == old(fontSize) && tabCount == old(tabCount) && tabNames == old(tabNames)
      ensures tabOf == old(tabOf) && currentTab == old(currentTab)
    {
      config := config["active_tabs" := StrList(tabNames)];
    }

    /**
     * `add_new_tab(tab_name)`: the counter goes up first; an unnamed tab is
     * called "Tab {tab_count}".  The tab view refuses a name it already has
     * (ValueError); otherwise the new tab, with the configured model, is
     * appended and selected.
     */
    method AddNewTab(tabName: Option<string>) returns (err: Option<PyError>)
      requires Valid()
      modifies this
      ensures Valid()
      ensures tabCount == old(tabCount) + 1
      ensures config == old(config) && fontSize == old(fontSize)
      ensures var name := if tabName.Some? then tabName.value else AutoTabName(tabCount);
              (err.Some? <==> name in old(tabOf)) &&
              (err.Some? ==> err.value == ValueError && tabNames == old(tabNames) && tabOf == old(tabOf) &&
                             currentTab == old(currentTab)) &&
              (err.Nothing? ==> tabNames == old(tabNames) + [name] && currentTab == name &&
                                name in tabOf && fresh(tabOf[name]) && tabOf == old(tabOf)[name := tabOf[name]] &&
                                tabOf[name].model == Get(config, "model", None) &&
                                tabOf[name].chatHistory == [] && tabOf[name].historyIndex == Nothing &&
                                tabOf[name].entryText == "")
    {
      tabCount := tabCount + 1;
      var name := if tabName.Some? then tabName.value else AutoTabName(tabCount);
      if name in tabOf {
        return Some(ValueError);
      }
      var tab := new Tab(Get(config, "model", None));
      TabBookAppend(tabNames, tabOf, name, tab);
      tabNames, tabOf, currentTab := tabNames + [name], tabOf[name := tab], name;
      return Nothing;
    }

    /**
     * `save_current_tab`: the file name and content written for the
     * selected tab.  With no tab selected the tab view raises ValueError,
     * which the method reports instead of raising.
     */
    method SaveCurrentTab() returns (r: Result<SavedTab>)
      requires Valid()
      ensures r.Ok? <==> currentTab in tabOf
      ensures r.Err? ==> r.error == ValueError
      ensures r.Ok? ==> r.value.fileName == currentTab + ".json" &&
                        r.value.data == TabPayload(currentTab, tabOf[currentTab].model, tabOf[currentTab].chatHistory)
    {
      if currentTab !in tabOf {
        return Err(ValueError);
      }
      var tab := tabOf[currentTab];
      return Ok(SavedTab(currentTab + ".json", TabPayload(currentTab, tab.model, tab.chatHistory)));
    }

    /**
     * `open_tab` on the decoded file `data`: the named tab is reused when the
     * tab view has it, otherwise added through `add_new_tab`; its model and
     * history are then replaced by the file's.  Anything but a JSON object
     * has no `get` (AttributeError).
     */
    method OpenTab(data: Value) returns (err: Option<PyError>)
      requires Valid()
      requires data.Dict? ==> WellFormedPayload(data)
      modifies this, if data.Dict? && OpenedName(data) in tabOf then {tabOf[OpenedName(data)]} else {}
      ensures Valid()
      ensures !data.Dict? ==> err == Some(AttributeError) && unchanged(this)
      ensures data.Dict? ==> err == RenderFailure(OpenedHistory(data))
      ensures config == old(config) && fontSize == old(fontSize)
      ensures data.Dict? ==>
                var name := OpenedName(data);
                name in tabOf && tabOf[name].model == OpenedModel(data) && tabOf[name].chatHistory == OpenedHistory(data) &&
                (name in old(tabOf) ==> tabOf == old(tabOf) && tabNames == old(tabNames) && currentTab == old(currentTab) &&
                                        tabCount == old(tabCount) &&
                                        tabOf[name].historyIndex == old(tabOf[name].historyIndex) &&
                                        tabOf[name].entryText == old(tabOf[name].entryText)) &&
                (name !in old(tabOf) ==> tabNames == old(tabNames) + [name] && currentTab == name &&
                                         tabCount == old(tabCount) + 1 && fresh(tabOf[name]) &&
                                         tabOf == old(tabOf)[name := tabOf[name]] &&
                                         tabOf[name].historyIndex == Nothing && tabOf[name].entryText == "")
      ensures forall n :: n in old(tabOf) && (data.Dict? ==> n != OpenedName(data)) ==>
                n in tabOf && tabOf[n] == old(tabOf[n]) && unchanged(tabOf[n])
    {
      if !data.Dict? {
        return Some(AttributeError);
      }
      var name := OpenedName(data);
      if name !in tabOf {
        var e := AddNewTab(Some(name));
      }
      var tab := tabOf[name];
      tab.model := OpenedModel(data);
      tab.chatHistory := OpenedHistory(data);
      return RenderFailure(tab.chatHistory);
    }

    /**
     * `navigate_history(tab, entry, direction)`.  The user messages are
     * collected first (which can raise); with none there is nothing to move.
     * Otherwise the cursor moves by `direction` with clamping, and the entry
     * shows the selected message or is cleared at the end of the list.
     */
    method NavigateHistory(tab: Tab, direction: int, getText: Value -> string) returns (err: Option<PyError>)
      modifies tab
      ensures tab.model == old(tab.model) && tab.chatHistory == old(tab.chatHistory)
      ensures var messages := UserMessages(old(tab.chatHistory));
              (err.Some? <==> messages.Err?) &&
              (err.Some? ==> err.value == messages.error) &&
              (messages.Err? || messages.value == [] ==>
                 tab.historyIndex == old(tab.historyIndex) && tab.entryText == old(tab.entryText)) &&
              (messages.Ok? && messages.value != [] ==>
                 var i := NavigatedIndex(old(tab.historyIndex), |messages.value|, direction);
                 tab.historyIndex == Some(i) && tab.entryText == ShownText(messages.value, i, getText))
    {
      var messages := UserMessages(tab.chatHistory);
      if messages.Err? {
        return Some(messages.error);
      }
      var userMessages := messages.value;
      if userMessages == [] {
        return Nothing;
      }
      var index := if tab.historyIndex.Nothing? then |userMessages| else tab.historyIndex.value;
      index := index + direction;
      if index < 0 {
        index := 0;
      } else if index >= |userMessages| {
        tab.historyIndex := Some(|userMessages|);
        tab.entryText := "";
        return Nothing;
      }
      tab.historyIndex := Some(index);
      tab.entryText := ReplaceAll(getText(userMessages[index]), UserPrefix, "");
      return Nothing;
    }

    /**
     * `send_message`: a non-empty entry becomes one user entry, the history
     * is rendered, and only then is the field cleared.  A rendering failure
     * (a loaded entry without string content) escapes with the entry
     * appended and the text still in the field.
     */
    method SendMessage(tab: Tab) returns (err: Option<PyError>)
      modifies tab
      ensures old(tab.entryText) == "" ==> tab.chatHistory == old(tab.chatHistory) && tab.entryText == "" && err.Nothing?
      ensures old(tab.entryText) != "" ==>
                tab.chatHistory == old(tab.chatHistory) + [UserEntry(old(tab.entryText))] &&
                err == RenderFailure(tab.chatHistory) &&
                (err.Nothing? ==> tab.entryText == "") &&
                (err.Some? ==> tab.entryText == old(tab.entryText))
      ensures tab.model == old(tab.model) && tab.historyIndex == old(tab.historyIndex)
    {
      var message := tab.entryText;
      if message != "" {
        tab.chatHistory := tab.chatHistory + [UserEntry(message)];
        err := RenderFailure(tab.chatHistory);
        if err.Some? {
          return;
        }
        tab.entryText := "";
      }
      return Nothing;
    }

    /**
     * `get_ai_response`: exactly one assistant entry is appended, then the
     * history is rendered, which raises on an entry without string content.
     */
    method GetAiResponse(tab: Tab, responseText: Value, error: Option<string>, render: Value -> string)
      returns (err: Option<PyError>)
      modifies tab
      ensures tab.chatHistory == old(tab.chatHistory) + [AiEntry(responseText, error, render)]
      ensures err == RenderFailure(tab.chatHistory)
      ensures tab.model == old(tab.model) && tab.historyIndex == old(tab.historyIndex) && tab.entryText == old(tab.entryText)
    {
      var html := "Unexpected Response";
      if error.Some? {
        tab.chatHistory := tab.chatHistory + [Entry("assistant", "<p>Error: " + error.value + "</p>")];
      } else {
        if responseText != None {
          html := render(responseText);
        }
        tab.chatHistory := tab.chatHistory + [Entry("assistant", AiPrefix + html)];
      }
      err := RenderFailure(tab.chatHistory);
    }
  }
}

/**
 * mychatui/preferences.py: the preferences dialog.  It loads its own copy of
 * the configuration (defaulting font_size and user_models, but not
 * active_tabs), shows the API key, the configured model by its display
 * name and the font size, and `apply` writes the edited values back.
 */
module Preferences {
  import opened PyValues
  import opened PyStrings
  import opened Settings
  import App

  /** The configuration the dialog uses when there is no configuration file. */
  function PreferencesDefaultConfig(): (c: Config)
    ensures c.Keys == {"api_key", "model", "font_size", "user_models"}
    ensures c["api_key"] == Str("") && c["model"] == Str("") && c["font_size"] == Int(DefaultFontSize)
    ensures c["user_models"] == DefaultUserModels()
  {
    map["api_key" := Str(""), "model" := Str(""), "font_size" := Int(DefaultFontSize),
        "user_models" := DefaultUserModels()]
  }

  /** What `load_config` returns: `file` is the decoded file, Nothing when there is none. */
  function PreferencesConfig(file: Option<Config>): Result<Config>
  {
    if file.Nothing? then Ok(PreferencesDefaultConfig())
    else WithUserModels(WithFontSize(file.value))
  }

  /**
   * With no file the dialog's configuration has no active_tabs key; with a
   * file, font_size is filled only when absent, user_models is replaced
   * only where the guard asks for it, and every other key is kept.
   */
  lemma PreferencesConfigFacts(file: Option<Config>)
    ensures file.Nothing? ==> PreferencesConfig(file).Ok? && "active_tabs" !in PreferencesConfig(file).value
    ensures file.Some? && PreferencesConfig(file).Ok? ==>
              var r := PreferencesConfig(file).value;
              r.Keys == file.value.Keys + {"font_size", "user_models"} &&
              ("font_size" in file.value ==> r["font_size"] == file.value["font_size"]) &&
              ("font_size" !in file.value ==> r["font_size"] == Int(DefaultFontSize)) &&
              (ModelsNeedDefault(file.value) == Ok(true) ==> r["user_models"] == DefaultUserModels()) &&
              (ModelsNeedDefault(file.value) == Ok(false) ==> r["user_models"] == file.value["user_models"]) &&
              (forall k :: k in file.value && k != "font_size" && k != "user_models" ==> r[k] == file.value[k])
  {
    if file.Some? {
      var c := WithFontSize(file.value);
      assert ModelsNeedDefault(c) == ModelsNeedDefault(file.value) by {
        if "user_models" in file.value {
          assert c["user_models"] == file.value["user_models"];
        }
      }
    }
  }

  /** Filling active_tabs before or after the user_models guard gives the same configuration. */
  lemma ActiveTabsCommutes(c: Config)
    ensures WithUserModels(App.WithActiveTabs(c)).Ok? <==> WithUserModels(c).Ok?
    ensures WithUserModels(c).Ok? ==> WithUserModels(App.WithActiveTabs(c)).value == App.WithActiveTabs(WithUserModels(c).value)
  {
    if "active_tabs" !in c {
      var a := c["active_tabs" := StrList(["Tab 1"])];
      assert ModelsNeedDefault(a) == ModelsNeedDefault(c) by {
        if "user_models" in c {
          assert a["user_models"] == c["user_models"];
        }
      }
      var need := ModelsNeedDefault(c);
      if need.Ok? && need.value {
        assert c["user_models" := DefaultUserModels()]["active_tabs" := StrList(["Tab 1"])]
            == a["user_models" := DefaultUserModels()];
      }
    }
  }

  /**
   * The dialog and the application load a file alike, except that the
   * application also fills in active_tabs.
   */
  lemma AgreesWithApplication(file: Config)
    ensures PreferencesConfig(Some(file)).Ok? <==> App.LoadedConfig(Some(file)).Ok?
    ensures PreferencesConfig(Some(file)).Ok? ==>
              App.LoadedConfig(Some(file)).value == App.WithActiveTabs(PreferencesConfig(Some(file)).value)
  {
    ActiveTabsCommutes(WithFontSize(file));
  }

  /** `load_config`, mutating the loaded object in place as the source does. */
  method LoadConfig(file: Option<Config>) returns (r: Result<Config>)
    ensures r == PreferencesConfig(file)
  {
    if file.Nothing? {
      return Ok(PreferencesDefaultConfig());
    }
    var config := file.value;
    if "font_size" !in config {
      config := config["font_size" := Int(DefaultFontSize)];
    }
    var need := ModelsNeedDefault(config);
    if need.Err? {
      return Err(need.error);
    }
    if need.value {
      config := config["user_models" := DefaultUserModels()];
    }
    return Ok(config);
  }

  /** The font sizes the dialog offers, shown as `str(s)`. */
  const FontSizes: seq<int> := [10, 12, 14, 16, 18, 20]

  function FontOptions(): (options: seq<string>)
    ensures |options| == |FontSizes|
    ensures forall i :: 0 <= i < |FontSizes| ==> options[i] == IntToString(FontSizes[i])
  {
    seq(|FontSizes|, i requires 0 <= i < |FontSizes| => IntToString(FontSizes[i]))
  }

  /** Every offered font option reads back as its size through `int()`. */
  lemma FontOptionsParse(i: nat)
    requires i < |FontSizes|
    ensures ParseInt(FontOptions()[i]) == Ok(FontSizes[i])
  {
    ParseIntToString(FontSizes[i]);
  }

  /**
   * `create_widgets`' search: the display_name of the first model whose
   * full_name equals `config.get("model", "")`, or "" when none does.
   */
  function ConfiguredDisplayName(config: Config): (r: Result<Value>)
    ensures var entries := ModelEntries(Get(config, "user_models", List([])));
            (r.Ok? <==> entries.Ok? && FindFirst(entries.value, "full_name", Get(config, "model", Str("")), "display_name").Ok?) &&
            (r.Ok? && r.value != Str("") ==>
               exists i :: FirstMatch(entries.value, i, "full_name", Get(config, "model", Str(""))) &&
                           r.value == FieldOf(entries.value[i], "display_name"))
    ensures var entries := ModelEntries(Get(config, "user_models", List([])));
            r.Ok? ==> forall i :: FirstMatch(entries.value, i, "full_name", Get(config, "model", Str(""))) ==>
                                    r.value == FieldOf(entries.value[i], "display_name")
    ensures var entries := ModelEntries(Get(config, "user_models", List([])));
            r.Ok? && NoMatch(entries.value, "full_name", Get(config, "model", Str(""))) ==> r.value == Str("")
    ensures "user_models" !in config ==> r == Ok(Str(""))
  {
    var entries :- ModelEntries(Get(config, "user_models", List([])));
    var found :- FindFirst(entries, "full_name", Get(config, "model", Str("")), "display_name");
    FindFirstReturnsFirstMatch(entries, "full_name", Get(config, "model", Str("")), "display_name");
    Ok(if found.Some? then found.value else Str(""))
  }

  /** A configuration together with the exception that stopped the update, if any. */
  datatype Applied = Applied(config: Config, error: Option<PyError>)

  /**
   * `apply`, in order: api_key from the entry text, model from the first
   * model whose display name is the selection (left alone when none is),
   * font_size from the integer value of the font option.  An exception
   * stops the update where it is raised.
   */
  function ApplyUpdate(config: Config, models: Value, apiKeyText: string, selectedDisplayName: string,
                       fontText: string): (r: Applied)
    ensures "api_key" in r.config && r.config["api_key"] == Str(apiKeyText)
    ensures forall k :: k in config && k != "api_key" && k != "model" && k != "font_size" ==>
              k in r.config && r.config[k] == config[k]
    ensures r.config.Keys <= config.Keys + {"api_key", "model", "font_size"}
    ensures r.error.Some? ==> r.error.value in {KeyError, TypeError, ValueError}
  {
    var c1 := config["api_key" := Str(apiKeyText)];
    var entries := ModelEntries(models);
    if entries.Err? then Applied(c1, Some(entries.error))
    else
      var found := FindFirst(entries.value, "display_name", Str(selectedDisplayName), "full_name");
      if found.Err? then Applied(c1, Some(found.error))
      else
        var c2 := if found.value.Some? then c1["model" := found.value.value] else c1;
        var size := ParseInt(fontText);
        if size.Err? then Applied(c2, Some(size.error))
        else Applied(c2["font_size" := Int(size.value)], Nothing)
  }

  /**
   * On a well-formed model list and an offered font option, `apply` raises
   * nothing, sets the model of the first matching display name (keeping the
   * old one when there is no match) and sets the chosen font size.
   */
  lemma ApplyWellFormed(config: Config, models: seq<Value>, apiKeyText: string, selectedDisplayName: string, i: nat)
    requires WellFormed(models, "display_name", "full_name") && i < |FontSizes|
    ensures var r := ApplyUpdate(config, List(models), apiKeyText, selectedDisplayName, FontOptions()[i]);
            r.error.Nothing? && r.config["font_size"] == Int(FontSizes[i]) &&
            ((forall j :: 0 <= j < |models| ==> !Matches(models[j], "display_name", Str(selectedDisplayName))) ==>
               ("model" in r.config <==> "model" in config) &&
               ("model" in config ==> r.config["model"] == config["model"])) &&
            (forall j :: FirstMatch(models, j, "display_name", Str(selectedDisplayName)) ==>
               r.config["model"] == FieldOf(models[j], "full_name"))
  {
    FontOptionsParse(i);
    var found := FindFirst(models, "display_name", Str(selectedDisplayName), "full_name");
    forall j | FirstMatch(models, j, "display_name", Str(selectedDisplayName))
      ensures found.value.Some? && found.value.value == FieldOf(models[j], "full_name")
    {
      assert Matches(models[j], "display_name", Str(selectedDisplayName));
      var k :| FirstMatch(models, k, "display_name", Str(selectedDisplayName)) && HasField(models[k], "full_name") &&
               found.value.value == models[k].entries[StrKey("full_name")];
      assert k == j;
    }
  }

  /**
   * With distinct display names and distinct full names, applying the
   * display name of an entry and building the dialog again from the
   * updated configuration shows that display name.
   */
  lemma ApplyThenReopen(config: Config, models: seq<Value>, apiKeyText: string, i: nat, displayName: string, f: nat)
    requires WellFormed(models, "display_name", "full_name")
    requires Unique(models, "display_name") && Unique(models, "full_name")
    requires "user_models" in config && config["user_models"] == List(models)
    requires i < |models| && FieldOf(models[i], "display_name") == Str(displayName) && f < |FontSizes|
    ensures ConfiguredDisplayName(ApplyUpdate(config, List(models), apiKeyText, displayName, FontOptions()[f]).config)
            == Ok(Str(displayName))
  {
    var r := ApplyUpdate(config, List(models), apiKeyText, displayName, FontOptions()[f]);
    forall j | 0 <= j < i ensures FieldOf(models[j], "display_name") != Str(displayName) {
      assert j != i;
    }
    assert FirstMatch(models, i, "display_name", Str(displayName));
    ApplyWellFormed(config, models, apiKeyText, displayName, f);
    assert r.config["model"] == FieldOf(models[i], "full_name");
    assert r.config["user_models"] == List(models);
    assert WellFormed(models, "full_name", "display_name");
    FindsOwnEntry(models, i, "full_name", "display_name");
  }

  class PreferencesWindow {
    var config: Config
    /** `self.models`: the user_models value the dialog was built from. */
    var models: Value
    /** The widgets' contents: the API key entry, the model menu's values and text, and the font menu's value. */
    var apiKeyShown: Value
    var modelValues: seq<Value>
    var modelShown: Value
    var fontShown: Value

    /** The dialog once `load_config` has produced `config`, before `create_widgets`. */
    constructor (config: Config)
      ensures this.config == config && models == List([]) && modelValues == []
    {
      this.config := config;
      models := List([]);
      apiKeyShown := Str("");
      modelValues := [];
      modelShown := Str("");
      fontShown := Int(DefaultFontSize);
    }

    /**
     * `create_widgets`: fills the API key entry, builds the model menu from
     * the display names and shows the configured model's display name, and
     * shows the font size (the value whose `str()` the font menu displays).
     */
    method CreateWidgets() returns (err: Option<PyError>)
      modifies this
      ensures config == old(config)
      ensures apiKeyShown == Get(config, "api_key", Str("")) && models == Get(config, "user_models", List([]))
      ensures var entries := ModelEntries(models);
              var names := if entries.Err? then Err(entries.error) else DisplayNames(entries.value);
              (names.Err? ==> err == Some(names.error)) &&
              (names.Ok? ==>
                 (modelValues == names.value &&
                  (err.Some? <==> ConfiguredDisplayName(config).Err?) &&
                  (err.Some? ==> err.value == ConfiguredDisplayName(config).error) &&
                  (err.Nothing? ==> modelShown == ConfiguredDisplayName(config).value &&
                                    fontShown == Get(config, "font_size", Int(DefaultFontSize)))))
    {
      apiKeyShown := Get(config, "api_key", Str(""));
      models := Get(config, "user_models", List([]));
      var entries := ModelEntries(models);
      if entries.Err? {
        return Some(entries.error);
      }
      var names := DisplayNames(entries.value);
      if names.Err? {
        return Some(names.error);
      }
      modelValues := names.value;
      var found := FindByField(entries.value, "full_name", Get(config, "model", Str("")), "display_name");
      if found.Err? {
        return Some(found.error);
      }
      modelShown := if found.value.Some? then found.value.value else Str("");
      fontShown := Get(config, "font_size", Int(DefaultFontSize));
      return Nothing;
    }

    /**
     * `apply(...)` with the API key entry's text, the model menu's
     * selection and the font menu's text as parameters.
     */
    method Apply(apiKeyText: string, selectedDisplayName: string, fontText: string) returns (err: Option<PyError>)
      modifies this
      ensures var r := ApplyUpdate(old(config), models, apiKeyText, selectedDisplayName, fontText);
              config == r.config && err == r.error
      ensures models == old(models) && modelValues == old(modelValues) && modelShown == old(modelShown)
      ensures apiKeyShown == old(apiKeyShown) && fontShown == old(fontShown)
    {
      config := config["api_key" := Str(apiKeyText)];
      var entries := ModelEntries(models);
      if entries.Err? {
        return Some(entries.error);
      }
      var found := FindByField(entries.value, "display_name", Str(selectedDisplayName), "full_name");
      if found.Err? {
        return Some(found.error);
      }
      if found.value.Some? {
        config := config["model" := found.value.value];
      }
      var size := ParseInt(fontText);
      if size.Err? {
        return Some(size.error);
      }
      config := config["font_size" := Int(size.value)];
      return Nothing;
    }
  }
}

/**
 * mychatui/menu.py: the model selector of the hamburger menu.  Choosing a
 * display name stores the matching full model name on the current tab;
 * refreshing the menu lists the configured display names and shows the one
 * that belongs to the current tab's model.
 */
module Menu {
  import opened PyValues
  import opened Settings
  import opened App

  /** `config.get("user_models", [])` */
  function UserModels(config: Config): Value
  {
    Get(config, "user_models", List([]))
  }

  /**
   * `on_model_select`'s search: the full_name of the first entry whose
   * display_name is `displayName`, or "" when none is.
   */
  function SelectedFullName(userModels: Value, displayName: string): (r: Result<Value>)
    ensures r.Ok? <==> ModelEntries(userModels).Ok? &&
                       FindFirst(ModelEntries(userModels).value, "display_name", Str(displayName), "full_name").Ok?
    ensures r.Ok? && r.value != Str("") ==>
              exists i :: FirstMatch(ModelEntries(userModels).value, i, "display_name", Str(displayName)) &&
                          r.value == FieldOf(ModelEntries(userModels).value[i], "full_name")
    ensures r.Ok? ==> forall i :: FirstMatch(ModelEntries(userModels).value, i, "display_name", Str(displayName)) ==>
                                    r.value == FieldOf(ModelEntries(userModels).value[i], "full_name")
    ensures r.Ok? && NoMatch(ModelEntries(userModels).value, "display_name", Str(displayName)) ==> r.value == Str("")
  {
    var entries :- ModelEntries(userModels);
    var found :- FindFirst(entries, "display_name", Str(displayName), "full_name");
    FindFirstReturnsFirstMatch(entries, "display_name", Str(displayName), "full_name");
    Ok(if found.Some? then found.value else Str(""))
  }

  /**
   * `update_model_menu`'s search: the display_name of the first entry
   * whose full_name equals the tab's model, or "" when none does.
   */
  function ShownDisplayName(userModels: Value, tabModel: Value): (r: Result<Value>)
    ensures r.Ok? <==> ModelEntries(userModels).Ok? &&
                       FindFirst(ModelEntries(userModels).value, "full_name", tabModel, "display_name").Ok?
    ensures r.Ok? && r.value != Str("") ==>
              exists i :: FirstMatch(ModelEntries(userModels).value, i, "full_name", tabModel) &&
                          r.value == FieldOf(ModelEntries(userModels).value[i], "display_name")
    ensures r.Ok? ==> forall i :: FirstMatch(ModelEntries(userModels).value, i, "full_name", tabModel) ==>
                                    r.value == FieldOf(ModelEntries(userModels).value[i], "display_name")
    ensures r.Ok? && NoMatch(ModelEntries(userModels).value, "full_name", tabModel) ==> r.value == Str("")
  {
    var entries :- ModelEntries(userModels);
    var found :- FindFirst(entries, "full_name", tabModel, "display_name");
    FindFirstReturnsFirstMatch(entries, "full_name", tabModel, "display_name");
    Ok(if found.Some? then found.value else Str(""))
  }

  /** The option menu's values: the display names in configuration order. */
  function MenuValues(config: Config): (r: Result<seq<Value>>)
    ensures "user_models" !in config ==> r == Ok([])
    ensures "user_models" in config && config["user_models"].List? ==> r == DisplayNames(config["user_models"].items)
  {
    var entries :- ModelEntries(UserModels(config));
    DisplayNames(entries)
  }

  /**
   * With distinct display names and distinct full names, choosing the
   * display name of an entry and refreshing the menu shows that display
   * name again.
   */
  lemma SelectThenRefresh(models: seq<Value>, i: nat, displayName: string)
    requires WellFormed(models, "display_name", "full_name")
    requires Unique(models, "display_name") && Unique(models, "full_name")
    requires i < |models| && FieldOf(models[i], "display_name") == Str(displayName)
    ensures SelectedFullName(List(models), displayName) == Ok(FieldOf(models[i], "full_name"))
    ensures ShownDisplayName(List(models), FieldOf(models[i], "full_name")) == Ok(Str(displayName))
  {
    FindsOwnEntry(models, i, "display_name", "full_name");
    assert WellFormed(models, "full_name", "display_name");
    FindsOwnEntry(models, i, "full_name", "display_name");
  }

  class HamburgerMenu {
    const app: ChatApp
    /** The values and the shown text of the model option menu. */
    var values: seq<Value>
    var selection: Value

    constructor (app: ChatApp)
      ensures this.app == app && values == []
    {
      this.app := app;
      values := [];
      selection := Str("");
    }

    /**
     * `on_model_select(model_display_name)`: the resolved full name, or "",
     * becomes the current tab's model; with no current tab nothing changes.
     */
    method OnModelSelect(displayName: string) returns (err: Option<PyError>)
      requires app.Valid()
      modifies if app.currentTab in app.tabOf then {app.tabOf[app.currentTab]} else {}
      ensures var full := SelectedFullName(UserModels(app.config), displayName);
              (err.Some? <==> full.Err?) && (err.Some? ==> err.value == full.error) &&
              (full.Ok? && app.currentTab != "" ==> app.tabOf[app.currentTab].model == full.value)
      ensures app.currentTab in app.tabOf ==>
                var tab := app.tabOf[app.currentTab];
                tab.chatHistory == old(tab.chatHistory) && tab.historyIndex == old(tab.historyIndex) &&
                tab.entryText == old(tab.entryText) &&
                (err.Some? || app.currentTab == "" ==> tab.model == old(tab.model))
    {
      var entries := ModelEntries(UserModels(app.config));
      if entries.Err? {
        return Some(entries.error);
      }
      var found := FindByField(entries.value, "display_name", Str(displayName), "full_name");
      if found.Err? {
        return Some(found.error);
      }
      var fullName := if found.value.Some? then found.value.value else Str("");
      if app.currentTab != "" {
        var tab := app.tabOf[app.currentTab];
        tab.model := fullName;
      }
      return Nothing;
    }

    /**
     * `update_model_menu`: the option menu gets the display names; when a
     * tab is current, it shows the display name of that tab's model, or "".
     */
    method UpdateModelMenu() returns (err: Option<PyError>)
      requires app.Valid()
      modifies this
      ensures var names := MenuValues(app.config);
              (names.Err? ==> err == Some(names.error) && values == old(values) && selection == old(selection)) &&
              (names.Ok? ==> values == names.value)
      ensures MenuValues(app.config).Ok? && app.currentTab == "" ==> err.Nothing? && selection == old(selection)
      ensures MenuValues(app.config).Ok? && app.currentTab != "" ==>
                var shown := ShownDisplayName(UserModels(app.config), app.tabOf[app.currentTab].model);
                (err.Some? <==> shown.Err?) && (err.Some? ==> err.value == shown.error && selection == old(selection)) &&
                (shown.Ok? ==> selection == shown.value)
    {
      var models := UserModels(app.config);
      var entries := ModelEntries(models);
      if entries.Err? {
        return Some(entries.error);
      }
      var names := DisplayNames(entries.value);
      if names.Err? {
        return Some(names.error);
      }
      values := names.value;
      if app.currentTab != "" {
        var tab := app.tabOf[app.currentTab];
        var found := FindByField(entries.value, "full_name", tab.model, "display_name");
        if found.Err? {
          return Some(found.error);
        }
        selection := if found.value.Some? then found.value.value else Str("");
      }
      return Nothing;
    }
  }
}

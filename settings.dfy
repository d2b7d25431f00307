/**
 * The configuration data that mychatui/app.py, mychatui/menu.py and
 * mychatui/preferences.py share: the default model list, the defaulting of
 * `font_size` and `user_models` in a loaded configuration, iteration over
 * the `user_models` value, and the first-match lookups between a model's
 * `display_name` and its `full_name`.
 */
module Settings {
  import opened PyValues

  /** A configuration as `json.load` returns it for a JSON object. */
  type Config = map<string, Value>

  /** One `user_models` entry: `{"display_name": d, "full_name": f}`. */
  function ModelEntry(display: string, full: string): (m: Value)
    ensures m.Dict? && m.entries.Keys == {StrKey("display_name"), StrKey("full_name")}
    ensures m.entries[StrKey("display_name")] == Str(display) && m.entries[StrKey("full_name")] == Str(full)
  {
    Pair("display_name", Str(display), "full_name", Str(full))
  }

  /** The two Gemini models written into a configuration that lacks a usable model list. */
  function DefaultUserModels(): (v: Value)
    ensures v.List? && |v.items| == 2 && v.items[0].Dict? && Truthy(v)
  {
    List([ModelEntry("Gemini 1.0 Pro", "models/gemini-1.0-pro"),
          ModelEntry("Gemini 1.5 Pro", "models/gemini-1.5-pro-latest")])
  }

  const DefaultFontSize: int := 12

  /** `if "font_size" not in config: config["font_size"] = 12` */
  function WithFontSize(config: Config): (r: Config)
    ensures r.Keys == config.Keys + {"font_size"}
    ensures "font_size" in config ==> r == config
    ensures "font_size" !in config ==> r["font_size"] == Int(DefaultFontSize)
    ensures forall k :: k in config ==> r[k] == config[k]
  {
    if "font_size" in config then config else config["font_size" := Int(DefaultFontSize)]
  }

  /**
   * The guard `"user_models" not in config or not config.get("user_models")
   * or not isinstance(config.get("user_models")[0], dict)`.  Python's `or`
   * stops at the first true operand, so `[0]` is evaluated only on a truthy
   * value; it raises on a value that cannot be indexed.
   */
  function ModelsNeedDefault(config: Config): (r: Result<bool>)
    ensures "user_models" !in config ==> r == Ok(true)
    ensures "user_models" in config && !Truthy(config["user_models"]) ==> r == Ok(true)
    ensures "user_models" in config && config["user_models"].List? && config["user_models"].items != []
            ==> r == Ok(!config["user_models"].items[0].Dict?)
    ensures r.Err? ==> "user_models" in config && Truthy(config["user_models"]) &&
                       Subscript(config["user_models"], 0).Err?
  {
    if "user_models" !in config || !Truthy(Get(config, "user_models", None)) then Ok(true)
    else
      var first :- Subscript(Get(config, "user_models", None), 0);
      Ok(!first.Dict?)
  }

  /** Replace `user_models` by the default list when the guard above holds. */
  function WithUserModels(config: Config): (r: Result<Config>)
    ensures ModelsNeedDefault(config).Err? <==> r.Err?
    ensures r.Ok? ==> r.value.Keys == config.Keys + {"user_models"}
    ensures r.Ok? ==> forall k :: k in config && k != "user_models" ==> r.value[k] == config[k]
    ensures r.Ok? && ModelsNeedDefault(config).value ==> r.value["user_models"] == DefaultUserModels()
    ensures r.Ok? && !ModelsNeedDefault(config).value ==> r.value == config
  {
    var need :- ModelsNeedDefault(config);
    Ok(if need then config["user_models" := DefaultUserModels()] else config)
  }

  /** A model list that the guard accepts is never replaced. */
  lemma DefaultModelsAreKept(config: Config)
    requires "user_models" in config && config["user_models"] == DefaultUserModels()
    ensures WithUserModels(config) == Ok(config)
  {
  }

  // ---------------------------------------------------------------- iterating user_models

  /**
   * The elements `for model in v` visits.  A string yields its characters;
   * a dictionary yields its keys, which are strings in JSON, so subscripting
   * the first of them by a field name raises TypeError; a number, a bool,
   * None or an object is not iterable.
   */
  function ModelEntries(v: Value): (r: Result<seq<Value>>)
    ensures (v.List? || v.Tuple?) <==> r.Ok? && !(v.Str? || v == Dict(map[]))
    ensures (v.List? || v.Tuple?) ==> r == Ok(v.items)
    ensures v.Str? ==> r.Ok? && |r.value| == |v.s| && forall i :: 0 <= i < |v.s| ==> r.value[i] == Str([v.s[i]])
    ensures v == Dict(map[]) ==> r == Ok([])
    ensures r.Err? ==> r.error == TypeError
  {
    match v
    case List(xs) => Ok(xs)
    case Tuple(xs) => Ok(xs)
    case Str(s) => Ok(seq(|s|, i requires 0 <= i < |s| => Str([s[i]])))
    case Dict(m) => if m == map[] then Ok([]) else Err(TypeError)
    case _ => Err(TypeError)
  }

  // ---------------------------------------------------------------- field lookups

  predicate HasField(m: Value, field: string)
  {
    m.Dict? && StrKey(field) in m.entries
  }

  /** `m[field]` where it exists, None elsewhere (used only to state facts). */
  function FieldOf(m: Value, field: string): Value
  {
    if HasField(m, field) then m.entries[StrKey(field)] else None
  }

  /** `m[field] == target` holds without raising. */
  predicate Matches(m: Value, field: string, target: Value)
  {
    HasField(m, field) && m.entries[StrKey(field)] == target
  }

  /** `models[i]` is the first entry whose `field` equals `target`. */
  predicate FirstMatch(models: seq<Value>, i: int, field: string, target: Value)
  {
    0 <= i < |models| && Matches(models[i], field, target) &&
    forall j :: 0 <= j < i ==> !Matches(models[j], field, target)
  }

  /** No entry's `field` equals `target`. */
  predicate NoMatch(models: seq<Value>, field: string, target: Value)
  {
    forall i :: 0 <= i < |models| ==> !Matches(models[i], field, target)
  }

  /** Every entry is a dictionary carrying both fields. */
  predicate WellFormed(models: seq<Value>, f1: string, f2: string)
  {
    forall i :: 0 <= i < |models| ==> HasField(models[i], f1) && HasField(models[i], f2)
  }

  /** No two entries share a value of `field`. */
  predicate Unique(models: seq<Value>, field: string)
  {
    forall j, k :: 0 <= j < |models| && 0 <= k < |models| && FieldOf(models[j], field) == FieldOf(models[k], field) ==> j == k
  }

  /**
   * The search loop `for model in models: if model[matchField] == target:
   * found = model[resultField]; break`: the `resultField` of the first entry
   * whose `matchField` equals `target`, Nothing when no entry matches.
   * Subscripting an entry raises KeyError (a dictionary lacking the field)
   * or TypeError (anything else), and the loop stops there.
   */
  function FindFirst(models: seq<Value>, matchField: string, target: Value, resultField: string): (r: Result<Option<Value>>)
    ensures WellFormed(models, matchField, resultField) ==> r.Ok?
    ensures r.Err? ==> r.error == KeyError || r.error == TypeError
    ensures r.Ok? && r.value.Nothing? ==> forall i :: 0 <= i < |models| ==> !Matches(models[i], matchField, target)
    ensures r.Ok? && r.value.Some? ==>
              exists i :: FirstMatch(models, i, matchField, target) && HasField(models[i], resultField) &&
                          r.value.value == models[i].entries[StrKey(resultField)]
  {
    if models == [] then Ok(Nothing)
    else
      var key := GetItem(models[0], matchField);
      if key.Err? then Err(key.error)
      else if key.value == target then
        var v := GetItem(models[0], resultField);
        if v.Err? then Err(v.error)
        else
          assert FirstMatch(models, 0, matchField, target);
          Ok(Some(v.value))
      else
        var rest := FindFirst(models[1..], matchField, target, resultField);
        if rest.Ok? && rest.value.Some? then
          var i :| FirstMatch(models[1..], i, matchField, target) && HasField(models[1..][i], resultField) &&
                   rest.value.value == models[1..][i].entries[StrKey(resultField)];
          assert FirstMatch(models, i + 1, matchField, target) by {
            forall j | 0 <= j < i + 1 ensures !Matches(models[j], matchField, target) {
              if j > 0 { assert models[j] == models[1..][j - 1]; }
            }
          }
          rest
        else
          assert WellFormed(models, matchField, resultField) ==> WellFormed(models[1..], matchField, resultField);
          assert rest.Ok? ==> forall i :: 0 <= i < |models| ==> !Matches(models[i], matchField, target) by {
            if rest.Ok? {
              forall i | 0 <= i < |models| ensures !Matches(models[i], matchField, target) {
                if i > 0 { assert models[i] == models[1..][i - 1]; }
              }
            }
          }
          rest
  }

  /** The first matching entry is the one whose `resultField` the search returns. */
  lemma FindFirstReturnsFirstMatch(models: seq<Value>, matchField: string, target: Value, resultField: string)
    ensures var r := FindFirst(models, matchField, target, resultField);
            r.Ok? ==> forall i :: FirstMatch(models, i, matchField, target) ==>
                                    r.value == Some(FieldOf(models[i], resultField))
  {
    var r := FindFirst(models, matchField, target, resultField);
    if r.Ok? {
      forall i | FirstMatch(models, i, matchField, target) ensures r.value == Some(FieldOf(models[i], resultField)) {
        assert Matches(models[i], matchField, target);
        var k :| FirstMatch(models, k, matchField, target) && HasField(models[k], resultField) &&
                 r.value.value == models[k].entries[StrKey(resultField)];
        assert k == i;
      }
    }
  }

  /** The loop itself: it visits the entries in order and stops at the first match. */
  method FindByField(models: seq<Value>, matchField: string, target: Value, resultField: string)
    returns (r: Result<Option<Value>>)
    ensures r == FindFirst(models, matchField, target, resultField)
  {
    var i := 0;
    while i < |models|
      invariant 0 <= i <= |models|
      invariant FindFirst(models, matchField, target, resultField) == FindFirst(models[i..], matchField, target, resultField)
    {
      assert models[i..][1..] == models[i + 1..];
      var key := GetItem(models[i], matchField);
      if key.Err? {
        return Err(key.error);
      }
      if key.value == target {
        var v := GetItem(models[i], resultField);
        if v.Err? {
          return Err(v.error);
        }
        return Ok(Some(v.value));
      }
      i := i + 1;
    }
    return Ok(Nothing);
  }

  /** In a well-formed list whose `field` values are distinct, every entry is found by its own `field`. */
  lemma FindsOwnEntry(models: seq<Value>, i: nat, field: string, resultField: string)
    requires WellFormed(models, field, resultField) && Unique(models, field) && i < |models|
    ensures FindFirst(models, field, FieldOf(models[i], field), resultField) == Ok(Some(FieldOf(models[i], resultField)))
  {
    var r := FindFirst(models, field, FieldOf(models[i], field), resultField);
    assert Matches(models[i], field, FieldOf(models[i], field));
    var j :| FirstMatch(models, j, field, FieldOf(models[i], field)) && HasField(models[j], resultField) &&
             r.value.value == models[j].entries[StrKey(resultField)];
    assert FieldOf(models[j], field) == FieldOf(models[i], field);
  }

  /**
   * `[m["display_name"] for m in models]`: every entry's display name in
   * order; the first entry without one raises.
   */
  function DisplayNames(models: seq<Value>): (r: Result<seq<Value>>)
    ensures r.Ok? <==> forall i :: 0 <= i < |models| ==> HasField(models[i], "display_name")
    ensures r.Ok? ==> |r.value| == |models| &&
                      forall i :: 0 <= i < |models| ==> r.value[i] == FieldOf(models[i], "display_name")
    ensures r.Err? ==> r.error == KeyError || r.error == TypeError
  {
    if models == [] then Ok([])
    else
      var name :- GetItem(models[0], "display_name");
      var rest :- DisplayNames(models[1..]);
      assert forall i :: 1 <= i < |models| ==> models[i] == models[1..][i - 1];
      Ok([name] + rest)
  }
}

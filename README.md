# mychatui core, modelled in Dafny

mychatui is a desktop chat client for large language models. This project models the logic underneath its widgets:

- **`getBeanValue`** (`adapters/beanutils.py`): the attribute-path resolver. It walks a dotted path such as `message.content` or `a.b[2].c` through dictionaries and attribute-bearing objects, and falls back to a default on a falsy result.
- **The two response adapters** (`adapters/aisuite.py`, `adapters/anyllm.py`): they turn an SDK completion response into the chat history's `{role, content}` record. The any-llm adapter also chooses the API base from the model name.
- **The chat-tab logic of the `App` window** (`app.py`):
  - the input-history cursor of `navigate_history`;
  - the history appends of `send_message` and `get_ai_response`;
  - configuration defaulting in `load_config`, and the `active_tabs` rewrite in `save_config`;
  - the tab counter and naming of `add_new_tab`;
  - the tab file that `save_current_tab` writes and `open_tab` reads.
- **The model-name lookups** of the hamburger menu (`menu.py`) and of the preferences dialog (`preferences.py`). They map between a model's display name and its full name. The dialog also has its own configuration defaulting and its `apply` update.

Python values are modelled as one datatype, `PyValues.Value`: None, bool, int, str, list, tuple, dict and objects with an attribute map. Truthiness is written out as `Truthy`. Python exceptions are modelled as `Result`/`Option` outcomes with a `PyError` kind.

Modules follow the source files:

| module | models |
|---|---|
| `BeanUtils` (beanutils.dfy) | `adapters/beanutils.py` |
| `AiSuite` (aisuite.dfy) | `adapters/aisuite.py` |
| `AnyLlm` (anyllm.dfy) | `adapters/anyllm.py` |
| `App` (app.dfy) | `app.py` |
| `Menu` (menu.dfy) | `menu.py` |
| `Preferences` (preferences.dfy) | `preferences.py` |

Four supporting modules hold what several of these share:

- `Settings` (settings.dfy): the configuration data of `app.py`, `menu.py` and `preferences.py`.
- `Completions` (completions.dfy): the SDK response objects.
- `PyValues` (py_values.dfy): Python values, subscripting and exceptions.
- `PyStrings` (py_strings.dfy): `str.split`, `in`, `str.replace`, `str()` and `int()`.

Code that changes state is modelled as classes with `modifies` clauses: `App.Tab`, `App.ChatApp`, `Menu.HamburgerMenu` and `Preferences.PreferencesWindow`. Each method's `ensures` ties the new state to the specification functions. The source's search loops, the `getBeanValue` loop and `isin` are `while` loops proved against those functions.

Inputs from outside the program become parameters:

- the decoded configuration or tab file;
- the `OPENAI_API_URL` environment value;
- the SDK call;
- text typed into entry fields and option menus;
- the HTML-to-text and markdown renderers.

One description of `getBeanValue` reads `list[1].v` as element 1 of the field `list`. The code does something else, and this model follows the code; see "## Findings".

## Model

| member | source | states |
|---|---|---|
| BeanUtils.IsIn | mychatui/adapters/beanutils.py:6-12 | the search loop returns true iff some element of the sequence equals the value |
| BeanUtils.IsList | mychatui/adapters/beanutils.py:15-22 | true exactly for list and tuple values |
| BeanUtils.IsIterable | mychatui/adapters/beanutils.py:25-35 | true for lists and tuples, for the built-in iterables (str, dict), and for objects with `__iter__` or `collection`; every list is iterable |
| BeanUtils.DigitRunEnd | mychatui/adapters/beanutils.py:38 | the end of the maximal run of digits from a position: all digits before it, and a non-digit or the end at it |
| BeanUtils.LastMatch | mychatui/adapters/beanutils.py:38 | the greedy `(.*)` of `idxre`: the largest bracket position where `[digits]` matches, or none matches at all |
| BeanUtils.ParseComponent | mychatui/adapters/beanutils.py:38 | a component is plain iff `idxre` matches nowhere; an indexed component's name is the text before the last matching `[` and its index is the value of the digits |
| BeanUtils.ParseFormatIndexed | mychatui/adapters/beanutils.py:38 | writing `name[idx]` and matching it again gives back name and index (round trip) |
| BeanUtils.DigitRunEndOfRun | mychatui/adapters/beanutils.py:38 | a run of digits ending in a non-digit ends exactly there |
| BeanUtils.NoBracketIsPlain | mychatui/adapters/beanutils.py:88-89 | a component without `[` is not indexed |
| BeanUtils.GetIndex | mychatui/adapters/beanutils.py:45-53 | `_getIndex` gives an index iff the component matches, and it is the parsed index |
| BeanUtils.GetArrayIndexValue | mychatui/adapters/beanutils.py:55-64 | `_getArrayIndexValue`: None without an index; the element or None out of range for a list, tuple or str; the entry or KeyError for a dict; IndexError never escapes |
| BeanUtils.Lookup | mychatui/adapters/beanutils.py:109-117 | `.get` on a dict, `getattr` or None on a truthy object, and a falsy non-dict is kept |
| BeanUtils.GetBeanValue | mychatui/adapters/beanutils.py:41-125 | the loop over the path's components computes exactly `BeanValue`, including the exception it raises |
| BeanUtils.FalsyRootGivesDefault | mychatui/adapters/beanutils.py:71 | a falsy root returns the default without looking at the path |
| BeanUtils.ResultIsTruthyOrDefault | mychatui/adapters/beanutils.py:122-125 | the result is the default or a truthy value the walk ended on; a present but falsy leaf gives the default |
| BeanUtils.WalkAppend | mychatui/adapters/beanutils.py:77-117 | walking a concatenated path walks the first part, then the second from where the first ended |
| BeanUtils.WalkFromNone | mychatui/adapters/beanutils.py:109-117 | once the walk holds None it keeps None to the end |
| BeanUtils.WalkFromFalsy | mychatui/adapters/beanutils.py:109-117 | from a falsy value the walk only holds falsy values; the only exception is the KeyError of indexing an empty dict |
| BeanUtils.FalsyIntermediate | mychatui/adapters/beanutils.py:109-125 | a falsy value reached part-way gives the default (or that KeyError) |
| BeanUtils.NoneIntermediate | mychatui/adapters/beanutils.py:109-125 | None reached part-way always gives the default |
| BeanUtils.MissingAttributeGivesDefault | mychatui/adapters/beanutils.py:113-117 | a truthy non-dict lacking the attribute of a plain component makes the result the default |
| BeanUtils.IndexedStepOnSequence | mychatui/adapters/beanutils.py:88-100 | `name[i]` on a list or tuple continues with element `i` (None out of range) and then looks `name` up in it |
| BeanUtils.IndexedStepOnDictionary | mychatui/adapters/beanutils.py:94-100 | `name[i]` on a dict without the integer key `i` raises KeyError |
| BeanUtils.TwoKeyPath | mychatui/adapters/beanutils.py:73-125 | `k1.k2` without indices is the lookup of `k1`, then of `k2`, with falsy results as the default |
| BeanUtils.WalkNested | mychatui/adapters/beanutils.py:109-112 | on index-free keys that all exist, the walk is the native nested lookup |
| BeanUtils.WalkMissing | mychatui/adapters/beanutils.py:109-112 | on index-free keys with one missing, the walk ends in None |
| BeanUtils.DictPathIsNestedLookup | mychatui/adapters/beanutils.py:73-125 | on an all-dict index-free path whose keys exist, the result is the nested lookup (the default if it is falsy) |
| BeanUtils.DictPathMissingKeyGivesDefault | mychatui/adapters/beanutils.py:73-125 | on an all-dict index-free path, any missing key gives the default |
| BeanUtils.SplitIndexedThenField | mychatui/adapters/beanutils.py:73-90 | `name[i].field` splits into `name[i]` and `field`, and the first parses as `Indexed(name, i)` |
| BeanUtils.IndexedComponentOnDictRaises | mychatui/adapters/beanutils.py:94-100 | as written, `name[i].field` on a non-empty dict without key `i` raises KeyError |
| BeanUtils.IndexedPathOnDictRaises | mychatui/adapters/beanutils.py:88-100 | as written, `list[1].v` on `{"list": [{"v": 1}, {"v": 2}]}` raises KeyError |
| BeanUtils.IntendedStep | mychatui/adapters/beanutils.py:88-117 | corrected step: a plain component is the same lookup as the code's |
| BeanUtils.IntendedIndexesTheField | mychatui/adapters/beanutils.py:88-100 | corrected: `name[i]` on a dict whose `name` is a list continues with element `i` (None out of range) |
| BeanUtils.IntendedWalkTwo | mychatui/adapters/beanutils.py:77-117 | corrected walk of `[c, field]` is one corrected step, then a lookup of `field` |
| BeanUtils.IntendedIndexedThenField | mychatui/adapters/beanutils.py:88-125 | corrected: `name[i].field` reads `field` of element `i` of the list `name`, falsy results as the default |
| BeanUtils.IntendedExamples | mychatui/adapters/beanutils.py:88-125 | corrected: `list[1].v` gives 2, and `list[5].v` with default -1 gives -1 |
| BeanUtils.IntendedAgreesWithoutIndex | mychatui/adapters/beanutils.py:77-117 | on index-free paths the code's walk and the corrected walk agree and never raise |
| BeanUtils.BeanValueAgreesWithoutIndex | mychatui/adapters/beanutils.py:41-125 | on index-free paths such as `message.content`, the code's result and the corrected result agree |
| Completions.RoleContent | mychatui/adapters/aisuite.py:42-45 | the record has exactly the keys role and content, holding the given values |
| AiSuite.GetChatHistory | mychatui/adapters/aisuite.py:14-15 | the history is returned unchanged |
| AiSuite.GetResponseFromChatCompletionResponse | mychatui/adapters/aisuite.py:35-45 | IndexError iff there are no choices; otherwise the first choice's role and content, verbatim |
| AiSuite.GetResponseFromOpenAiResponse | mychatui/adapters/aisuite.py:23-33 | AttributeError without `to_dict`; IndexError when choices is missing or empty |
| AiSuite.GetResponse | mychatui/adapters/aisuite.py:17-21 | dispatches to the direct branch exactly for a ChatCompletionResponse and to the dict branch otherwise; a result has exactly the keys role and content |
| AiSuite.DictBranchReadsMessage | mychatui/adapters/aisuite.py:25-33 | the dict branch raises only what `choices[0]` raises, and reads `message.role` and `message.content` of that choice with falsy values as None |
| AiSuite.MessagePath | mychatui/adapters/aisuite.py:27-28 | `getBeanValue(choice, "message.<field>")` is the nested lookup, falsy as None |
| AiSuite.BranchesAgree | mychatui/adapters/aisuite.py:17-45 | on the same data both branches give the same record when role and content are truthy; the dict branch turns a falsy value into None |
| AiSuite.AssistantHiExample | mychatui/adapters/aisuite.py:17-45 | both branches normalise an assistant "hi" response to `{"role": "assistant", "content": "hi"}` |
| AnyLlm.GetChatHistory | mychatui/adapters/anyllm.py:15-16 | the history is returned unchanged |
| AnyLlm.GetResponse | mychatui/adapters/anyllm.py:18-22 | IndexError iff there are no choices; otherwise exactly role and content, role "assistant" whatever the response's role, content that of the first choice |
| AnyLlm.ApiBase | mychatui/adapters/anyllm.py:29-31 | the environment value iff "openai" occurs in the model name, otherwise None |
| AnyLlm.Completion | mychatui/adapters/anyllm.py:24-38 | a None SDK response gives None; otherwise the result is `getResponse` of the response; the SDK is called with the chosen API base |
| AnyLlm.BaseUrlIgnored | mychatui/adapters/anyllm.py:24-29 | the `base_url` argument never changes the outcome |
| AnyLlm.NonOpenAiModelIgnoresEnvironment | mychatui/adapters/anyllm.py:29-31 | for a model without "openai" the environment value never changes the outcome |
| AnyLlm.CompletionOutcome | mychatui/adapters/anyllm.py:33-38 | the completion fails iff the SDK returns an empty choice list; a record has role "assistant" and the first choice's content |
| AnyLlm.AgreesWithDirectBranch | mychatui/adapters/anyllm.py:22 | the any-llm record is aisuite's direct-branch record with the role replaced by "assistant" |
| AnyLlm.ApiBaseExamples | mychatui/adapters/anyllm.py:29-31 | an `openai:` model gets the configured base, an `ollama:` model gets none |
| Settings.ModelEntry | mychatui/app.py:206-215 | a model entry has exactly display_name and full_name |
| Settings.DefaultUserModels | mychatui/app.py:206-215 | the default model list has two entries and its first is a dict, so the guard accepts it |
| Settings.WithFontSize | mychatui/app.py:197-198 | font_size is added as 12 only when absent; every present key keeps its value |
| Settings.ModelsNeedDefault | mychatui/app.py:201-205 | the guard is true when user_models is missing or falsy, is "first element not a dict" on a list, and raises only when indexing fails |
| Settings.WithUserModels | mychatui/app.py:201-215 | user_models is replaced by the default exactly when the guard holds; other keys are untouched; it fails iff the guard raises |
| Settings.DefaultModelsAreKept | mychatui/app.py:201-215 | the default model list is never replaced |
| Settings.ModelEntries | mychatui/menu.py:55 | `for model in v`: a list's or tuple's items, a str's characters, nothing for an empty dict, TypeError otherwise |
| Settings.FindFirst | mychatui/menu.py:54-58 | the first-match search: never fails on well-formed entries; fails only with KeyError or TypeError; none found means no entry matches; a result is the field of the first matching entry |
| Settings.FindByField | mychatui/menu.py:55-58 | the for/break loop computes exactly `FindFirst` |
| Settings.FindFirstReturnsFirstMatch | mychatui/menu.py:54-58 | a search that reads returns the field of the entry that matches first |
| Settings.FindsOwnEntry | mychatui/menu.py:79-84 | with distinct keys, every entry is found by its own key |
| Settings.DisplayNames | mychatui/menu.py:69 | the comprehension succeeds iff every entry has a display_name, and then lists them in order |
| App.Entry | mychatui/app.py:545-547 | a history entry has exactly role and content |
| App.UserEntry | mychatui/app.py:545-547 | the user entry has role "user" and the message wrapped in the prefixed paragraph |
| App.AiEntry | mychatui/app.py:626-639 | the assistant entry: the error paragraph on error, "Unexpected Response" for a None reply, the rendered reply otherwise |
| App.UserMessages | mychatui/app.py:508 | the comprehension succeeds iff no entry fails (a missing or unreadable role, or a user entry whose content is missing or unreadable); on failure the exception is that of the first failing entry, the role of an entry being read before its content; it is no longer than the history, is empty iff no entry has role "user", and raises only KeyError or TypeError |
| App.FirstFailingEntryDecides | mychatui/app.py:508 | a user entry without content raises KeyError before a later entry that is not a dictionary is reached |
| App.UserMessagesAppendUser | mychatui/app.py:508-547 | appending a user entry adds its content as the latest user message |
| App.UserMessagesAppendAi | mychatui/app.py:623-639 | appending an assistant entry leaves the user messages unchanged |
| App.Contents | mychatui/app.py:656 | the comprehension succeeds iff every entry has a content, then lists every content in order; otherwise it raises the exception of the first entry without one |
| App.Join | mychatui/app.py:656 | `"".join` succeeds iff every part is a string, and otherwise raises TypeError |
| App.JoinAppend | mychatui/app.py:656 | joining one more string appends it to the joined text |
| App.ContentsAppend | mychatui/app.py:656 | reading one more entry appends its content to the list |
| App.HistoryHtml | mychatui/app.py:650-656 | the history renders iff every entry has string content; it raises only KeyError or TypeError, and a missing content wins over a content that is not a string |
| App.RenderFailure | mychatui/app.py:650-711 | `update_textbox_html` raises exactly when the history does not render, and raises that exception |
| App.HistoryHtmlAppend | mychatui/app.py:656 | appending an entry with string content appends that content to the rendered HTML |
| App.AppendedEntriesRender | mychatui/app.py:542-548 | the user and assistant entries the application appends always render, so appending one fails exactly where the history already fails |
| App.ComprehensionBeforeJoin | mychatui/app.py:656 | a missing content raises KeyError even after a content that is not a string; a content that is not a string alone raises TypeError |
| App.SendAfterContentlessEntryFails | mychatui/app.py:544-549 | sending after a loaded entry without content raises KeyError, the exception `send_message` lets escape |
| App.NavigatedIndex | mychatui/app.py:513-525 | a None cursor starts at the count; the moved cursor is clamped to 0 below and to the count above, so it stays between them |
| App.FirstUpSelectsLatest | mychatui/app.py:513-516 | the first step up from a fresh cursor selects the latest user message; a step down stays at the end |
| App.RecallSentMessage | mychatui/app.py:527-547 | sending a message and stepping up puts the sent text back in the entry |
| App.AppDefaultConfig | mychatui/app.py:216-232 | the default configuration has exactly api_key, model, font_size 12, active_tabs and user_models |
| App.WithActiveTabs | mychatui/app.py:199-200 | active_tabs is added as ["Tab 1"] only when absent; every present key keeps its value |
| App.GuardSeesFileModels | mychatui/app.py:194-215 | filling font_size and active_tabs does not change what the user_models guard decides |
| App.LoadedFromFile | mychatui/app.py:194-215 | loading a file fails iff the user_models guard raises on the file; otherwise it adds exactly the three defaulted keys and keeps every other key |
| App.LoadedDefaults | mychatui/app.py:194-215 | font_size and active_tabs are filled only when absent; user_models is kept when the guard accepts it and replaced by the default list when the guard asks for it |
| App.SettledLoadsUnchanged | mychatui/app.py:194-215 | a configuration the three guards accept loads back unchanged |
| App.LoadIsIdempotent | mychatui/app.py:194-232 | a loaded configuration is settled, so loading it again changes nothing |
| App.FillDefaults | mychatui/app.py:196-215 | the in-place defaulting of the loaded object computes the loaded configuration; when the guard raises, font_size and active_tabs are already filled |
| App.SavedConfig | mychatui/app.py:244 | active_tabs becomes the tab names in order; every other key is unchanged |
| App.SaveThenLoad | mychatui/app.py:194-244 | saving a settled configuration and loading it again gives what was saved |
| App.ConfigTestCases | tests/test_app.py:35-113 | the default configuration loads back as itself, the test file loads unchanged, and saving with three tabs rewrites only active_tabs |
| App.AutoTabNamesDistinct | mychatui/app.py:256-258 | distinct counter values name unnamed tabs distinctly |
| App.TabPayload | mychatui/app.py:328-332 | the saved tab has exactly tab_name, model_name and chat_history |
| App.OpenedName | mychatui/app.py:381 | the file's tab_name, or "New Tab" when it has none |
| App.OpenedModel | mychatui/app.py:390 | the file's model_name, or None |
| App.OpenedHistory | mychatui/app.py:391 | the file's chat_history, or [] |
| App.PayloadRoundTrip | mychatui/app.py:328-391 | opening what saving wrote restores the tab's name, model and history |
| App.EmptyPayloadDefaults | mychatui/app.py:381-391 | an empty tab file opens "New Tab" with no model and no history |
| App.Tab.constructor | mychatui/app.py:410-411 | a new tab has the given model, an empty history and no cursor |
| App.ChatApp.constructor | mychatui/app.py:166 | the application starts with no tabs and a counter of 0 |
| App.ChatApp.LoadConfig | mychatui/app.py:190-234 | the configuration becomes the loaded one and the font size its font_size; a raising guard leaves the partly defaulted configuration and the old font size |
| App.ChatApp.SaveConfig | mychatui/app.py:241-244 | the configuration becomes `SavedConfig` of the tab names, nothing else changes |
| App.ChatApp.AddNewTab | mychatui/app.py:253-263 | the counter goes up by one; an unnamed tab is "Tab {count}"; a duplicate name raises ValueError and adds nothing; otherwise a fresh tab with the configured model is appended and selected |
| App.ChatApp.SaveCurrentTab | mychatui/app.py:322-341 | with a selected tab the file is "{name}.json" holding its name, model and history; ValueError without one |
| App.ChatApp.OpenTab | mychatui/app.py:368-391 | the named tab receives the file's model and history; an existing tab is reused, its cursor and entry text kept, and the tab map unchanged; otherwise one fresh tab is added under the new name only and selected; every other tab keeps its object and all its state, since only the opened tab may be written; a non-object file raises AttributeError and changes nothing; otherwise the method raises the rendering exception of the opened history, if any, after the tab is updated |
| App.ChatApp.NavigateHistory | mychatui/app.py:507-532 | with no user messages nothing moves; otherwise the cursor becomes the clamped index and the entry shows that message without the prefix, or is cleared at the end |
| App.ChatApp.SendMessage | mychatui/app.py:540-563 | empty text changes nothing. Non-empty text appends exactly one user entry and the history is rendered. The entry is cleared only when rendering succeeds; otherwise the rendering exception escapes, with the entry appended and the text still in the field |
| App.ChatApp.GetAiResponse | mychatui/app.py:623-648 | exactly one assistant entry is appended and nothing else changes; the method raises the rendering exception of the new history, if any |
| Menu.SelectedFullName | mychatui/menu.py:54-58 | when the list reads, the result is the full_name of the first entry whose display_name matches, and "" when no entry matches |
| Menu.ShownDisplayName | mychatui/menu.py:79-83 | when the list reads, the result is the display_name of the first entry whose full_name equals the tab's model, and "" when no entry matches |
| Menu.MenuValues | mychatui/menu.py:68-69 | the display names in configuration order, empty when user_models is absent |
| Menu.SelectThenRefresh | mychatui/menu.py:54-84 | with distinct names, choosing a display name and refreshing shows it again |
| Menu.HamburgerMenu.constructor | mychatui/menu.py:47-49 | the model menu starts with no values |
| Menu.HamburgerMenu.OnModelSelect | mychatui/menu.py:52-64 | the current tab's model becomes the resolved full name; without a current tab nothing changes; other tab state is kept |
| Menu.HamburgerMenu.UpdateModelMenu | mychatui/menu.py:66-84 | the menu gets the display names; with a current tab it shows the display name of its model, or "" |
| Preferences.PreferencesDefaultConfig | mychatui/preferences.py:40-55 | without a file: api_key "", model "", font_size 12, the two default models, and no active_tabs |
| Preferences.PreferencesConfigFacts | mychatui/preferences.py:18-55 | with a file, font_size is set only if absent, user_models is replaced only where the guard asks, other keys are untouched; without one there is no active_tabs |
| Preferences.ActiveTabsCommutes | mychatui/preferences.py:18-39 | filling active_tabs before or after the user_models guard gives the same configuration and the same failure |
| Preferences.AgreesWithApplication | mychatui/preferences.py:18-39 | the dialog loads a file as the application does, except for active_tabs |
| Preferences.LoadConfig | mychatui/preferences.py:18-55 | the in-place defaulting computes `PreferencesConfig` |
| Preferences.FontOptions | mychatui/preferences.py:90-92 | the options are `str()` of 10, 12, 14, 16, 18, 20 in order |
| Preferences.FontOptionsParse | mychatui/preferences.py:91-122 | every option reads back through `int()` as its size |
| Preferences.ConfiguredDisplayName | mychatui/preferences.py:79-86 | when the list reads, the result is the display_name of the first entry whose full_name equals the configured model, and "" when no entry matches; "" when user_models is absent |
| Preferences.ApplyThenReopen | mychatui/preferences.py:79-122 | after applying a display name from a well-formed list with unique names, reopening the dialog shows that same display name |
| Preferences.ApplyUpdate | mychatui/preferences.py:114-122 | api_key is the entry text; only api_key, model and font_size may change; errors are KeyError, TypeError or ValueError |
| Preferences.ApplyWellFormed | mychatui/preferences.py:116-122 | on well-formed models and an offered font, nothing raises, the model is the first match's full_name or unchanged without a match, and font_size is the chosen size |
| Preferences.PreferencesWindow.constructor | mychatui/preferences.py:14 | the dialog holds the loaded configuration |
| Preferences.PreferencesWindow.CreateWidgets | mychatui/preferences.py:63-94 | the entry shows api_key, the menu lists the display names and shows the configured model's, the font menu shows font_size |
| Preferences.PreferencesWindow.Apply | mychatui/preferences.py:114-122 | the configuration becomes `ApplyUpdate` of the widget texts, and the exception where the update stops |
| PyValues.Subscript | mychatui/adapters/beanutils.py:61 | `v[i]`: element or IndexError on list, tuple, str; entry or KeyError on dict; TypeError exactly on the rest |
| PyValues.GetItem | mychatui/menu.py:56 | `v[key]`: succeeds exactly on a dict with the key; KeyError on a dict, TypeError otherwise |
| PyValues.Pair | mychatui/adapters/aisuite.py:30-33 | a dict literal with two string keys has exactly those keys and values |
| PyValues.StrList | mychatui/app.py:244 | a list of strings has the names in order |
| PyStrings.Split | mychatui/adapters/beanutils.py:73 | `str.split` gives at least one part and no part holds the separator |
| PyStrings.JoinSplit | mychatui/adapters/beanutils.py:73 | joining the parts of a split gives the text back |
| PyStrings.SplitJoin | mychatui/adapters/beanutils.py:73 | splitting the join of separator-free parts gives the parts back |
| PyStrings.SplitNoSeparator | mychatui/adapters/beanutils.py:73 | a text without the separator splits into itself |
| PyStrings.SplitThroughSeparator | mychatui/adapters/beanutils.py:73 | splitting `a.b` with separator-free `a` gives `a`, then the parts of `b` |
| PyStrings.OccursShift | mychatui/adapters/anyllm.py:30 | an occurrence in the tail is an occurrence one further on |
| PyStrings.Contains | mychatui/adapters/anyllm.py:30 | `sub in s` iff `sub` occurs at some position |
| PyStrings.AbsentCharacter | mychatui/adapters/anyllm.py:30 | a pattern with a character the text lacks does not occur |
| PyStrings.ReplaceAbsent | mychatui/app.py:530 | `replace` of an absent pattern changes nothing |
| PyStrings.StripPrefix | mychatui/app.py:530 | removing the prefix from prefix + text gives the text when it holds no further copy |
| PyStrings.DigitChar | mychatui/app.py:258 | the digit character of a digit value |
| PyStrings.NatToString | mychatui/app.py:258 | `str(n)` is a non-empty digit run without a leading zero |
| PyStrings.NatToStringValue | mychatui/app.py:258 | the value of `str(n)` is `n` |
| PyStrings.ParseInt | mychatui/preferences.py:122 | `int(s)` succeeds iff `s` is digits with an optional sign; otherwise ValueError |
| PyStrings.ParseIntToString | mychatui/preferences.py:91-122 | `int(str(i)) == i` |

## Left out

- Widgets, layout, icons, shortcuts, context menus, `flash_widget`, `show_transient_message`, and the HTML styling and widget update of `update_textbox_html` after its join (mychatui/app.py:658-707): GUI code. The join itself, whose exception `send_message`, `get_ai_response` and `open_tab` let escape, is `App.HistoryHtml`. The text the entry field and option menus hold is a method parameter or a field.
- BeautifulSoup's `get_text` and MarkdownIt's `render`: foreign libraries. They are the function parameters `getText` and `render`, and `RecallSentMessage` states what it assumes of `getText`.
- Threading in `send_message` and `_get_ai_response_threaded`: concurrency. `_get_ai_response_threaded` itself, which passes the adapter's `response["content"]` on to `get_ai_response`, is not part of this model.
- The SDK network calls: they are the parameter `sdk` of `AnyLlm.Completion`, and the environment variable is the parameter `env`.
- `AiSuiteAdapter.completion`: it refers to the undefined names `ai`, `os` and `self.aisuite_adapter` and cannot run.
- File and JSON I/O, the file dialog, and the directory creation in `save_current_tab`. Decoded files are parameters. A configuration file that is valid JSON but not an object is not modelled.
- `init_ui`, `rename_current_tab`, `close_current_tab`, clearing and the tab-change refresh: outside the modelled core. The refresh `open_tab` does at its end is `Menu.HamburgerMenu.UpdateModelMenu`, which `App.ChatApp.OpenTab` does not call, because the menu module imports the application module.
- The voice modules, debug printing, `log_environment` and `main`.
- Attributes of built-in values, an object's own truthiness (`__bool__`, `__len__`) and an object's `__getitem__`: an object is truthy, and subscripting it raises TypeError.
- Python's `True == 1` and `1 == 1.0` equalities: values compare structurally.
- Unicode digits and surrounding whitespace in `int()`: only ASCII digits with an optional sign are read.
- Unicode digits in the index suffix: `idxre`'s `\d` (mychatui/adapters/beanutils.py:38) also matches non-ASCII decimal digits. `BeanUtils.ParseComponent` and its digit run accept ASCII digits only.
- The call to `self.master.apply_font_change()` at the end of `apply` (mychatui/preferences.py:124-125): it re-runs the application's `load_config` and refreshes its fonts (mychatui/app.py:746-749). The model of `apply` ends with the configuration it saves; `App.ChatApp.LoadConfig` models what the reload does.
- App.ChatApp.OpenTab: requires that a decoded tab file's tab_name be a string and its chat_history a list. The code would go on with other types, which `tab_view` and later methods cannot use.
- App.ChatApp.AddNewTab: the tab view's behaviour is taken from customtkinter: `add` refuses a name it already has with ValueError, and `tab` raises ValueError for an unknown name.
- Preferences.PreferencesWindow.CreateWidgets: `fontShown` is the font_size value whose `str()` the menu shows; `str()` of non-integer values is not modelled.
- Menu.HamburgerMenu.constructor: the option menu's initial shown text is left unstated.

## Findings

| source | as written | input that shows it | evidently intended | confidence | as-written member | corrected member |
|---|---|---|---|---|---|---|
| mychatui/adapters/beanutils.py:88-112 | a component `name[i]` indexes the value reached so far at `i` (a dict is iterable, so it is indexed at the integer key `i`), and only then looks `name` up | `getBeanValue({"list": [{"v": 1}, {"v": 2}]}, "list[1].v")` raises KeyError | look `name` up, then take element `i` of the list found, giving 2 (and the default for an out-of-range index) | medium, not executed | BeanUtils.IndexedPathOnDictRaises | BeanUtils.IntendedExamples |

`BeanUtils.BeanValue` and the `BeanUtils.GetBeanValue` loop keep the code's behaviour, because the adapters call `getBeanValue` as written. `BeanUtils.IntendedBeanValue` is the corrected reading. `BeanUtils.BeanValueAgreesWithoutIndex` proves that both readings agree on every path without index suffixes. The only paths the adapters use are `message.content` and `message.role`, which have no index suffixes.

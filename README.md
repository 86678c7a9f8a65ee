# React DOM event plugins and prop-validation hooks, modelled in Dafny

This project models six small pieces of the React DOM renderer. Together they decide which synthetic event, if any, a top-level browser event becomes, and which props trigger development warnings:

- **CustomEventPlugin** (`custom_event_plugin.dfy`). This is the catch-all plugin.
  - A top-level type such as `topCustom` loses a leading `top` and is lower-cased into a logical event name.
  - The plugin defers when the event plugin registry already knows that name.
  - Otherwise it builds a dispatch configuration once per logical name and caches it.
  - In development builds the handler name also goes into the registry's `possibleRegistrationNames`.
- **SimpleEventPlugin** (`simple_event_plugin.dfy`). This plugin owns the built-in types.
  - It keeps a per-event-name cache of the registry's dispatch configurations, seeded with `topClick` and `topDoubleClick`.
  - It defers to other plugins for names it has not cached and the registry knows.
  - It picks a synthetic event constructor from a fixed table.
  - It drops three kinds of event: keypresses with char code 0, right clicks, and button-like mouse events on a disabled interactive target.
- **floatDisabledEvent** (`float_disabled_event.dfy`). For a mouse event on a form control, it moves the target up the `_nativeParent` chain past every disabled instance, whatever that instance's tag. The guard is modelled as the code evaluates it (see Findings).
- **DisabledInputUtils.assignWithNativeProps** (`disabled_input_utils.dfy`).
  - It merges up to six prop objects, left to right.
  - When the merged props are disabled, it deletes the ten mouse-listener props in place.
- **ReactDOMInvalidARIAHook** (`invalid_aria_hook.dfy`).
  - A memoising validator of `aria-*` prop names against an allow-list.
  - It suggests the lower-case form when only the case is wrong.
  - It sums up the invalid props of an element in one singular or plural warning.
- **ReactDOMUnknownPropertyHook** (`unknown_property_hook.dfy`).
  - At module initialisation it builds lower-case-keyed suggestion tables.
  - A memoising validator then accepts known names, suggests the standard DOM property or event-handler name for miscased ones, and rejects the rest.

`common.dfy` holds the values these share:
- JavaScript prop values and their truthiness;
- rendered instances;
- ASCII lower-casing;
- dispatch configurations and synthetic events;
- React elements as ordered prop lists.

`tables.dfy` holds the foreign tables the core reads and writes: the event plugin registry and the DOM property tables. Their own code is not part of this model.

The model follows the source's own form:
- Module-level mutable state is a field of a class, and the methods that change it carry `modifies` clauses. This covers each plugin's `eventTypes` cache, each hook's `warnedProperties` memo, and the registry entries the core writes.
- `floatDisabledEvent`'s walk, `assignWithNativeProps`' merge and delete loop, the hooks' prop loops and the modules' initialisation loops are methods with loops.
- Each method is proved against a function that specifies it, and the source's promises are proved as lemmas about those functions.
- Warnings go to a `log` field: the chosen message template and its arguments, not the formatted text.

## Model

| member | source | states |
|---|---|---|
| CustomEventPlugin.BaseEventName | src/renderers/dom/client/eventPlugins/CustomEventPlugin.js:21-23 | a leading `top` is removed exactly once, so `"top" + base` is the input; a string without the prefix comes back unchanged |
| CustomEventPlugin.EventName | src/renderers/dom/client/eventPlugins/CustomEventPlugin.js:32-33 | the logical name is in lower case; it is the lower-cased type minus `top` when the type starts with `top`, and the lower-cased type otherwise |
| CustomEventPlugin.IsRegisteredByOtherPlugin | src/renderers/dom/client/eventPlugins/CustomEventPlugin.js:25-29 | definition: the registry's `eventNameDispatchConfigs` has the logical name as an own key; ExtractEvents is stated with it |
| CustomEventPlugin.CreatedConfig | src/renderers/dom/client/eventPlugins/CustomEventPlugin.js:36-42 | the new configuration has bubbled `"on" + base`, captured bubbled + `"Captured"`, no registration name and dependencies `[topLevelType]`; its bubbled name lower-cases to `"on"` + the logical name |
| CustomEventPlugin.CacheOnlyGrows | src/renderers/dom/client/eventPlugins/CustomEventPlugin.js:35-47 | the cache gains at most the logical name's key, and every existing entry keeps its configuration |
| CustomEventPlugin.CacheIdempotent | src/renderers/dom/client/eventPlugins/CustomEventPlugin.js:35-49 | a later call for a type with the same logical name, however cased, changes nothing and finds the entry of the first call |
| CustomEventPlugin.FirstCasingWins | src/renderers/dom/client/eventPlugins/CustomEventPlugin.js:31-50 | `topCustom`, then `topCUSTOM`: one entry `custom`, holding `onCustom`/`onCustomCaptured` and dependencies `["topCustom"]` |
| CustomEventPlugin.WithPossibleName | src/renderers/dom/client/eventPlugins/CustomEventPlugin.js:44-46 | on first creation, `possibleRegistrationNames` gains the logical name, mapped to the bubbled name; with the name already cached it is unchanged; other entries are always kept |
| CustomEventPlugin.WithPossibleNameIntended | src/renderers/dom/client/eventPlugins/CustomEventPlugin.js:44-46 | the corrected DEV write: keyed by the lower-cased handler name `"on"` + the logical name; otherwise as WithPossibleName |
| CustomEventPlugin.CreatedConfigIntended | src/renderers/dom/client/eventPlugins/CustomEventPlugin.js:39 | the corrected configuration: captured is bubbled + `"Capture"`; all else is as in CreatedConfig |
| CustomEventPlugin.CapturedNeverCapture | src/renderers/dom/client/eventPlugins/CustomEventPlugin.js:39 | as written, no custom event's capture name is its bubble name followed by `Capture` |
| CustomEventPlugin.CustomCaptureHandler | src/renderers/dom/client/eventPlugins/CustomEventPlugin.js:39 | for `topCustom` the capture name is `onCustomCaptured`, not the `onCustomCapture` that handlers bind; corrected, it is `onCustomCapture` |
| CustomEventPlugin.WithConfigFor | src/renderers/dom/client/eventPlugins/CustomEventPlugin.js:35-47 | definition of the cache after one call: an entry for the logical name is added only when missing; its properties are in CacheOnlyGrows and CacheIdempotent |
| CustomEventPlugin.CustomEventPlugin.constructor | src/renderers/dom/client/eventPlugins/CustomEventPlugin.js:19 | the cache starts empty |
| CustomEventPlugin.CustomEventPlugin.FindOrCreateDispatchConfig | src/renderers/dom/client/eventPlugins/CustomEventPlugin.js:31-50 | the new cache is WithConfigFor of the old one; the result is the cached entry, and the old entry when there was one; in DEV `possibleRegistrationNames` is updated as WithPossibleName says |
| CustomEventPlugin.CustomEventPlugin.ExtractEvents | src/renderers/dom/client/eventPlugins/CustomEventPlugin.js:54-75 | null exactly when the registry's `eventNameDispatchConfigs` has the logical name, and then nothing changes; otherwise a generic synthetic event carrying the cached configuration, with the cache updated |
| SimpleEventPlugin.SwitchOutcome | src/renderers/dom/shared/eventPlugins/SimpleEventPlugin.js:101-176 | the switch with its fall-throughs drops the event exactly when one of the three filters applies; otherwise it picks the constructor of the kind table, whose default is the generic event |
| SimpleEventPlugin.KindOf | src/renderers/dom/shared/eventPlugins/SimpleEventPlugin.js:101-176 | definition: the constructor table of the switch, flattened, with the generic event for every unlisted type; SwitchOutcome is proved against it |
| SimpleEventPlugin.Dropped | src/renderers/dom/shared/eventPlugins/SimpleEventPlugin.js:104-134 | definition: the three filters, a keypress with char code 0, a click with button 2, a button-like mouse type on a prevented target; SwitchOutcome is proved against it |
| SimpleEventPlugin.FilterRules | src/renderers/dom/shared/eventPlugins/SimpleEventPlugin.js:104-140 | keypress with char code 0 is dropped and other key events are keyboard events; a click with button 2 is dropped; the five button-like types are dropped iff the target should be prevented; mouse out, mouse over and context menu never are |
| SimpleEventPlugin.IsInteractive | src/renderers/dom/shared/eventPlugins/SimpleEventPlugin.js:61-66 | definition: the tag is one of `button`, `input`, `select`, `textarea` |
| SimpleEventPlugin.ShouldPreventMouseEvent | src/renderers/dom/shared/eventPlugins/SimpleEventPlugin.js:68-78 | definition: a present target whose own `disabled` prop is truthy and whose tag is interactive; it reads no ancestor, and FilterRules states the filters with it |
| SimpleEventPlugin.WithConfigFor | src/renderers/dom/shared/eventPlugins/SimpleEventPlugin.js:43-53 | the cache gains only the event name's key; existing entries are kept; a new entry is what the registry returns for the type |
| SimpleEventPlugin.ClaimedByOtherPlugin | src/renderers/dom/shared/eventPlugins/SimpleEventPlugin.js:80-85 | definition: the name is not cached here and the registry has a configuration for it; CachedNeverDefers and ExtractEvents are stated with it |
| SimpleEventPlugin.CachedNeverDefers | src/renderers/dom/shared/eventPlugins/SimpleEventPlugin.js:80-85 | after a name is cached, the plugin never defers for it; caching a name never makes it defer for any other |
| SimpleEventPlugin.SimpleEventPlugin.constructor | src/renderers/dom/shared/eventPlugins/SimpleEventPlugin.js:55-59 | after module initialisation the cache holds the configurations of `topClick` and `topDoubleClick`, each fetched from the registry once |
| SimpleEventPlugin.SimpleEventPlugin.FindOrCreateDispatchConfig | src/renderers/dom/shared/eventPlugins/SimpleEventPlugin.js:43-53 | returns the cached entry; the registry is asked only for an uncached name, and the ghost record of fetched names has no repetitions and equals the cache's keys |
| SimpleEventPlugin.SimpleEventPlugin.ExtractEvents | src/renderers/dom/shared/eventPlugins/SimpleEventPlugin.js:91-190 | null exactly when another plugin claims the name or a filter drops the event, leaving the cache alone; otherwise an event of the table's kind carrying the cached configuration |
| FloatDisabled.IndexOf | src/renderers/dom/client/eventPlugins/floatDisabledEvent.js:35 | `indexOf` gives the first position of the element, or -1 exactly when it is absent |
| FloatDisabled.NotThenAtMostZero | src/renderers/dom/client/eventPlugins/floatDisabledEvent.js:35 | definition: JavaScript's `!n <= 0`, the boolean `n == 0` converted to 1 or 0 and compared with 0 |
| FloatDisabled.GuardAsWritten | src/renderers/dom/client/eventPlugins/floatDisabledEvent.js:35 | definition: the third disjunct of the guard as the code evaluates it; GuardAsWrittenOnlyAdmitsClick states what it means |
| FloatDisabled.GuardIntended | src/renderers/dom/client/eventPlugins/floatDisabledEvent.js:35 | definition: the corrected disjunct, the type is not in `disableableEvents` |
| FloatDisabled.GuardAsWrittenOnlyAdmitsClick | src/renderers/dom/client/eventPlugins/floatDisabledEvent.js:19-35 | `!disableableEvents.indexOf(t) <= 0` holds for every type except `topClick` |
| FloatDisabled.Chain | src/renderers/dom/client/eventPlugins/floatDisabledEvent.js:39-41 | the chain walked starts at the target and stays among earlier instances |
| FloatDisabled.ChainFollowsParents | src/renderers/dom/client/eventPlugins/floatDisabledEvent.js:39-41 | each chain entry's `_nativeParent` is the next entry, and the last has none |
| FloatDisabled.FirstEnabled | src/renderers/dom/client/eventPlugins/floatDisabledEvent.js:39-43 | the walk gives the start itself exactly when it is not disabled; any result is the start or an earlier instance, and is not disabled |
| FloatDisabled.FirstEnabledOnChain | src/renderers/dom/client/eventPlugins/floatDisabledEvent.js:39-43 | the walk ends at the first chain instance that is not disabled, with every earlier one disabled; it ends at null exactly when every chain instance is disabled |
| FloatDisabled.FloatAsWritten | src/renderers/dom/client/eventPlugins/floatDisabledEvent.js:34-44 | no target gives no target; a non-disableable tag, a type other than `topClick` or an enabled target is returned unchanged; `topClick` on a disableable tag gives the walk's result |
| FloatDisabled.FloatIntended | src/renderers/dom/client/eventPlugins/floatDisabledEvent.js:34-44 | with the corrected guard, all five disableable types walk and every other type returns the target unchanged |
| FloatDisabled.FloatStaysOnChain | src/renderers/dom/client/eventPlugins/floatDisabledEvent.js:39-43 | a non-null result is the target or one of its native ancestors, and a result other than the target is not disabled (for both guards) |
| FloatDisabled.DoubleClickOnDisabledButton | src/renderers/dom/client/eventPlugins/floatDisabledEvent.js:35 | a double click on a disabled parentless button keeps the button as target as written, and gives no target as intended |
| FloatDisabled.WalkPastDisabled | src/renderers/dom/client/eventPlugins/floatDisabledEvent.js:39-41 | the `while` loop computes FirstEnabled |
| FloatDisabled.FloatDisabledEvent | src/renderers/dom/client/eventPlugins/floatDisabledEvent.js:34-44 | the function computes FloatAsWritten |
| FloatDisabled.FloatDisabledEventIntended | src/renderers/dom/client/eventPlugins/floatDisabledEvent.js:34-44 | the corrected function computes FloatIntended |
| DisabledInputUtils.MergeLastWins | src/renderers/dom/client/wrappers/DisabledInputUtils.js:43 | a merged key is one some source has, with the value from the last source that has it |
| DisabledInputUtils.Merge | src/renderers/dom/client/wrappers/DisabledInputUtils.js:43 | definition of `Object.assign({}, a, ..., f)` over the merged sources, later ones overriding; MergeLastWins states what it means |
| DisabledInputUtils.FirstSix | src/renderers/dom/client/wrappers/DisabledInputUtils.js:36 | definition: the positional parameters `a`..`f` are the first six arguments |
| DisabledInputUtils.SeventhFalsy | src/renderers/dom/client/wrappers/DisabledInputUtils.js:37 | definition: `!g`, the seventh argument is absent or `null`/`undefined` |
| DisabledInputUtils.AssignSpec | src/renderers/dom/client/wrappers/DisabledInputUtils.js:36-57 | definition of the outcome, error paths included; AssignOutcomes, DisabledResultHasNoMouseListeners and AssignIdempotent state what it means |
| DisabledInputUtils.AssignOutcomes | src/renderers/dom/client/wrappers/DisabledInputUtils.js:36-57 | a seventh object fails the invariant; a lone enabled argument is returned as is; otherwise the merge is returned, and when it is disabled its keys are exactly the merged keys minus the ten listener names, each kept value (`disabled` included) unchanged |
| DisabledInputUtils.DisabledResultHasNoMouseListeners | src/renderers/dom/client/wrappers/DisabledInputUtils.js:50-54 | a disabled result has none of the ten mouse-listener names |
| DisabledInputUtils.AssignIdempotent | src/renderers/dom/client/wrappers/DisabledInputUtils.js:43-56 | passing a result back in as the only argument returns it unchanged |
| DisabledInputUtils.AssignWithNativeProps | src/renderers/dom/client/wrappers/DisabledInputUtils.js:36-57 | the merge loop and the in-place delete loop compute AssignSpec, error cases included |
| InvalidAriaHook.CheckName | src/renderers/dom/shared/hooks/ReactDOMInvalidARIAHook.js:87-111 | an unseen name is invalid iff it matches `^aria-[…]*$` and neither it nor its lower-case form is allowed; it warns iff it matches, is not allowed, and its lower-case form is, and then the suggestion is that form |
| InvalidAriaHook.MatchesAria | src/renderers/dom/shared/hooks/ReactDOMInvalidARIAHook.js:20 | definition of `rARIA.test(name)`: the case-sensitive prefix `aria-` followed only by name characters |
| InvalidAriaHook.NonAriaNamesPass | src/renderers/dom/shared/hooks/ReactDOMInvalidARIAHook.js:91-111 | a name not starting with exactly `aria-` is valid with no warning |
| InvalidAriaHook.LowerCaseNamesGetNoSuggestion | src/renderers/dom/shared/hooks/ReactDOMInvalidARIAHook.js:92-106 | a name already in lower case never gets a suggestion |
| InvalidAriaHook.StepIdempotent | src/renderers/dom/shared/hooks/ReactDOMInvalidARIAHook.js:78-85 | every call records its name, and a second call on it changes nothing |
| InvalidAriaHook.Step | src/renderers/dom/shared/hooks/ReactDOMInvalidARIAHook.js:118-121 | definition: one `validateProperty` call of the loop over the memo, the collected props and the log; StepIdempotent states what it means |
| InvalidAriaHook.Scan | src/renderers/dom/shared/hooks/ReactDOMInvalidARIAHook.js:117-122 | definition: the loop, one Step per key in enumeration order; ScanCollectsFreshInvalid states what it collects |
| InvalidAriaHook.FreshInvalid | src/renderers/dom/shared/hooks/ReactDOMInvalidARIAHook.js:117-122 | definition of the keys the loop collects; FreshInvalidProperties states what they are |
| InvalidAriaHook.ScanCollectsFreshInvalid | src/renderers/dom/shared/hooks/ReactDOMInvalidARIAHook.js:117-122 | the loop records every key and collects exactly FreshInvalid's keys, in iteration order |
| InvalidAriaHook.FreshInvalidProperties | src/renderers/dom/shared/hooks/ReactDOMInvalidARIAHook.js:115-122 | the collected props are distinct, and are exactly the keys not warned before whose name is invalid |
| InvalidAriaHook.SummaryWarning | src/renderers/dom/shared/hooks/ReactDOMInvalidARIAHook.js:124-146 | no warning for no invalid props, the singular template with the one quoted name, the plural template for more |
| InvalidAriaHook.FormatPropList | src/renderers/dom/shared/hooks/ReactDOMInvalidARIAHook.js:124-126 | definition of the `map`/`join` of backtick-quoted names; TwoPropsMessage shows it on two props |
| InvalidAriaHook.TwoPropsMessage | src/renderers/dom/shared/hooks/ReactDOMInvalidARIAHook.js:124-126 | two props give the plural warning with backtick-quoted names joined by `", "` |
| InvalidAriaHook.InvalidAriaHook.constructor | src/renderers/dom/shared/hooks/ReactDOMInvalidARIAHook.js:19-20 | the memo starts empty and the name-character class is `ATTRIBUTE_NAME_CHAR` |
| InvalidAriaHook.InvalidAriaHook.ValidateProperty | src/renderers/dom/shared/hooks/ReactDOMInvalidARIAHook.js:77-112 | a name in the memo is valid with nothing changed; otherwise the name is recorded, and the result and warning are CheckName's |
| InvalidAriaHook.InvalidAriaHook.WarnInvalidAriaProps | src/renderers/dom/shared/hooks/ReactDOMInvalidARIAHook.js:114-147 | the loop is Scan over the prop keys in order, followed by the summary warning of the collected props |
| InvalidAriaHook.InvalidAriaHook.HandleElement | src/renderers/dom/shared/hooks/ReactDOMInvalidARIAHook.js:149-158 | nothing changes for a missing element, a non-string type, a type with `-` or a truthy `is`; otherwise the element's props are checked |
| UnknownPropertyHook.IndexByLowerCaseContents | src/renderers/dom/shared/hooks/ReactDOMUnknownPropertyHook.js:136-138 | the table gains exactly the lower-cased names as keys; an untouched key keeps its value; each key maps to the last name that lower-cases to it |
| UnknownPropertyHook.IndexByLowerCase | src/renderers/dom/shared/hooks/ReactDOMUnknownPropertyHook.js:136-138 | definition of the `forEach` writes, one per name in order; IndexByLowerCaseContents states what the table then holds |
| UnknownPropertyHook.AddLowerCaseKeys | src/renderers/dom/shared/hooks/ReactDOMUnknownPropertyHook.js:213-215 | the `forEach` loop computes IndexByLowerCase |
| UnknownPropertyHook.CheckRecorded | src/renderers/dom/shared/hooks/ReactDOMUnknownPropertyHook.js:231-274 | a handler name equal to its lower-case entry is valid with no warning; otherwise the exact-name standard suggestion comes first, then the lower-case event suggestion; the result is false iff neither exists |
| UnknownPropertyHook.StaticallyKnown | src/renderers/dom/shared/hooks/ReactDOMUnknownPropertyHook.js:220-229 | definition: in `properties`, reserved, or in `registrationNameModules` |
| UnknownPropertyHook.PassesUnrecorded | src/renderers/dom/shared/hooks/ReactDOMUnknownPropertyHook.js:220-229 | definition: the returns before the memo write, StaticallyKnown or already warned |
| UnknownPropertyHook.Step | src/renderers/dom/shared/hooks/ReactDOMUnknownPropertyHook.js:287 | definition: one `validateProperty` call over the memo and the log; StepRecords states what it means |
| UnknownPropertyHook.Scan | src/renderers/dom/shared/hooks/ReactDOMUnknownPropertyHook.js:286-288 | definition: the loop, one Step per key in enumeration order; ScanRecords states what it records |
| UnknownPropertyHook.StepRecords | src/renderers/dom/shared/hooks/ReactDOMUnknownPropertyHook.js:223-231 | a name that reaches the memo write is accepted by every later call with no change |
| UnknownPropertyHook.ScanRecords | src/renderers/dom/shared/hooks/ReactDOMUnknownPropertyHook.js:286-288 | after the loop the memo gains exactly the keys that are not properties, reserved or registered, with at most one warning per key |
| UnknownPropertyHook.HandlerNameCasing | src/renderers/dom/shared/hooks/ReactDOMUnknownPropertyHook.js:233-267 | a handler name in its canonical case is accepted silently; any other casing of it, lacking a DOM property suggestion, is pointed to the canonical name |
| UnknownPropertyHook.CustomHandlerEntryMissed | src/renderers/dom/client/eventPlugins/CustomEventPlugin.js:45 | as written, after `topCustom` is first created the handler prop `onCustom` is rejected when no other table knows it, since its entry is keyed `custom` and the lookup is by `oncustom` |
| UnknownPropertyHook.CustomHandlerEntryFoundIntended | src/renderers/dom/client/eventPlugins/CustomEventPlugin.js:45 | with the corrected key, the handler prop of every newly created custom event is accepted without a warning |
| UnknownPropertyHook.UnknownPropertyHook.constructor | src/renderers/dom/shared/hooks/ReactDOMUnknownPropertyHook.js:20-217 | module initialisation indexes `additionalProps` into `getPossibleStandardName` and `additionalEvents` into `possibleRegistrationNames` by lower-cased name; the memo starts empty |
| UnknownPropertyHook.UnknownPropertyHook.ValidateProperty | src/renderers/dom/shared/hooks/ReactDOMUnknownPropertyHook.js:219-275 | properties, reserved names, memoised names and registered handler names are valid and change nothing; any other name is recorded, and the result and warning are CheckRecorded's |
| UnknownPropertyHook.UnknownPropertyHook.HandleElement | src/renderers/dom/shared/hooks/ReactDOMUnknownPropertyHook.js:278-289 | nothing changes for a skipped element; otherwise every prop key is validated in order (Scan) and the results are discarded |

## Left out

- Event pooling and propagation are left out. This covers `SyntheticEvent.getPooled` and the other constructors' pools, and `EventPropagators.accumulateTwoPhaseDispatches`. A returned event is a value naming its constructor kind, configuration, target, native event and target node. Capture-then-bubble ordering is not claimed.
- The registry's own code is left out. `EventPluginRegistry.getEventType` and `findOrCreateDispatchConfig` are function-valued fields; their code is not part of this model. Any effect that code has on the registry's own tables (`eventNameDispatchConfigs`, `registrationNameModules`) during these calls is not modelled either.
- `getEventCharCode` is left out; its result is the `charCode` field of the native event.
- The `DOMProperty` tables and `ATTRIBUTE_NAME_CHAR` are foreign data. They are given as a set, a predicate, a character class and a map.
- Warning text is not modelled. Formatting, `ReactComponentTreeHook.getStackAddendumByID` and the `debugID` argument are diagnostics only; the log records the template chosen and its arguments.
- `__DEV__` is not modelled: the development configuration is modelled throughout. That includes the `possibleRegistrationNames` write in the custom plugin and the whole unknown-property hook.
- `toLowerCase` is modelled for the ASCII letters only; Unicode case mapping is not modelled.
- Only the string-keyed props the code names are modelled. JavaScript objects also inherit prototype keys (a type or tag named `constructor`, say); these lookups are not modelled. `NaN` is not among the modelled values.
- A cached configuration is modelled as a value, so "the same object" is value equality. `assignWithNativeProps` returning its argument is modelled likewise.
- The merged props object is a map, so the enumeration order of its keys is not modelled; the result does not depend on that order. Arguments that are neither objects nor `null`/`undefined` are not modelled.
- Instances form an arena in which every `_nativeParent` comes before the instance that points to it. This rules out cycles, which the renderer never builds. An instance without `_currentElement` is not modelled.
- The `onBeforeMountComponent`/`onBeforeUpdateComponent` wrappers of both hooks are left out. They only forward to `handleElement`.
- UnknownPropertyHook.IndexByLowerCaseContents: states that each lower-cased key maps to the last name with that form. It does not prove that the two name lists have distinct lower-case forms, so it does not show that every listed name maps to itself.

## Findings

| source | as written | input that shows it | evidently intended | confidence | as-written member | corrected member |
|---|---|---|---|---|---|---|
| src/renderers/dom/client/eventPlugins/floatDisabledEvent.js:35 | `!disableableEvents.indexOf(topLevelType) <= 0` parses as `(!indexOf(t)) <= 0`, which is true for every type except `topClick`, so only clicks walk past disabled controls | `topDoubleClick` on a disabled `<button>` with no ancestor: the disabled button stays the target | return early only when the type is not disableable (`indexOf(t) < 0`), so all five mouse types walk | high; not executed | FloatDisabled.FloatDisabledEvent (counterexample FloatDisabled.DoubleClickOnDisabledButton) | FloatDisabled.FloatDisabledEventIntended |
| src/renderers/dom/client/eventPlugins/CustomEventPlugin.js:39 | the capture-phase registration name is `"on" + base + "Captured"` | `topCustom` gives `onCustomCaptured`, while the custom-event capture tests bind `onCustomCapture` (src/renderers/dom/shared/eventPlugins/__tests__/SimpleEventPlugin-test.js:183) | `"on" + base + "Capture"`, the suffix of every other capture name (`onClickCapture` in DisabledInputUtils.js:24) | medium; not executed | CustomEventPlugin.CreatedConfig (counterexample CustomEventPlugin.CustomCaptureHandler, CustomEventPlugin.CapturedNeverCapture) | CustomEventPlugin.CreatedConfigIntended |
| src/renderers/dom/client/eventPlugins/CustomEventPlugin.js:45 | in DEV, `possibleRegistrationNames` gets the custom handler under the logical event name (`custom`), while the unknown-property hook looks handlers up by their lower-cased name (`oncustom`, src/renderers/dom/shared/hooks/ReactDOMUnknownPropertyHook.js:233-248), the key form its own `additionalEvents` entries use | `<div onCustom>` after `topCustom` was first seen, with no other table knowing `onCustom`: the hook rejects it as an unknown prop | key the entry by `("on" + base).toLowerCase()`, so the handler is accepted | medium; not executed | CustomEventPlugin.WithPossibleName (counterexample UnknownPropertyHook.CustomHandlerEntryMissed) | CustomEventPlugin.WithPossibleNameIntended (UnknownPropertyHook.CustomHandlerEntryFoundIntended) |

The plugin classes keep the code's behaviour: `FloatDisabledEvent` and the custom plugin's cache and DEV write use the as-written definitions. The corrected definitions stand beside them with their intended properties proved. Nothing else in the model depends on these choices.

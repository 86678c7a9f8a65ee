/** The custom-event plugin: a catch-all that turns any top-level type no other
    plugin claims into a generic synthetic event carrying a lazily created,
    cached dispatch configuration. */
module CustomEventPlugin {
  import opened Common
  import opened Tables

  predicate HasTopPrefix(s: string) {
    |s| >= 3 && s[..3] == "top"
  }

  /** `topLevelType.replace(/^top/, '')`: the prefix comes off when it is there,
      and once only; any other string is left alone. */
  function BaseEventName(topLevelType: string): (base: string)
    ensures HasTopPrefix(topLevelType) ==> "top" + base == topLevelType
    ensures !HasTopPrefix(topLevelType) ==> base == topLevelType
    ensures |base| <= |topLevelType|
  {
    if HasTopPrefix(topLevelType) then topLevelType[3..] else topLevelType
  }

  /** The logical event name: the base name, lower-cased. It is in lower case, and it
      is the lower-cased type minus the `top` prefix when the type has one. */
  function EventName(topLevelType: string): (name: string)
    ensures IsLowerCase(name)
    ensures HasTopPrefix(topLevelType) ==> ToLower(topLevelType) == "top" + name
    ensures !HasTopPrefix(topLevelType) ==> name == ToLower(topLevelType)
  {
    var base := BaseEventName(topLevelType);
    ToLowerAppend("top", base);
    LowerCaseFixed("top");
    ToLower(base)
  }

  /** `eventIsRegisteredByOtherPlugin`: the registry already knows the logical name. */
  predicate IsRegisteredByOtherPlugin(eventNameDispatchConfigs: map<string, DispatchConfig>, topLevelType: string) {
    EventName(topLevelType) in eventNameDispatchConfigs
  }

  /** The configuration `findOrCreateDispatchConfig` creates for a new logical name. */
  function CreatedConfig(topLevelType: string): (config: DispatchConfig)
    ensures config.phasedRegistrationNames.Some?
    ensures var names := config.phasedRegistrationNames.value;
      && names.bubbled == "on" + BaseEventName(topLevelType)
      && names.captured == names.bubbled + "Captured"
      && ToLower(names.bubbled) == "on" + EventName(topLevelType)
    ensures config.registrationName.None?
    ensures config.dependencies == [topLevelType]
  {
    var base := BaseEventName(topLevelType);
    ToLowerAppend("on", base);
    DispatchConfig(Some(PhasedRegistrationNames("on" + base, "on" + base + "Captured")), None, [topLevelType])
  }

  /** The configuration with the capture-phase name the rest of the renderer uses,
      `"on" + base + "Capture"` (as in `onClickCapture`). */
  function CreatedConfigIntended(topLevelType: string): (config: DispatchConfig)
    ensures config.phasedRegistrationNames.Some?
    ensures var names := config.phasedRegistrationNames.value;
      && names.bubbled == "on" + BaseEventName(topLevelType)
      && names.captured == names.bubbled + "Capture"
    ensures config.registrationName.None?
    ensures config.dependencies == [topLevelType]
    ensures config.phasedRegistrationNames.value.bubbled == CreatedConfig(topLevelType).phasedRegistrationNames.value.bubbled
  {
    var base := BaseEventName(topLevelType);
    DispatchConfig(Some(PhasedRegistrationNames("on" + base, "on" + base + "Capture")), None, [topLevelType])
  }

  /** As written, the capture-phase name of a custom event is never the bubble name
      followed by `Capture`, so a `on<Base>Capture` handler prop never names it. */
  lemma CapturedNeverCapture(topLevelType: string)
    ensures var names := CreatedConfig(topLevelType).phasedRegistrationNames.value;
      names.captured != names.bubbled + "Capture"
  {
    var names := CreatedConfig(topLevelType).phasedRegistrationNames.value;
    assert |names.captured| == |names.bubbled| + 8;
  }

  /** The `custom` event of the capture test: the handler prop is `onCustomCapture`;
      as written the configuration names `onCustomCaptured`, as intended `onCustomCapture`. */
  lemma CustomCaptureHandler()
    ensures CreatedConfig("topCustom").phasedRegistrationNames.value.captured == "onCustomCaptured"
    ensures CreatedConfig("topCustom").phasedRegistrationNames.value.captured != "onCustomCapture"
    ensures CreatedConfigIntended("topCustom").phasedRegistrationNames.value.captured == "onCustomCapture"
  {
    assert BaseEventName("topCustom") == "Custom";
    assert "on" + "Custom" + "Captured" == "onCustomCaptured";
    assert "on" + "Custom" + "Capture" == "onCustomCapture";
    assert |"onCustomCaptured"| != |"onCustomCapture"|;
  }

  /** The `eventTypes` cache after `findOrCreateDispatchConfig(topLevelType)`. */
  function WithConfigFor(eventTypes: map<string, DispatchConfig>, topLevelType: string): map<string, DispatchConfig> {
    var name := EventName(topLevelType);
    if name in eventTypes then eventTypes else eventTypes[name := CreatedConfig(topLevelType)]
  }

  /** The cache only grows: the logical name gets an entry, no other key is added,
      and every existing entry keeps its configuration. */
  lemma CacheOnlyGrows(eventTypes: map<string, DispatchConfig>, topLevelType: string)
    ensures WithConfigFor(eventTypes, topLevelType).Keys == eventTypes.Keys + {EventName(topLevelType)}
    ensures forall k :: k in eventTypes ==> WithConfigFor(eventTypes, topLevelType)[k] == eventTypes[k]
  {
  }

  /** Idempotence per logical name: once a name has its entry, every later call for
      a top-level type with the same lower-cased base name, however it is cased,
      finds that first entry and changes nothing. */
  lemma CacheIdempotent(eventTypes: map<string, DispatchConfig>, first: string, later: string)
    requires EventName(later) == EventName(first)
    ensures var once := WithConfigFor(eventTypes, first);
      && WithConfigFor(once, later) == once
      && once[EventName(later)] == (if EventName(first) in eventTypes then eventTypes[EventName(first)] else CreatedConfig(first))
  {
  }

  /** `topCustom` then `topCUSTOM`: both have the logical name `custom`, and the second
      call hands back the configuration the first created, with `onCustom`. */
  lemma FirstCasingWins()
    ensures var c := WithConfigFor(WithConfigFor(map[], "topCustom"), "topCUSTOM");
      && c.Keys == {"custom"}
      && c["custom"].phasedRegistrationNames == Some(PhasedRegistrationNames("onCustom", "onCustomCaptured"))
      && c["custom"].dependencies == ["topCustom"]
  {
    assert BaseEventName("topCustom") == "Custom";
    assert BaseEventName("topCUSTOM") == "CUSTOM";
    LowerOfCustom("Custom");
    LowerOfCustom("CUSTOM");
    assert "on" + "Custom" == "onCustom";
    assert "onCustom" + "Captured" == "onCustomCaptured";
  }

  lemma LowerOfCustom(s: string)
    requires s == "Custom" || s == "CUSTOM"
    ensures ToLower(s) == "custom"
  {
    var r := ToLower(s);
    assert |r| == 6;
    assert r[0] == 'c' && r[1] == 'u' && r[2] == 's' && r[3] == 't' && r[4] == 'o' && r[5] == 'm';
  }

  /** The possibleRegistrationNames entry written in DEV when a name is first created:
      keyed by the logical event name, with the bubble-phase registration name. */
  function WithPossibleName(possible: map<string, string>, eventTypes: map<string, DispatchConfig>, topLevelType: string): (r: map<string, string>)
    ensures EventName(topLevelType) !in eventTypes ==>
      r.Keys == possible.Keys + {EventName(topLevelType)} &&
      r[EventName(topLevelType)] == CreatedConfig(topLevelType).phasedRegistrationNames.value.bubbled
    ensures EventName(topLevelType) in eventTypes ==> r == possible
    ensures forall k :: k in possible && k != EventName(topLevelType) ==> k in r && r[k] == possible[k]
  {
    var name := EventName(topLevelType);
    if name in eventTypes then possible else possible[name := "on" + BaseEventName(topLevelType)]
  }

  /** The DEV entry keyed the way handler names are looked up, by the lower-cased
      registration name `("on" + base).toLowerCase()`. */
  function WithPossibleNameIntended(possible: map<string, string>, eventTypes: map<string, DispatchConfig>, topLevelType: string): (r: map<string, string>)
    ensures var key := ToLower(CreatedConfig(topLevelType).phasedRegistrationNames.value.bubbled);
      && key == "on" + EventName(topLevelType)
      && (EventName(topLevelType) !in eventTypes ==>
            r.Keys == possible.Keys + {key} &&
            r[key] == CreatedConfig(topLevelType).phasedRegistrationNames.value.bubbled)
      && (EventName(topLevelType) in eventTypes ==> r == possible)
      && (forall k :: k in possible && k != key ==> k in r && r[k] == possible[k])
  {
    var base := BaseEventName(topLevelType);
    if EventName(topLevelType) in eventTypes then possible else possible[ToLower("on" + base) := "on" + base]
  }

  /** The plugin's module-level state: the `eventTypes` cache. */
  class CustomEventPlugin {
    var eventTypes: map<string, DispatchConfig>

    constructor ()
      ensures eventTypes == map[]
    {
      eventTypes := map[];
    }

    /** `findOrCreateDispatchConfig`: creates the entry for a new logical name (and, in
        DEV, its possibleRegistrationNames entry); returns the cached entry. */
    method FindOrCreateDispatchConfig(registry: EventPluginRegistry, topLevelType: string) returns (config: DispatchConfig)
      modifies this, registry`possibleRegistrationNames
      ensures eventTypes == WithConfigFor(old(eventTypes), topLevelType)
      ensures config == eventTypes[EventName(topLevelType)]
      ensures EventName(topLevelType) in old(eventTypes) ==> config == old(eventTypes)[EventName(topLevelType)]
      ensures registry.possibleRegistrationNames ==
        WithPossibleName(old(registry.possibleRegistrationNames), old(eventTypes), topLevelType)
    {
      var base := BaseEventName(topLevelType);
      var eventName := ToLower(base);
      if eventName !in eventTypes {
        eventTypes := eventTypes[eventName := CreatedConfig(topLevelType)];
        registry.possibleRegistrationNames := registry.possibleRegistrationNames[eventName := "on" + base];
      }
      config := eventTypes[eventName];
    }

    /** `extractEvents`: defers (null) exactly when the registry knows the logical name,
        leaving the cache alone; otherwise a generic event with the cached configuration. */
    method ExtractEvents(
      registry: EventPluginRegistry,
      topLevelType: string,
      targetInst: Option<Instance>,
      nativeEvent: NativeEvent,
      nativeEventTarget: nat)
      returns (event: Option<SyntheticEvent>)
      modifies this, registry`possibleRegistrationNames
      ensures event.None? <==> IsRegisteredByOtherPlugin(registry.eventNameDispatchConfigs, topLevelType)
      ensures event.None? ==>
        eventTypes == old(eventTypes) && registry.possibleRegistrationNames == old(registry.possibleRegistrationNames)
      ensures event.Some? ==>
        && eventTypes == WithConfigFor(old(eventTypes), topLevelType)
        && registry.possibleRegistrationNames ==
           WithPossibleName(old(registry.possibleRegistrationNames), old(eventTypes), topLevelType)
        && event.value == SyntheticEvent(Generic, eventTypes[EventName(topLevelType)], targetInst, nativeEvent, nativeEventTarget)
    {
      if EventName(topLevelType) in registry.eventNameDispatchConfigs {
        return None;
      }
      var config := FindOrCreateDispatchConfig(registry, topLevelType);
      event := Some(SyntheticEvent(Generic, config, targetInst, nativeEvent, nativeEventTarget));
    }
  }
}

/** The simple-event plugin: owns the built-in top-level types, picks a synthetic
    event constructor for each from a fixed table, drops the events its three
    platform filters reject, and caches the registry's dispatch configurations. */
module SimpleEventPlugin {
  import opened Common
  import opened Tables

  /** The constructor table of `extractEvents`; every type it does not list gets the
      generic `SyntheticEvent`. */
  function KindOf(topLevelType: string): EventKind {
    match topLevelType
    case "topKeyPress" | "topKeyDown" | "topKeyUp" => Keyboard
    case "topBlur" | "topFocus" => Focus
    case "topClick" | "topDoubleClick" | "topMouseDown" | "topMouseMove" | "topMouseUp"
       | "topMouseOut" | "topMouseOver" | "topContextMenu" => Mouse
    case "topDrag" | "topDragEnd" | "topDragEnter" | "topDragExit" | "topDragLeave"
       | "topDragOver" | "topDragStart" | "topDrop" => Drag
    case "topTouchCancel" | "topTouchEnd" | "topTouchMove" | "topTouchStart" => Touch
    case "topAnimationEnd" | "topAnimationIteration" | "topAnimationStart" => Animation
    case "topTransitionEnd" => Transition
    case "topScroll" => UI
    case "topWheel" => Wheel
    case "topCopy" | "topCut" | "topPaste" => Clipboard
    case _ => Generic
  }

  /** The types whose events a disabled interactive target does not receive. */
  const MouseButtonTypes: set<string> :=
    {"topClick", "topDoubleClick", "topMouseDown", "topMouseMove", "topMouseUp"}

  /** `isInteractive` */
  predicate IsInteractive(tag: string) {
    tag == "button" || tag == "input" || tag == "select" || tag == "textarea"
  }

  /** `shouldPreventMouseEvent`: the target itself is disabled and interactive. */
  predicate ShouldPreventMouseEvent(inst: Option<Instance>) {
    inst.Some? && IsDisabled(inst.value) && IsInteractive(inst.value.tag)
  }

  /** The three filters of `extractEvents`. */
  predicate Dropped(topLevelType: string, nativeEvent: NativeEvent, targetInst: Option<Instance>) {
    || (topLevelType == "topKeyPress" && nativeEvent.charCode == 0)
    || (topLevelType == "topClick" && nativeEvent.button == Some(2))
    || (topLevelType in MouseButtonTypes && ShouldPreventMouseEvent(targetInst))
  }

  /** The `switch` of `extractEvents`, fall-throughs included: null when a filter
      drops the event, otherwise the constructor chosen. */
  function SwitchOutcome(topLevelType: string, nativeEvent: NativeEvent, targetInst: Option<Instance>): (r: Option<EventKind>)
    ensures r.None? <==> Dropped(topLevelType, nativeEvent, targetInst)
    ensures r.Some? ==> r.value == KindOf(topLevelType)
  {
    match topLevelType
    case "topKeyPress" => if nativeEvent.charCode == 0 then None else Some(Keyboard)
    case "topKeyDown" | "topKeyUp" => Some(Keyboard)
    case "topBlur" | "topFocus" => Some(Focus)
    case "topClick" =>
      if nativeEvent.button == Some(2) then None
      else if ShouldPreventMouseEvent(targetInst) then None
      else Some(Mouse)
    case "topDoubleClick" | "topMouseDown" | "topMouseMove" | "topMouseUp" =>
      if ShouldPreventMouseEvent(targetInst) then None else Some(Mouse)
    case "topMouseOut" | "topMouseOver" | "topContextMenu" => Some(Mouse)
    case "topDrag" | "topDragEnd" | "topDragEnter" | "topDragExit" | "topDragLeave"
       | "topDragOver" | "topDragStart" | "topDrop" => Some(Drag)
    case "topTouchCancel" | "topTouchEnd" | "topTouchMove" | "topTouchStart" => Some(Touch)
    case "topAnimationEnd" | "topAnimationIteration" | "topAnimationStart" => Some(Animation)
    case "topTransitionEnd" => Some(Transition)
    case "topScroll" => Some(UI)
    case "topWheel" => Some(Wheel)
    case "topCopy" | "topCut" | "topPaste" => Some(Clipboard)
    case _ => Some(Generic)
  }

  /** The filters one by one: a zero char code drops a keypress, other key events are
      keyboard events; a right click is dropped; the five button-like types are dropped
      exactly for a disabled interactive target; out, over and context-menu never are. */
  lemma FilterRules(nativeEvent: NativeEvent, targetInst: Option<Instance>)
    ensures nativeEvent.charCode == 0 ==> SwitchOutcome("topKeyPress", nativeEvent, targetInst).None?
    ensures nativeEvent.charCode != 0 ==> SwitchOutcome("topKeyPress", nativeEvent, targetInst) == Some(Keyboard)
    ensures SwitchOutcome("topKeyDown", nativeEvent, targetInst) == Some(Keyboard)
    ensures SwitchOutcome("topKeyUp", nativeEvent, targetInst) == Some(Keyboard)
    ensures nativeEvent.button == Some(2) ==> SwitchOutcome("topClick", nativeEvent, targetInst).None?
    ensures nativeEvent.button != Some(2) ==>
      (SwitchOutcome("topClick", nativeEvent, targetInst).None? <==> ShouldPreventMouseEvent(targetInst))
    ensures forall t :: t in MouseButtonTypes - {"topClick"} ==>
      (SwitchOutcome(t, nativeEvent, targetInst).None? <==> ShouldPreventMouseEvent(targetInst))
    ensures forall t :: t in {"topMouseOut", "topMouseOver", "topContextMenu"} ==>
      SwitchOutcome(t, nativeEvent, targetInst) == Some(Mouse)
  {
  }

  /** `findOrCreateDispatchConfig`'s effect on the cache: the registry is asked only
      for an event name that is not cached yet. */
  function WithConfigFor(
    eventTypes: map<string, DispatchConfig>,
    getEventType: string -> string,
    resolve: string -> DispatchConfig,
    topLevelType: string): (r: map<string, DispatchConfig>)
    ensures r.Keys == eventTypes.Keys + {getEventType(topLevelType)}
    ensures forall k :: k in eventTypes ==> r[k] == eventTypes[k]
    ensures getEventType(topLevelType) !in eventTypes ==> r[getEventType(topLevelType)] == resolve(topLevelType)
  {
    var name := getEventType(topLevelType);
    if name in eventTypes then eventTypes else eventTypes[name := resolve(topLevelType)]
  }

  /** `eventIsRegisteredByOtherPlugin`: not cached here, and known to the registry. */
  predicate ClaimedByOtherPlugin(eventTypes: map<string, DispatchConfig>, eventNameDispatchConfigs: map<string, DispatchConfig>, eventName: string) {
    eventName !in eventTypes && eventName in eventNameDispatchConfigs
  }

  /** Once a name is cached the plugin never defers for it, whatever the registry holds;
      and caching a name never makes the plugin defer for any name. */
  lemma CachedNeverDefers(
    eventTypes: map<string, DispatchConfig>,
    getEventType: string -> string,
    resolve: string -> DispatchConfig,
    topLevelType: string,
    configs: map<string, DispatchConfig>,
    other: string)
    ensures !ClaimedByOtherPlugin(WithConfigFor(eventTypes, getEventType, resolve, topLevelType), configs, getEventType(topLevelType))
    ensures ClaimedByOtherPlugin(WithConfigFor(eventTypes, getEventType, resolve, topLevelType), configs, other) ==>
      ClaimedByOtherPlugin(eventTypes, configs, other)
  {
  }

  /** The plugin's module-level state: the `eventTypes` cache and, as a ghost record,
      the event names for which the registry's configuration was fetched. */
  class SimpleEventPlugin {
    const registry: EventPluginRegistry
    var eventTypes: map<string, DispatchConfig>
    ghost var fetched: seq<string>

    /** The registry was asked once for every cached name and never twice for one. */
    ghost predicate Valid()
      reads this
    {
      NoDuplicates(fetched) && (set n | n in fetched) == eventTypes.Keys
    }

    /** Module initialisation: the cache is seeded with `topClick` and `topDoubleClick`. */
    constructor (registry: EventPluginRegistry)
      ensures this.registry == registry && Valid()
      ensures eventTypes ==
        WithConfigFor(WithConfigFor(map[], registry.getEventType, registry.findOrCreateDispatchConfig, "topClick"),
                      registry.getEventType, registry.findOrCreateDispatchConfig, "topDoubleClick")
      ensures registry.getEventType("topClick") in eventTypes && registry.getEventType("topDoubleClick") in eventTypes
    {
      this.registry := registry;
      eventTypes := map[];
      fetched := [];
      new;
      var _ := FindOrCreateDispatchConfig("topClick");
      var _ := FindOrCreateDispatchConfig("topDoubleClick");
    }

    /** `findOrCreateDispatchConfig`: the cached entry, fetched from the registry only
        the first time its event name is seen. */
    method FindOrCreateDispatchConfig(topLevelType: string) returns (config: DispatchConfig)
      requires Valid()
      modifies this`eventTypes, this`fetched
      ensures Valid()
      ensures eventTypes == WithConfigFor(old(eventTypes), registry.getEventType, registry.findOrCreateDispatchConfig, topLevelType)
      ensures config == eventTypes[registry.getEventType(topLevelType)]
      ensures registry.getEventType(topLevelType) in old(eventTypes) ==>
        config == old(eventTypes)[registry.getEventType(topLevelType)] && fetched == old(fetched)
      ensures registry.getEventType(topLevelType) !in old(eventTypes) ==>
        fetched == old(fetched) + [registry.getEventType(topLevelType)]
    {
      var eventName := registry.getEventType(topLevelType);
      if eventName !in eventTypes {
        var config := registry.findOrCreateDispatchConfig(topLevelType);
        eventTypes := eventTypes[eventName := config];
        fetched := fetched + [eventName];
        assert (set n | n in fetched) == (set n | n in old(fetched)) + {eventName};
      }
      config := eventTypes[eventName];
    }

    /** `extractEvents`: null when another plugin owns the name or a filter drops the
        event, and then the cache is left alone; otherwise an event of the table's kind
        carrying the cached configuration. */
    method ExtractEvents(
      topLevelType: string,
      targetInst: Option<Instance>,
      nativeEvent: NativeEvent,
      nativeEventTarget: nat)
      returns (event: Option<SyntheticEvent>)
      requires Valid()
      modifies this`eventTypes, this`fetched
      ensures Valid()
      ensures event.None? <==>
        ClaimedByOtherPlugin(old(eventTypes), registry.eventNameDispatchConfigs, registry.getEventType(topLevelType))
        || Dropped(topLevelType, nativeEvent, targetInst)
      ensures event.None? ==> eventTypes == old(eventTypes) && fetched == old(fetched)
      ensures event.Some? ==>
        && eventTypes == WithConfigFor(old(eventTypes), registry.getEventType, registry.findOrCreateDispatchConfig, topLevelType)
        && event.value == SyntheticEvent(KindOf(topLevelType), eventTypes[registry.getEventType(topLevelType)],
                                         targetInst, nativeEvent, nativeEventTarget)
    {
      var eventName := registry.getEventType(topLevelType);
      if eventName !in eventTypes && eventName in registry.eventNameDispatchConfigs {
        return None;
      }
      var kind := SwitchOutcome(topLevelType, nativeEvent, targetInst);
      if kind.None? {
        return None;
      }
      var config := FindOrCreateDispatchConfig(topLevelType);
      event := Some(SyntheticEvent(kind.value, config, targetInst, nativeEvent, nativeEventTarget));
    }
  }
}

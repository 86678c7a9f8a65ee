/** `ReactDOMUnknownPropertyHook` (development build): warns, once per name, about a
    prop that is neither a known DOM property, a reserved prop nor a registered event
    handler, suggesting the correctly cased DOM property or handler name when one is
    known, and at module initialisation adds lower-case keyed suggestion entries. */
module UnknownPropertyHook {
  import opened Common
  import opened Tables
  import CustomEvents = CustomEventPlugin

  /** `additionalProps`: case-sensitive property names absent from the property list. */
  const AdditionalProps: seq<string> := [
    "acceptCharset", "accessKey", "allowReorder", "allowTransparency", "attributeName",
    "attributeType", "autoCapitalize", "autoComplete", "autoCorrect", "autoFocus", "autoReverse",
    "autoSave", "baseFrequency", "baseProfile", "calcMode", "cellPadding", "cellSpacing",
    "charSet", "classID", "className", "clipPathUnits", "colSpan", "contentEditable",
    "contentScriptType", "contentStyleType", "contextMenu", "crossOrigin", "dateTime",
    "diffuseConstant", "edgeMode", "encType", "externalResourcesRequired", "filterRes",
    "filterUnits", "formAction", "formEncType", "formMethod", "formTarget", "frameBorder",
    "glyphRef", "gradientTransform", "gradientUnits", "hrefLang", "htmlFor", "httpEquiv",
    "inputMode", "itemID", "itemProp", "itemRef", "itemType", "kernelMatrix", "kernelUnitLength",
    "keyParams", "keyPoints", "keySplines", "keyTimes", "keyType", "lengthAdjust",
    "limitingConeAngle", "marginHeight", "marginWidth", "markerHeight", "markerUnits",
    "markerWidth", "maskContentUnits", "maskUnits", "maxLength", "mediaGroup", "minLength",
    "numOctaves", "patternContentUnits", "patternTransform", "patternUnits", "playsInline",
    "pointsAtX", "pointsAtY", "pointsAtZ", "preserveAlpha", "preserveAspectRatio",
    "primitiveUnits", "radioGroup", "referrerPolicy", "refX", "refY", "repeatCount", "repeatDur",
    "requiredExtensions", "requiredFeatures", "specularConstant", "specularExponent", "spellCheck",
    "spreadMethod", "srcDoc", "srcLang", "srcSet", "startOffset", "stdDeviation", "stitchTiles",
    "surfaceScale", "systemLanguage", "tabIndex", "tableValues", "targetX", "targetY",
    "textLength", "useMap", "viewBox", "viewTarget", "xChannelSelector", "yChannelSelector",
    "zoomAndPan"]

  /** `additionalEvents`: the handler prop names of the built-in events. */
  const AdditionalEvents: seq<string> := [
    "onAbort", "onAnimationEnd", "onAnimationIteration", "onAnimationStart", "onBlur", "onCanPlay",
    "onCanPlayThrough", "onClick", "onContextMenu", "onCopy", "onCut", "onDoubleClick", "onDrag",
    "onDragEnd", "onDragEnter", "onDragExit", "onDragLeave", "onDragOver", "onDragStart", "onDrop",
    "onDurationChange", "onEmptied", "onEncrypted", "onEnded", "onError", "onFocus", "onInput",
    "onInvalid", "onKeyDown", "onKeyPress", "onKeyUp", "onLoad", "onLoadedData",
    "onLoadedMetadata", "onLoadStart", "onMouseDown", "onMouseMove", "onMouseOut", "onMouseOver",
    "onMouseUp", "onPaste", "onPause", "onPlay", "onPlaying", "onProgress", "onRateChange",
    "onReset", "onScroll", "onSeeked", "onSeeking", "onStalled", "onSubmit", "onSuspend",
    "onTimeUpdate", "onTouchCancel", "onTouchEnd", "onTouchMove", "onTouchStart",
    "onTransitionEnd", "onVolumeChange", "onWaiting", "onWheel", "onBeforeInput", "onChange",
    "onCompositionEnd", "onCompositionStart", "onCompositionUpdate", "onMouseEnter",
    "onMouseLeave", "onSelect"]

  /** `names.forEach(name => table[name.toLowerCase()] = name)` */
  function IndexByLowerCase(table: map<string, string>, names: seq<string>): map<string, string>
    decreases |names|
  {
    if names == [] then table
    else
      var n := |names| - 1;
      IndexByLowerCase(table, names[..n])[ToLower(names[n]) := names[n]]
  }

  /** The lower-cased keys are added and nothing else; an existing key no name lowers
      to keeps its value; each added key maps to the last name that lowers to it, so a
      name no later name collides with maps to itself. */
  lemma {:induction false} IndexByLowerCaseContents(table: map<string, string>, names: seq<string>)
    ensures var r := IndexByLowerCase(table, names);
      && r.Keys == table.Keys + (set n | n in names :: ToLower(n))
      && (forall k :: k in table && (forall n :: n in names ==> ToLower(n) != k) ==> r[k] == table[k])
      && (forall i :: 0 <= i < |names| && (forall j :: i < j < |names| ==> ToLower(names[j]) != ToLower(names[i])) ==>
            r[ToLower(names[i])] == names[i])
    decreases |names|
  {
    if names != [] {
      var n := |names| - 1;
      var init := names[..n];
      IndexByLowerCaseContents(table, init);
      assert names == init + [names[n]];
      assert (set x | x in names :: ToLower(x)) == (set x | x in init :: ToLower(x)) + {ToLower(names[n])};
      var r := IndexByLowerCase(table, names);
      forall i | 0 <= i < |names| && (forall j :: i < j < |names| ==> ToLower(names[j]) != ToLower(names[i]))
        ensures r[ToLower(names[i])] == names[i]
      {
        if i < n {
          assert init[i] == names[i];
          assert forall j :: i < j < n ==> init[j] == names[j];
        }
      }
    }
  }

  /** Module initialisation's loop: add the lower-cased key of every name. */
  method AddLowerCaseKeys(table: map<string, string>, names: seq<string>) returns (r: map<string, string>)
    ensures r == IndexByLowerCase(table, names)
  {
    r := table;
    for i := 0 to |names|
      invariant r == IndexByLowerCase(table, names[..i])
    {
      assert names[..i + 1][..i] == names[..i];
      r := r[ToLower(names[i]) := names[i]];
    }
    assert names[..|names|] == names;
  }

  datatype Warning =
    | UnknownDomProperty(name: string, standardName: string)          // 'Unknown DOM property %s. Did you mean %s?'
    | UnknownEventHandler(name: string, registrationName: string)     // 'Unknown event handler property %s. Did you mean `%s`?'

  /** What `validateProperty` reads of the DOM property tables and the registry. */
  datatype Lookups = Lookups(
    properties: set<string>,
    isReservedProp: string -> bool,
    registrationNameModules: set<string>,
    possibleRegistrationNames: map<string, string>,
    getPossibleStandardName: map<string, string>)

  /** Names accepted before the memo is consulted or written: DOM properties, reserved
      props and registered handler names. */
  predicate StaticallyKnown(tables: Lookups, name: string) {
    name in tables.properties || tables.isReservedProp(name) || name in tables.registrationNameModules
  }

  /** The checks `validateProperty` makes before recording the name (lines that return
      true without touching `warnedProperties`). */
  predicate PassesUnrecorded(tables: Lookups, warned: set<string>, name: string) {
    StaticallyKnown(tables, name) || name in warned
  }

  /** What `validateProperty` returns and warns once it has recorded the name. */
  datatype Check = Check(valid: bool, warning: Option<Warning>)

  function CheckRecorded(tables: Lookups, name: string): (c: Check)
    ensures var lower := ToLower(name);
      && (!c.valid <==> name !in tables.getPossibleStandardName && lower !in tables.possibleRegistrationNames)
      && (lower in tables.possibleRegistrationNames && tables.possibleRegistrationNames[lower] == name ==>
            c == Check(true, None))
      && (name in tables.getPossibleStandardName
          && !(lower in tables.possibleRegistrationNames && tables.possibleRegistrationNames[lower] == name) ==>
            c == Check(true, Some(UnknownDomProperty(name, tables.getPossibleStandardName[name]))))
      && (name !in tables.getPossibleStandardName && lower in tables.possibleRegistrationNames
          && tables.possibleRegistrationNames[lower] != name ==>
            c == Check(true, Some(UnknownEventHandler(name, tables.possibleRegistrationNames[lower]))))
  {
    var lowerCasedName := ToLower(name);
    if lowerCasedName in tables.possibleRegistrationNames && tables.possibleRegistrationNames[lowerCasedName] == name then
      Check(true, None)
    else if name in tables.getPossibleStandardName then
      Check(true, Some(UnknownDomProperty(name, tables.getPossibleStandardName[name])))
    else if lowerCasedName in tables.possibleRegistrationNames then
      Check(true, Some(UnknownEventHandler(name, tables.possibleRegistrationNames[lowerCasedName])))
    else
      Check(false, None)
  }

  /** The memo and the warnings emitted so far. */
  datatype HookState = HookState(warned: set<string>, log: seq<Warning>)

  /** One `validateProperty(tagName, name)` call. */
  function Step(tables: Lookups, st: HookState, name: string): HookState {
    if PassesUnrecorded(tables, st.warned, name) then st
    else HookState(st.warned + {name}, st.log + Emitted(CheckRecorded(tables, name).warning))
  }

  /** A name that reaches the memo write is accepted silently by every later call. */
  lemma StepRecords(tables: Lookups, st: HookState, name: string)
    ensures PassesUnrecorded(tables, Step(tables, st, name).warned, name)
    ensures Step(tables, Step(tables, st, name), name) == Step(tables, st, name)
  {
  }

  /** The loop of `handleElement`, one Step per key in order. */
  function Scan(tables: Lookups, st: HookState, keys: seq<string>): HookState
    decreases |keys|
  {
    if keys == [] then st
    else Step(tables, Scan(tables, st, keys[..|keys| - 1]), keys[|keys| - 1])
  }

  /** After the loop the memo holds exactly the keys that are not statically known,
      and there is at most one warning per key. */
  lemma {:induction false} ScanRecords(tables: Lookups, st: HookState, keys: seq<string>)
    ensures Scan(tables, st, keys).warned == st.warned + (set k | k in keys && !StaticallyKnown(tables, k))
    ensures |Scan(tables, st, keys).log| <= |st.log| + |keys|
    decreases |keys|
  {
    if keys != [] {
      var n := |keys| - 1;
      ScanRecords(tables, st, keys[..n]);
      assert keys == keys[..n] + [keys[n]];
      assert (set k | k in keys && !StaticallyKnown(tables, k)) ==
        (set k | k in keys[..n] && !StaticallyKnown(tables, k)) + (if StaticallyKnown(tables, keys[n]) then {} else {keys[n]});
    }
  }

  /** With the tables module initialisation builds, a handler name written in the
      canonical case of its table entry is accepted, and the same name in any other case
      is pointed to the canonical one (unless a DOM property suggestion takes precedence). */
  lemma HandlerNameCasing(tables: Lookups, canonical: string, name: string)
    requires ToLower(canonical) in tables.possibleRegistrationNames
    requires tables.possibleRegistrationNames[ToLower(canonical)] == canonical
    ensures CheckRecorded(tables, canonical) == Check(true, None)
    ensures ToLower(name) == ToLower(canonical) && name != canonical && name !in tables.getPossibleStandardName ==>
      CheckRecorded(tables, name) == Check(true, Some(UnknownEventHandler(name, canonical)))
  {
  }

  /** As written, the custom plugin's DEV entry for `topCustom` is keyed `custom`, while
      this hook looks handler names up by their lower-cased form `oncustom`: a handler
      prop `onCustom` that nothing else lists is rejected as unknown. */
  lemma CustomHandlerEntryMissed(tables: Lookups)
    requires "oncustom" !in tables.possibleRegistrationNames
    requires "onCustom" !in tables.getPossibleStandardName
    ensures var written := tables.(possibleRegistrationNames :=
        CustomEvents.WithPossibleName(tables.possibleRegistrationNames, map[], "topCustom"));
      !CheckRecorded(written, "onCustom").valid
  {
    assert CustomEvents.BaseEventName("topCustom") == "Custom";
    CustomEvents.LowerOfCustom("Custom");
    ToLowerAppend("on", "Custom");
    LowerCaseFixed("on");
    assert "on" + "Custom" == "onCustom";
    assert ToLower("onCustom") == "oncustom";
  }

  /** With the entry keyed by the lower-cased handler name, the handler prop of every
      newly created custom event is accepted without a warning. */
  lemma CustomHandlerEntryFoundIntended(tables: Lookups, eventTypes: map<string, DispatchConfig>, topLevelType: string)
    requires CustomEvents.EventName(topLevelType) !in eventTypes
    ensures var handler := CustomEvents.CreatedConfig(topLevelType).phasedRegistrationNames.value.bubbled;
      var written := tables.(possibleRegistrationNames :=
        CustomEvents.WithPossibleNameIntended(tables.possibleRegistrationNames, eventTypes, topLevelType));
      CheckRecorded(written, handler) == Check(true, None)
  {
  }

  /** The hook's module-level state: the `warnedProperties` memo and the warnings
      emitted so far, beside the foreign tables it reads. */
  class UnknownPropertyHook {
    const registry: EventPluginRegistry
    const dom: DomProperty
    var warnedProperties: set<string>
    var log: seq<Warning>

    function Tables(): Lookups
      reads registry, dom
    {
      Lookups(dom.properties, dom.isReservedProp, registry.registrationNameModules,
              registry.possibleRegistrationNames, dom.getPossibleStandardName)
    }

    /** Module initialisation: the two `forEach` loops over the name lists. */
    constructor (registry: EventPluginRegistry, dom: DomProperty)
      modifies registry`possibleRegistrationNames, dom`getPossibleStandardName
      ensures this.registry == registry && this.dom == dom
      ensures dom.getPossibleStandardName == IndexByLowerCase(old(dom.getPossibleStandardName), AdditionalProps)
      ensures registry.possibleRegistrationNames == IndexByLowerCase(old(registry.possibleRegistrationNames), AdditionalEvents)
      ensures warnedProperties == {} && log == []
    {
      this.registry := registry;
      this.dom := dom;
      warnedProperties := {};
      log := [];
      new;
      dom.getPossibleStandardName := AddLowerCaseKeys(dom.getPossibleStandardName, AdditionalProps);
      registry.possibleRegistrationNames := AddLowerCaseKeys(registry.possibleRegistrationNames, AdditionalEvents);
    }

    /** `validateProperty(tagName, name, debugID)` */
    method ValidateProperty(tagName: string, name: string) returns (valid: bool)
      modifies this`warnedProperties, this`log
      ensures PassesUnrecorded(Tables(), old(warnedProperties), name) ==>
        valid && warnedProperties == old(warnedProperties) && log == old(log)
      ensures !PassesUnrecorded(Tables(), old(warnedProperties), name) ==>
        && warnedProperties == old(warnedProperties) + {name}
        && valid == CheckRecorded(Tables(), name).valid
        && log == old(log) + Emitted(CheckRecorded(Tables(), name).warning)
    {
      if name in dom.properties {
        return true;
      }
      if dom.isReservedProp(name) || name in warnedProperties {
        return true;
      }
      if name in registry.registrationNameModules {
        return true;
      }
      warnedProperties := warnedProperties + {name};
      var lowerCasedName := ToLower(name);
      if lowerCasedName in registry.possibleRegistrationNames && registry.possibleRegistrationNames[lowerCasedName] == name {
        return true;
      }
      var standardName: Option<string> :=
        if name in dom.getPossibleStandardName then Some(dom.getPossibleStandardName[name]) else None;
      var registrationName: Option<string> :=
        if lowerCasedName in registry.possibleRegistrationNames then Some(registry.possibleRegistrationNames[lowerCasedName]) else None;
      if standardName.Some? {
        log := log + [UnknownDomProperty(name, standardName.value)];
        return true;
      } else if registrationName.Some? {
        log := log + [UnknownEventHandler(name, registrationName.value)];
        return true;
      } else {
        return false;
      }
    }

    /** `handleElement(debugID, element)`: validates every prop key, discarding the results. */
    method HandleElement(element: Option<Element>)
      modifies this`warnedProperties, this`log
      ensures !HasCheckedProps(element) ==> warnedProperties == old(warnedProperties) && log == old(log)
      ensures HasCheckedProps(element) ==>
        HookState(warnedProperties, log) ==
          Scan(Tables(), HookState(old(warnedProperties), old(log)), PropKeys(element.value.props))
    {
      if element.None? || !element.value.elementType.TagName? {
        return;
      }
      if '-' in element.value.elementType.name || Truthy(LookupProp(element.value.props, "is")) {
        return;
      }
      var keys := PropKeys(element.value.props);
      ghost var start := HookState(warnedProperties, log);
      for i := 0 to |keys|
        invariant HookState(warnedProperties, log) == Scan(Tables(), start, keys[..i])
      {
        assert keys[..i + 1][..i] == keys[..i];
        var _ := ValidateProperty(element.value.elementType.name, keys[i]);
      }
      assert keys[..|keys|] == keys;
    }
  }
}

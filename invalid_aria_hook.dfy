/** `ReactDOMInvalidARIAHook`: warns, once per name, about `aria-*` props that are not
    ARIA attributes, suggesting the lower-case form when that one is an attribute,
    and reports the remaining invalid props of an element in one summary warning. */
module InvalidAriaHook {
  import opened Common
  import opened Tables

  /** `allowed`: the ARIA states and properties. */
  const Allowed: seq<string> := [
    "aria-current", "aria-details", "aria-disabled", "aria-hidden", "aria-invalid",
    "aria-keyshortcuts", "aria-label", "aria-roledescription",
    "aria-autocomplete", "aria-checked", "aria-expanded", "aria-haspopup", "aria-level",
    "aria-modal", "aria-multiline", "aria-multiselectable", "aria-orientation",
    "aria-placeholder", "aria-pressed", "aria-readonly", "aria-required", "aria-selected",
    "aria-sort", "aria-valuemax", "aria-valuemin", "aria-valuenow", "aria-valuetext",
    "aria-atomic", "aria-busy", "aria-live", "aria-relevant",
    "aria-dropeffect", "aria-grabbed",
    "aria-activedescendant", "aria-colcount", "aria-colindex", "aria-colspan",
    "aria-controls", "aria-describedby", "aria-errormessage", "aria-flowto",
    "aria-labelledby", "aria-owns", "aria-posinset", "aria-rowcount", "aria-rowindex",
    "aria-rowspan", "aria-setsize"]

  /** `rARIA.test(name)`: `^(aria)-[ATTRIBUTE_NAME_CHAR]*$`, the prefix case-sensitive. */
  predicate MatchesAria(isAttributeNameChar: char -> bool, name: string) {
    && |name| >= 5 && name[..5] == "aria-"
    && forall i :: 5 <= i < |name| ==> isAttributeNameChar(name[i])
  }

  datatype Warning =
    | UnknownAriaAttribute(name: string, suggestion: string)  // 'Unknown ARIA attribute %s. Did you mean %s?'
    | InvalidAriaProp(props: string, tag: string)              // 'Invalid aria prop %s on <%s> tag.'
    | InvalidAriaProps(props: string, tag: string)             // 'Invalid aria props %s on <%s> tag.'

  /** What `validateProperty` returns and warns for a name it has not seen yet. */
  datatype Check = Check(valid: bool, warning: Option<Warning>)

  function CheckName(isAttributeNameChar: char -> bool, name: string): (c: Check)
    ensures !c.valid <==>
      MatchesAria(isAttributeNameChar, name) && name !in Allowed && ToLower(name) !in Allowed
    ensures c.warning.Some? <==>
      MatchesAria(isAttributeNameChar, name) && name !in Allowed && ToLower(name) in Allowed
    ensures c.warning.Some? ==>
      c.valid && c.warning == Some(UnknownAriaAttribute(name, ToLower(name))) && ToLower(name) != name
  {
    if name in Allowed then Check(true, None)
    else if MatchesAria(isAttributeNameChar, name) then
      var lowerCasedName := ToLower(name);
      if lowerCasedName in Allowed then Check(true, Some(UnknownAriaAttribute(name, lowerCasedName)))
      else Check(false, None)
    else Check(true, None)
  }

  /** A name that does not start with exactly `aria-` (so `ARIA-label` or `data-x`) is
      accepted without a warning. */
  lemma NonAriaNamesPass(isAttributeNameChar: char -> bool, name: string)
    requires !(|name| >= 5 && name[..5] == "aria-")
    ensures CheckName(isAttributeNameChar, name) == Check(true, None)
  {
  }

  /** A name already in lower case is never given a suggestion: it is either allowed,
      not an `aria-*` name at all, or invalid. */
  lemma {:induction false} LowerCaseNamesGetNoSuggestion(isAttributeNameChar: char -> bool, name: string)
    requires IsLowerCase(name)
    ensures CheckName(isAttributeNameChar, name).warning.None?
  {
    LowerCaseFixed(name);
  }

  /** The memo (`warnedProperties`), the invalid props collected so far and the warnings
      emitted so far. */
  datatype ScanState = ScanState(warned: set<string>, invalid: seq<string>, log: seq<Warning>)

  /** One `validateProperty(tagName, name)` call inside the loop of `warnInvalidARIAProps`. */
  function Step(isAttributeNameChar: char -> bool, st: ScanState, name: string): ScanState {
    if name in st.warned then st
    else
      var c := CheckName(isAttributeNameChar, name);
      ScanState(st.warned + {name}, if c.valid then st.invalid else st.invalid + [name], st.log + Emitted(c.warning))
  }

  /** Every call records its name, so validating the same name again changes nothing:
      the second call returns true and warns no more. */
  lemma StepIdempotent(isAttributeNameChar: char -> bool, st: ScanState, name: string)
    ensures name in Step(isAttributeNameChar, st, name).warned
    ensures Step(isAttributeNameChar, Step(isAttributeNameChar, st, name), name) == Step(isAttributeNameChar, st, name)
  {
  }

  /** The loop over `keys`, one Step per key in order. */
  function Scan(isAttributeNameChar: char -> bool, st: ScanState, keys: seq<string>): ScanState
    decreases |keys|
  {
    if keys == [] then st
    else Step(isAttributeNameChar, Scan(isAttributeNameChar, st, keys[..|keys| - 1]), keys[|keys| - 1])
  }

  /** The keys whose call returns false, in iteration order: a key's first occurrence,
      when it was not warned about before and is not a valid name. */
  function FreshInvalid(isAttributeNameChar: char -> bool, warned: set<string>, keys: seq<string>): seq<string>
    decreases |keys|
  {
    if keys == [] then []
    else
      var n := |keys| - 1;
      var prev := FreshInvalid(isAttributeNameChar, warned, keys[..n]);
      if keys[n] !in warned && keys[n] !in keys[..n] && !CheckName(isAttributeNameChar, keys[n]).valid
      then prev + [keys[n]] else prev
  }

  /** The loop records every key, and collects exactly the keys FreshInvalid names, in
      iteration order, after those collected before. */
  lemma {:induction false} ScanCollectsFreshInvalid(isAttributeNameChar: char -> bool, st: ScanState, keys: seq<string>)
    ensures Scan(isAttributeNameChar, st, keys).warned == st.warned + (set k | k in keys)
    ensures Scan(isAttributeNameChar, st, keys).invalid == st.invalid + FreshInvalid(isAttributeNameChar, st.warned, keys)
    decreases |keys|
  {
    if keys != [] {
      var n := |keys| - 1;
      ScanCollectsFreshInvalid(isAttributeNameChar, st, keys[..n]);
      assert (set k | k in keys) == (set k | k in keys[..n]) + {keys[n]} by {
        assert keys == keys[..n] + [keys[n]];
      }
    }
  }

  /** The collected props are distinct, invalid, new to the memo, and taken from the keys. */
  lemma {:induction false} FreshInvalidProperties(isAttributeNameChar: char -> bool, warned: set<string>, keys: seq<string>)
    ensures var inv := FreshInvalid(isAttributeNameChar, warned, keys);
      && NoDuplicates(inv)
      && forall x :: x in inv <==> x in keys && x !in warned && !CheckName(isAttributeNameChar, x).valid
    decreases |keys|
  {
    if keys != [] {
      var n := |keys| - 1;
      FreshInvalidProperties(isAttributeNameChar, warned, keys[..n]);
      assert keys == keys[..n] + [keys[n]];
      var prev := FreshInvalid(isAttributeNameChar, warned, keys[..n]);
      forall x ensures x in FreshInvalid(isAttributeNameChar, warned, keys) <==>
        x in keys && x !in warned && !CheckName(isAttributeNameChar, x).valid
      {
        if x in keys && x !in keys[..n] {
          assert x == keys[n];
        }
      }
    }
  }

  function Quoted(prop: string): string {
    "`" + prop + "`"
  }

  /** `invalidProps.map(prop => '`' + prop + '`').join(', ')` */
  function FormatPropList(props: seq<string>): string
    decreases |props|
  {
    if props == [] then ""
    else if |props| == 1 then Quoted(props[0])
    else Quoted(props[0]) + ", " + FormatPropList(props[1..])
  }

  /** The summary warning: none for no invalid props, the singular template for one and
      the plural template for more. */
  function SummaryWarning(invalid: seq<string>, tag: string): (w: Option<Warning>)
    ensures w.None? <==> invalid == []
    ensures |invalid| == 1 ==> w == Some(InvalidAriaProp(Quoted(invalid[0]), tag))
    ensures |invalid| > 1 ==> w.Some? && w.value.InvalidAriaProps? && w.value.tag == tag
  {
    if |invalid| == 1 then Some(InvalidAriaProp(FormatPropList(invalid), tag))
    else if |invalid| > 1 then Some(InvalidAriaProps(FormatPropList(invalid), tag))
    else None
  }

  lemma TwoPropsMessage()
    ensures SummaryWarning(["aria-foo", "aria-bar"], "div") ==
      Some(InvalidAriaProps("`aria-foo`, `aria-bar`", "div"))
  {
    var ps := ["aria-foo", "aria-bar"];
    assert ps[1..] == ["aria-bar"];
    assert FormatPropList(ps) == Quoted("aria-foo") + ", " + Quoted("aria-bar");
    assert Quoted("aria-foo") + ", " + Quoted("aria-bar") == "`aria-foo`, `aria-bar`";
  }

  /** The hook's module-level state: the `warnedProperties` memo, and the warnings
      emitted so far. */
  class InvalidAriaHook {
    const isAttributeNameChar: char -> bool
    var warnedProperties: set<string>
    var log: seq<Warning>

    constructor (dom: DomProperty)
      ensures isAttributeNameChar == dom.isAttributeNameChar
      ensures warnedProperties == {} && log == []
    {
      isAttributeNameChar := dom.isAttributeNameChar;
      warnedProperties := {};
      log := [];
    }

    /** `validateProperty(tagName, name, debugID)` */
    method ValidateProperty(tagName: string, name: string) returns (valid: bool)
      modifies this`warnedProperties, this`log
      ensures name in old(warnedProperties) ==>
        valid && warnedProperties == old(warnedProperties) && log == old(log)
      ensures name !in old(warnedProperties) ==>
        && warnedProperties == old(warnedProperties) + {name}
        && valid == CheckName(isAttributeNameChar, name).valid
        && log == old(log) + Emitted(CheckName(isAttributeNameChar, name).warning)
    {
      if name in warnedProperties {
        return true;
      }
      warnedProperties := warnedProperties + {name};
      if name in Allowed {
        return true;
      }
      if MatchesAria(isAttributeNameChar, name) {
        var lowerCasedName := ToLower(name);
        if lowerCasedName in Allowed {
          log := log + [UnknownAriaAttribute(name, lowerCasedName)];
          return true;
        }
        return false;
      }
      return true;
    }

    /** `warnInvalidARIAProps(debugID, element)` for an element of tag `tag`. */
    method WarnInvalidAriaProps(tag: string, props: seq<Prop>)
      modifies this`warnedProperties, this`log
      ensures var st := Scan(isAttributeNameChar, ScanState(old(warnedProperties), [], old(log)), PropKeys(props));
        && warnedProperties == st.warned
        && log == st.log + Emitted(SummaryWarning(st.invalid, tag))
    {
      var keys := PropKeys(props);
      var invalidProps: seq<string> := [];
      ghost var start := ScanState(warnedProperties, [], log);
      for i := 0 to |keys|
        invariant ScanState(warnedProperties, invalidProps, log) == Scan(isAttributeNameChar, start, keys[..i])
      {
        assert keys[..i + 1][..i] == keys[..i];
        var isValid := ValidateProperty(tag, keys[i]);
        if !isValid {
          invalidProps := invalidProps + [keys[i]];
        }
      }
      assert keys[..|keys|] == keys;
      var w := SummaryWarning(invalidProps, tag);
      log := log + Emitted(w);
    }

    /** `handleElement(debugID, element)` */
    method HandleElement(element: Option<Element>)
      modifies this`warnedProperties, this`log
      ensures !HasCheckedProps(element) ==> warnedProperties == old(warnedProperties) && log == old(log)
      ensures HasCheckedProps(element) ==>
        var st := Scan(isAttributeNameChar, ScanState(old(warnedProperties), [], old(log)), PropKeys(element.value.props));
        && warnedProperties == st.warned
        && log == st.log + Emitted(SummaryWarning(st.invalid, element.value.elementType.name))
    {
      if element.None? || !element.value.elementType.TagName? {
        return;
      }
      if '-' in element.value.elementType.name || Truthy(LookupProp(element.value.props, "is")) {
        return;
      }
      WarnInvalidAriaProps(element.value.elementType.name, element.value.props);
    }
  }
}

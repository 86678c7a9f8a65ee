/** Values shared by the DOM renderer's event plugins and prop-validation hooks:
    optional values, JavaScript prop values and their truthiness, rendered
    instances, ASCII lower-casing, dispatch configurations and synthetic events. */
module Common {

  datatype Option<+T> = None | Some(value: T)

  datatype Result<+T, +E> = Ok(value: T) | Err(error: E)

  /** A prop value, as far as JavaScript truthiness is concerned. */
  datatype Value =
    | Undefined
    | Null
    | Bool(b: bool)
    | Num(n: int)
    | Str(s: string)
    | Obj(id: nat)   // an object or a function, such as an event handler

  /** JavaScript's `!!v` (NaN is not modelled). */
  predicate Truthy(v: Value) {
    match v
    case Undefined => false
    case Null => false
    case Bool(b) => b
    case Num(n) => n != 0
    case Str(s) => s != ""
    case Obj(_) => true
  }

  /** The own enumerable props of an object. */
  type PropMap = map<string, Value>

  /** `props[key]`: `undefined` when the key is absent. */
  function Get(props: PropMap, key: string): Value {
    if key in props then props[key] else Undefined
  }

  /** `!!props[key]` */
  predicate PropTruthy(props: PropMap, key: string) {
    Truthy(Get(props, key))
  }

  /** A rendered native component instance: `_tag`, the props of
      `_currentElement`, and `_nativeParent`, a handle of the nearest native
      ancestor in an arena of instances. */
  datatype Instance = Instance(tag: string, props: PropMap, nativeParent: Option<nat>)

  /** The string `disabled` prop is truthy on the instance. */
  predicate IsDisabled(inst: Instance) {
    PropTruthy(inst.props, "disabled")
  }

  /** `String.prototype.toLowerCase`, for the ASCII letters. */
  function LowerChar(c: char): char {
    if 'A' <= c <= 'Z' then (c as int + 32) as char else c
  }

  /** Lower-casing keeps the length and leaves no upper-case letter behind. */
  function ToLower(s: string): (r: string)
    ensures |r| == |s|
    ensures forall i :: 0 <= i < |s| ==> r[i] == LowerChar(s[i]) && !('A' <= r[i] <= 'Z')
  {
    seq(|s|, i requires 0 <= i < |s| => LowerChar(s[i]))
  }

  lemma ToLowerAppend(a: string, b: string)
    ensures ToLower(a + b) == ToLower(a) + ToLower(b)
  {
    assert forall i :: 0 <= i < |a + b| ==> ToLower(a + b)[i] == (ToLower(a) + ToLower(b))[i];
  }

  /** A string that lower-casing leaves as it is. */
  predicate IsLowerCase(s: string) {
    forall i :: 0 <= i < |s| ==> LowerChar(s[i]) == s[i]
  }

  lemma LowerCaseFixed(s: string)
    requires IsLowerCase(s)
    ensures ToLower(s) == s
  {
  }

  predicate NoDuplicates(s: seq<string>) {
    forall i, j :: 0 <= i < j < |s| ==> s[i] != s[j]
  }

  /** The warnings one `warning(...)` call site adds to the log: none or one. */
  function Emitted<W>(w: Option<W>): seq<W> {
    match w
    case None => []
    case Some(x) => [x]
  }

  /** The bubble- and capture-phase handler prop names of an event. */
  datatype PhasedRegistrationNames = PhasedRegistrationNames(bubbled: string, captured: string)

  /** A dispatch configuration. */
  datatype DispatchConfig = DispatchConfig(
    phasedRegistrationNames: Option<PhasedRegistrationNames>,
    registrationName: Option<string>,
    dependencies: seq<string>)

  /** The synthetic event constructors a plugin may choose. */
  datatype EventKind =
    | Generic      // SyntheticEvent
    | Animation    // SyntheticAnimationEvent
    | Clipboard    // SyntheticClipboardEvent
    | Focus        // SyntheticFocusEvent
    | Keyboard     // SyntheticKeyboardEvent
    | Mouse        // SyntheticMouseEvent
    | Drag         // SyntheticDragEvent
    | Touch        // SyntheticTouchEvent
    | Transition   // SyntheticTransitionEvent
    | UI           // SyntheticUIEvent
    | Wheel        // SyntheticWheelEvent

  /** What the plugins read of a native event: `charCode` stands for the value
      `getEventCharCode(nativeEvent)` returns, `button` for `nativeEvent.button`
      (absent on events that have none). */
  datatype NativeEvent = NativeEvent(charCode: int, button: Option<int>)

  /** The event `EventConstructor.getPooled(config, targetInst, nativeEvent,
      nativeEventTarget)` hands out; `nativeEventTarget` is an opaque DOM node handle. */
  datatype SyntheticEvent = SyntheticEvent(
    kind: EventKind,
    dispatchConfig: DispatchConfig,
    targetInst: Option<Instance>,
    nativeEvent: NativeEvent,
    nativeEventTarget: nat)

  /** A prop of a React element, in the order `for…in` enumerates them. */
  datatype Prop = Prop(key: string, value: Value)

  /** `element.type`: a tag name string, or a composite component (any non-string). */
  datatype ElementType = TagName(name: string) | Composite(id: nat)

  datatype Element = Element(elementType: ElementType, props: seq<Prop>)

  /** The keys of `element.props`, in enumeration order. */
  function PropKeys(props: seq<Prop>): (keys: seq<string>)
    ensures |keys| == |props|
    ensures forall i :: 0 <= i < |props| ==> keys[i] == props[i].key
  {
    if props == [] then [] else [props[0].key] + PropKeys(props[1..])
  }

  /** `element.props[key]`, the first prop of that key. */
  function LookupProp(props: seq<Prop>, key: string): Value {
    if props == [] then Undefined
    else if props[0].key == key then props[0].value
    else LookupProp(props[1..], key)
  }

  /** The guard both validation hooks put before looking at props: a present element
      whose type is a string without `-` (not a custom element) and whose `is` prop
      is falsy. */
  predicate HasCheckedProps(element: Option<Element>) {
    && element.Some?
    && element.value.elementType.TagName?
    && '-' !in element.value.elementType.name
    && !Truthy(LookupProp(element.value.props, "is"))
  }
}

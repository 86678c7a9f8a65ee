/** `DisabledInputUtils.assignWithNativeProps`: merge up to six prop objects and,
    when the merged props are disabled, strip the ten mouse-listener props. */
module DisabledInputUtils {
  import opened Common

  /** `disableableMouseListenerNames` */
  const DisableableMouseListenerNames: set<string> := {
    "onClick", "onDoubleClick", "onMouseDown", "onMouseMove", "onMouseUp",
    "onClickCapture", "onDoubleClickCapture", "onMouseDownCapture", "onMouseMoveCapture", "onMouseUpCapture"}

  /** A positional argument: `null`/`undefined`, or a props object. */
  datatype Arg = Missing | Props(props: PropMap)

  datatype AssignError =
    | TooManyArguments   // `invariant(!g, ...)` fails
    | DisabledOfMissing  // `a.disabled` read on a missing sole argument

  /** The own props of one `Object.assign` source: none for `null` or `undefined`. */
  function Own(a: Arg): PropMap {
    match a
    case Missing => map[]
    case Props(p) => p
  }

  /** `Object.assign({}, s0, s1, ...)`: later sources override earlier ones. */
  function Merge(sources: seq<Arg>): PropMap
    decreases |sources|
  {
    if sources == [] then map[] else Merge(sources[..|sources| - 1]) + Own(sources[|sources| - 1])
  }

  /** A key is merged exactly when some source has it, and it takes the value of the
      last source that has it. */
  lemma {:induction false} MergeLastWins(sources: seq<Arg>, k: string)
    ensures k in Merge(sources) <==> exists i :: 0 <= i < |sources| && k in Own(sources[i])
    ensures k in Merge(sources) ==>
      exists i :: 0 <= i < |sources| && k in Own(sources[i]) && Merge(sources)[k] == Own(sources[i])[k]
               && forall j :: i < j < |sources| ==> k !in Own(sources[j])
    decreases |sources|
  {
    if sources != [] {
      var n := |sources| - 1;
      var init := sources[..n];
      MergeLastWins(init, k);
      assert forall i :: 0 <= i < n ==> sources[i] == init[i];
      if k in Own(sources[n]) {
        assert Merge(sources)[k] == Own(sources[n])[k];
      } else if k in Merge(init) {
        var i :| 0 <= i < n && k in Own(init[i]) && Merge(init)[k] == Own(init[i])[k]
                 && forall j :: i < j < n ==> k !in Own(init[j]);
        assert k in Own(sources[i]) && Merge(sources)[k] == Own(sources[i])[k];
      }
    }
  }

  /** The positional parameters `a`..`f`: the first six arguments. */
  function FirstSix(args: seq<Arg>): seq<Arg> {
    if |args| <= 6 then args else args[..6]
  }

  /** `!g`: the seventh argument is absent or null. */
  predicate SeventhFalsy(args: seq<Arg>) {
    |args| < 7 || args[6].Missing?
  }

  /** What `assignWithNativeProps(...args)` returns or throws. */
  function AssignSpec(args: seq<Arg>): Result<PropMap, AssignError> {
    if !SeventhFalsy(args) then Err(TooManyArguments)
    else if |args| == 1 && args[0].Missing? then Err(DisabledOfMissing)
    else if |args| == 1 && !PropTruthy(args[0].props, "disabled") then Ok(args[0].props)
    else
      var merged := Merge(FirstSix(args));
      if !PropTruthy(merged, "disabled") then Ok(merged)
      else Ok(merged - DisableableMouseListenerNames)
  }

  /** The documented outcomes: a seventh object fails the invariant; a lone enabled
      argument comes back as it is; otherwise the merge comes back, minus exactly the
      ten listener names when it is disabled, every other key and value (`disabled`
      among them) kept. */
  lemma AssignOutcomes(args: seq<Arg>)
    ensures (|args| >= 7 && args[6].Props?) <==> AssignSpec(args) == Err(TooManyArguments)
    ensures |args| == 1 && args[0].Props? && !PropTruthy(args[0].props, "disabled") ==>
      AssignSpec(args) == Ok(args[0].props)
    ensures SeventhFalsy(args) && !(|args| == 1 && args[0].Missing?) ==>
      var merged := Merge(FirstSix(args));
      && AssignSpec(args).Ok?
      && (!PropTruthy(merged, "disabled") ==> AssignSpec(args).value == merged)
      && (PropTruthy(merged, "disabled") ==>
            && AssignSpec(args).value.Keys == merged.Keys - DisableableMouseListenerNames
            && (forall k :: k in AssignSpec(args).value ==> AssignSpec(args).value[k] == merged[k])
            && PropTruthy(AssignSpec(args).value, "disabled"))
  {
    if |args| == 1 && args[0].Props? {
      assert FirstSix(args) == args;
      assert Merge(args) == map[] + args[0].props;
      assert Merge(args) == args[0].props;
    }
  }

  /** No successful result holds a mouse listener while it is disabled. */
  lemma DisabledResultHasNoMouseListeners(args: seq<Arg>)
    requires AssignSpec(args).Ok? && PropTruthy(AssignSpec(args).value, "disabled")
    ensures AssignSpec(args).value.Keys !! DisableableMouseListenerNames
  {
    if |args| == 1 && !PropTruthy(args[0].props, "disabled") {
    } else {
      var merged := Merge(FirstSix(args));
      if !PropTruthy(merged, "disabled") {
      }
    }
  }

  /** Idempotence: feeding a result back in as the only argument returns it unchanged. */
  lemma AssignIdempotent(args: seq<Arg>)
    requires AssignSpec(args).Ok?
    ensures AssignSpec([Props(AssignSpec(args).value)]) == AssignSpec(args)
  {
    var out := AssignSpec(args).value;
    assert FirstSix([Props(out)]) == [Props(out)];
    assert [Props(out)][..0] == [];
    assert Merge([Props(out)]) == map[] + out == out;
    if PropTruthy(out, "disabled") {
      DisabledResultHasNoMouseListeners(args);
      assert out - DisableableMouseListenerNames == out;
    }
  }

  /** `assignWithNativeProps(a, b, c, d, e, f, g)` */
  method AssignWithNativeProps(args: seq<Arg>) returns (r: Result<PropMap, AssignError>)
    ensures r == AssignSpec(args)
  {
    if !(|args| < 7 || args[6].Missing?) {
      return Err(TooManyArguments);
    }
    if |args| == 1 {
      if args[0].Missing? {
        return Err(DisabledOfMissing);
      }
      if !PropTruthy(args[0].props, "disabled") {
        return Ok(args[0].props);
      }
    }
    var sources := FirstSix(args);
    var nativeProps: PropMap := map[];
    for i := 0 to |sources|
      invariant nativeProps == Merge(sources[..i])
    {
      assert sources[..i + 1][..i] == sources[..i];
      nativeProps := nativeProps + Own(sources[i]);
    }
    assert sources[..|sources|] == sources;
    if !PropTruthy(nativeProps, "disabled") {
      return Ok(nativeProps);
    }
    ghost var merged := nativeProps;
    var keys := nativeProps.Keys;
    while keys != {}
      invariant keys <= merged.Keys
      invariant nativeProps == merged - ((merged.Keys - keys) * DisableableMouseListenerNames)
      decreases keys
    {
      var key :| key in keys;
      if key in DisableableMouseListenerNames {
        nativeProps := nativeProps - {key};
      }
      keys := keys - {key};
    }
    assert nativeProps == merged - DisableableMouseListenerNames;
    r := Ok(nativeProps);
  }
}

/** `floatDisabledEvent`: for a pointer event on a disabled form control, move the
    event's target up the native ancestor chain past every disabled instance. The
    guard is modelled as written, with its operator-precedence slip; the corrected
    guard is modelled beside it. */
module FloatDisabled {
  import opened Common

  /** `disableableEvents`, in order. */
  const DisableableEvents: seq<string> :=
    ["topClick", "topDoubleClick", "topMouseDown", "topMouseMove", "topMouseUp"]

  /** The keys of `disableableTags`. */
  const DisableableTags: set<string> := {"input", "button", "select", "textarea"}

  /** `Array.prototype.indexOf`: the first position of `x`, or -1. */
  function IndexOf(s: seq<string>, x: string): (i: int)
    ensures -1 <= i < |s|
    ensures i == -1 <==> x !in s
    ensures i >= 0 ==> s[i] == x && x !in s[..i]
  {
    if s == [] then -1
    else if s[0] == x then 0
    else var j := IndexOf(s[1..], x); if j == -1 then -1 else j + 1
  }

  /** JavaScript's `!n <= 0` on a number: `!n` is the boolean `n == 0`, which `<=`
      converts to 1 or 0 before comparing it with 0. */
  predicate NotThenAtMostZero(n: int) {
    var negated := n == 0;
    (if negated then 1 else 0) <= 0
  }

  /** The third disjunct of the guard, as written: `!disableableEvents.indexOf(t) <= 0`. */
  predicate GuardAsWritten(topLevelType: string) {
    NotThenAtMostZero(IndexOf(DisableableEvents, topLevelType))
  }

  /** As written the disjunct holds for every type but `topClick`, the one at index 0:
      so `topClick` is the only type whose target is ever walked. */
  lemma GuardAsWrittenOnlyAdmitsClick(topLevelType: string)
    ensures GuardAsWritten(topLevelType) <==> topLevelType != "topClick"
  {
  }

  /** The disjunct as intended: the type is not one of the disableable events. */
  predicate GuardIntended(topLevelType: string) {
    IndexOf(DisableableEvents, topLevelType) < 0
  }

  /** An arena of instances whose `_nativeParent` handles point to earlier
      instances: parents are created before their children, so chains end. */
  predicate ValidArena(arena: seq<Instance>) {
    forall i :: 0 <= i < |arena| && arena[i].nativeParent.Some? ==> arena[i].nativeParent.value < i
  }

  /** The instance `i` followed by its native ancestors, nearest first. */
  function Chain(arena: seq<Instance>, i: nat): (c: seq<nat>)
    requires ValidArena(arena) && i < |arena|
    ensures |c| >= 1 && c[0] == i
    ensures forall k :: 0 <= k < |c| ==> c[k] <= i
    decreases i
  {
    match arena[i].nativeParent
    case None => [i]
    case Some(p) => [i] + Chain(arena, p)
  }

  /** The chain is the `_nativeParent` links: each entry's parent is the next entry,
      and the last entry has none. */
  lemma {:induction false} ChainFollowsParents(arena: seq<Instance>, i: nat)
    requires ValidArena(arena) && i < |arena|
    ensures var c := Chain(arena, i);
      && (forall k {:trigger c[k]} :: 0 <= k < |c| - 1 ==> arena[c[k]].nativeParent == Some(c[k + 1]))
      && arena[c[|c| - 1]].nativeParent.None?
    decreases i
  {
    var c := Chain(arena, i);
    match arena[i].nativeParent
    case None =>
      assert c == [i];
    case Some(p) =>
      ChainFollowsParents(arena, p);
      var t := Chain(arena, p);
      assert c == [i] + t;
      forall k {:trigger c[k]} | 0 <= k < |c| - 1 ensures arena[c[k]].nativeParent == Some(c[k + 1]) {
        if k > 0 {
          assert c[k] == t[k - 1] && c[k + 1] == t[k];
        }
      }
  }

  /** What the `while` loop computes: the first instance on the chain of `i` whose
      `disabled` prop is falsy, or none (`null`) if every one is disabled. */
  function FirstEnabled(arena: seq<Instance>, i: nat): (r: Option<nat>)
    requires ValidArena(arena) && i < |arena|
    ensures r == Some(i) <==> !IsDisabled(arena[i])
    ensures r.Some? ==> r.value <= i && !IsDisabled(arena[r.value])
    decreases i
  {
    if !IsDisabled(arena[i]) then Some(i)
    else match arena[i].nativeParent
      case None => None
      case Some(p) => FirstEnabled(arena, p)
  }

  /** FirstEnabled against the chain: a found instance is on the chain, is not
      disabled, and everything before it on the chain is; none is found exactly when
      every instance on the chain is disabled. */
  lemma {:induction false} FirstEnabledOnChain(arena: seq<Instance>, i: nat)
    requires ValidArena(arena) && i < |arena|
    ensures var c := Chain(arena, i);
      && (FirstEnabled(arena, i).None? <==> forall j :: j in c ==> IsDisabled(arena[j]))
      && (FirstEnabled(arena, i).Some? ==>
            exists k :: 0 <= k < |c| && c[k] == FirstEnabled(arena, i).value
                     && !IsDisabled(arena[c[k]])
                     && forall j :: j in c[..k] ==> IsDisabled(arena[j]))
    decreases i
  {
    var c := Chain(arena, i);
    if !IsDisabled(arena[i]) {
      assert c[0] == i && c[..0] == [];
    } else {
      match arena[i].nativeParent
      case None =>
        assert c == [i];
      case Some(p) =>
        FirstEnabledOnChain(arena, p);
        var t := Chain(arena, p);
        assert c == [i] + t;
        if FirstEnabled(arena, p).Some? {
          var k :| 0 <= k < |t| && t[k] == FirstEnabled(arena, p).value
                   && !IsDisabled(arena[t[k]])
                   && forall j :: j in t[..k] ==> IsDisabled(arena[j]);
          assert c[k + 1] == t[k];
          assert c[..k + 1] == [i] + t[..k];
        }
    }
  }

  /** `floatDisabledEvent` as the source computes it. */
  function FloatAsWritten(arena: seq<Instance>, topLevelType: string, targetInst: Option<nat>): (r: Option<nat>)
    requires ValidArena(arena) && (targetInst.Some? ==> targetInst.value < |arena|)
    ensures targetInst.None? ==> r.None?
    ensures targetInst.Some? && arena[targetInst.value].tag !in DisableableTags ==> r == targetInst
    ensures topLevelType != "topClick" ==> r == targetInst
    ensures targetInst.Some? && !IsDisabled(arena[targetInst.value]) ==> r == targetInst
    ensures targetInst.Some? && arena[targetInst.value].tag in DisableableTags && topLevelType == "topClick" ==>
      r == FirstEnabled(arena, targetInst.value)
  {
    GuardAsWrittenOnlyAdmitsClick(topLevelType);
    if targetInst.None? || arena[targetInst.value].tag !in DisableableTags || GuardAsWritten(topLevelType) then targetInst
    else FirstEnabled(arena, targetInst.value)
  }

  /** `floatDisabledEvent` with the guard its authors evidently meant. */
  function FloatIntended(arena: seq<Instance>, topLevelType: string, targetInst: Option<nat>): (r: Option<nat>)
    requires ValidArena(arena) && (targetInst.Some? ==> targetInst.value < |arena|)
    ensures targetInst.None? ==> r.None?
    ensures targetInst.Some? && arena[targetInst.value].tag !in DisableableTags ==> r == targetInst
    ensures topLevelType !in DisableableEvents ==> r == targetInst
    ensures targetInst.Some? && arena[targetInst.value].tag in DisableableTags && topLevelType in DisableableEvents ==>
      r == FirstEnabled(arena, targetInst.value)
  {
    if targetInst.None? || arena[targetInst.value].tag !in DisableableTags || GuardIntended(topLevelType) then targetInst
    else FirstEnabled(arena, targetInst.value)
  }

  /** A result is the target itself or one of its native ancestors, and it is not
      disabled unless it is the untouched target. */
  lemma {:induction false} FloatStaysOnChain(arena: seq<Instance>, topLevelType: string, targetInst: Option<nat>)
    requires ValidArena(arena) && (targetInst.Some? ==> targetInst.value < |arena|)
    ensures var r := FloatAsWritten(arena, topLevelType, targetInst);
      r.Some? ==> targetInst.Some? && r.value in Chain(arena, targetInst.value)
    ensures var r := FloatIntended(arena, topLevelType, targetInst);
      r.Some? ==> targetInst.Some? && r.value in Chain(arena, targetInst.value)
    ensures var r := FloatAsWritten(arena, topLevelType, targetInst);
      r.Some? && r != targetInst ==> r.value < |arena| && !IsDisabled(arena[r.value])
    ensures var r := FloatIntended(arena, topLevelType, targetInst);
      r.Some? && r != targetInst ==> r.value < |arena| && !IsDisabled(arena[r.value])
  {
    if targetInst.Some? {
      var i := targetInst.value;
      assert Chain(arena, i)[0] == i;
      FirstEnabledOnChain(arena, i);
    }
  }

  /** The discrepancy: a disabled button with no ancestors receiving a double click.
      As written the disabled button stays the target; as intended no target is left. */
  lemma DoubleClickOnDisabledButton()
    ensures var arena := [Instance("button", map["disabled" := Bool(true)], None)];
      && ValidArena(arena)
      && FloatAsWritten(arena, "topDoubleClick", Some(0)) == Some(0)
      && FloatIntended(arena, "topDoubleClick", Some(0)) == None
  {
    var arena := [Instance("button", map["disabled" := Bool(true)], None)];
    assert IsDisabled(arena[0]);
    assert DisableableEvents[1] == "topDoubleClick";
  }

  /** The `while` loop: follow `_nativeParent` while the current instance is disabled. */
  method WalkPastDisabled(arena: seq<Instance>, start: nat) returns (r: Option<nat>)
    requires ValidArena(arena) && start < |arena|
    ensures r == FirstEnabled(arena, start)
  {
    var current: Option<nat> := Some(start);
    while current.Some? && IsDisabled(arena[current.value])
      invariant current.Some? ==> current.value < |arena|
      invariant current.Some? ==> FirstEnabled(arena, current.value) == FirstEnabled(arena, start)
      invariant current.None? ==> FirstEnabled(arena, start).None?
      decreases if current.Some? then current.value + 1 else 0
    {
      current := arena[current.value].nativeParent;
    }
    r := current;
  }

  /** `floatDisabledEvent(topLevelType, targetInst)` */
  method FloatDisabledEvent(arena: seq<Instance>, topLevelType: string, targetInst: Option<nat>) returns (r: Option<nat>)
    requires ValidArena(arena) && (targetInst.Some? ==> targetInst.value < |arena|)
    ensures r == FloatAsWritten(arena, topLevelType, targetInst)
  {
    if targetInst.None? || arena[targetInst.value].tag !in DisableableTags || GuardAsWritten(topLevelType) {
      return targetInst;
    }
    r := WalkPastDisabled(arena, targetInst.value);
  }

  /** `floatDisabledEvent` with the corrected guard. */
  method FloatDisabledEventIntended(arena: seq<Instance>, topLevelType: string, targetInst: Option<nat>) returns (r: Option<nat>)
    requires ValidArena(arena) && (targetInst.Some? ==> targetInst.value < |arena|)
    ensures r == FloatIntended(arena, topLevelType, targetInst)
  {
    if targetInst.None? || arena[targetInst.value].tag !in DisableableTags || GuardIntended(topLevelType) {
      return targetInst;
    }
    r := WalkPastDisabled(arena, targetInst.value);
  }
}

/**
 * The React Native -> NativeScript bridge of `src/bridge/myBridge.ts`: the platform
 * flags, the module-level `unsubscribe` variable, `initBridge` with the teardown
 * closure it stores, and the notification block that answers through `resolve`.
 *
 * The iOS default notification centre is abstracted as a map from observer ids to the
 * notification name each observer listens on; the platform is fixed when the module
 * loads, from whether `global.android` is truthy.
 */
module Bridge {
  import opened Common

  /** Line 5: the notification name the bridge listens on. */
  const BridgeName: string := "NativeScriptBridge"

  /** The messages of the errors thrown at lines 68 and 71. */
  const AndroidNotImplemented: string := "Android bridge not yet implemented."
  const UnimplementedPlatform: string := "Unimplemented platform. Only iOS and Android are supported."

  /** Lines 1-2: both flags are computed from the truthiness of `global.android`. */
  datatype Platform = Platform(isAndroid: bool, isIOS: bool)

  function PlatformFlags(androidGlobal: bool): (r: Platform)
    ensures r.isAndroid != r.isIOS
    ensures r.isIOS <==> !androidGlobal
  {
    Platform(!!androidGlobal, !androidGlobal)
  }

  /** The teardown closure of lines 55-57: it captures the one observer it removes. */
  datatype Teardown = Teardown(observer: nat)

  /** What a call of `initBridge` does: return a teardown callback, or throw an error. */
  datatype InitResult = Returned(teardown: Teardown) | Threw(message: string)

  // ---------------------------------------------------------------------------
  // The notification block, lines 32-52
  // ---------------------------------------------------------------------------

  /** The JavaScript values a `userInfo` dictionary can yield; a callback is known by its identity. */
  datatype Value = Null | Bool(b: bool) | Number(n: int) | Str(s: string) | Callback(id: nat)

  /** JavaScript truthiness, as the `if (resolve)` of line 45 uses it. */
  predicate Truthy(v: Value)
  {
    match v
    case Null => false
    case Bool(b) => b
    case Number(n) => n != 0
    case Str(s) => s != []
    case Callback(_) => true
  }

  /** `userInfo.valueForKey(key)`: a missing key yields nil, which arrives as `null`. */
  function ValueForKey(userInfo: map<string, Value>, key: string): Value
  {
    if key in userInfo then userInfo[key] else Null
  }

  /** One call of a callback with its arguments. */
  datatype Invocation = Invocation(callee: nat, args: seq<Value>)

  /**
   * What one run of the block does: the callbacks it invokes, and whether it throws a
   * `TypeError` because `resolve` is truthy but not callable.
   */
  datatype Reaction = Reaction(invoked: seq<Invocation>, threw: bool)

  /**
   * Lines 39-51: the block reads `name`, `payload`, `resolve` and `reject` from the
   * notification's `userInfo` and calls `resolve(null, 123)` when `resolve` is truthy.
   * A notification posted without a `userInfo` dictionary (`None`) makes the first
   * `valueForKey` of line 39 throw a `TypeError` before any callback is invoked.
   */
  function OnNotification(userInfo: Option<map<string, Value>>): (r: Reaction)
    ensures |r.invoked| <= 1
    ensures r.invoked != [] ==> !r.threw
    ensures userInfo.None? ==> r.invoked == [] && r.threw
    ensures userInfo.Some? ==> (r.invoked != [] <==> ValueForKey(userInfo.value, "resolve").Callback?)
    ensures userInfo.Some? && r.invoked != [] ==>
      r.invoked[0] == Invocation(ValueForKey(userInfo.value, "resolve").id, [Null, Number(123)])
    ensures userInfo.Some? ==>
      (r.threw <==> Truthy(ValueForKey(userInfo.value, "resolve")) && !ValueForKey(userInfo.value, "resolve").Callback?)
  {
    match userInfo
    case None => Reaction([], true)
    case Some(info) =>
      var resolve := ValueForKey(info, "resolve");
      if Truthy(resolve) then
        match resolve
        case Callback(id) => Reaction([Invocation(id, [Null, Number(123)])], false)
        case _ => Reaction([], true)
      else Reaction([], false)
  }

  /** Only `resolve` decides what the block does: `name`, `payload` and `reject` are read and unused. */
  lemma OnlyResolveMatters(userInfo: map<string, Value>, key: string, v: Value)
    requires key != "resolve"
    ensures OnNotification(Some(userInfo[key := v])) == OnNotification(Some(userInfo))
  {
    assert ValueForKey(userInfo[key := v], "resolve") == ValueForKey(userInfo, "resolve");
  }

  /** A `userInfo` whose `resolve` is absent, null or falsy invokes nothing and throws nothing. */
  lemma FalsyResolveIsIgnored(userInfo: map<string, Value>)
    requires !Truthy(ValueForKey(userInfo, "resolve"))
    ensures OnNotification(Some(userInfo)) == Reaction([], false)
  {
  }

  /**
   * A notification posted on `name` runs the block once for each registered observer with
   * an id below `n` that listens on that name, in the order of their ids.
   */
  function DeliverBelow(n: nat, observers: map<nat, string>, name: string, userInfo: Option<map<string, Value>>): (r: seq<Reaction>)
    ensures |r| <= n
    ensures forall k :: 0 <= k < |r| ==> r[k] == OnNotification(userInfo)
  {
    if n == 0 then []
    else
      var earlier := DeliverBelow(n - 1, observers, name, userInfo);
      if n - 1 in observers && observers[n - 1] == name then earlier + [OnNotification(userInfo)] else earlier
  }

  /** The registered observers with an id below `n` that listen on `name`. */
  function ListeningBelow(n: nat, observers: map<nat, string>, name: string): set<nat>
  {
    set id | id in observers && id < n && observers[id] == name
  }

  /** Delivery runs the block exactly once per registered observer listening on the name. */
  lemma {:induction false} DeliverCount(n: nat, observers: map<nat, string>, name: string, userInfo: Option<map<string, Value>>)
    ensures |DeliverBelow(n, observers, name, userInfo)| == |ListeningBelow(n, observers, name)|
  {
    if n > 0 {
      DeliverCount(n - 1, observers, name, userInfo);
      var earlier := ListeningBelow(n - 1, observers, name);
      if n - 1 in observers && observers[n - 1] == name {
        assert n - 1 !in earlier;
        assert ListeningBelow(n, observers, name) == earlier + {n - 1};
      } else {
        assert ListeningBelow(n, observers, name) == earlier;
      }
    }
  }

  // ---------------------------------------------------------------------------
  // The module state and `initBridge`
  // ---------------------------------------------------------------------------

  /**
   * The module `myBridge.ts` once loaded: its platform flags, its `unsubscribe` variable
   * (line 11) and the observers the default notification centre holds.
   */
  class BridgeModule {
    const isAndroid: bool
    const isIOS: bool
    var unsubscribe: Option<Teardown>
    var observers: map<nat, string>
    var nextObserver: nat

    /**
     * The flags are complements; every observer listens on the bridge's name and has an
     * id below the next one; before the first successful call no observer is registered,
     * and after it only the stored teardown's observer can be.
     */
    predicate Valid()
      reads this
    {
      && isIOS == !isAndroid
      && (forall id :: id in observers ==> id < nextObserver && observers[id] == BridgeName)
      && (unsubscribe.None? ==> observers == map[])
      && (unsubscribe.Some? ==> unsubscribe.value.observer < nextObserver
                                && observers.Keys <= {unsubscribe.value.observer})
    }

    /** Loading the module: lines 1-2 set the flags, line 11 sets `unsubscribe` to null. */
    constructor (androidGlobal: bool)
      ensures Valid()
      ensures Platform(isAndroid, isIOS) == PlatformFlags(androidGlobal)
      ensures unsubscribe == None && observers == map[]
    {
      var flags := PlatformFlags(androidGlobal);
      isAndroid := flags.isAndroid;
      isIOS := flags.isIOS;
      unsubscribe := None;
      observers := map[];
      nextObserver := 0;
    }

    /** The number of observers the notification centre holds. */
    function Listeners(): nat
      reads this
    {
      |observers.Keys|
    }

    /** Posting `name` on the default centre: every registered observer on that name runs the block. */
    function Post(name: string, userInfo: Option<map<string, Value>>): seq<Reaction>
      reads this
    {
      DeliverBelow(nextObserver, observers, name, userInfo)
    }

    /**
     * A post on the bridge's name runs the block once per registered observer, each run
     * reacting as `OnNotification` says; a post on any other name reaches no block.
     */
    lemma PostReachesEveryListener(name: string, userInfo: Option<map<string, Value>>)
      requires Valid()
      ensures name == BridgeName ==> |Post(name, userInfo)| == Listeners()
      ensures name != BridgeName ==> Post(name, userInfo) == []
      ensures forall k :: 0 <= k < |Post(name, userInfo)| ==> Post(name, userInfo)[k] == OnNotification(userInfo)
    {
      DeliverCount(nextObserver, observers, name, userInfo);
      if name == BridgeName {
        assert ListeningBelow(nextObserver, observers, name) == observers.Keys;
      } else {
        assert ListeningBelow(nextObserver, observers, name) == {};
      }
    }

    /** In every reachable state at most one observer is registered. */
    lemma AtMostOneListener()
      requires Valid()
      ensures Listeners() <= 1
    {
      if unsubscribe.Some? {
        var only := {unsubscribe.value.observer};
        assert observers.Keys <= only;
        SubsetSize(observers.Keys, only);
      }
    }

    /**
     * Lines 19-72. A stored callback is returned as is (lines 20-22); on iOS one observer
     * is added on "NativeScriptBridge" and the teardown that removes it is stored and
     * returned (lines 24-58); on Android the call throws and changes nothing (lines 61-68).
     * The throw of line 71 needs both flags false, which lines 1-2 rule out.
     */
    method InitBridge() returns (r: InitResult)
      requires Valid()
      modifies this
      ensures Valid()
      ensures nextObserver == old(nextObserver) + (if old(unsubscribe).None? && isIOS then 1 else 0)
      ensures old(unsubscribe).Some? ==>
        r == Returned(old(unsubscribe).value) && unsubscribe == old(unsubscribe) && observers == old(observers)
      ensures old(unsubscribe).None? && isIOS ==>
        && r.Returned? && unsubscribe == Some(r.teardown)
        && r.teardown.observer == old(nextObserver) && r.teardown.observer !in old(observers)
        && observers == old(observers)[r.teardown.observer := BridgeName]
      ensures old(unsubscribe).None? && isAndroid ==>
        r == Threw(AndroidNotImplemented) && unsubscribe == None && observers == old(observers)
      ensures r != Threw(UnimplementedPlatform)
    {
      if unsubscribe.Some? {
        return Returned(unsubscribe.value);
      }
      if isIOS {
        var observer := nextObserver;
        nextObserver := nextObserver + 1;
        observers := observers[observer := BridgeName];
        unsubscribe := Some(Teardown(observer));
        return Returned(unsubscribe.value);
      }
      if isAndroid {
        return Threw(AndroidNotImplemented);
      }
      assert false;
    }

    /** Lines 55-57: the teardown removes its observer; `unsubscribe` keeps the callback. */
    method RunTeardown(t: Teardown)
      requires Valid()
      modifies this
      ensures Valid()
      ensures observers == old(observers) - {t.observer}
      ensures unsubscribe == old(unsubscribe) && nextObserver == old(nextObserver)
    {
      observers := observers - {t.observer};
    }

    /** The teardown as evidently intended: it also clears `unsubscribe`, so a later call registers again. */
    method RunTeardownAndReset(t: Teardown)
      requires Valid()
      requires unsubscribe == Some(t)
      modifies this
      ensures Valid()
      ensures observers == map[] && unsubscribe == None && nextObserver == old(nextObserver)
    {
      observers := observers - {t.observer};
      assert observers.Keys == {};
      unsubscribe := None;
    }
  }

  /** A subset of a finite set is no larger. */
  lemma SubsetSize<T>(a: set<T>, b: set<T>)
    requires a <= b
    ensures |a| <= |b|
  {
    assert b == a + (b - a);
  }

  // ---------------------------------------------------------------------------
  // Call sequences on a freshly loaded module
  // ---------------------------------------------------------------------------

  /** On iOS, two calls return the same callback and leave one observer registered. */
  method InitTwiceOnIOS() returns (first: InitResult, second: InitResult, listeners: nat)
    ensures first.Returned? && second == first
    ensures listeners == 1
  {
    var m := new BridgeModule(false);
    first := m.InitBridge();
    second := m.InitBridge();
    assert m.observers.Keys == {first.teardown.observer};
    listeners := m.Listeners();
  }

  /**
   * On iOS, tearing down and calling again returns the stale callback and registers
   * nothing: no observer is left, so a posted notification reaches no block.
   */
  method InitAfterTeardownOnIOS(userInfo: Option<map<string, Value>>)
    returns (again: InitResult, first: InitResult, listeners: nat, reactions: seq<Reaction>)
    ensures first.Returned? && again == first
    ensures listeners == 0
    ensures reactions == []
  {
    var m := new BridgeModule(false);
    first := m.InitBridge();
    m.RunTeardown(first.teardown);
    again := m.InitBridge();
    assert m.observers == map[];
    listeners := m.Listeners();
    m.PostReachesEveryListener(BridgeName, userInfo);
    reactions := m.Post(BridgeName, userInfo);
  }

  /** With the resetting teardown, a call after teardown registers a new observer that answers. */
  method InitAfterResetOnIOS(userInfo: Option<map<string, Value>>)
    returns (again: InitResult, first: InitResult, listeners: nat, reactions: seq<Reaction>)
    ensures first.Returned? && again.Returned? && again != first
    ensures listeners == 1
    ensures reactions == [OnNotification(userInfo)]
  {
    var m := new BridgeModule(false);
    first := m.InitBridge();
    assert first.teardown.observer < m.nextObserver;
    m.RunTeardownAndReset(first.teardown);
    again := m.InitBridge();
    assert m.observers.Keys == {again.teardown.observer};
    listeners := m.Listeners();
    m.PostReachesEveryListener(BridgeName, userInfo);
    reactions := m.Post(BridgeName, userInfo);
  }

  /** On Android every call throws and no callback is ever stored. */
  method InitTwiceOnAndroid() returns (first: InitResult, second: InitResult, stored: bool)
    ensures first == second == Threw(AndroidNotImplemented)
    ensures !stored
  {
    var m := new BridgeModule(true);
    first := m.InitBridge();
    second := m.InitBridge();
    stored := m.unsubscribe.Some?;
  }
}

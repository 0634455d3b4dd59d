/** A model of the container component that `withNativeAd` builds around a
    user component: readiness gating on the ads manager, bookkeeping of the
    media, icon and trigger views that register through context, and the
    decision, after every update, to register those views with the native
    ad SDK.

    Calls that leave the container (to the ads manager, to the native module,
    to the `onAdLoaded` prop) are not executed: each one is appended to the
    ghost log `calls`, so contracts can say exactly when a call happens and
    with which arguments. */
module WithNativeAd {

  datatype Option<T> = None | Some(value: T)

  /** The `adsManager` prop: a placement and whether it is ready to serve ads. */
  datatype AdsManager = AdsManager(placementId: string, isValid: bool)

  /** A value found in the container's props object. `OtherProp` stands for
      any prop meant for the wrapped component. */
  datatype PropValue<V> =
    | ManagerProp(manager: AdsManager)
    | CallbackProp
    | NullProp
    | OtherProp(v: V)

  /** The props object, keyed by prop name. */
  type Props<V> = map<string, PropValue<V>>

  const AdsManagerKey: string := "adsManager"
  const OnAdLoadedKey: string := "onAdLoaded"
  const NativeAdKey: string := "nativeAd"

  predicate HasAdsManager<V>(props: Props<V>) {
    AdsManagerKey in props && props[AdsManagerKey].ManagerProp?
  }

  /** `this.props.onAdLoaded` is truthy: a callback was passed. */
  predicate HasOnAdLoaded<V>(props: Props<V>) {
    OnAdLoadedKey in props && props[OnAdLoadedKey].CallbackProp?
  }

  /** The container's `this.state`. Node handles are integers; `None` is null.
      `C` is the identity of a mounted component. */
  datatype AdState<Ad, C> = AdState(
    ad: Option<Ad>,
    canRequestAds: bool,
    adMediaViewNodeHandle: Option<int>,
    adIconViewNodeHandle: Option<int>,
    interactiveTriggers: set<C>)

  /** A call made by the container to code outside it. */
  datatype Call<Ad, C> =
    | SubscribeAdsLoaded                     // adsManager.onAdsLoaded(listener)
    | RemoveSubscription                     // _subscription.remove()
    | RegisterViewsForInteraction(           // AdsManager.registerViewsForInteractionAsync
        nativeAdView: int, mediaView: int, adIconView: int, clickable: set<C>)
    | TriggerEvent(nativeAdView: int)        // AdsManager.triggerEvent
    | OnAdLoaded(ad: Ad)                     // this.props.onAdLoaded(ad)

  /** The wrapped component as rendered: its props other than `nativeAd`, and
      its `nativeAd`. */
  datatype WrappedComponent<Ad, V> = WrappedComponent(props: Props<V>, nativeAd: Ad)

  /** What `render` returns: nothing, or the native ad view around the
      (optional) wrapped component. The context providers are not modelled. */
  datatype Element<Ad, V> =
    | Nothing
    | NativeAdView(adsManager: string, child: Option<WrappedComponent<Ad, V>>)

  /** A nullable node handle as the native module receives it: null becomes -1. */
  function NodeHandleArgument(h: Option<int>): int {
    if h.Some? then h.value else -1
  }

  /** What `_areEqualSets` computes: the sizes agree and every element of
      `set1` is in `set2`. */
  predicate SizesMatchAndContained<T>(set1: set<T>, set2: set<T>) {
    |set1| == |set2| && forall item :: item in set1 ==> item in set2
  }

  /** For finite sets, a subset of the same size is the whole set. */
  lemma {:induction false} SubsetOfSameSizeIsEqual<T>(a: set<T>, b: set<T>)
    requires a <= b && |a| == |b|
    ensures a == b
  {
    if a != b {
      var x :| x in b && x !in a;
      var rest := b - {x};
      assert a <= rest;
      assert |rest| == |b| - 1;
      SubsetCardinality(a, rest);
    }
  }

  lemma {:induction false} SubsetCardinality<T>(a: set<T>, b: set<T>)
    requires a <= b
    ensures |a| <= |b|
    decreases b
  {
    if b != {} {
      var x :| x in b;
      SubsetCardinality(a - {x}, b - {x});
    }
  }

  /** The check `_areEqualSets` makes is exactly set equality. */
  lemma EqualSetsIsEquality<T>(set1: set<T>, set2: set<T>)
    ensures SizesMatchAndContained(set1, set2) <==> set1 == set2
  {
    if SizesMatchAndContained(set1, set2) {
      SubsetOfSameSizeIsEqual(set1, set2);
    }
  }

  /** `_areEqualSets`: compares the sizes, then walks `set1` and returns false
      at the first element missing from `set2`. The walk order is left open. */
  method AreEqualSets<T(==)>(set1: set<T>, set2: set<T>) returns (equal: bool)
    ensures equal == SizesMatchAndContained(set1, set2)
    ensures equal <==> set1 == set2
  {
    EqualSetsIsEquality(set1, set2);
    if |set1| != |set2| {
      return false;
    }
    var unvisited := set1;
    while unvisited != {}
      invariant unvisited <= set1
      invariant forall item :: item in set1 && item !in unvisited ==> item in set2
      decreases unvisited
    {
      var item :| item in unvisited;
      if item !in set2 {
        return false;
      }
      unvisited := unvisited - {item};
    }
    return true;
  }

  /** The test in `componentDidUpdate`, as written: the media handle moved, the
      icon handle moved, or `_areEqualSets(current, previous)` holds — its
      result is what the source calls `interactiveTriggersChanged`. */
  predicate RegistersOnUpdate<Ad, C>(current: AdState<Ad, C>, previous: AdState<Ad, C>) {
    current.adMediaViewNodeHandle != previous.adMediaViewNodeHandle
    || current.adIconViewNodeHandle != previous.adIconViewNodeHandle
    || SizesMatchAndContained(current.interactiveTriggers, previous.interactiveTriggers)
  }

  /** Views are re-registered exactly when a handle changed or the trigger
      sets are EQUAL (not when they differ). */
  lemma RegistersOnUpdateExactly<Ad, C>(current: AdState<Ad, C>, previous: AdState<Ad, C>)
    ensures RegistersOnUpdate(current, previous) <==>
      current.adMediaViewNodeHandle != previous.adMediaViewNodeHandle
      || current.adIconViewNodeHandle != previous.adIconViewNodeHandle
      || current.interactiveTriggers == previous.interactiveTriggers
    ensures current.interactiveTriggers != previous.interactiveTriggers
      && current.adMediaViewNodeHandle == previous.adMediaViewNodeHandle
      && current.adIconViewNodeHandle == previous.adIconViewNodeHandle
      ==> !RegistersOnUpdate(current, previous)
  {
    EqualSetsIsEquality(current.interactiveTriggers, previous.interactiveTriggers);
  }

  /** Nothing ever adds to `interactiveTriggers`, so in every state the
      container reaches the sets compare equal and every update registers. */
  lemma EveryReachableUpdateRegisters<Ad, C>(current: AdState<Ad, C>, previous: AdState<Ad, C>)
    requires current.interactiveTriggers == {} && previous.interactiveTriggers == {}
    ensures RegistersOnUpdate(current, previous)
  {
  }

  /** The `NativeAdContainer` class returned by `withNativeAd`. */
  class NativeAdContainer<Ad, C(==), V> {
    const props: Props<V>
    var state: AdState<Ad, C>
    /** `_subscription !== null` */
    var hasSubscription: bool
    ghost var calls: seq<Call<Ad, C>>

    /** The props carry an ads manager, and no operation ever puts a
        component into `interactiveTriggers`. */
    ghost predicate Valid()
      reads this
    {
      HasAdsManager(props) && state.interactiveTriggers == {}
    }

    /** Once ready, the container stays ready. */
    twostate predicate StaysReady()
      reads this
    {
      old(state.canRequestAds) ==> state.canRequestAds
    }

    constructor (props: Props<V>)
      requires HasAdsManager(props)
      ensures Valid() && this.props == props
      ensures state == AdState(None, props[AdsManagerKey].manager.isValid, None, None, {})
      ensures !hasSubscription && calls == []
    {
      this.props := props;
      state := AdState(None, props[AdsManagerKey].manager.isValid, None, None, {});
      hasSubscription := false;
      calls := [];
    }

    /** `componentDidMount`: listen to the ads manager only if it is not ready yet. */
    method ComponentDidMount()
      requires Valid()
      modifies this
      ensures Valid() && StaysReady() && state == old(state)
      ensures hasSubscription == (old(hasSubscription) || !state.canRequestAds)
      ensures calls == old(calls) + if !state.canRequestAds then [SubscribeAdsLoaded] else []
    {
      if !state.canRequestAds {
        hasSubscription := true;
        calls := calls + [SubscribeAdsLoaded];
      }
    }

    /** The listener passed to `onAdsLoaded`, which the ads manager calls only
        while the subscription exists: the container becomes ready. */
    method HandleAdsLoaded()
      requires Valid() && hasSubscription
      modifies this
      ensures Valid() && StaysReady()
      ensures state == old(state).(canRequestAds := true)
      ensures hasSubscription == old(hasSubscription) && calls == old(calls)
    {
      state := state.(canRequestAds := true);
    }

    /** `componentDidUpdate(prevProps, prevState)`. `nativeAdView` is
        `findNodeHandle(this._nativeAdViewRef.current)`: the ref is attached
        exactly while `render` shows the native ad view, that is while
        `canRequestAds` holds. When the registration is due and the handle is
        null, `nullthrows` throws: `thrown` is true and nothing is called. */
    method ComponentDidUpdate(prevState: AdState<Ad, C>, nativeAdView: Option<int>) returns (thrown: bool)
      requires Valid()
      requires nativeAdView.Some? <==> state.canRequestAds
      modifies this`calls
      ensures Valid() && StaysReady()
      ensures thrown <==> RegistersOnUpdate(state, prevState) && !state.canRequestAds
      ensures calls == old(calls) +
        if RegistersOnUpdate(state, prevState) && state.canRequestAds then
          [RegisterViewsForInteraction(nativeAdView.value,
             NodeHandleArgument(state.adMediaViewNodeHandle),
             NodeHandleArgument(state.adIconViewNodeHandle),
             state.interactiveTriggers)]
        else []
      ensures prevState.interactiveTriggers == {} ==>
        (thrown <==> !state.canRequestAds)
        && (state.canRequestAds ==> |calls| == |old(calls)| + 1)
    {
      if prevState.interactiveTriggers == {} {
        EveryReachableUpdateRegisters(state, prevState);
      }
      thrown := false;
      var adMediaViewChanged := state.adMediaViewNodeHandle != prevState.adMediaViewNodeHandle;
      var adIconViewChanged := state.adIconViewNodeHandle != prevState.adIconViewNodeHandle;
      var interactiveTriggersChanged := AreEqualSets(state.interactiveTriggers, prevState.interactiveTriggers);
      if adMediaViewChanged || adIconViewChanged || interactiveTriggersChanged {
        if nativeAdView == None {
          thrown := true;
          return;
        }
        var mediaView := if state.adMediaViewNodeHandle != None then state.adMediaViewNodeHandle.value else -1;
        var adIconView := if state.adIconViewNodeHandle != None then state.adIconViewNodeHandle.value else -1;
        calls := calls + [RegisterViewsForInteraction(nativeAdView.value, mediaView, adIconView, state.interactiveTriggers)];
      }
    }

    /** `componentWillUnmount`: remove the subscription if there is one. A
        second call finds none and changes nothing. */
    method ComponentWillUnmount()
      requires Valid()
      modifies this
      ensures Valid() && StaysReady() && state == old(state)
      ensures !hasSubscription
      ensures calls == old(calls) + if old(hasSubscription) then [RemoveSubscription] else []
    {
      if hasSubscription {
        calls := calls + [RemoveSubscription];
        hasSubscription := false;
      }
    }

    /** `_getForwardedProps`: every prop except `adsManager` and `onAdLoaded`. */
    function ForwardedProps(): (forwarded: Props<V>)
      reads this
      ensures forall name :: name in forwarded <==>
        name in props && name != AdsManagerKey && name != OnAdLoadedKey
      ensures forall name :: name in forwarded ==> forwarded[name] == props[name]
    {
      props - {AdsManagerKey, OnAdLoadedKey}
    }

    /** `render`: nothing until the ads manager is ready; then the native ad
        view, holding the wrapped component only once an ad has loaded. The
        explicit `nativeAd` prop overrides a forwarded prop of that name. */
    function Render(): (element: Element<Ad, V>)
      reads this
      requires Valid()
      ensures element.Nothing? <==> !state.canRequestAds
      ensures element.NativeAdView? ==>
        element.adsManager == props[AdsManagerKey].manager.placementId
        && (element.child.Some? <==> state.ad.Some?)
      ensures element.NativeAdView? && element.child.Some? ==>
        element.child.value.nativeAd == state.ad.value
        && (forall name :: name in element.child.value.props <==>
              name in ForwardedProps() && name != NativeAdKey)
        && (forall name :: name in element.child.value.props ==>
              element.child.value.props[name] == props[name])
        && AdsManagerKey !in element.child.value.props
        && OnAdLoadedKey !in element.child.value.props
    {
      if !state.canRequestAds then Nothing
      else
        var child := if state.ad.Some? then Some(WrappedComponent(ForwardedProps() - {NativeAdKey}, state.ad.value)) else None;
        NativeAdView(props[AdsManagerKey].manager.placementId, child)
    }

    /** `_handleAdLoaded`: store the ad, then hand that same ad to
        `onAdLoaded` if the prop was given. */
    method HandleAdLoaded(ad: Ad)
      requires Valid()
      modifies this
      ensures Valid() && StaysReady()
      ensures state == old(state).(ad := Some(ad))
      ensures hasSubscription == old(hasSubscription)
      ensures calls == old(calls) + if HasOnAdLoaded(props) then [OnAdLoaded(ad)] else []
    {
      state := state.(ad := Some(ad));
      if HasOnAdLoaded(props) {
        var loaded := state.ad.value;
        calls := calls + [OnAdLoaded(loaded)];
      }
    }

    /** `_adMediaViewContextValue.registerComponent`; `nodeHandle` is
        `findNodeHandle(component)`, which `nullthrows` requires non-null. */
    method MediaViewRegisterComponent(nodeHandle: Option<int>)
      requires Valid() && nodeHandle.Some?
      modifies this
      ensures Valid() && StaysReady()
      ensures state == old(state).(adMediaViewNodeHandle := nodeHandle)
      ensures hasSubscription == old(hasSubscription) && calls == old(calls)
    {
      state := state.(adMediaViewNodeHandle := Some(nodeHandle.value));
    }

    /** `_adMediaViewContextValue.unregisterComponent` */
    method MediaViewUnregisterComponent()
      requires Valid()
      modifies this
      ensures Valid() && StaysReady()
      ensures state == old(state).(adMediaViewNodeHandle := None)
      ensures hasSubscription == old(hasSubscription) && calls == old(calls)
    {
      state := state.(adMediaViewNodeHandle := None);
    }

    /** `_adIconViewContextValue.registerComponent` */
    method IconViewRegisterComponent(nodeHandle: Option<int>)
      requires Valid() && nodeHandle.Some?
      modifies this
      ensures Valid() && StaysReady()
      ensures state == old(state).(adIconViewNodeHandle := nodeHandle)
      ensures hasSubscription == old(hasSubscription) && calls == old(calls)
    {
      state := state.(adIconViewNodeHandle := Some(nodeHandle.value));
    }

    /** `_adIconViewContextValue.unregisterComponent` */
    method IconViewUnregisterComponent()
      requires Valid()
      modifies this
      ensures Valid() && StaysReady()
      ensures state == old(state).(adIconViewNodeHandle := None)
      ensures hasSubscription == old(hasSubscription) && calls == old(calls)
    {
      state := state.(adIconViewNodeHandle := None);
    }

    /** `_adTriggerViewContextValue.registerComponent`: as written it stores
        the component's handle as the ICON handle; the component itself is not
        added to `interactiveTriggers`. */
    method TriggerViewRegisterComponent(component: C, nodeHandle: Option<int>)
      requires Valid() && nodeHandle.Some?
      modifies this
      ensures Valid() && StaysReady()
      ensures state == old(state).(adIconViewNodeHandle := nodeHandle)
      ensures hasSubscription == old(hasSubscription) && calls == old(calls)
    {
      state := state.(adIconViewNodeHandle := Some(nodeHandle.value));
    }

    /** `_adTriggerViewContextValue.unregisterComponent`: clears the icon handle. */
    method TriggerViewUnregisterComponent()
      requires Valid()
      modifies this
      ensures Valid() && StaysReady()
      ensures state == old(state).(adIconViewNodeHandle := None)
      ensures hasSubscription == old(hasSubscription) && calls == old(calls)
    {
      state := state.(adIconViewNodeHandle := None);
    }

    /** `_adTriggerViewContextValue.onTriggerAd`. `os` is `Platform.OS`;
        `nativeAdView` is `findNodeHandle(this._nativeAdViewRef.current)`. */
    method TriggerViewOnTriggerAd(os: string, nativeAdView: int)
      requires Valid()
      modifies this`calls
      ensures Valid() && StaysReady()
      ensures calls == old(calls) +
        if state.adMediaViewNodeHandle.Some? && os == "android" then [TriggerEvent(nativeAdView)] else []
    {
      if state.adMediaViewNodeHandle != None && os == "android" {
        calls := calls + [TriggerEvent(nativeAdView)];
      }
    }
  }
}

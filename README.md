# withNativeAd container, modelled in Dafny

`withNativeAd(Component)` (packages/expo/src/facebook-ads/withNativeAd.tsx) returns a
container component class, `NativeAdContainer`, that wraps a user component showing a
native ad. The container:

- waits until its ads manager is ready (`canRequestAds`), subscribing to the manager's
  "ads loaded" event when it is not ready at mount time;
- stores the ad delivered by the native ad view and passes it to the `onAdLoaded` prop;
- keeps the node handles of the media view and icon view that register through context;
- after every update, decides whether to register those views with the native ad SDK;
- forwards `onTriggerAd` to the native side on Android.

`withnativead.dfy` holds one module, `WithNativeAd`. The container is the class
`NativeAdContainer<Ad, C, V>`. `Ad` is the native ad record. `C` is the identity of a
mounted component. `V` is the value of a prop meant for the wrapped component.

- `this.state` is the field `state`, of datatype `AdState`. A `setState` call becomes an
  immediate update `state := state.(field := value)`. Its callback runs right after it.
- `_subscription` is the boolean field `hasSubscription`. It says only whether a
  subscription is present.
- Calls that leave the container are appended to the ghost log `calls`, as `Call`
  values:
  - `onAdsLoaded` and `remove` on the ads manager;
  - `registerViewsForInteractionAsync` and `triggerEvent` on the native module;
  - the `onAdLoaded` prop.
- `findNodeHandle(...)` results are parameters of type `Option<int>`. `nullthrows` becomes
  a precondition that the handle is present. In `onTriggerAd`, the source uses only a
  non-null type assertion, so the handle there is a plain `int`.
- `Platform.OS` is a `string` parameter.
- `componentDidUpdate` takes the previous state snapshot as a parameter.

The model keeps two behaviours of the code as written:

1. `componentDidUpdate` assigns `interactiveTriggersChanged` the result of
   `_areEqualSets(current, previous)`, with no negation. So a registration is made when
   the trigger sets are equal.
2. The trigger view's `registerComponent` and `unregisterComponent` write
   `adIconViewNodeHandle`. Nothing ever adds a component to `interactiveTriggers`.

As a result, `interactiveTriggers` stays empty in every reachable state. That is part of
`Valid()`. `EveryReachableUpdateRegisters` then shows that the registration is due on
every update.

The native ad view's ref is attached only while `render` shows that view, that is while
`canRequestAds` holds. `ComponentDidUpdate` therefore requires its handle to be present
exactly when `canRequestAds` holds. When the registration is due and the handle is null,
`nullthrows` throws. The model returns `thrown` and makes no call. Together with the
previous point, this means an update after the ads manager is ready always re-registers
the views. An update before it is ready, such as a parent re-render, always throws.

## Model

| member | source | states |
|---|---|---|
| `WithNativeAd.AreEqualSets` | packages/expo/src/facebook-ads/withNativeAd.tsx:253-264 | returns true exactly when the sizes agree and every element of `set1` is in `set2`, and this holds exactly when the two sets are equal; false whenever the sizes differ or an element of `set1` is missing from `set2` |
| `WithNativeAd.EqualSetsIsEquality` | packages/expo/src/facebook-ads/withNativeAd.tsx:253-264 | for finite sets, "same size and `set1` contained in `set2`" is equivalent to set equality |
| `WithNativeAd.SubsetOfSameSizeIsEqual` | packages/expo/src/facebook-ads/withNativeAd.tsx:254-263 | a subset with the same number of elements as its superset is equal to it: this is why the size test plus one-way membership suffices |
| `WithNativeAd.RegistersOnUpdateExactly` | packages/expo/src/facebook-ads/withNativeAd.tsx:69-76 | the update re-registers exactly when the media handle differs, the icon handle differs, or the trigger sets are equal; with both handles unchanged and the trigger sets different, nothing is registered |
| `WithNativeAd.EveryReachableUpdateRegisters` | packages/expo/src/facebook-ads/withNativeAd.tsx:71-76 | when both trigger sets are empty, which is always the case since nothing adds to them, every update re-registers |
| `WithNativeAd.NativeAdContainer.constructor` | packages/expo/src/facebook-ads/withNativeAd.tsx:48-56 | `ad`, the media handle and the icon handle are null; the trigger set is empty; `canRequestAds` is the ads manager's `isValid`; no subscription and no call yet |
| `WithNativeAd.NativeAdContainer.ComponentDidMount` | packages/expo/src/facebook-ads/withNativeAd.tsx:59-66 | subscribes to the ads manager, with one `onAdsLoaded` call, exactly when `canRequestAds` is false; the state is unchanged |
| `WithNativeAd.NativeAdContainer.HandleAdsLoaded` | packages/expo/src/facebook-ads/withNativeAd.tsx:62-64 | the subscription's listener, which runs only while the subscription exists, sets `canRequestAds` to true and changes nothing else; no method sets it back to false (`StaysReady`) |
| `WithNativeAd.NativeAdContainer.ComponentDidUpdate` | packages/expo/src/facebook-ads/withNativeAd.tsx:68-85 | throws (`thrown`) exactly when the registration is due but the container is not ready, so the native ad view's handle is null; logs one `registerViewsForInteractionAsync` call exactly when the registration is due (`RegistersOnUpdate(state, prevState)`) and the container is ready, otherwise none; with an empty previous trigger set, which is always the case, it throws exactly when not ready and otherwise logs one call; the call gets the native ad view's handle, the media and icon handles with null as -1, and the trigger set; the state is unchanged |
| `WithNativeAd.NativeAdContainer.ComponentWillUnmount` | packages/expo/src/facebook-ads/withNativeAd.tsx:87-92 | removes the subscription, with one `remove` call, if there is one; afterwards there is none; with none present nothing changes, so a second unmount is a no-op |
| `WithNativeAd.NativeAdContainer.ForwardedProps` | packages/expo/src/facebook-ads/withNativeAd.tsx:117-120 | the forwarded props are exactly the props other than `adsManager` and `onAdLoaded`, with their values |
| `WithNativeAd.NativeAdContainer.Render` | packages/expo/src/facebook-ads/withNativeAd.tsx:94-115 | nothing is rendered exactly while `canRequestAds` is false; otherwise the native ad view gets the manager's placement id and holds the wrapped component exactly when `ad` is non-null; that component gets the ad as `nativeAd`, which overrides any forwarded prop of that name, and otherwise exactly the forwarded props with their values, which contain neither `adsManager` nor `onAdLoaded` |
| `WithNativeAd.NativeAdContainer.HandleAdLoaded` | packages/expo/src/facebook-ads/withNativeAd.tsx:122-129 | stores the ad, then calls `onAdLoaded` with that same ad exactly when the prop is given; nothing else changes |
| `WithNativeAd.NativeAdContainer.MediaViewRegisterComponent` | packages/expo/src/facebook-ads/withNativeAd.tsx:132-134 | sets the media handle to the component's handle and changes nothing else |
| `WithNativeAd.NativeAdContainer.MediaViewUnregisterComponent` | packages/expo/src/facebook-ads/withNativeAd.tsx:135-137 | sets the media handle to null and changes nothing else |
| `WithNativeAd.NativeAdContainer.IconViewRegisterComponent` | packages/expo/src/facebook-ads/withNativeAd.tsx:141-143 | sets the icon handle to the component's handle and changes nothing else |
| `WithNativeAd.NativeAdContainer.IconViewUnregisterComponent` | packages/expo/src/facebook-ads/withNativeAd.tsx:144-146 | sets the icon handle to null and changes nothing else |
| `WithNativeAd.NativeAdContainer.TriggerViewRegisterComponent` | packages/expo/src/facebook-ads/withNativeAd.tsx:150-152 | sets the ICON handle to the trigger component's handle; the trigger set and everything else are unchanged |
| `WithNativeAd.NativeAdContainer.TriggerViewUnregisterComponent` | packages/expo/src/facebook-ads/withNativeAd.tsx:153-155 | sets the icon handle to null and changes nothing else |
| `WithNativeAd.NativeAdContainer.TriggerViewOnTriggerAd` | packages/expo/src/facebook-ads/withNativeAd.tsx:156-161 | logs one `triggerEvent` call with the native ad view's handle exactly when the media handle is non-null and the platform is `"android"`; otherwise it has no effect; the state is unchanged |

## Left out

- JSX, the three React context providers and refs: `Render` returns a small `Element`
  value instead of a tree. The context values are modelled as the class's methods.
- `setState` batching and its asynchronous timing: each update is applied at once, and its
  callback runs right after it.
- `findNodeHandle`, `nullthrows` and `Platform.OS` are parameters. React's choice of when
  to call lifecycle methods and callbacks is left to the caller.
- The native module (`registerViewsForInteractionAsync`, `triggerEvent`) and
  `requireNativeComponent('CTKNativeAd')` are foreign calls. They are recorded in the log
  and not executed. The promise returned by the registration call is not modelled.
- The fbemitter subscription is modelled only as present or absent. A second mount while
  subscribed would overwrite the old subscription in the source. The model records only
  that a subscription is present.
- WithNativeAd.NativeAdContainer.ComponentDidUpdate: the exception `nullthrows` raises is
  modelled only as the result `thrown`. How React handles it is not modelled.
- WithNativeAd.NativeAdContainer.ComponentDidUpdate: the trigger array
  `[...interactiveTriggers]` is recorded as a set. Its insertion order is not modelled.
- Props are fixed at construction. Later prop changes and the unused `prevProps` argument
  of `componentDidUpdate` are not modelled.
- The `onAdLoaded` prop is recorded as a call. What it does, including any re-entrant
  call into the container, is not modelled.
- The `NativeAd` field list is left out: plain optional strings with no behaviour. So are
  the PropTypes declarations.
- packages/expo/src/facebook-ads/index.ts holds only lazy re-exports.
  packages/expo/src/ts-declarations/react-native.d.ts is an ambient type declaration. The
  Objective-C headers under ios/versioned-react-native/ hold only interface declarations.
  None of them has logic to model.

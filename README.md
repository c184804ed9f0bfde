# react-linked-state-adapter, modelled in Dafny

React's deprecated two-way "links" are objects `{value, requestChange}`.
This package keeps them working. It has four parts, and each is modelled here.

- The **linked-state mixin** (`src/adapted-linked-state-mixin.js`). `linkState(key)` gives a link to one key of the owner's state. `adaptReactLink(link)` turns any link into an "adapted" link, which also has `onValueChange` and `onCheckedChange` event handlers.
- The **binding resolver** (`adapter.js`). A view component mixes it in. It validates the `value`/`checked`/`onChange`/`valueLink`/`checkedLink` props and prints a one-time deprecation warning. It answers `value()`, `checked()` and `onChange()`.
- **`convertLink`** (`convert-link.js`). It checks a link's shape and builds `{value, onChange, checkedOnChange}`.
- The two **link-utility** modules (`link-utils.js`, `src/link-utils.js`). They derive the event-unwrapping handlers.

What matters in this package is identity: a cached handler or link must be the *same object* on the next call. The model makes identity explicit:

- Every object and function object has an `Id`. Ids come from the counter of one `Runtime.Heap`.
- The heap maps each function id to a `Closure`, which describes what its code does:
  - `SetState(owner, key, field)` is what the mixin's `createRequestChange`, `createOnValueChange` and `createOnCheckedChange` make;
  - `Forward(link, field)` is what the link utilities make;
  - `Foreign` is any other function.
- `Runtime.Resolve` follows a call to its end. The end is a one-key update of an owner's state, a thrown TypeError, or a call into foreign code.
- The owner is a `Runtime.Component` class whose `setState` merges a partial state.
- Links are the `Values.Link` datatype:
  - a `Plain` object with arbitrary properties, or
  - the four-field `Adapted` record, which stands for `AdaptedReactLink`.
- `in` and property reads on links are `Values.Has` and `Values.Get`.

The stateful operations are methods on classes:

- `AdaptedLinkedStateMixin.AdaptedLinkedState` holds the `__linkedStates` dictionary (a `map`) and the `__adaptedLinks` array (a `seq`).
- `Adapter.LinkedStateAdapter` holds the two handler caches.
- `Adapter.DeprecationFlag` is the process-wide `didWarnDeprecation` flag.

Each method is proved equal to a pure function of the old state: `LinkStateSpec`, `AdaptSpec`, `GetOnChangeSpec` or `Observe`. The cache laws are lemmas about those functions. Two invariants are preserved by every method:

- the heap's own well-formedness, meaning ids are never reused and forwarding chains end;
- the coherence of each cache, meaning each cached handler is bound to the right owner and key, or forwards to the right `requestChange`.

`adapter.js` stores the value-mode handlers in `__checkedOnChanges` and the checked-mode handlers in `__valueOnChanges` (lines 11-13). The two caches are still disjoint. The model names them by mode: `valueHandlers` and `checkedHandlers`.

## Model

| member | source | states |
|---|---|---|
| Values.Get | src/adapted-linked-state-mixin.js:44-52 | reading a property the object does not have yields `undefined` |
| Values.Select | src/link-utils.js:9-11 | a handler's argument field: the whole argument, or `e.target.value` / `e.target.checked`, which fail exactly when the argument is not an event |
| Runtime.Component.Read | src/adapted-linked-state-mixin.js:14 | `this.state[key]` is the stored value, `undefined` for a key never set (keys naming inherited `Object.prototype` members excepted, see Findings) |
| Runtime.Component.SetState | src/adapted-linked-state-mixin.js:86 | `setState(partial)` overwrites the keys of `partial` and keeps every other key |
| Runtime.Step | src/adapted-linked-state-mixin.js:82-104 | a state-bound handler writes its field of the argument to its owner's key; a forwarding handler calls the link's `requestChange` with its field; both throw exactly when the field cannot be read |
| Runtime.ResolveWritesKnownOwner | src/adapted-linked-state-mixin.js:82-104 | any state update that a chain of calls ends in is one that some handler bound to that owner and key asked for |
| Runtime.ForwardingCall | link-utils.js:9-11 | calling a forwarding handler with an event is calling `requestChange` with the event's field; calling it with a non-event throws |
| Runtime.ForwardsToCall | src/link-utils.js:18-20 | a handler derived from a link calls that link's `requestChange` with the event's field |
| Runtime.AllocPreserves | link-utils.js:9 | allocating a function object keeps the heap well formed, only adds to it, and gives an id no existing function has |
| Runtime.ResolveExtends | src/adapted-linked-state-mixin.js:84-87 | a handler behaves the same however many objects are allocated after it |
| Runtime.Heap.NewClosure | link-utils.js:9 | each evaluation of a function expression makes a new function object, different from every existing one |
| Runtime.Heap.NewObject | src/adapted-linked-state-mixin.js:24 | `new AdaptedReactLink(...)` gives an object with a new identity |
| Runtime.Resolve | src/adapted-linked-state-mixin.js:82-104 | the effect of calling a handler, following forwarding handlers (link-utils.js:9-11) to their end: calling a non-function throws, and a call leaves the model's view only through a function the adapters did not create |
| Runtime.Heap.Call | src/adapted-linked-state-mixin.js:82-104 | a call ends in the effect `Resolve` gives; if that is an update, exactly that key of that owner changes; unless the call passed into foreign code, every other owner's state is unchanged |
| LinkUtils.GetValue | link-utils.js:3-5 | `link.value` for a link, `undefined` without one |
| LinkUtils.GetOnChange | link-utils.js:7-14 | no handler without a link; otherwise a handler that passes `e.target.value` to `link.requestChange` and throws on a non-event |
| LinkUtils.GetCheckedOnChange | link-utils.js:16-23 | the same, passing `e.target.checked` |
| SrcLinkUtils.GetValue | src/link-utils.js:3-5 | `link.value` for a link, `undefined` without one |
| SrcLinkUtils.GetOnValueChange | src/link-utils.js:7-14 | no handler without a link; otherwise a handler that passes `e.target.value` to `link.requestChange` |
| SrcLinkUtils.GetOnCheckedChange | src/link-utils.js:16-23 | the same, passing `e.target.checked` |
| ConvertLink.AssertValidReactLink | convert-link.js:26-41 | the link passes exactly when it has a `value` property, has a `requestChange` property and that is a function; each failure is reported in the source's order |
| ConvertLink.ConvertLink | convert-link.js:6-14 | fails exactly when the shape check fails, with its error; otherwise the record's `value` is `link.value` and its two handlers forward `target.value` and `target.checked` to `link.requestChange` |
| ConvertLink.UndefinedValueIsPresent | convert-link.js:27-30 | the `value` check tests presence: `{value: undefined, requestChange: f}` converts, a link without `value` does not |
| ConvertLink.ConvertedHandlersCallRequestChange | convert-link.js:11-12 | once allocated, `onChange(e)` has the effect of `link.requestChange(e.target.value)` and `checkedOnChange(e)` that of `link.requestChange(e.target.checked)` |
| Adapter.SingleLink | adapter.js:77-99 | the props pass exactly when not both links are given, a value link comes without `value`/`onChange`, and a checked link without `checked`/`onChange`; both links always fail first with that error |
| Adapter.Observe | adapter.js:77-99 | one validation: its error is `SingleLink`'s, the flag becomes set exactly when it was set or exactly one link is given (the both-links error throws before the warning), and the warning prints exactly when the flag goes from clear to set |
| Adapter.WarnsAtMostOnce | adapter.js:83-87 | over any series of validations the warning prints at most once: exactly once when the flag was clear and some props used one link; the flag is never cleared |
| Adapter.AssertSingleLink | adapter.js:77-99 | the method's error, printed warning and new flag are those of `Observe` on the old flag |
| Adapter.LinkedStateAdapter.ComponentWillMount | adapter.js:30-32 | validates the current props as `Observe` does |
| Adapter.LinkedStateAdapter.ComponentWillReceiveProps | adapter.js:34-36 | validates the incoming props as `Observe` does |
| Adapter.Value | adapter.js:38-43 | the value link's value when there is one, else the `value` prop |
| Adapter.Checked | adapter.js:45-50 | the checked link's value when there is one, else the `checked` prop |
| Adapter.OnChangeBinding | adapter.js:52-64 | the handler comes from a truthy `onChange` prop, else the value link, else the checked link, else there is none, each case exactly under its condition |
| Adapter.ValidatedPropsAreUnambiguous | adapter.js:38-64 | on props that pass validation, a link supplies both the value (or checked state) and the handler, and the direct props it displaces are absent |
| Adapter.Lookup | adapter.js:15-17 | the scan stops at the first entry whose `fn` is the `requestChange`, and finds none exactly when no entry has it |
| Adapter.GetOnChangeSpec | adapter.js:10-28 | `__getOnChange` on the mode's cache: the old entries are kept in order, at most one is appended, and afterwards the cache holds an entry pairing `link.requestChange` with the returned handler; the heap only grows |
| Adapter.GetOnChangeCacheLaw | adapter.js:15-27 | a hit returns the stored handler and changes nothing; a miss appends exactly one `{fn, onChange}` entry with a handler that did not exist before |
| Adapter.GetOnChangeIsStable | adapter.js:15-17 | asking again in the same mode for the same `requestChange`, through any link, returns the same handler and changes nothing |
| Adapter.GetOnChangePreserves | adapter.js:19-25 | the heap stays well formed and only grows; every cached handler still forwards the mode's field to its entry's `fn` |
| Adapter.GetOnChangeHandlerForwards | adapter.js:19-21 | the returned handler, cached or new, calls this link's `requestChange` with `target.value` in value mode and `target.checked` in checked mode |
| Adapter.ModesAreSeparate | adapter.js:11-13 | the same link asked for in value mode and then in checked mode gives two different handlers, one forwarding `target.value` and one `target.checked` |
| Adapter.LinkedStateAdapter.GetOnChange | adapter.js:10-28 | the loop's result, the mode's cache and the heap afterwards are those of `GetOnChangeSpec`, and the other mode's cache is unchanged |
| Adapter.LinkedStateAdapter.OnChange | adapter.js:52-64 | returns the `onChange` prop or `undefined` and changes nothing, or returns the value-mode or checked-mode cached handler per `OnChangeBinding` |
| AdaptedLinkedStateMixin.LinkStateSpec | src/adapted-linked-state-mixin.js:7-31 | `linkState(key)` for the current `state[key]`: the returned link carries that value and is what the dictionary holds for `key` afterwards; with a cached link of equal value it is that link and nothing changes; every other key's entry is unchanged; the heap only grows |
| AdaptedLinkedStateMixin.LinkStateIsStable | src/adapted-linked-state-mixin.js:10-14 | with `state[key]` unchanged, a second `linkState(key)` returns the identical link and changes nothing |
| AdaptedLinkedStateMixin.LinkStateOnChangedValue | src/adapted-linked-state-mixin.js:17-22 | with `state[key]` changed, the result is a new link object with the new value and the same three handlers, it replaces only `key`'s entry, and no function is allocated |
| AdaptedLinkedStateMixin.LinkStateFirstCall | src/adapted-linked-state-mixin.js:23-29 | the first `linkState(key)` makes three new, pairwise distinct handlers bound to this owner and key, and adds only `key`'s entry |
| AdaptedLinkedStateMixin.LinkedCoherentStore | src/adapted-linked-state-mixin.js:17 | storing for `key` a new link object with `key`'s own handlers keeps the dictionary coherent |
| AdaptedLinkedStateMixin.LinkStatePreserves | src/adapted-linked-state-mixin.js:7-31 | `linkState` keeps the heap well formed and only growing, and keeps every cached link bound to its own key's handlers |
| AdaptedLinkedStateMixin.DistinctKeysShareNothing | src/adapted-linked-state-mixin.js:26-28 | the links of two different keys are different objects and share no handler |
| AdaptedLinkedStateMixin.LinkedHandlersWriteKey | src/adapted-linked-state-mixin.js:82-104 | a key's `requestChange(v)` sets that key to `v`, `onValueChange(e)` to `e.target.value`, `onCheckedChange(e)` to `e.target.checked`; a non-event makes the last two throw |
| AdaptedLinkedStateMixin.LinkStateAsWritten | src/adapted-linked-state-mixin.js:10-22 | `linkState(key)` with `cache[key]` and `this.state[key]` read through the prototype: for any key not inherited from `Object.prototype` it is `LinkStateSpec`; for an inherited key never stored, the result is the built-in itself or a link whose three handlers are `undefined` |
| AdaptedLinkedStateMixin.InheritedKeyLinkHasNoHandlers | src/adapted-linked-state-mixin.js:10-22 | as written, `linkState("constructor")` on a fresh owner stores and returns a link whose value is the inherited `Object` and whose three handlers are `undefined`, so its `onValueChange` throws; the corrected `LinkStateSpec` makes the key's three handlers |
| AdaptedLinkedStateMixin.FindAdapted | src/adapted-linked-state-mixin.js:42-44 | the scan stops at the first cached link whose `requestChange` is the link's, and finds none exactly when no cached link has it |
| AdaptedLinkedStateMixin.AdaptSpec | src/adapted-linked-state-mixin.js:33-69 | `adaptReactLink(link)`: a link with both handler properties comes back unchanged with nothing else changed; otherwise the result carries `link.value` and `link.requestChange`; the cache keeps its entries in order and grows by at most the returned link; the heap only grows |
| AdaptedLinkedStateMixin.AdaptIsIdempotent | src/adapted-linked-state-mixin.js:35 | a link that has both handler properties is returned as it is; every result has both, so adapting a result again returns it unchanged |
| AdaptedLinkedStateMixin.AdaptOnMiss | src/adapted-linked-state-mixin.js:58-68 | a miss appends exactly one entry, a new link object with the original `value` and `requestChange` and two new, distinct handlers forwarding to it |
| AdaptedLinkedStateMixin.AdaptOnHitSameValue | src/adapted-linked-state-mixin.js:42-47 | a hit with an equal value returns the cached link itself and changes nothing |
| AdaptedLinkedStateMixin.AdaptOnHitNewValue | src/adapted-linked-state-mixin.js:47-53 | a hit with a different value returns a new link object with the new value and the cached handlers, and leaves the cache untouched |
| AdaptedLinkedStateMixin.ChangedLinkIsRewrappedEveryTime | src/adapted-linked-state-mixin.js:47-53 | because that hit does not update the cache, adapting the same changed link again gives yet another link object |
| AdaptedLinkedStateMixin.SharedRequestChangeSharesHandlers | src/adapted-linked-state-mixin.js:39-55 | two links with the same `requestChange` and different values adapt to two different link objects with the same three handlers, each with its own value |
| AdaptedLinkedStateMixin.AdaptPreserves | src/adapted-linked-state-mixin.js:33-69 | `adaptReactLink` keeps the heap well formed and only growing, and keeps every cached link's handlers forwarding to its `requestChange` |
| AdaptedLinkedStateMixin.AdaptedHandlersForward | src/adapted-linked-state-mixin.js:47-63 | the returned link keeps the original `requestChange`, and its handlers call it with `target.value` and `target.checked`, whether cached or new |
| AdaptedLinkedStateMixin.AdaptedLinkedState.LinkState | src/adapted-linked-state-mixin.js:7-31 | the returned link, the dictionary and the heap afterwards are those of `LinkStateSpec` on the current `state[key]`; the array cache is unchanged |
| AdaptedLinkedStateMixin.AdaptedLinkedState.AdaptReactLink | src/adapted-linked-state-mixin.js:33-69 | the scan's result, the array cache and the heap afterwards are those of `AdaptSpec`; the dictionary is unchanged |
| AdaptedLinkedStateMixin.AdaptedLinkedState.Fire | src/adapted-linked-state-mixin.js:82-104 | calling a key's handler sets exactly that key of the owner to the handler's field of the argument, or throws on a non-event with nothing changed; no other owner changes |

## Left out

- React rendering, mounting and the test harness are not modelled. The lifecycle hooks appear only as calls that validate props.
- The output of `warning` is not modelled; only the one-shot flag and whether this call printed are. An `invariant` failure is an error value (`Conflict`, `LinkError`) rather than an exception that unwinds the caller.
- `setState` merges synchronously. React's batching and re-rendering are not modelled.
- Each owner-bound handler passes `setState` a `partialState` object that it captures and reuses. The model passes a fresh one-key map, which has the same effect on the state.
- JavaScript's loose `==` (src/adapted-linked-state-mixin.js:14, 44, 47; adapter.js:16) is modelled as equality of values. Functions and objects compare by id. Coercions such as `1 == "1"` or `null == undefined` are not modelled.
- A `valueLink` or `checkedLink` prop is either absent (`null`/`undefined`) or a link object. Other falsy values such as `0` or `""` are not modelled.
- Numbers are integers; floating point is not modelled.
- The `AdaptedReactLink` constructor (`src/adapted-react-link`) is not part of this model and is taken to be the four-field record. `src/react-link-adapter-mixin` is not part of this model.
- The lazy creation of the caches (`this.__linkedStates || (this.__linkedStates = {})` and the like) is not observable. Each class constructor starts with empty caches instead.
- LinkUtils.GetOnChange: the link utilities return the handler's code. The caller allocates the function object with `Runtime.Heap.NewClosure`, whose contract gives a fresh identity on every call.
- ConvertLink.ConvertLink: it returns the record and its handlers' code without allocating. "The result is a fresh record on every call" is therefore carried by `Runtime.Heap.NewClosure` and `Runtime.Heap.NewObject` at the call site, not by this function. That the input link is not modified holds because the function changes nothing.
- Calls to handlers the adapters did not create (`Foreign`) end the model's view of the call (`Escaped`): what that code does is not modelled.
- Runtime.Heap.Call: after a call that passes into foreign code (for instance a caller's own `requestChange`, which typically calls `setState` itself), nothing is promised about any owner's state; the model does not describe what that code changes.
- Functions and objects passed in by callers must already be in the heap (`Allocated`). A function the package did not create is a `Foreign` closure.
- On a hit whose value differs, `adaptReactLink` returns a new link without storing it (src/adapted-linked-state-mixin.js:47-53), unlike `linkState`, which stores its new link (line 17). `ChangedLinkIsRewrappedEveryTime` states the consequence.
- Runtime.Component.Read and AdaptedLinkedStateMixin.LinkStateSpec treat a key as present only when it was stored. In the source, `this.state[key]` and `cache[key]` (src/adapted-linked-state-mixin.js:10-14) are reads on plain objects, so a key naming an inherited `Object.prototype` member (`"constructor"`, `"toString"`, `"valueOf"`, `"hasOwnProperty"`, `"__proto__"`, ...) finds that built-in. `linkState` then stores and returns a link with no handlers. `LinkStateAsWritten` models that lookup and `InheritedKeyLinkHasNoHandlers` shows the result; the rest of the model uses `LinkStateSpec` (see Findings).
- A `Forward` handler keeps the link as it was when the handler was made. In the source the closure holds the link object and reads `link.requestChange` again on every call (link-utils.js:10, 19; src/link-utils.js:10, 19). Reassigning `requestChange` on a link after it was adapted or converted is not modelled: links are taken to be immutable.
- The handlers of the link utilities return what `link.requestChange(...)` returns. `Runtime.Effect` records the state update, the throw or the foreign call, but not a returned value.
- `convertLink` and `adaptReactLink` apply `in` to their argument (convert-link.js:28; src/adapted-linked-state-mixin.js:35), which throws a TypeError when the argument is `null`, `undefined` or a primitive. The model only accepts link objects (`Values.Link`), so that error path is not modelled.
- Change events (`Values.Val.Event`) carry no identity and compare by their `target.value` and `target.checked`. In the source, two distinct event objects stored through `requestChange(e)` differ under `==` even with equal fields, whereas `LinkStateSpec` and `AdaptSpec` would find them equal. No other plain object or array is a `Val`.

## Findings

| source | as written | input that shows it | evidently intended | confidence | as-written member | corrected member |
|---|---|---|---|---|---|---|
| src/adapted-linked-state-mixin.js:10-22 | `cache[key]` and `this.state[key]` read plain objects, so an inherited `Object.prototype` member is taken for a cached link | a fresh owner with state `{}` and `linkState("constructor")`: returns and stores `AdaptedReactLink(Object, undefined, undefined, undefined)`, whose `onValueChange` is not callable | only links stored by `linkState` count as cached; the first call for any key makes that key's three handlers | medium, not executed | AdaptedLinkedStateMixin.InheritedKeyLinkHasNoHandlers | AdaptedLinkedStateMixin.LinkStateFirstCall |

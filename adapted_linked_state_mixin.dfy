/**
 * The linked-state mixin of an owner component. `linkState(key)` gives a
 * link to one key of the owner's state and `adaptReactLink(link)` turns a
 * link from elsewhere into the adapted shape; both keep per-owner caches
 * so that the change handlers, and while the value stays the same the
 * link object itself, keep their identity from one call to the next.
 *
 * The owner's state lives in its `Component`; the mixin's two caches are
 * the fields of an `AdaptedLinkedState` composed with it.
 */
module AdaptedLinkedStateMixin {
  import opened Values
  import opened Runtime
  import SrcLinkUtils

  /** `h` is a function object whose code is `c`. */
  predicate Bound(fns: map<Id, Closure>, h: Val, c: Closure) {
    h.Fn? && h.id in fns && fns[h.id] == c
  }

  /** The `linkState` cache is coherent: each key's link is an adapted link
      that exists, whose three handlers are the ones made for that key of
      this owner, and links of different keys are different objects. */
  predicate LinkedCoherent(owner: Component, cache: map<Key, Link>, s: Store) {
    && (forall k :: k in cache ==>
          && cache[k].Adapted? && cache[k].id < s.next
          && Bound(s.fns, cache[k].requestChange, SetState(owner, k, Whole))
          && Bound(s.fns, cache[k].onValueChange, SetState(owner, k, TargetValue))
          && Bound(s.fns, cache[k].onCheckedChange, SetState(owner, k, TargetChecked)))
    && (forall k1, k2 :: k1 in cache && k2 in cache && k1 != k2 ==> cache[k1].id != cache[k2].id)
  }

  lemma LinkedCoherentExtends(owner: Component, cache: map<Key, Link>, s: Store, t: Store)
    requires LinkedCoherent(owner, cache, s) && Extends(s, t)
    ensures LinkedCoherent(owner, cache, t)
  {
  }

  /** The result of `linkState`: the link, the cache and the heap after. */
  datatype Linked = Linked(link: Link, cache: map<Key, Link>, store: Store)

  /** `linkState(key)` when `this.state[key]` is `current`. */
  function LinkStateSpec(owner: Component, cache: map<Key, Link>, current: Val, key: Key, s: Store): (r: Linked)
    ensures key in r.cache && r.cache[key] == r.link
    ensures key in cache && Get(cache[key], "value") == current ==> r == Linked(cache[key], cache, s)
    ensures Get(r.link, "value") == current
    ensures forall k :: k != key ==> (k in r.cache <==> k in cache) && (k in cache ==> r.cache[k] == cache[k])
    ensures s.next <= r.store.next && s.fns.Keys <= r.store.fns.Keys
  {
    if key in cache then
      var cached := cache[key];
      if Get(cached, "value") == current then Linked(cached, cache, s)
      else
        var l := Adapted(s.next, current, Get(cached, "requestChange"),
                         Get(cached, "onValueChange"), Get(cached, "onCheckedChange"));
        Linked(l, cache[key := l], Bump(s))
    else
      var s1 := Alloc(s, SetState(owner, key, Whole));
      var s2 := Alloc(s1, SetState(owner, key, TargetValue));
      var s3 := Alloc(s2, SetState(owner, key, TargetChecked));
      var l := Adapted(s3.next, current, Fn(s.next), Fn(s1.next), Fn(s2.next));
      Linked(l, cache[key := l], Bump(s3))
  }

  /** While the state value is unchanged, a second `linkState(key)`
      returns the very same link object and changes nothing. */
  lemma LinkStateIsStable(owner: Component, cache: map<Key, Link>, current: Val, key: Key, s: Store)
    ensures var r := LinkStateSpec(owner, cache, current, key, s);
      LinkStateSpec(owner, r.cache, current, key, r.store) == r
  {
  }

  /** When the state value has changed, `linkState(key)` returns a new link
      object with the new value and the old link's three handlers, and it
      replaces the cache entry of that key only. */
  lemma LinkStateOnChangedValue(owner: Component, cache: map<Key, Link>, current: Val, key: Key, s: Store)
    requires LinkedCoherent(owner, cache, s)
    requires key in cache && Get(cache[key], "value") != current
    ensures var r := LinkStateSpec(owner, cache, current, key, s);
      && r.link.Adapted? && r.link.id != cache[key].id && r.link.value == current
      && r.link.requestChange == cache[key].requestChange
      && r.link.onValueChange == cache[key].onValueChange
      && r.link.onCheckedChange == cache[key].onCheckedChange
      && r.cache == cache[key := r.link] && r.store.fns == s.fns
  {
  }

  /** The first `linkState(key)` makes three new handlers, distinct from
      each other and from every existing function, bound to this owner and
      key, and adds a cache entry for that key only. */
  lemma LinkStateFirstCall(owner: Component, cache: map<Key, Link>, current: Val, key: Key, s: Store)
    requires WellFormed(s) && key !in cache
    ensures var r := LinkStateSpec(owner, cache, current, key, s);
      && r.link.Adapted? && r.link.value == current && r.link.id >= s.next
      && Bound(r.store.fns, r.link.requestChange, SetState(owner, key, Whole))
      && Bound(r.store.fns, r.link.onValueChange, SetState(owner, key, TargetValue))
      && Bound(r.store.fns, r.link.onCheckedChange, SetState(owner, key, TargetChecked))
      && r.link.requestChange.id !in s.fns && r.link.onValueChange.id !in s.fns
      && r.link.onCheckedChange.id !in s.fns
      && r.link.requestChange != r.link.onValueChange
      && r.link.requestChange != r.link.onCheckedChange
      && r.link.onValueChange != r.link.onCheckedChange
      && r.cache == cache[key := r.link]
  {
  }

  /** Storing a link for `key` whose object is new and whose handlers are
      the key's own keeps the cache coherent. */
  lemma LinkedCoherentStore(owner: Component, cache: map<Key, Link>, s: Store, t: Store, key: Key, l: Link)
    requires LinkedCoherent(owner, cache, s) && Extends(s, t)
    requires l.Adapted? && s.next <= l.id < t.next
    requires Bound(t.fns, l.requestChange, SetState(owner, key, Whole))
    requires Bound(t.fns, l.onValueChange, SetState(owner, key, TargetValue))
    requires Bound(t.fns, l.onCheckedChange, SetState(owner, key, TargetChecked))
    ensures LinkedCoherent(owner, cache[key := l], t)
  {
    LinkedCoherentExtends(owner, cache, s, t);
    var c := cache[key := l];
    forall k1, k2 | k1 in c && k2 in c && k1 != k2
      ensures c[k1].id != c[k2].id
    {
      if k1 == key {
        assert c[k2] == cache[k2];
      } else if k2 == key {
        assert c[k1] == cache[k1];
      }
    }
  }

  /** `linkState` keeps the heap well formed and the cache coherent, and
      only adds to the heap. */
  lemma LinkStatePreserves(owner: Component, cache: map<Key, Link>, current: Val, key: Key, s: Store)
    requires WellFormed(s) && LinkedCoherent(owner, cache, s)
    ensures var r := LinkStateSpec(owner, cache, current, key, s);
      WellFormed(r.store) && Extends(s, r.store) && LinkedCoherent(owner, r.cache, r.store)
  {
    var r := LinkStateSpec(owner, cache, current, key, s);
    if key !in cache {
      var s1 := Alloc(s, SetState(owner, key, Whole));
      var s2 := Alloc(s1, SetState(owner, key, TargetValue));
      var s3 := Alloc(s2, SetState(owner, key, TargetChecked));
      AllocPreserves(s, SetState(owner, key, Whole));
      AllocPreserves(s1, SetState(owner, key, TargetValue));
      AllocPreserves(s2, SetState(owner, key, TargetChecked));
      assert r.store == Bump(s3) && r.cache == cache[key := r.link];
      LinkedCoherentStore(owner, cache, s, r.store, key, r.link);
    } else if Get(cache[key], "value") != current {
      LinkedCoherentStore(owner, cache, s, r.store, key, r.link);
    }
  }

  /** The three handlers of an adapted link. */
  function Handlers(l: Link): set<Val>
    requires l.Adapted?
  {
    {l.requestChange, l.onValueChange, l.onCheckedChange}
  }

  /** Links of two different keys share no object: their link objects are
      different and no handler of one is a handler of the other. */
  lemma DistinctKeysShareNothing(owner: Component, cache: map<Key, Link>, s: Store, k1: Key, k2: Key)
    requires LinkedCoherent(owner, cache, s)
    requires k1 in cache && k2 in cache && k1 != k2
    ensures cache[k1].id != cache[k2].id
    ensures Handlers(cache[k1]) !! Handlers(cache[k2])
  {
    forall h | h in Handlers(cache[k1])
      ensures h !in Handlers(cache[k2])
    {
      assert h.Fn? && h.id in s.fns && s.fns[h.id].SetState? && s.fns[h.id].key == k1;
    }
  }

  /** Calling the handlers of a key's link sets exactly that key of the
      owner's state: `requestChange(v)` to `v`, `onValueChange(e)` to
      `e.target.value`, `onCheckedChange(e)` to `e.target.checked`; an
      argument that is not an event makes the event handlers throw. */
  lemma LinkedHandlersWriteKey(owner: Component, cache: map<Key, Link>, s: Store, key: Key, arg: Val)
    requires WellFormed(s) && LinkedCoherent(owner, cache, s) && key in cache
    ensures var l := cache[key];
      && Callable(s.fns, l.requestChange) && Callable(s.fns, l.onValueChange)
      && Callable(s.fns, l.onCheckedChange)
      && Resolve(s.fns, l.requestChange, arg) == Update(owner, key, arg)
      && Resolve(s.fns, l.onValueChange, arg) == (if arg.Event? then Update(owner, key, arg.value) else Thrown)
      && Resolve(s.fns, l.onCheckedChange, arg) == (if arg.Event? then Update(owner, key, arg.checked) else Thrown)
  {
  }

  /** The members every plain object inherits from `Object.prototype`;
      `obj[name]` finds them on an object that has no own `name`. */
  const InheritedNames: set<Key> := {
    "constructor", "toString", "toLocaleString", "valueOf", "hasOwnProperty",
    "isPrototypeOf", "propertyIsEnumerable", "__proto__",
    "__defineGetter__", "__defineSetter__", "__lookupGetter__", "__lookupSetter__"}

  /** `linkState(key)` as written, where `cache[key]` and `this.state[key]`
      are property reads on plain objects and so also find the inherited
      members. `builtin` is the built-in object inherited under `key`: a
      truthy object with no `value`, `requestChange` or handler property. */
  function LinkStateAsWritten(owner: Component, cache: map<Key, Link>, state: map<Key, Val>,
                              builtin: Id, key: Key, s: Store): (r: Linked)
    ensures key !in InheritedNames ==>
      r == LinkStateSpec(owner, cache, if key in state then state[key] else Undefined, key, s)
    ensures key in InheritedNames && key !in cache ==>
      r.link.Plain? || (r.link.Adapted? && r.link.requestChange == Undefined &&
                        r.link.onValueChange == Undefined && r.link.onCheckedChange == Undefined)
  {
    var current := if key in state then state[key] else if key in InheritedNames then Fn(builtin) else Undefined;
    if key !in cache && key in InheritedNames then
      var cached := Plain(builtin, map[]);
      if Get(cached, "value") == current then Linked(cached, cache, s)
      else
        var l := Adapted(s.next, current, Get(cached, "requestChange"),
                         Get(cached, "onValueChange"), Get(cached, "onCheckedChange"));
        Linked(l, cache[key := l], Bump(s))
    else LinkStateSpec(owner, cache, current, key, s)
  }

  /** On a fresh owner with state `{}`, `linkState("constructor")` as
      written takes the inherited `Object` for a cached link: it returns
      and stores a link holding `Object` as its value and no handlers at
      all, so calling its `onValueChange` throws. `LinkStateSpec`, which
      only sees keys that were stored, makes the key's three handlers. */
  lemma InheritedKeyLinkHasNoHandlers(owner: Component, builtin: Id, s: Store, arg: Val)
    requires WellFormed(s)
    ensures var r := LinkStateAsWritten(owner, map[], map[], builtin, "constructor", s);
      && r.link.Adapted? && r.link.value == Fn(builtin)
      && r.link.requestChange == Undefined && r.link.onValueChange == Undefined
      && r.link.onCheckedChange == Undefined
      && r.cache == map["constructor" := r.link]
      && Resolve(r.store.fns, r.link.onValueChange, arg) == Thrown
    ensures var r := LinkStateSpec(owner, map[], Undefined, "constructor", s);
      && r.link.Adapted? && r.link.value == Undefined
      && Bound(r.store.fns, r.link.requestChange, SetState(owner, "constructor", Whole))
      && Bound(r.store.fns, r.link.onValueChange, SetState(owner, "constructor", TargetValue))
      && Bound(r.store.fns, r.link.onCheckedChange, SetState(owner, "constructor", TargetChecked))
  {
    assert "constructor" in InheritedNames;
    LinkStateFirstCall(owner, map[], Undefined, "constructor", s);
  }

  /** The index the linear scan of the adapted-link cache stops at: the
      first link whose `requestChange` is `rc`. */
  function FindAdapted(cache: seq<Link>, rc: Val): (r: Option<nat>)
    ensures r.Some? ==> r.value < |cache| && Get(cache[r.value], "requestChange") == rc
    ensures r.Some? ==> forall j :: 0 <= j < r.value ==> Get(cache[j], "requestChange") != rc
    ensures r.None? <==> forall j :: 0 <= j < |cache| ==> Get(cache[j], "requestChange") != rc
    decreases |cache|
  {
    if cache == [] then None
    else if Get(cache[0], "requestChange") == rc then Some(0)
    else
      match FindAdapted(cache[1..], rc)
      case None => None
      case Some(j) => Some(j + 1)
  }

  /** The `adaptReactLink` cache is coherent: each entry is an adapted link
      that exists and whose two handlers forward to its `requestChange`. */
  predicate AdaptedCoherent(cache: seq<Link>, s: Store) {
    forall i :: 0 <= i < |cache| ==>
      && cache[i].Adapted? && cache[i].id < s.next
      && ForwardsTo(s.fns, cache[i].onValueChange, cache[i].requestChange, TargetValue)
      && ForwardsTo(s.fns, cache[i].onCheckedChange, cache[i].requestChange, TargetChecked)
  }

  lemma AdaptedCoherentExtends(cache: seq<Link>, s: Store, t: Store)
    requires AdaptedCoherent(cache, s) && Extends(s, t)
    ensures AdaptedCoherent(cache, t)
  {
    forall i | 0 <= i < |cache|
      ensures ForwardsTo(t.fns, cache[i].onValueChange, cache[i].requestChange, TargetValue)
      ensures ForwardsTo(t.fns, cache[i].onCheckedChange, cache[i].requestChange, TargetChecked)
    {
    }
  }

  /** A link that already has both handler properties. */
  predicate AlreadyAdapted(link: Link) {
    Has(link, "onValueChange") && Has(link, "onCheckedChange")
  }

  /** The result of `adaptReactLink`: the link, the cache and the heap after. */
  datatype Adaptation = Adaptation(link: Link, cache: seq<Link>, store: Store)

  /** `adaptReactLink(link)`. */
  function AdaptSpec(cache: seq<Link>, link: Link, s: Store): (r: Adaptation)
    ensures AlreadyAdapted(link) ==> r == Adaptation(link, cache, s)
    ensures !AlreadyAdapted(link) ==>
      && Get(r.link, "value") == Get(link, "value")
      && Get(r.link, "requestChange") == Get(link, "requestChange")
    ensures |cache| <= |r.cache| <= |cache| + 1 && r.cache[..|cache|] == cache
    ensures |r.cache| == |cache| + 1 ==> r.cache[|cache|] == r.link
    ensures s.next <= r.store.next && s.fns.Keys <= r.store.fns.Keys
  {
    if AlreadyAdapted(link) then Adaptation(link, cache, s)
    else
      var rc := Get(link, "requestChange");
      match FindAdapted(cache, rc)
      case Some(i) =>
        var cached := cache[i];
        if Get(cached, "value") == Get(link, "value") then Adaptation(cached, cache, s)
        else
          Adaptation(Adapted(s.next, Get(link, "value"), Get(cached, "requestChange"),
                             Get(cached, "onValueChange"), Get(cached, "onCheckedChange")),
                     cache, Bump(s))
      case None =>
        var s1 := Alloc(s, SrcLinkUtils.GetOnValueChange(Some(link)).value);
        var s2 := Alloc(s1, SrcLinkUtils.GetOnCheckedChange(Some(link)).value);
        var l := Adapted(s2.next, Get(link, "value"), rc, Fn(s.next), Fn(s1.next));
        Adaptation(l, cache + [l], Bump(s2))
  }

  /** A link that already has both handlers is returned as it is, and what
      `adaptReactLink` returns always has both: adapting is idempotent. */
  lemma AdaptIsIdempotent(cache: seq<Link>, link: Link, s: Store)
    requires AdaptedCoherent(cache, s)
    ensures AlreadyAdapted(link) ==> AdaptSpec(cache, link, s) == Adaptation(link, cache, s)
    ensures var r := AdaptSpec(cache, link, s);
      AlreadyAdapted(r.link) && AdaptSpec(r.cache, r.link, r.store) == r
  {
  }

  /** On a miss, exactly one entry is appended: a new link object with the
      original value and `requestChange` and two new handlers. */
  lemma AdaptOnMiss(cache: seq<Link>, link: Link, s: Store)
    requires WellFormed(s) && Allocated(s, link) && !AlreadyAdapted(link)
    requires FindAdapted(cache, Get(link, "requestChange")).None?
    ensures var r := AdaptSpec(cache, link, s);
      && |r.cache| == |cache| + 1 && r.cache[..|cache|] == cache && r.cache[|cache|] == r.link
      && r.link.Adapted? && r.link.id >= s.next && r.link.id != link.id
      && r.link.value == Get(link, "value") && r.link.requestChange == Get(link, "requestChange")
      && ForwardsTo(r.store.fns, r.link.onValueChange, Get(link, "requestChange"), TargetValue)
      && ForwardsTo(r.store.fns, r.link.onCheckedChange, Get(link, "requestChange"), TargetChecked)
      && r.link.onValueChange.id !in s.fns && r.link.onCheckedChange.id !in s.fns
      && r.link.onValueChange != r.link.onCheckedChange
  {
    var r := AdaptSpec(cache, link, s);
    assert r.cache[..|cache|] == cache;
  }

  /** On a hit whose value is unchanged, the cached adapted link itself is
      returned and nothing changes. */
  lemma AdaptOnHitSameValue(cache: seq<Link>, link: Link, s: Store)
    requires !AlreadyAdapted(link)
    requires FindAdapted(cache, Get(link, "requestChange")).Some?
    requires Get(cache[FindAdapted(cache, Get(link, "requestChange")).value], "value") == Get(link, "value")
    ensures AdaptSpec(cache, link, s) ==
      Adaptation(cache[FindAdapted(cache, Get(link, "requestChange")).value], cache, s)
  {
  }

  /** On a hit with a different value, a new link object is returned with
      the new value and the cached link's three handlers; the cache keeps
      its length, its entries and the old value. */
  lemma AdaptOnHitNewValue(cache: seq<Link>, link: Link, s: Store)
    requires AdaptedCoherent(cache, s) && !AlreadyAdapted(link)
    requires FindAdapted(cache, Get(link, "requestChange")).Some?
    requires Get(cache[FindAdapted(cache, Get(link, "requestChange")).value], "value") != Get(link, "value")
    ensures var cached := cache[FindAdapted(cache, Get(link, "requestChange")).value];
      var r := AdaptSpec(cache, link, s);
      && r.cache == cache && r.store.fns == s.fns
      && r.link.Adapted? && r.link.id != cached.id && r.link.value == Get(link, "value")
      && r.link.requestChange == cached.requestChange
      && r.link.onValueChange == cached.onValueChange
      && r.link.onCheckedChange == cached.onCheckedChange
  {
  }

  /** Because a hit with a new value does not update the cache, adapting
      that same link again allocates yet another link object. */
  lemma ChangedLinkIsRewrappedEveryTime(cache: seq<Link>, link: Link, s: Store)
    requires AdaptedCoherent(cache, s) && !AlreadyAdapted(link)
    requires FindAdapted(cache, Get(link, "requestChange")).Some?
    requires Get(cache[FindAdapted(cache, Get(link, "requestChange")).value], "value") != Get(link, "value")
    ensures var r1 := AdaptSpec(cache, link, s);
      var r2 := AdaptSpec(r1.cache, link, r1.store);
      r2.link.id != r1.link.id && r2.cache == cache
  {
  }

  /** Two links sharing one `requestChange` and differing only in value
      adapt, one after the other, to two different link objects with the
      same three handlers and each its own value. */
  lemma SharedRequestChangeSharesHandlers(cache: seq<Link>, l1: Link, l2: Link, s: Store)
    requires WellFormed(s) && AdaptedCoherent(cache, s) && Allocated(s, l1)
    requires !AlreadyAdapted(l1) && !AlreadyAdapted(l2)
    requires Get(l2, "requestChange") == Get(l1, "requestChange")
    requires Get(l2, "value") != Get(l1, "value")
    ensures var r1 := AdaptSpec(cache, l1, s);
      var r2 := AdaptSpec(r1.cache, l2, r1.store);
      && r1.link.Adapted? && r2.link.Adapted?
      && r2.link.id != r1.link.id
      && r1.link.value == Get(l1, "value") && r2.link.value == Get(l2, "value")
      && r2.link.requestChange == r1.link.requestChange
      && r2.link.onValueChange == r1.link.onValueChange
      && r2.link.onCheckedChange == r1.link.onCheckedChange
  {
    var rc := Get(l1, "requestChange");
    var r1 := AdaptSpec(cache, l1, s);
    match FindAdapted(cache, rc)
    case Some(k) =>
      assert r1.cache == cache && r1.store.next >= s.next;
    case None =>
      assert FindAdapted(r1.cache, rc) == Some(|cache|) by {
        assert forall j :: 0 <= j < |cache| ==> r1.cache[j] == cache[j];
        assert Get(r1.cache[|cache|], "requestChange") == rc;
        var f := FindAdapted(r1.cache, rc);
        assert f.Some?;
        assert f.value >= |cache|;
      }
  }

  /** `adaptReactLink` keeps the heap well formed and the cache coherent,
      and only adds to the heap. */
  lemma AdaptPreserves(cache: seq<Link>, link: Link, s: Store)
    requires WellFormed(s) && AdaptedCoherent(cache, s) && Allocated(s, link)
    ensures var r := AdaptSpec(cache, link, s);
      WellFormed(r.store) && Extends(s, r.store) && AdaptedCoherent(r.cache, r.store)
      && (AlreadyAdapted(link) || (r.link.Adapted? && r.link.id < r.store.next))
  {
    var r := AdaptSpec(cache, link, s);
    if !AlreadyAdapted(link) && FindAdapted(cache, Get(link, "requestChange")).None? {
      var s1 := Alloc(s, Forward(link, TargetValue));
      AllocPreserves(s, Forward(link, TargetValue));
      AllocPreserves(s1, Forward(link, TargetChecked));
      AdaptedCoherentExtends(cache, s, r.store);
      forall i | 0 <= i < |r.cache|
        ensures r.cache[i].Adapted? && r.cache[i].id < r.store.next
        ensures ForwardsTo(r.store.fns, r.cache[i].onValueChange, r.cache[i].requestChange, TargetValue)
        ensures ForwardsTo(r.store.fns, r.cache[i].onCheckedChange, r.cache[i].requestChange, TargetChecked)
      {
        if i < |cache| {
          assert r.cache[i] == cache[i];
        }
      }
    } else if !AlreadyAdapted(link) {
      AdaptedCoherentExtends(cache, s, r.store);
    }
  }

  /** The handlers of an adapted link call the original `requestChange`
      with the event's `target.value` and `target.checked`, whether the
      link came from the cache or was just made. */
  lemma AdaptedHandlersForward(cache: seq<Link>, link: Link, s: Store, v: Val, c: Val)
    requires WellFormed(s) && AdaptedCoherent(cache, s) && Allocated(s, link) && !AlreadyAdapted(link)
    ensures var r := AdaptSpec(cache, link, s);
      && r.link.Adapted? && r.link.requestChange == Get(link, "requestChange")
      && Callable(r.store.fns, Get(link, "requestChange"))
      && Resolve(r.store.fns, r.link.onValueChange, Event(v, c)) ==
           Resolve(r.store.fns, Get(link, "requestChange"), v)
      && Resolve(r.store.fns, r.link.onCheckedChange, Event(v, c)) ==
           Resolve(r.store.fns, Get(link, "requestChange"), c)
  {
    var rc := Get(link, "requestChange");
    var r := AdaptSpec(cache, link, s);
    AdaptPreserves(cache, link, s);
    match FindAdapted(cache, rc)
    case Some(i) =>
      AdaptedCoherentExtends(cache, s, r.store);
      assert ForwardsTo(r.store.fns, cache[i].onValueChange, rc, TargetValue);
      assert ForwardsTo(r.store.fns, cache[i].onCheckedChange, rc, TargetChecked);
      ForwardsToCall(r.store.fns, r.link.onValueChange, rc, TargetValue, v, c);
      ForwardsToCall(r.store.fns, r.link.onCheckedChange, rc, TargetChecked, v, c);
    case None =>
      AdaptOnMiss(cache, link, s);
      ForwardsToCall(r.store.fns, r.link.onValueChange, rc, TargetValue, v, c);
      ForwardsToCall(r.store.fns, r.link.onCheckedChange, rc, TargetChecked, v, c);
  }

  /** The mixin's per-owner state: the `__linkedStates` dictionary and the
      `__adaptedLinks` array (created lazily in the source, which is not
      observable), next to the owner whose state the links bind to. */
  class AdaptedLinkedState {
    const owner: Component
    const heap: Heap
    var linkedStates: map<Key, Link>
    var adaptedLinks: seq<Link>

    ghost predicate Valid()
      reads this, heap
    {
      heap.Valid() &&
      LinkedCoherent(owner, linkedStates, heap.Snapshot()) &&
      AdaptedCoherent(adaptedLinks, heap.Snapshot())
    }

    constructor (owner: Component, heap: Heap)
      requires heap.Valid()
      ensures Valid() && this.owner == owner && this.heap == heap
      ensures linkedStates == map[] && adaptedLinks == []
    {
      this.owner := owner;
      this.heap := heap;
      linkedStates := map[];
      adaptedLinks := [];
    }

    /** `linkState(key)`. */
    method LinkState(key: Key) returns (r: Link)
      requires Valid()
      modifies this`linkedStates, heap
      ensures Valid() && adaptedLinks == old(adaptedLinks)
      ensures Linked(r, linkedStates, heap.Snapshot()) ==
        LinkStateSpec(owner, old(linkedStates), owner.Read(key), key, old(heap.Snapshot()))
    {
      ghost var before := heap.Snapshot();
      LinkStatePreserves(owner, linkedStates, owner.Read(key), key, before);
      var current := owner.Read(key);
      if key in linkedStates {
        var cached := linkedStates[key];
        if Get(cached, "value") == current {
          return cached;
        }
        var id := heap.NewObject();
        r := Adapted(id, current, Get(cached, "requestChange"),
                     Get(cached, "onValueChange"), Get(cached, "onCheckedChange"));
        linkedStates := linkedStates[key := r];
      } else {
        var requestChange := heap.NewClosure(SetState(owner, key, Whole));
        var onValueChange := heap.NewClosure(SetState(owner, key, TargetValue));
        var onCheckedChange := heap.NewClosure(SetState(owner, key, TargetChecked));
        var id := heap.NewObject();
        r := Adapted(id, current, requestChange, onValueChange, onCheckedChange);
        linkedStates := linkedStates[key := r];
      }
      AdaptedCoherentExtends(adaptedLinks, before, heap.Snapshot());
    }

    /** Calls one of the handlers of the link cached for `key` (the one
        passing its whole argument, `target.value` or `target.checked`):
        the owner's `key` is set to that field and nothing else changes;
        an argument without `target` throws and changes nothing. */
    method Fire(key: Key, field: Field, arg: Val) returns (e: Effect)
      requires Valid() && key in linkedStates
      modifies Owners(heap.fns)`state
      ensures Select(field, arg).Some? ==>
        e == Update(owner, key, Select(field, arg).value) &&
        owner.state == old(owner.state)[key := Select(field, arg).value]
      ensures Select(field, arg).None? ==> e == Thrown && owner.state == old(owner.state)
      ensures forall o :: o in Owners(heap.fns) && o != owner ==> o.state == old(o.state)
    {
      var l := linkedStates[key];
      var h := match field
        case Whole => l.requestChange
        case TargetValue => l.onValueChange
        case TargetChecked => l.onCheckedChange;
      LinkedHandlersWriteKey(owner, linkedStates, heap.Snapshot(), key, arg);
      assert heap.fns[l.requestChange.id].owner in Owners(heap.fns);
      e := heap.Call(h, arg);
    }

    /** `adaptReactLink(link)`. */
    method AdaptReactLink(link: Link) returns (r: Link)
      requires Valid() && Allocated(heap.Snapshot(), link)
      modifies this`adaptedLinks, heap
      ensures Valid() && linkedStates == old(linkedStates)
      ensures Adaptation(r, adaptedLinks, heap.Snapshot()) ==
        AdaptSpec(old(adaptedLinks), link, old(heap.Snapshot()))
    {
      if Has(link, "onValueChange") && Has(link, "onCheckedChange") {
        return link;
      }
      ghost var before := heap.Snapshot();
      AdaptPreserves(adaptedLinks, link, before);
      var rc := Get(link, "requestChange");
      var i := 0;
      while i < |adaptedLinks|
        invariant 0 <= i <= |adaptedLinks|
        invariant forall j :: 0 <= j < i ==> Get(adaptedLinks[j], "requestChange") != rc
      {
        if Get(adaptedLinks[i], "requestChange") == rc {
          break;
        }
        i := i + 1;
      }
      if i < |adaptedLinks| {
        assert FindAdapted(adaptedLinks, rc) == Some(i);
        var cached := adaptedLinks[i];
        if Get(cached, "value") == Get(link, "value") {
          return cached;
        }
        var id := heap.NewObject();
        r := Adapted(id, Get(link, "value"), Get(cached, "requestChange"),
                     Get(cached, "onValueChange"), Get(cached, "onCheckedChange"));
      } else {
        var onValueChange := heap.NewClosure(SrcLinkUtils.GetOnValueChange(Some(link)).value);
        var onCheckedChange := heap.NewClosure(SrcLinkUtils.GetOnCheckedChange(Some(link)).value);
        var id := heap.NewObject();
        r := Adapted(id, Get(link, "value"), rc, onValueChange, onCheckedChange);
        adaptedLinks := adaptedLinks + [r];
      }
      LinkedCoherentExtends(owner, linkedStates, before, heap.Snapshot());
    }
  }
}

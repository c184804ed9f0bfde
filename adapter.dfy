/**
 * The binding resolver a view component mixes in: it validates the
 * component's binding props, reports the deprecated link props once per
 * process, and answers `value()`, `checked()` and `onChange()`, keeping
 * one change handler per `requestChange` function so that the handler's
 * identity is stable across renders.
 */
module Adapter {
  import opened Values
  import opened Runtime
  import LinkUtils

  /** The binding props of a component; a prop not given is `Undefined`,
      a link prop not given is `None`. */
  datatype Props = Props(
    value: Val,
    checked: Val,
    onChange: Val,
    valueLink: Option<Link>,
    checkedLink: Option<Link>)

  /** The three messages of the single-link check, in the order it tests. */
  datatype Conflict = BothLinks | ValueLinkWithProps | CheckedLinkWithProps

  /** The single-link check as a whole: `None` when the props pass. */
  function SingleLink(p: Props): (r: Option<Conflict>)
    ensures r.None? <==>
      && !(p.valueLink.Some? && p.checkedLink.Some?)
      && (p.valueLink.Some? ==> IsNullish(p.value) && IsNullish(p.onChange))
      && (p.checkedLink.Some? ==> IsNullish(p.checked) && IsNullish(p.onChange))
    ensures p.valueLink.Some? && p.checkedLink.Some? ==> r == Some(BothLinks)
    ensures r == Some(ValueLinkWithProps) <==>
      p.valueLink.Some? && p.checkedLink.None? && !(IsNullish(p.value) && IsNullish(p.onChange))
    ensures r == Some(CheckedLinkWithProps) <==>
      p.checkedLink.Some? && p.valueLink.None? && !(IsNullish(p.checked) && IsNullish(p.onChange))
  {
    if p.valueLink.Some? && p.checkedLink.Some? then Some(BothLinks)
    else if p.valueLink.Some? && !(IsNullish(p.value) && IsNullish(p.onChange)) then Some(ValueLinkWithProps)
    else if p.checkedLink.Some? && !(IsNullish(p.checked) && IsNullish(p.onChange)) then Some(CheckedLinkWithProps)
    else None
  }

  /** The result of one validation of props: the conflict it reports, the
      process-wide "already warned" flag afterwards, and whether this
      validation printed the deprecation warning. */
  datatype Observation = Observation(conflict: Option<Conflict>, warned: bool, emitted: bool)

  /** One validation of props, given the flag before it. The first check
      throws before the warning; the warning comes before the other two. */
  function Observe(warned: bool, p: Props): (o: Observation)
    ensures o.conflict == SingleLink(p)
    ensures o.warned <==> warned || (p.valueLink.Some? != p.checkedLink.Some?)
    ensures o.emitted <==> !warned && o.warned
  {
    if p.valueLink.Some? && p.checkedLink.Some? then Observation(Some(BothLinks), warned, false)
    else if p.valueLink.Some? || p.checkedLink.Some? then Observation(SingleLink(p), true, !warned)
    else Observation(None, warned, false)
  }

  /** Props that use exactly one link and so reach the warning. */
  predicate LinkBased(p: Props) {
    p.valueLink.Some? != p.checkedLink.Some?
  }

  /** The flag after a series of validations. */
  function FlagAfter(warned: bool, ps: seq<Props>): bool
    decreases |ps|
  {
    if ps == [] then warned else FlagAfter(Observe(warned, ps[0]).warned, ps[1..])
  }

  /** How many warnings a series of validations prints. */
  function Emissions(warned: bool, ps: seq<Props>): nat
    decreases |ps|
  {
    if ps == [] then 0
    else
      var o := Observe(warned, ps[0]);
      (if o.emitted then 1 else 0) + Emissions(o.warned, ps[1..])
  }

  /** The deprecation warning is printed at most once per process: exactly
      once if the flag was clear and some validation saw a link-based
      configuration, never otherwise; and the flag is never cleared. */
  lemma {:induction false} WarnsAtMostOnce(warned: bool, ps: seq<Props>)
    ensures Emissions(warned, ps) <= 1
    ensures Emissions(warned, ps) == 1 <==> !warned && exists i :: 0 <= i < |ps| && LinkBased(ps[i])
    ensures FlagAfter(warned, ps) <==> warned || exists i :: 0 <= i < |ps| && LinkBased(ps[i])
    decreases |ps|
  {
    if ps != [] {
      var o := Observe(warned, ps[0]);
      WarnsAtMostOnce(o.warned, ps[1..]);
      assert forall i :: 1 <= i < |ps| ==> ps[i] == ps[1..][i - 1];
      if exists i :: 0 <= i < |ps[1..]| && LinkBased(ps[1..][i]) {
        var i :| 0 <= i < |ps[1..]| && LinkBased(ps[1..][i]);
        assert LinkBased(ps[i + 1]);
      }
    }
  }

  /** The module-level `didWarnDeprecation` flag, shared by every
      component of the process. */
  class DeprecationFlag {
    var warned: bool

    constructor ()
      ensures !warned
    {
      warned := false;
    }
  }

  /** `_assertSingleLink(props)`: validates the props and prints the
      deprecation warning the first time a link prop is used. Returns the
      conflict thrown, if any, and whether the warning was printed. */
  method AssertSingleLink(p: Props, flag: DeprecationFlag) returns (conflict: Option<Conflict>, emitted: bool)
    modifies flag
    ensures Observation(conflict, flag.warned, emitted) == Observe(old(flag.warned), p)
  {
    emitted := false;
    if p.valueLink.Some? && p.checkedLink.Some? {
      return Some(BothLinks), emitted;
    }
    if p.valueLink.Some? || p.checkedLink.Some? {
      if !flag.warned {
        emitted := true;
        flag.warned := true;
      }
      if p.valueLink.Some? && !(IsNullish(p.value) && IsNullish(p.onChange)) {
        return Some(ValueLinkWithProps), emitted;
      }
      if p.checkedLink.Some? && !(IsNullish(p.checked) && IsNullish(p.onChange)) {
        return Some(CheckedLinkWithProps), emitted;
      }
    }
    conflict := None;
  }

  /** `value()`: the value link's value when there is a value link,
      otherwise the `value` prop. */
  function Value(p: Props): (r: Val)
    ensures p.valueLink.Some? ==> r == Get(p.valueLink.value, "value")
    ensures p.valueLink.None? ==> r == p.value
  {
    if p.valueLink.Some? then LinkUtils.GetValue(p.valueLink) else p.value
  }

  /** `checked()`: the checked link's value when there is a checked link,
      otherwise the `checked` prop. */
  function Checked(p: Props): (r: Val)
    ensures p.checkedLink.Some? ==> r == Get(p.checkedLink.value, "value")
    ensures p.checkedLink.None? ==> r == p.checked
  {
    if p.checkedLink.Some? then LinkUtils.GetValue(p.checkedLink) else p.checked
  }

  /** Where `onChange()` takes its handler from. */
  datatype Binding = Direct(handler: Val) | ValueLinked(link: Link) | CheckedLinked(link: Link) | Unbound

  /** The precedence of `onChange()`: a truthy `onChange` prop, then the
      value link, then the checked link, then nothing. */
  function OnChangeBinding(p: Props): (b: Binding)
    ensures b.Direct? <==> Truthy(p.onChange)
    ensures b.ValueLinked? <==> !Truthy(p.onChange) && p.valueLink.Some?
    ensures b.CheckedLinked? <==> !Truthy(p.onChange) && p.valueLink.None? && p.checkedLink.Some?
    ensures b.Direct? ==> b.handler == p.onChange
    ensures b.ValueLinked? ==> b.link == p.valueLink.value
    ensures b.CheckedLinked? ==> b.link == p.checkedLink.value
  {
    if Truthy(p.onChange) then Direct(p.onChange)
    else if p.valueLink.Some? then ValueLinked(p.valueLink.value)
    else if p.checkedLink.Some? then CheckedLinked(p.checkedLink.value)
    else Unbound
  }

  /** On props that pass the single-link check, the three accessors agree
      on one binding mode: a link supplies both the value (or checked
      state) and the handler, and the direct props it displaces are absent. */
  lemma ValidatedPropsAreUnambiguous(p: Props)
    requires SingleLink(p).None?
    ensures p.valueLink.Some? ==>
      OnChangeBinding(p) == ValueLinked(p.valueLink.value) &&
      Value(p) == Get(p.valueLink.value, "value") && IsNullish(p.value) && IsNullish(p.onChange)
    ensures p.checkedLink.Some? ==>
      OnChangeBinding(p) == CheckedLinked(p.checkedLink.value) &&
      Checked(p) == Get(p.checkedLink.value, "value") && IsNullish(p.checked) && IsNullish(p.onChange)
    ensures p.valueLink.None? && p.checkedLink.None? ==>
      Value(p) == p.value && Checked(p) == p.checked &&
      OnChangeBinding(p) == (if Truthy(p.onChange) then Direct(p.onChange) else Unbound)
  {
  }

  /** An entry of a handler cache: `{fn: link.requestChange, onChange}`. */
  datatype Entry = Entry(fn: Val, onChange: Val)

  /** The index the linear scan of a handler cache stops at: the first
      entry whose `fn` is `fn`. */
  function Lookup(cache: seq<Entry>, fn: Val): (r: Option<nat>)
    ensures r.Some? ==> r.value < |cache| && cache[r.value].fn == fn
    ensures r.Some? ==> forall j :: 0 <= j < r.value ==> cache[j].fn != fn
    ensures r.None? <==> forall j :: 0 <= j < |cache| ==> cache[j].fn != fn
    decreases |cache|
  {
    if cache == [] then None
    else if cache[0].fn == fn then Some(0)
    else
      match Lookup(cache[1..], fn)
      case None => None
      case Some(j) => Some(j + 1)
  }

  /** The event field a handler cache unwraps. */
  function ModeField(isChecked: bool): Field {
    if isChecked then TargetChecked else TargetValue
  }

  /** A handler cache is coherent when every entry's handler is a function
      object that forwards the mode's field to the entry's `fn`. */
  predicate Coherent(cache: seq<Entry>, fns: map<Id, Closure>, field: Field) {
    forall i :: 0 <= i < |cache| ==> ForwardsTo(fns, cache[i].onChange, cache[i].fn, field)
  }

  lemma CoherentExtends(cache: seq<Entry>, s: Store, t: Store, field: Field)
    requires Coherent(cache, s.fns, field) && Extends(s, t)
    ensures Coherent(cache, t.fns, field)
  {
    forall i | 0 <= i < |cache| ensures ForwardsTo(t.fns, cache[i].onChange, cache[i].fn, field) {
      assert ForwardsTo(s.fns, cache[i].onChange, cache[i].fn, field);
    }
  }

  /** The result of `__getOnChange`: the handler, and the mode's cache and
      the heap afterwards. */
  datatype Derived = Derived(handler: Val, cache: seq<Entry>, store: Store)

  /** `__getOnChange(link, isChecked)` on the mode's cache: the handler
      stored for `link.requestChange`, or a new handler appended with it. */
  function GetOnChangeSpec(cache: seq<Entry>, link: Link, isChecked: bool, s: Store): (d: Derived)
    ensures |cache| <= |d.cache| <= |cache| + 1 && d.cache[..|cache|] == cache
    ensures exists i :: 0 <= i < |d.cache| && d.cache[i] == Entry(Get(link, "requestChange"), d.handler)
    ensures s.next <= d.store.next && s.fns.Keys <= d.store.fns.Keys
  {
    var rc := Get(link, "requestChange");
    match Lookup(cache, rc)
    case Some(i) => Derived(cache[i].onChange, cache, s)
    case None =>
      var code := if isChecked then LinkUtils.GetCheckedOnChange(Some(link)) else LinkUtils.GetOnChange(Some(link));
      var d := Derived(Fn(s.next), cache + [Entry(rc, Fn(s.next))], Alloc(s, code.value));
      assert d.cache[|cache|] == Entry(rc, d.handler);
      d
  }

  /** A hit returns the stored handler and changes nothing; a miss appends
      exactly one entry, for `link.requestChange` and a handler that did
      not exist before. */
  lemma GetOnChangeCacheLaw(cache: seq<Entry>, link: Link, isChecked: bool, s: Store)
    requires WellFormed(s)
    ensures var d := GetOnChangeSpec(cache, link, isChecked, s);
      match Lookup(cache, Get(link, "requestChange"))
      case Some(i) => d == Derived(cache[i].onChange, cache, s)
      case None =>
        && |d.cache| == |cache| + 1 && d.cache[..|cache|] == cache
        && d.cache[|cache|] == Entry(Get(link, "requestChange"), d.handler)
        && d.handler.Fn? && d.handler.id !in s.fns && d.handler.id in d.store.fns
  {
    var d := GetOnChangeSpec(cache, link, isChecked, s);
    if Lookup(cache, Get(link, "requestChange")).None? {
      assert d.cache[..|cache|] == cache;
      assert s.next !in s.fns;
    }
  }

  /** Asking again for the same `requestChange` in the same mode (with the
      same link or another link sharing the function) returns the same
      handler and changes nothing. */
  lemma GetOnChangeIsStable(cache: seq<Entry>, link: Link, other: Link, isChecked: bool, s: Store)
    requires Get(other, "requestChange") == Get(link, "requestChange")
    ensures var d := GetOnChangeSpec(cache, link, isChecked, s);
      GetOnChangeSpec(d.cache, other, isChecked, d.store) == d
  {
    var rc := Get(link, "requestChange");
    var d := GetOnChangeSpec(cache, link, isChecked, s);
    if Lookup(cache, rc).None? {
      var k := Lookup(d.cache, rc);
      assert d.cache[|cache|].fn == rc;
      assert k.Some?;
      assert k.value == |cache|;
    }
  }

  /** `__getOnChange` keeps the heap well formed and the mode's cache
      coherent, and only adds to the heap. */
  lemma GetOnChangePreserves(cache: seq<Entry>, link: Link, isChecked: bool, s: Store)
    requires WellFormed(s) && Allocated(s, link) && Coherent(cache, s.fns, ModeField(isChecked))
    ensures var d := GetOnChangeSpec(cache, link, isChecked, s);
      WellFormed(d.store) && Extends(s, d.store) && Coherent(d.cache, d.store.fns, ModeField(isChecked))
  {
    var rc := Get(link, "requestChange");
    var d := GetOnChangeSpec(cache, link, isChecked, s);
    if Lookup(cache, rc).None? {
      var code := Forward(link, ModeField(isChecked));
      AllocPreserves(s, code);
      CoherentExtends(cache, s, d.store, ModeField(isChecked));
      forall i | 0 <= i < |d.cache|
        ensures ForwardsTo(d.store.fns, d.cache[i].onChange, d.cache[i].fn, ModeField(isChecked))
      {
        if i < |cache| {
          assert d.cache[i] == cache[i];
        }
      }
    }
  }

  /** Whatever link it was first derived from, the handler returned for a
      link unwraps the mode's field of the event and calls that link's
      `requestChange` with it. */
  lemma GetOnChangeHandlerForwards(cache: seq<Entry>, link: Link, isChecked: bool, s: Store, v: Val, c: Val)
    requires WellFormed(s) && Allocated(s, link) && Coherent(cache, s.fns, ModeField(isChecked))
    ensures var d := GetOnChangeSpec(cache, link, isChecked, s);
      Callable(d.store.fns, Get(link, "requestChange")) &&
      Resolve(d.store.fns, d.handler, Event(v, c)) ==
        Resolve(d.store.fns, Get(link, "requestChange"), if isChecked then c else v)
  {
    var rc := Get(link, "requestChange");
    var d := GetOnChangeSpec(cache, link, isChecked, s);
    GetOnChangePreserves(cache, link, isChecked, s);
    var i := Lookup(d.cache, rc);
    assert i.Some? by {
      GetOnChangeIsStable(cache, link, link, isChecked, s);
    }
    assert d.cache[i.value].onChange == d.handler by {
      GetOnChangeIsStable(cache, link, link, isChecked, s);
    }
    assert ForwardsTo(d.store.fns, d.handler, rc, ModeField(isChecked));
    ForwardsToCall(d.store.fns, d.handler, rc, ModeField(isChecked), v, c);
  }

  /** The two modes keep separate caches: the same link asked for in value
      mode and then in checked mode yields two different handlers, one
      unwrapping `target.value` and one unwrapping `target.checked`. */
  lemma ModesAreSeparate(valueCache: seq<Entry>, checkedCache: seq<Entry>, link: Link, s: Store)
    requires WellFormed(s) && Allocated(s, link)
    requires Coherent(valueCache, s.fns, TargetValue) && Coherent(checkedCache, s.fns, TargetChecked)
    ensures var d1 := GetOnChangeSpec(valueCache, link, false, s);
      var d2 := GetOnChangeSpec(checkedCache, link, true, d1.store);
      && d1.handler != d2.handler
      && ForwardsTo(d2.store.fns, d1.handler, Get(link, "requestChange"), TargetValue)
      && ForwardsTo(d2.store.fns, d2.handler, Get(link, "requestChange"), TargetChecked)
  {
    var rc := Get(link, "requestChange");
    var d1 := GetOnChangeSpec(valueCache, link, false, s);
    GetOnChangePreserves(valueCache, link, false, s);
    CoherentExtends(checkedCache, s, d1.store, TargetChecked);
    var d2 := GetOnChangeSpec(checkedCache, link, true, d1.store);
    GetOnChangePreserves(checkedCache, link, true, d1.store);
    GetOnChangeIsStable(valueCache, link, link, false, s);
    GetOnChangeIsStable(checkedCache, link, link, true, d1.store);
    var i1 := Lookup(d1.cache, rc).value;
    var i2 := Lookup(d2.cache, rc).value;
    assert ForwardsTo(d1.store.fns, d1.cache[i1].onChange, rc, TargetValue);
    assert ForwardsTo(d2.store.fns, d2.cache[i2].onChange, rc, TargetChecked);
  }

  /** The per-component part of the resolver: the props it was last given
      and its two handler caches. The source stores the value-mode cache
      in `__checkedOnChanges` and the checked-mode cache in
      `__valueOnChanges`; here they are named by mode. */
  class LinkedStateAdapter {
    var props: Props
    var valueHandlers: seq<Entry>
    var checkedHandlers: seq<Entry>
    const heap: Heap
    const flag: DeprecationFlag

    ghost predicate Valid()
      reads this, heap
    {
      heap.Valid() &&
      Coherent(valueHandlers, heap.fns, TargetValue) &&
      Coherent(checkedHandlers, heap.fns, TargetChecked)
    }

    /** A component with no handler cached yet (the source creates each
        cache array on first use, which is not observable). */
    constructor (heap: Heap, flag: DeprecationFlag, props: Props)
      requires heap.Valid()
      ensures Valid() && this.heap == heap && this.flag == flag && this.props == props
      ensures valueHandlers == [] && checkedHandlers == []
    {
      this.heap := heap;
      this.flag := flag;
      this.props := props;
      valueHandlers := [];
      checkedHandlers := [];
    }

    /** `componentWillMount`: validates the current props. */
    method ComponentWillMount() returns (conflict: Option<Conflict>, emitted: bool)
      modifies flag
      ensures Observation(conflict, flag.warned, emitted) == Observe(old(flag.warned), props)
    {
      conflict, emitted := AssertSingleLink(props, flag);
    }

    /** `componentWillReceiveProps(nextProps)`: validates the incoming props. */
    method ComponentWillReceiveProps(nextProps: Props) returns (conflict: Option<Conflict>, emitted: bool)
      modifies flag
      ensures Observation(conflict, flag.warned, emitted) == Observe(old(flag.warned), nextProps)
    {
      conflict, emitted := AssertSingleLink(nextProps, flag);
    }

    /** `__getOnChange(link, isChecked)`: scans the mode's cache for
        `link.requestChange`; on a miss derives a new handler and appends
        `{fn, onChange}`. */
    method GetOnChange(link: Link, isChecked: bool) returns (h: Val)
      requires Valid() && Allocated(heap.Snapshot(), link)
      modifies this`valueHandlers, this`checkedHandlers, heap
      ensures Valid()
      ensures isChecked ==>
        Derived(h, checkedHandlers, heap.Snapshot()) ==
          GetOnChangeSpec(old(checkedHandlers), link, true, old(heap.Snapshot())) &&
        valueHandlers == old(valueHandlers)
      ensures !isChecked ==>
        Derived(h, valueHandlers, heap.Snapshot()) ==
          GetOnChangeSpec(old(valueHandlers), link, false, old(heap.Snapshot())) &&
        checkedHandlers == old(checkedHandlers)
    {
      var cache := if isChecked then checkedHandlers else valueHandlers;
      var rc := Get(link, "requestChange");
      var i := 0;
      while i < |cache|
        invariant 0 <= i <= |cache|
        invariant forall j :: 0 <= j < i ==> cache[j].fn != rc
      {
        if cache[i].fn == rc {
          assert Lookup(cache, rc) == Some(i);
          return cache[i].onChange;
        }
        i := i + 1;
      }
      ghost var before := heap.Snapshot();
      GetOnChangePreserves(cache, link, isChecked, before);
      var code := if isChecked then LinkUtils.GetCheckedOnChange(Some(link)) else LinkUtils.GetOnChange(Some(link));
      h := heap.NewClosure(code.value);
      if isChecked {
        CoherentExtends(valueHandlers, before, heap.Snapshot(), TargetValue);
        checkedHandlers := checkedHandlers + [Entry(rc, h)];
      } else {
        CoherentExtends(checkedHandlers, before, heap.Snapshot(), TargetChecked);
        valueHandlers := valueHandlers + [Entry(rc, h)];
      }
    }

    /** `onChange()`: the `onChange` prop if truthy, else the cached
        value-mode handler for the value link, else the cached checked-mode
        handler for the checked link, else `undefined`. */
    method OnChange() returns (r: Val)
      requires Valid()
      requires props.valueLink.Some? ==> Allocated(heap.Snapshot(), props.valueLink.value)
      requires props.checkedLink.Some? ==> Allocated(heap.Snapshot(), props.checkedLink.value)
      modifies this`valueHandlers, this`checkedHandlers, heap
      ensures Valid()
      ensures OnChangeBinding(props).Direct? || OnChangeBinding(props).Unbound? ==>
        && r == (if OnChangeBinding(props).Direct? then props.onChange else Undefined)
        && valueHandlers == old(valueHandlers) && checkedHandlers == old(checkedHandlers)
        && heap.Snapshot() == old(heap.Snapshot())
      ensures OnChangeBinding(props).ValueLinked? ==>
        Derived(r, valueHandlers, heap.Snapshot()) ==
          GetOnChangeSpec(old(valueHandlers), props.valueLink.value, false, old(heap.Snapshot())) &&
        checkedHandlers == old(checkedHandlers)
      ensures OnChangeBinding(props).CheckedLinked? ==>
        Derived(r, checkedHandlers, heap.Snapshot()) ==
          GetOnChangeSpec(old(checkedHandlers), props.checkedLink.value, true, old(heap.Snapshot())) &&
        valueHandlers == old(valueHandlers)
    {
      if Truthy(props.onChange) {
        r := props.onChange;
      } else if props.valueLink.Some? {
        r := GetOnChange(props.valueLink.value, false);
      } else if props.checkedLink.Some? {
        r := GetOnChange(props.checkedLink.value, true);
      } else {
        r := Undefined;
      }
    }
  }
}

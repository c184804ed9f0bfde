/**
 * The owner whose state the handlers write, the function objects the
 * adapters create, and what happens when one of them is called.
 *
 * A function object is an `Id` bound in a `Heap` to a `Closure` that says
 * what its code does. Calling it resolves to one `Effect`: a single-key
 * `setState` on an owner, a thrown TypeError, or control passed to a
 * function the adapters did not create.
 */
module Runtime {
  import opened Values

  /** A stateful owner (a component): its state and the `setState` that
      merges a partial state into it synchronously. */
  class Component {
    var state: map<Key, Val>

    constructor (initial: map<Key, Val>)
      ensures state == initial
    {
      state := initial;
    }

    /** `this.state[key]`, `undefined` for a key never set. */
    function Read(key: Key): (r: Val)
      reads this`state
      ensures key in state ==> r == state[key]
      ensures key !in state ==> r == Undefined
    {
      if key in state then state[key] else Undefined
    }

    /** `setState(partial)`: every key of `partial` takes its new value,
        every other key keeps its old one. */
    method SetState(partial: map<Key, Val>)
      modifies this`state
      ensures state == old(state) + partial
    {
      state := state + partial;
    }
  }

  /** The code of a function object.
      - `SetState(o, k, f)`: the handlers of `createRequestChange`,
        `createOnValueChange` and `createOnCheckedChange`, which write
        field `f` of their argument into `o.state[k]`;
      - `Forward(link, f)`: the handlers of the link utilities, which call
        `link.requestChange` with field `f` of the event;
      - `Foreign`: a function the adapters did not create. */
  datatype Closure =
    | SetState(owner: Component, key: Key, field: Field)
    | Forward(link: Link, field: Field)
    | Foreign

  /** The function a `Forward` handler calls. */
  function Target(c: Closure): Val
    requires c.Forward?
  {
    Get(c.link, "requestChange")
  }

  /** One step of running a closure on an argument. */
  datatype Action =
    | Write(owner: Component, key: Key, v: Val)
    | Invoke(callee: Val, arg: Val)
    | Throw
    | Leave

  function Step(c: Closure, arg: Val): (r: Action)
    ensures r.Write? <==> c.SetState? && Select(c.field, arg).Some?
    ensures r.Write? ==> r == Write(c.owner, c.key, Select(c.field, arg).value)
    ensures r.Invoke? <==> c.Forward? && Select(c.field, arg).Some?
    ensures r.Invoke? ==> r.callee == Target(c) && r.arg == Select(c.field, arg).value
    ensures r.Leave? <==> c.Foreign?
  {
    match c
    case SetState(owner, key, field) =>
      (match Select(field, arg)
       case Some(v) => Write(owner, key, v)
       case None => Throw)
    case Forward(link, field) =>
      (match Select(field, arg)
       case Some(v) => Invoke(Get(link, "requestChange"), v)
       case None => Throw)
    case Foreign => Leave
  }

  /** Behaviour of the link utilities' handlers: on an event, call `rc`
      with the event's `field`; on anything else, throw the TypeError of
      reading `e.target`. */
  ghost predicate Forwards(c: Closure, rc: Val, field: Field) {
    forall arg :: Step(c, arg) == (match Select(field, arg)
                                   case Some(v) => Invoke(rc, v)
                                   case None => Throw)
  }

  /** What calling a function finally does. */
  datatype Effect =
    | Update(owner: Component, key: Key, v: Val)
    | Thrown
    | Escaped(fn: Id, arg: Val)

  /** A `Forward` closure can only capture a function that existed when it
      was made, so chains of forwarding calls end. */
  predicate Acyclic(fns: map<Id, Closure>) {
    forall id :: id in fns && fns[id].Forward? && Target(fns[id]).Fn? ==>
      Target(fns[id]).id < id && Target(fns[id]).id in fns
  }

  /** Calling `f` can be looked up: either `f` is not a function at all
      (the call throws) or it is a function object of the heap. */
  predicate Callable(fns: map<Id, Closure>, f: Val) {
    f.Fn? ==> f.id in fns
  }

  /** The effect of `f(arg)`, following forwarding calls to their end.
      Calling a non-function throws, and a call only ever leaves the
      model's view through a function the adapters did not create. */
  function Resolve(fns: map<Id, Closure>, f: Val, arg: Val): (r: Effect)
    requires Acyclic(fns) && Callable(fns, f)
    ensures !f.Fn? ==> r == Thrown
    ensures r.Escaped? ==> r.fn in fns && fns[r.fn].Foreign?
    decreases if f.Fn? then f.id + 1 else 0
  {
    if !f.Fn? then Thrown
    else
      match Step(fns[f.id], arg)
      case Write(owner, key, v) => Update(owner, key, v)
      case Throw => Thrown
      case Leave => Escaped(f.id, arg)
      case Invoke(g, v) => Resolve(fns, g, v)
  }

  /** The owners that some function object of the heap writes to. */
  ghost function Owners(fns: map<Id, Closure>): set<Component> {
    set id | id in fns && fns[id].SetState? :: fns[id].owner
  }

  /** A call can only ever write to an owner some closure was bound to,
      and an update it makes is one a `SetState` closure of the chain asked for. */
  lemma {:induction false} ResolveWritesKnownOwner(fns: map<Id, Closure>, f: Val, arg: Val)
    requires Acyclic(fns) && Callable(fns, f)
    ensures Resolve(fns, f, arg).Update? ==>
      Resolve(fns, f, arg).owner in Owners(fns) &&
      exists id :: id in fns && fns[id].SetState? &&
        fns[id].owner == Resolve(fns, f, arg).owner && fns[id].key == Resolve(fns, f, arg).key
    decreases if f.Fn? then f.id + 1 else 0
  {
    if f.Fn? {
      var a := Step(fns[f.id], arg);
      if a.Invoke? {
        ResolveWritesKnownOwner(fns, a.callee, a.arg);
      } else if a.Write? {
        assert fns[f.id].SetState? && fns[f.id].owner == a.owner && fns[f.id].key == a.key;
      }
    }
  }

  /** Calling a forwarding handler does what calling `rc` with the
      selected field of the event does. */
  lemma ForwardingCall(fns: map<Id, Closure>, h: Id, rc: Val, field: Field, arg: Val)
    requires Acyclic(fns) && h in fns && Forwards(fns[h], rc, field) && field != Whole
    ensures Callable(fns, rc)
    ensures arg.Event? ==> Resolve(fns, Fn(h), arg) == Resolve(fns, rc, Select(field, arg).value)
    ensures !arg.Event? ==> Resolve(fns, Fn(h), arg) == Thrown
  {
    var probe := Step(fns[h], Event(Undefined, Undefined));
    assert probe == Invoke(rc, Select(field, Event(Undefined, Undefined)).value);
    assert fns[h].Forward? && Target(fns[h]) == rc;
    assert Step(fns[h], arg) == (match Select(field, arg) case Some(v) => Invoke(rc, v) case None => Throw);
  }

  /** `h` is a function object made by a link utility for a link whose
      `requestChange` is `rc`, unwrapping `field` of the event. */
  predicate ForwardsTo(fns: map<Id, Closure>, h: Val, rc: Val, field: Field) {
    h.Fn? && h.id in fns && fns[h.id].Forward? && fns[h.id].field == field && Target(fns[h.id]) == rc
  }

  /** Calling such a handler with an event calls `rc` with the event's field. */
  lemma ForwardsToCall(fns: map<Id, Closure>, h: Val, rc: Val, field: Field, v: Val, c: Val)
    requires Acyclic(fns) && ForwardsTo(fns, h, rc, field) && field != Whole
    ensures Callable(fns, rc)
    ensures Resolve(fns, h, Event(v, c)) == Resolve(fns, rc, if field == TargetValue then v else c)
  {
  }

  /** A heap snapshot: the next fresh identity and the function objects. */
  datatype Store = Store(next: Id, fns: map<Id, Closure>)

  predicate WellFormed(s: Store) {
    (forall id :: id in s.fns ==> id < s.next) && Acyclic(s.fns)
  }

  /** A closure may be allocated when the function it forwards to exists. */
  predicate CanCapture(s: Store, c: Closure) {
    c.Forward? && Target(c).Fn? ==> Target(c).id in s.fns
  }

  /** An object handed to the adapters exists in the heap, and so does its
      `requestChange` when that is a function. */
  predicate Allocated(s: Store, link: Link) {
    link.id < s.next && (Get(link, "requestChange").Fn? ==> Get(link, "requestChange").id in s.fns)
  }

  /** Allocating a new function object running `c`. */
  function Alloc(s: Store, c: Closure): Store {
    Store(s.next + 1, s.fns[s.next := c])
  }

  /** Allocating a new (non-function) object. */
  function Bump(s: Store): Store {
    Store(s.next + 1, s.fns)
  }

  /** `t` extends `s`: identities are never reused and no function object
      changes its code. */
  predicate Extends(s: Store, t: Store) {
    s.next <= t.next && s.fns.Keys <= t.fns.Keys &&
    forall id :: id in s.fns ==> t.fns[id] == s.fns[id]
  }

  lemma AllocPreserves(s: Store, c: Closure)
    requires WellFormed(s) && CanCapture(s, c)
    ensures WellFormed(Alloc(s, c)) && Extends(s, Alloc(s, c))
    ensures s.next !in s.fns && Alloc(s, c).fns[s.next] == c
  {
    var t := Alloc(s, c);
    forall id | id in t.fns && t.fns[id].Forward? && Target(t.fns[id]).Fn?
      ensures Target(t.fns[id]).id < id && Target(t.fns[id]).id in t.fns
    {
      if id == s.next {
        assert Target(c).id in s.fns;
      }
    }
  }

  /** Calling a function gives the same effect in any extension of the heap. */
  lemma {:induction false} ResolveExtends(s: Store, t: Store, f: Val, arg: Val)
    requires WellFormed(s) && WellFormed(t) && Extends(s, t) && Callable(s.fns, f)
    ensures Callable(t.fns, f) && Resolve(t.fns, f, arg) == Resolve(s.fns, f, arg)
    decreases if f.Fn? then f.id + 1 else 0
  {
    if f.Fn? {
      var a := Step(s.fns[f.id], arg);
      if a.Invoke? {
        ResolveExtends(s, t, a.callee, a.arg);
      }
    }
  }

  /** The allocator and function table shared by all owners of a process. */
  class Heap {
    var next: Id
    var fns: map<Id, Closure>

    function Snapshot(): Store
      reads this
    {
      Store(next, fns)
    }

    ghost predicate Valid()
      reads this
    {
      WellFormed(Snapshot())
    }

    constructor ()
      ensures Valid() && fns == map[]
    {
      next := 0;
      fns := map[];
    }

    /** Creates a new function object whose code is `c`. */
    method NewClosure(c: Closure) returns (f: Val)
      requires Valid() && CanCapture(Snapshot(), c)
      modifies this
      ensures Valid() && Snapshot() == Alloc(old(Snapshot()), c)
      ensures f == Fn(old(next)) && f.id !in old(fns)
      ensures Extends(old(Snapshot()), Snapshot())
    {
      AllocPreserves(Snapshot(), c);
      f := Fn(next);
      fns := fns[next := c];
      next := next + 1;
    }

    /** Creates a new object that is not a function. */
    method NewObject() returns (id: Id)
      requires Valid()
      modifies this
      ensures Valid() && Snapshot() == Bump(old(Snapshot()))
      ensures id == old(next) && id !in old(fns)
      ensures Extends(old(Snapshot()), Snapshot())
    {
      id := next;
      next := next + 1;
    }

    /** Calls `f(arg)`. If the call ends in a handler of an owner, that
        owner's state gets exactly one key updated; no other owner changes.
        A call that passes into foreign code is promised nothing about
        the owners' states. */
    method Call(f: Val, arg: Val) returns (e: Effect)
      requires Valid() && Callable(fns, f)
      modifies Owners(fns)`state
      ensures e == Resolve(fns, f, arg)
      ensures e.Update? ==> e.owner.state == old(e.owner.state)[e.key := e.v]
      ensures !e.Escaped? ==>
        forall o :: o in Owners(fns) && !(e.Update? && o == e.owner) ==> o.state == old(o.state)
    {
      e := Resolve(fns, f, arg);
      if e.Update? {
        ResolveWritesKnownOwner(fns, f, arg);
        e.owner.SetState(map[e.key := e.v]);
        assert old(e.owner.state) + map[e.key := e.v] == old(e.owner.state)[e.key := e.v];
      }
    }
  }
}

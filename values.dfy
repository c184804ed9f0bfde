/**
 * The JavaScript values the link adapters pass around.
 *
 * Objects and functions have identity: each one carries an `Id` drawn from
 * the shared counter of a `Runtime.Heap`, so `===` on them is equality of
 * ids, while scalars compare by value.
 */
module Values {

  type Id = nat
  type Key = string

  datatype Option<+T> = None | Some(value: T)

  datatype Result<+T, +E> = Success(value: T) | Failure(error: E)

  /** A JavaScript value as seen by the adapters. `Event(v, c)` stands for
      the change-event record `{target: {value: v, checked: c}}`. */
  datatype Val =
    | Undefined
    | Null
    | Bool(b: bool)
    | Num(n: int)
    | Str(s: string)
    | Fn(id: Id)
    | Event(value: Val, checked: Val)

  /** `x == null` in JavaScript: true of `null` and `undefined` only. */
  predicate IsNullish(v: Val) {
    v.Undefined? || v.Null?
  }

  /** JavaScript truthiness, as used by `if (x)` and `x ? a : b`. */
  predicate Truthy(v: Val) {
    match v
    case Undefined => false
    case Null => false
    case Bool(b) => b
    case Num(n) => n != 0
    case Str(s) => s != ""
    case Fn(_) => true
    case Event(_, _) => true
  }

  /** A link object. `Plain` is any object a caller hands in (for instance
      `{value, requestChange}`); `Adapted` is an `AdaptedReactLink`, the
      four-field record the adapters build. */
  datatype Link =
    | Plain(id: Id, props: map<string, Val>)
    | Adapted(id: Id, value: Val, requestChange: Val, onValueChange: Val, onCheckedChange: Val)

  /** `name in link`: whether the object has the property at all. */
  predicate Has(link: Link, name: string) {
    match link
    case Plain(_, props) => name in props
    case Adapted(_, _, _, _, _) =>
      name == "value" || name == "requestChange" || name == "onValueChange" || name == "onCheckedChange"
  }

  /** `link[name]`: the property's value, `undefined` when it is missing. */
  function Get(link: Link, name: string): (r: Val)
    ensures !Has(link, name) ==> r == Undefined
  {
    match link
    case Plain(_, props) => if name in props then props[name] else Undefined
    case Adapted(_, value, requestChange, onValueChange, onCheckedChange) =>
      if name == "value" then value
      else if name == "requestChange" then requestChange
      else if name == "onValueChange" then onValueChange
      else if name == "onCheckedChange" then onCheckedChange
      else Undefined
  }

  /** Which part of its argument a handler passes on: the argument itself
      (`requestChange(val)`), `e.target.value` or `e.target.checked`. */
  datatype Field = Whole | TargetValue | TargetChecked

  /** Reads the field out of a handler's argument. `None` is the TypeError
      that `e.target.value` raises when `e` has no `target`. */
  function Select(field: Field, arg: Val): (r: Option<Val>)
    ensures field == Whole ==> r == Some(arg)
    ensures field != Whole ==> (r.Some? <==> arg.Event?)
    ensures field == TargetValue && arg.Event? ==> r == Some(arg.value)
    ensures field == TargetChecked && arg.Event? ==> r == Some(arg.checked)
  {
    match field
    case Whole => Some(arg)
    case TargetValue => if arg.Event? then Some(arg.value) else None
    case TargetChecked => if arg.Event? then Some(arg.checked) else None
  }
}

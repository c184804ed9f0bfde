/**
 * The link utilities of the package root: read a link's value and derive
 * the change handlers that unwrap a DOM-style event for
 * `link.requestChange`.
 *
 * A handler is described here by its code, a `Closure`; each call of the
 * JavaScript function allocates a new function object for it, which the
 * callers model with `Heap.NewClosure`. A link argument that is absent
 * (`null` or `undefined`) is `None`.
 */
module LinkUtils {
  import opened Values
  import opened Runtime

  /** `getValue(link)`: the link's value, or `undefined` without a link. */
  function GetValue(link: Option<Link>): (r: Val)
    ensures link.Some? ==> r == Get(link.value, "value")
    ensures link.None? ==> r == Undefined
  {
    if link.Some? then Get(link.value, "value") else Undefined
  }

  /** `getOnChange(link)`: a handler that passes `e.target.value` to
      `link.requestChange`, or `undefined` without a link. */
  function GetOnChange(link: Option<Link>): (r: Option<Closure>)
    ensures link.None? <==> r.None?
    ensures link.Some? ==> Forwards(r.value, Get(link.value, "requestChange"), TargetValue)
  {
    if link.Some? then Some(Forward(link.value, TargetValue)) else None
  }

  /** `getCheckedOnChange(link)`: a handler that passes `e.target.checked`
      to `link.requestChange`, or `undefined` without a link. */
  function GetCheckedOnChange(link: Option<Link>): (r: Option<Closure>)
    ensures link.None? <==> r.None?
    ensures link.Some? ==> Forwards(r.value, Get(link.value, "requestChange"), TargetChecked)
  {
    if link.Some? then Some(Forward(link.value, TargetChecked)) else None
  }
}

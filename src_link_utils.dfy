/**
 * The link utilities under `src/`: the same three operations as the
 * package root's, with the value handler named `getOnValueChange`.
 */
module SrcLinkUtils {
  import opened Values
  import opened Runtime

  /** `getValue(link)`: the link's value, or `undefined` without a link. */
  function GetValue(link: Option<Link>): (r: Val)
    ensures link.Some? ==> r == Get(link.value, "value")
    ensures link.None? ==> r == Undefined
  {
    match link
    case Some(l) => Get(l, "value")
    case None => Undefined
  }

  /** `getOnValueChange(link)`: a handler that passes `e.target.value` to
      `link.requestChange`, or `undefined` without a link. */
  function GetOnValueChange(link: Option<Link>): (r: Option<Closure>)
    ensures link.None? <==> r.None?
    ensures link.Some? ==> Forwards(r.value, Get(link.value, "requestChange"), TargetValue)
  {
    match link
    case Some(l) => Some(Forward(l, TargetValue))
    case None => None
  }

  /** `getOnCheckedChange(link)`: a handler that passes `e.target.checked`
      to `link.requestChange`, or `undefined` without a link. */
  function GetOnCheckedChange(link: Option<Link>): (r: Option<Closure>)
    ensures link.None? <==> r.None?
    ensures link.Some? ==> Forwards(r.value, Get(link.value, "requestChange"), TargetChecked)
  {
    match link
    case Some(l) => Some(Forward(l, TargetChecked))
    case None => None
  }
}

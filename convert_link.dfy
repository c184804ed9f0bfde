/**
 * `convertLink`: checks that an object is a valid link and turns it into
 * a new record `{value, onChange, checkedOnChange}`. It reads the link
 * and keeps nothing: the record and its two handlers are new on every
 * call, and a failed check is the exception `invariant` throws.
 */
module ConvertLink {
  import opened Values
  import opened Runtime
  import LinkUtils

  /** The three messages of the link shape check, in the order it tests. */
  datatype LinkError = NoValue | NoRequestChange | RequestChangeNotFunction

  /** The converted record; its two handlers are given by their code. */
  datatype Converted = Converted(value: Val, onChange: Closure, checkedOnChange: Closure)

  /** The shape check: `value` and `requestChange` must be present (as
      properties, whatever their value) and `requestChange` a function. */
  function AssertValidReactLink(link: Link): (r: Option<LinkError>)
    ensures r == None <==> Has(link, "value") && Has(link, "requestChange") && Get(link, "requestChange").Fn?
    ensures r == Some(NoValue) <==> !Has(link, "value")
    ensures r == Some(NoRequestChange) <==> Has(link, "value") && !Has(link, "requestChange")
  {
    if !Has(link, "value") then Some(NoValue)
    else if !Has(link, "requestChange") then Some(NoRequestChange)
    else if !Get(link, "requestChange").Fn? then Some(RequestChangeNotFunction)
    else None
  }

  function ConvertLink(link: Link): (r: Result<Converted, LinkError>)
    ensures r.Failure? <==> AssertValidReactLink(link).Some?
    ensures r.Failure? ==> r.error == AssertValidReactLink(link).value
    ensures r.Success? ==> r.value.value == Get(link, "value")
    ensures r.Success? ==> Forwards(r.value.onChange, Get(link, "requestChange"), TargetValue)
    ensures r.Success? ==> Forwards(r.value.checkedOnChange, Get(link, "requestChange"), TargetChecked)
  {
    match AssertValidReactLink(link)
    case Some(e) => Failure(e)
    case None =>
      Success(Converted(
        LinkUtils.GetValue(Some(link)),
        LinkUtils.GetOnChange(Some(link)).value,
        LinkUtils.GetCheckedOnChange(Some(link)).value))
  }

  /** A property explicitly set to `undefined` is present: such a link
      passes the `value` check. */
  lemma UndefinedValueIsPresent(id: Id, rc: Id)
    ensures ConvertLink(Plain(id, map["value" := Undefined, "requestChange" := Fn(rc)])).Success?
    ensures ConvertLink(Plain(id, map["requestChange" := Fn(rc)])) == Failure(NoValue)
  {
  }

  /** Calling the converted handlers calls the link's `requestChange` with
      the event's `target.value` and `target.checked` respectively. */
  lemma ConvertedHandlersCallRequestChange(
      fns: map<Id, Closure>, link: Link, onChange: Id, checkedOnChange: Id, v: Val, c: Val)
    requires Acyclic(fns) && ConvertLink(link).Success?
    requires onChange in fns && fns[onChange] == ConvertLink(link).value.onChange
    requires checkedOnChange in fns && fns[checkedOnChange] == ConvertLink(link).value.checkedOnChange
    ensures Get(link, "requestChange").Fn? && Callable(fns, Get(link, "requestChange"))
    ensures Resolve(fns, Fn(onChange), Event(v, c)) == Resolve(fns, Get(link, "requestChange"), v)
    ensures Resolve(fns, Fn(checkedOnChange), Event(v, c)) == Resolve(fns, Get(link, "requestChange"), c)
  {
    var rc := Get(link, "requestChange");
    ForwardingCall(fns, onChange, rc, TargetValue, Event(v, c));
    ForwardingCall(fns, checkedOnChange, rc, TargetChecked, Event(v, c));
  }
}

/**
 * What the create/edit form pages share: edit mode is decided by the route's `:id` parameter,
 * and a submit issues either a create call or an update call for `Number(id)`.
 */
module FormPages {
  import opened Wrappers
  import opened JsStrings

  /** `isEdit = Boolean(id)` for the route's `:id` parameter; `isEdit && id` is the same test. */
  predicate IsEdit(id: Option<string>) {
    id.Some? && id.value != ""
  }

  /** `value || ''` and `value ?? ''` for a string that may be `null` or missing. */
  function OrEmpty(value: Option<string>): (r: string)
    ensures value.None? ==> r == ""
    ensures value.Some? ==> r == value.value
  {
    if value.Some? then value.value else ""
  }

  /** The API call a submit issues, if any. `Update` carries `Number(id)`. */
  datatype Submission<P> = NoCall | Create(payload: P) | Update(id: JsNumber, payload: P)

  /** `if (isEdit && id) update(Number(id), payload) else create(payload)` */
  function Dispatch<P>(id: Option<string>, payload: P): (s: Submission<P>)
    ensures s.Update? <==> IsEdit(id)
    ensures s.Create? <==> !IsEdit(id)
    ensures s.Update? ==> s.id == NumberOf(id.value)
    ensures s != NoCall && s.payload == payload
  {
    if IsEdit(id) then Update(NumberOf(id.value), payload) else Create(payload)
  }

  /** A route id written by the list page (`String(n)`) is updated under that same number. */
  lemma DispatchRouteId<P>(n: nat, payload: P)
    ensures Dispatch(Some(DecimalString(n)), payload) == Update(Integer(n), payload)
  {
    NumberOfDecimalString(n);
  }
}

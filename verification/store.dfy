/**
 * The calibration archive (`calibration_data.npz`) as the code sees it:
 * named entries, each a number or an array of points.
 */
module Store {
  import opened Wrappers

  datatype Entry = Number(value: real) | Points(points: seq<(real, real)>)

  type Archive = map<string, Entry>

  /** `float(data[key])`: a missing key and an array both raise. */
  function FloatAt(a: Archive, key: string): (r: Result<real>)
    ensures key !in a <==> r == Err(MissingKey)
    ensures key in a && a[key].Points? <==> r == Err(NotANumber)
    ensures r.Ok? <==> key in a && a[key].Number?
    ensures r.Ok? ==> r.value == a[key].value
  {
    if key !in a then Err(MissingKey)
    else if a[key].Points? then Err(NotANumber)
    else Ok(a[key].value)
  }

  /** `float(data.get(key, default))`: only an array raises. */
  function FloatOr(a: Archive, key: string, default: real): (r: Result<real>)
    ensures key !in a ==> r == Ok(default)
    ensures key in a ==> r == FloatAt(a, key)
  {
    if key !in a then Ok(default) else FloatAt(a, key)
  }
}

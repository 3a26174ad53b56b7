/** Reading one named input: the circuits take the first element of the list
    stored under a key. */
module Inputs {
  import opened Results

  /** The key is present with at least one value. */
  predicate Present<T>(inputs: map<string, seq<T>>, key: string)
  {
    key in inputs && |inputs[key]| > 0
  }

  /** `inputs.get(key).ok_or(missing)?.get(0).ok_or(invalid)?.clone()`. */
  function FirstInput<T>(inputs: map<string, seq<T>>, key: string, missing: string, invalid: string): (r: Result<T>)
    ensures r.Ok? <==> Present(inputs, key)
    ensures r.Ok? ==> r.value == inputs[key][0]
    ensures key !in inputs ==> r == Err(missing)
    ensures key in inputs && inputs[key] == [] ==> r == Err(invalid)
  {
    if key !in inputs then Err(missing)
    else if |inputs[key]| == 0 then Err(invalid)
    else Ok(inputs[key][0])
  }
}

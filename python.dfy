/**
 * The two Python operations the handler applies to the decoded body:
 * subscripting with a string key and comparing with an integer enum member.
 */
module Python {
  import opened Wrappers
  import opened Json

  /** The exceptions those operations raise. */
  datatype Exception = KeyError(key: string) | TypeError

  /**
   * `v[key]`: a dict yields the value stored under the key or raises KeyError;
   * any other decoded value (list, string, number, bool, None) raises TypeError.
   */
  function Subscript(v: Json, key: string): (r: Result<Json, Exception>)
    ensures r.Ok? <==> v.JObject? && HasKey(v.fields, key)
    ensures r.Ok? ==> (key, r.value) in v.fields
    ensures v.JObject? && !HasKey(v.fields, key) ==> r == Err(KeyError(key))
    ensures !v.JObject? ==> r == Err(TypeError)
  {
    if v.JObject? then
      match Get(v.fields, key)
      case Some(x) => Ok(x)
      case None => Err(KeyError(key))
    else
      Err(TypeError)
  }

  /**
   * `v == n` where n is the integer code an enum constant stands for (1 or 2):
   * equal to an int of the same value,
   * to a bool (True is 1, False is 0) and to a float of the same value; never
   * equal to None, a string, a list or a dict.
   */
  function EqualsInt(v: Json, n: int): (r: bool)
    ensures r <==>
      v == JInt(n) || v == JFloat(n as real) ||
      (n == 1 && v == JBool(true)) || (n == 0 && v == JBool(false))
  {
    match v
    case JInt(i) => i == n
    case JBool(b) => (if b then 1 else 0) == n
    case JFloat(x) => x == n as real
    case _ => false
  }
}

/**
  The data a query runs against (a PHP array as seen by jsonpath.c), and the
  host services the C code calls into.

  A PHP array is an ordered hash: the model keeps its members as a sequence
  of key/value pairs in iteration order. Objects and the other zval types
  are not part of the model.
*/
module Values {
  import opened Wrappers

  datatype Key = IntKey(n: int) | StrKey(s: string)

  datatype Value =
    | Null
    | Bool(b: bool)
    | Long(l: int)
    | Double(d: real)
    | Str(s: string)
    | Arr(members: seq<(Key, Value)>)

  /**
    Host services, supplied from outside the engine:
    - cmp: the sign of `compare_function` on two PHP strings;
    - compiles: whether `pcre_get_compiled_regex_cache` accepts a pattern;
    - matchCount: the count `php_pcre_match_impl` reports for (pattern, subject);
    - printable: the text `zend_make_printable_zval` gives a scalar.
  */
  datatype Host = Host(
    cmp: (string, string) -> int,
    compiles: string -> bool,
    matchCount: (string, string) -> int,
    printable: Value -> string)

  /** `is_scalar` (jsonpath.c:460-475): false, true, double, long and string. */
  predicate IsScalar(v: Value): (r: bool)
    ensures r <==> !v.Null? && !v.Arr?
  {
    match v
    case Bool(_) => true
    case Double(_) => true
    case Long(_) => true
    case Str(_) => true
    case _ => false
  }

  /**
    `zend_hash_str_find` on an array's members: the value stored under the
    string key `name`, searched in iteration order. It never matches an
    integer key.
  */
  function Lookup(members: seq<(Key, Value)>, name: string): (r: Option<Value>)
    ensures r.Some? <==> exists k :: 0 <= k < |members| && members[k].0 == StrKey(name)
    ensures r.Some? ==> exists k :: 0 <= k < |members| && members[k] == (StrKey(name), r.value)
  {
    if |members| == 0 then None
    else if members[0].0 == StrKey(name) then Some(members[0].1)
    else
      var r := Lookup(members[1..], name);
      assert forall k :: 0 < k < |members| ==> members[1..][k - 1] == members[k];
      r
  }

  /** The member `name` of `v` when `v` is an array; nothing for any other value. */
  function Child(v: Value, name: string): (r: Option<Value>)
    ensures r.Some? ==> v.Arr? && Lookup(v.members, name) == r
  {
    if v.Arr? then Lookup(v.members, name) else None
  }
}

/** C strings as the handlers see them, and the standard `strcmp` they test with. */
module CStrings {

  /** The characters a `char*` points to, up to and excluding the terminating NUL,
      which is why none of them can be NUL. */
  type CString = s: string | '\0' !in s

  /** The sign of `strcmp(a, b)`: -1, 0 or 1 as `a` sorts before, equal to or after `b`,
      character by character, a proper prefix sorting first. Only whether the result is
      zero matters to the callers in this model. */
  function StrCmp(a: CString, b: CString): (r: int)
    ensures -1 <= r <= 1
    ensures r == 0 <==> a == b
    decreases |a|
  {
    if a == [] && b == [] then 0
    else if a == [] then -1
    else if b == [] then 1
    else if a[0] < b[0] then -1
    else if a[0] > b[0] then 1
    else StrCmp(a[1..], b[1..])
  }
}

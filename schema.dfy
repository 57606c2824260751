/** The zod checks the validators are built from. A request body is the map
    of its string-valued fields; a field that is missing or not a string is
    absent, which zod reports as a type error on that field's path. Lengths
    count the elements of the string, as JavaScript counts UTF-16 code units. */
module Schema {

  type Fields = map<string, string>

  /** `z.string().min(n)` on field `key`. */
  predicate MinLength(body: Fields, key: string, n: nat)
  {
    key in body && |body[key]| >= n
  }

  /** `z.string().min(lo).max(hi)` on field `key`. */
  predicate LengthBetween(body: Fields, key: string, lo: nat, hi: nat)
  {
    key in body && lo <= |body[key]| <= hi
  }

  /** The issue list contributed by one field check: its path, if it fails. */
  function IssueIf(ok: bool, path: string): (issues: seq<string>)
    ensures ok <==> issues == []
  {
    if ok then [] else [path]
  }
}

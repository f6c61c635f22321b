/** Form validation results in the shape the schema library reports them. */
module Schema {

  /** A failed check: the field it is reported on and its message. */
  datatype Issue = Issue(path: string, message: string)

  /** The issues of one check: none when it passes, one on `path` otherwise. */
  function Check(ok: bool, path: string, message: string): (r: seq<Issue>)
    ensures r == [] <==> ok
    ensures forall i :: 0 <= i < |r| ==> r[i] == Issue(path, message)
  {
    if ok then [] else [Issue(path, message)]
  }

  /** `z.string().min(n)`: at least `n` characters. */
  function MinLength(path: string, value: string, n: nat, message: string): (r: seq<Issue>)
    ensures r == [] <==> |value| >= n
  {
    Check(|value| >= n, path, message)
  }
}

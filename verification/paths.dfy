/**
 * Filesystem paths as strings, with the parts of `pathlib` semantics the
 * packager relies on: joining (`base / name`), `absolute()` and `.parent`.
 */
module Paths {

  import opened Wrappers

  type Path = string

  predicate IsAbsolute(p: Path) {
    |p| > 0 && p[0] == '/'
  }

  predicate EndsWith(s: string, suffix: string) {
    |suffix| <= |s| && s[|s| - |suffix|..] == suffix
  }

  /**
   * `base / name` as pathlib computes it: an absolute right operand replaces
   * the left one, an empty operand is ignored, and one separator is put
   * between the two.
   */
  function Join(base: Path, name: Path): (r: Path)
    ensures IsAbsolute(name) ==> r == name
    ensures IsAbsolute(base) ==> IsAbsolute(r)
  {
    if IsAbsolute(name) then name
    else if name == "" then base
    else if base == "" then name
    else if base[|base| - 1] == '/' then base + name
    else base + "/" + name
  }

  /** `Path(p).absolute()` evaluated while the working directory is `cwd`. */
  function Absolute(cwd: Path, p: Path): (r: Path)
    ensures IsAbsolute(cwd) ==> IsAbsolute(r)
    ensures IsAbsolute(p) ==> r == p
  {
    Join(cwd, p)
  }

  /** An absolute path stays put whatever directory it is resolved against. */
  lemma AbsoluteIsStable(cwd: Path, other: Path, p: Path)
    requires IsAbsolute(cwd)
    ensures Absolute(other, Absolute(cwd, p)) == Absolute(cwd, p)
  {
  }

  /** Index of the last '/' in `p`, if any. */
  function LastSlash(p: Path): (r: Option<nat>)
    ensures r.Some? ==> r.value < |p| && p[r.value] == '/'
    ensures r.Some? ==> forall k :: r.value < k < |p| ==> p[k] != '/'
    ensures r.None? ==> forall k :: 0 <= k < |p| ==> p[k] != '/'
  {
    if p == [] then None
    else if p[|p| - 1] == '/' then Some(|p| - 1)
    else LastSlash(p[..|p| - 1])
  }

  /** `PurePosixPath(p).parent` for a path without a trailing separator. */
  function Parent(p: Path): (r: Path)
    ensures LastSlash(p).None? ==> r == "."
    ensures LastSlash(p) == Some(0) ==> r == "/"
    ensures LastSlash(p).Some? && LastSlash(p).value > 0 ==> r == p[..LastSlash(p).value]
  {
    match LastSlash(p)
    case None => "."
    case Some(i) => if i == 0 then "/" else p[..i]
  }

  /** Decimal spelling of a natural number. */
  function NatToString(n: nat): (r: string)
    ensures |r| > 0
    ensures forall k :: 0 <= k < |r| ==> '0' <= r[k] <= '9'
  {
    var digit := ['0' + (n % 10) as char];
    if n < 10 then digit else NatToString(n / 10) + digit
  }


}

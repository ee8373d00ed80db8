/**
 * The pieces of `pathlib.PurePosixPath` and `os.path` the tools use, on
 * path strings as given (no normalisation of "." or repeated "/").
 */
module Paths {
  import opened Text

  /** Index of the last '/' in `p`, or -1 (`p.rfind('/')`). */
  function LastIndexOf(p: string, c: char): (k: int)
    ensures -1 <= k < |p|
    ensures k >= 0 ==> p[k] == c
    ensures forall j :: k < j < |p| ==> p[j] != c
    decreases |p|
  {
    if p == [] then -1 else if p[|p| - 1] == c then |p| - 1 else LastIndexOf(p[..|p| - 1], c)
  }

  /** `p.rstrip('/')` */
  function StripTrailingSlashes(p: string): (r: string)
    ensures |r| <= |p| && r == p[..|r|]
    ensures r == [] || r[|r| - 1] != '/'
    decreases |p|
  {
    if p != [] && p[|p| - 1] == '/' then StripTrailingSlashes(p[..|p| - 1]) else p
  }

  /** `Path(p).name`: the last component, never containing '/'. */
  function BaseName(p: string): (r: string)
    ensures '/' !in r
  {
    var q := StripTrailingSlashes(p);
    var name := q[LastIndexOf(q, '/') + 1..];
    if name == "." then "" else name
  }

  /** `Path(p).suffix`: from the last '.' of the name, unless that dot starts or ends it. */
  function Suffix(p: string): (r: string)
    ensures r == [] || (r[0] == '.' && |r| >= 2)
    ensures EndsWith(BaseName(p), r)
  {
    var name := BaseName(p);
    var i := LastIndexOf(name, '.');
    if 0 < i < |name| - 1 then name[i..] else ""
  }

  /** `str(Path(p).parent)`; "." for a bare name. */
  function Parent(p: string): string {
    var q := StripTrailingSlashes(p);
    var k := LastIndexOf(q, '/');
    if k < 0 then "."
    else
      var head := StripTrailingSlashes(q[..k]);
      if head == "" then "/" else head
  }

  /** `os.path.dirname(p)`: everything before the last '/', trailing slashes removed unless all slashes. */
  function DirName(p: string): (r: string)
    ensures '/' !in p ==> r == ""
  {
    var head := p[..LastIndexOf(p, '/') + 1];
    if head != "" && StripTrailingSlashes(head) != "" then StripTrailingSlashes(head) else head
  }

  /** `str(Path(base) / rel)` for a relative `rel`. */
  function JoinPath(base: string, rel: string): string {
    if rel == "" then base
    else if base == "" then rel
    else if base[|base| - 1] == '/' then base + rel
    else base + "/" + rel
  }

  /** The proper ancestors of `p` that `os.makedirs` visits, outermost first. */
  function Ancestors(p: string): (r: seq<string>)
    ensures forall k :: 0 <= k < |r| ==> |r[k]| < |p|
    decreases |p|
  {
    var k := LastIndexOf(p, '/');
    if k <= 0 then [] else Ancestors(p[..k]) + [p[..k]]
  }

  /** `str(Path(base) / p)`: an absolute `p` replaces `base`. */
  function Resolve(base: string, p: string): (r: string)
    ensures StartsWith(p, "/") ==> r == p
  {
    if StartsWith(p, "/") then p else JoinPath(base, p)
  }
}

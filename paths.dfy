/** The POSIX path helpers the file code relies on: `os.path.dirname`,
    `os.path.basename` and `os.path.join`. */
module Paths {

  /** One past the last '/' in `p`, or 0 when there is none
      (Python's `p.rfind('/') + 1`). */
  function SplitIndex(p: string): (i: nat)
    ensures i <= |p|
  {
    if |p| == 0 then 0
    else if p[|p| - 1] == '/' then |p|
    else SplitIndex(p[..|p| - 1])
  }

  /** `s.rstrip('/')`. */
  function RStripSlashes(s: string): (r: string)
    ensures r <= s
  {
    if |s| == 0 || s[|s| - 1] != '/' then s else RStripSlashes(s[..|s| - 1])
  }

  /** `os.path.dirname(p)`: the head up to and including the last '/',
      with its trailing slashes removed unless it consists of slashes only
      (then stripping would leave nothing). The base name is dropped one
      character at a time. */
  function Dirname(p: string): (d: string)
    ensures d <= p
  {
    if |p| == 0 then []
    else if p[|p| - 1] == '/' then (if RStripSlashes(p) != [] then RStripSlashes(p) else p)
    else Dirname(p[..|p| - 1])
  }

  /** A trailing name without '/' does not change the directory. */
  lemma {:induction false} DirnameSkipsName(head: string, name: string)
    requires forall j :: 0 <= j < |name| ==> name[j] != '/'
    ensures Dirname(head + name) == Dirname(head)
    decreases |name|
  {
    if |name| == 0 {
      assert head + name == head;
    } else {
      var p := head + name;
      assert p[|p| - 1] == name[|name| - 1];
      assert p[..|p| - 1] == head + name[..|name| - 1];
      DirnameSkipsName(head, name[..|name| - 1]);
    }
  }

  /** The directory of `d/name` is `d`, for a directory without a trailing
      '/' and a name without '/'. */
  lemma DirnameOfChild(d: string, name: string)
    requires d != [] && d[|d| - 1] != '/'
    requires forall j :: 0 <= j < |name| ==> name[j] != '/'
    ensures Dirname(d + "/" + name) == d
  {
    var head := d + "/";
    DirnameSkipsName(head, name);
    assert head[..|head| - 1] == d;
    assert RStripSlashes(d) == d;
    assert RStripSlashes(head) == RStripSlashes(d);
    assert Dirname(head) == RStripSlashes(head);
  }

  /** `os.path.basename(p)`: everything after the last '/'. */
  function Basename(p: string): (b: string)
    ensures p == p[..SplitIndex(p)] + b
  {
    p[SplitIndex(p)..]
  }

  /** `os.path.join(d, b)` for two components. */
  function Join(d: string, b: string): string
  {
    if b != [] && b[0] == '/' then b
    else if d == [] || d[|d| - 1] == '/' then d + b
    else d + "/" + b
  }
}

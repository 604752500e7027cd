/** The `os.path` and `pathlib` operations the downloaders use, on POSIX paths. */
module Paths {

  /** `s.rfind(c)`: the last index of `c` in `s`, or -1. */
  function RFind(s: string, c: char): (r: int)
    ensures -1 <= r < |s|
    ensures r >= 0 ==> s[r] == c
    ensures forall j :: r < j < |s| ==> s[j] != c
  {
    if s == [] then -1
    else if s[|s| - 1] == c then |s| - 1
    else RFind(s[..|s| - 1], c)
  }

  /**
    `os.path.splitext(p)`: the extension runs from the last dot of the last path
    component, provided something other than dots comes before that dot in the component;
    otherwise there is no extension.
  */
  function SplitExt(p: string): (r: (string, string))
    ensures r.0 + r.1 == p
    ensures r.1 == [] || (r.1[0] == '.' && forall j :: 0 <= j < |r.1| ==> r.1[j] != '/')
    ensures forall j :: 1 <= j < |r.1| ==> r.1[j] != '.'
  {
    var sep := RFind(p, '/');
    var dot := RFind(p, '.');
    if dot > sep && exists j :: sep < j < dot && p[j] != '.' then
      assert forall j :: 0 <= j < |p[dot..]| ==> p[dot..][j] == p[dot + j];
      (p[..dot], p[dot..])
    else (p, "")
  }

  /** `os.path.join(a, b)`: an absolute `b` replaces `a`; otherwise one `/` separates them. */
  function Join(a: string, b: string): (r: string)
    ensures b != [] && b[0] == '/' ==> r == b
    ensures (b == [] || b[0] != '/') ==> r == a + b || r == a + "/" + b
    ensures a != [] && a[|a| - 1] != '/' && (b == [] || b[0] != '/') ==> r == a + "/" + b
  {
    if b != [] && b[0] == '/' then b
    else if a == [] || a[|a| - 1] == '/' then a + b
    else a + "/" + b
  }

  /**
    `str(Path(a) / b)` for one path component `b`: an empty component adds nothing;
    otherwise it joins as `os.path.join` does, so a root `a` gets no second slash.
  */
  function PathJoin(a: string, b: string): (r: string)
    ensures b == [] ==> r == a
    ensures b != [] && b[0] != '/' && a != [] && a[|a| - 1] == '/' ==> r == a + b
    ensures b != [] && b[0] != '/' && a != [] && a[|a| - 1] != '/' ==> r == a + "/" + b
  {
    if b == [] then a else Join(a, b)
  }
}

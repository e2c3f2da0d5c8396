/**
 * The file sandbox (tools/sandbox.py): a target path is resolved, then
 * accepted only when it lies under one of the allowed roots, compared
 * component by component as `Path.relative_to` does.
 */
module Sandbox {
  import opened Wrappers
  import opened PyText

  /** A POSIX path: its anchor (`"/"` for an absolute path, `""` for a relative one) and its components. */
  datatype Path = Path(anchor: string, parts: seq<string>)

  /** The components joined by `sep`. */
  function JoinWith(parts: seq<string>, sep: string): string
    decreases |parts|
  {
    if parts == [] then ""
    else if |parts| == 1 then parts[0]
    else parts[0] + sep + JoinWith(parts[1..], sep)
  }

  /** `str(path)`: the anchor, then the components separated by `/`; `.` for the empty relative path. */
  function PathText(p: Path): string
  {
    if p.parts == [] then (if p.anchor == "" then "." else p.anchor)
    else p.anchor + JoinWith(p.parts, "/")
  }

  /** `p.relative_to(root)` succeeds: same anchor, and the root's components begin the path's. */
  predicate RelativeTo(p: Path, root: Path)
  {
    p.anchor == root.anchor && root.parts <= p.parts
  }

  /** The error `resolve_path` raises, with the path and the roots its message names. */
  datatype SandboxPathError = SandboxPathError(resolved: Path, roots: seq<Path>)

  /** The roots as the message lists them: their texts separated by `", "`. */
  function RootsText(roots: seq<Path>): string
    decreases |roots|
  {
    if roots == [] then ""
    else if |roots| == 1 then PathText(roots[0])
    else PathText(roots[0]) + ", " + RootsText(roots[1..])
  }

  /** The text of the error. */
  function Message(e: SandboxPathError): string
  {
    "Path '" + PathText(e.resolved) + "' is outside allowed roots: " + RootsText(e.roots)
  }

  /** The position of the first root that contains `p`, trying the roots in order. */
  function FirstContaining(p: Path, roots: seq<Path>): (r: Option<nat>)
    ensures r.Some? ==> r.value < |roots| && RelativeTo(p, roots[r.value]) &&
                        forall j :: 0 <= j < r.value ==> !RelativeTo(p, roots[j])
    ensures r.None? <==> forall j :: 0 <= j < |roots| ==> !RelativeTo(p, roots[j])
    decreases |roots|
  {
    if roots == [] then None
    else if RelativeTo(p, roots[0]) then Some(0)
    else
      match FirstContaining(p, roots[1..])
      case None => None
      case Some(k) => Some(k + 1)
  }

  /**
   * `resolve_path(target, allowed_roots)`, where `resolve` stands for
   * `Path(target).expanduser().resolve()`: the resolved path itself when some
   * root contains it, else SandboxPathError.
   */
  function ResolvePath(resolve: string -> Path, target: string, roots: seq<Path>): (r: Result<Path, SandboxPathError>)
    ensures r.Success? <==> exists i :: 0 <= i < |roots| && RelativeTo(resolve(target), roots[i])
    ensures r.Success? ==> r.value == resolve(target)
    ensures r.Failure? ==> r.error.resolved == resolve(target) && r.error.roots == roots
  {
    var resolved := resolve(target);
    match FirstContaining(resolved, roots)
    case Some(_) => Success(resolved)
    case None => Failure(SandboxPathError(resolved, roots))
  }

  /** With no allowed roots every path is refused, and the message lists no root. */
  lemma EmptyRootsRaise(resolve: string -> Path, target: string)
    ensures ResolvePath(resolve, target, []).Failure?
    ensures Message(ResolvePath(resolve, target, []).error) ==
            "Path '" + PathText(resolve(target)) + "' is outside allowed roots: "
  {
    assert "Path '" + PathText(resolve(target)) + "' is outside allowed roots: " + "" ==
           "Path '" + PathText(resolve(target)) + "' is outside allowed roots: ";
  }

  /** Adding roots never refuses a path that was accepted, and the accepted value does not change. */
  lemma {:induction false} MoreRootsStillAccept(resolve: string -> Path, target: string, roots: seq<Path>, extra: seq<Path>)
    requires ResolvePath(resolve, target, roots).Success?
    ensures ResolvePath(resolve, target, roots + extra) == ResolvePath(resolve, target, roots)
    ensures ResolvePath(resolve, target, extra + roots) == ResolvePath(resolve, target, roots)
  {
    var k := FirstContaining(resolve(target), roots).value;
    assert (roots + extra)[k] == roots[k];
    assert (extra + roots)[|extra| + k] == roots[k];
  }

  lemma PrefixUnderConcat(x: string, s: string, t: string)
    requires StartsWith(s, t)
    ensures StartsWith(x + s, x + t)
  {
    assert (x + s)[..|x + t|] == x + s[..|t|];
  }

  /** Joining more components extends the text of the shorter join. */
  lemma {:induction false} JoinPrefix(a: seq<string>, b: seq<string>, sep: string)
    requires a != []
    ensures StartsWith(JoinWith(a + b, sep), JoinWith(a, sep))
    decreases |a|
  {
    if b == [] {
      assert a + b == a;
    } else if |a| == 1 {
      assert (a + b)[0] == a[0] && (a + b)[1..] == b;
      assert JoinWith(a + b, sep)[..|a[0]|] == a[0];
    } else {
      assert (a + b)[0] == a[0] && (a + b)[1..] == a[1..] + b;
      JoinPrefix(a[1..], b, sep);
      PrefixUnderConcat(a[0] + sep, JoinWith(a[1..] + b, sep), JoinWith(a[1..], sep));
    }
  }

  /** Under an absolute root, containment implies that the root's text begins the path's text. */
  lemma ContainedTextPrefix(p: Path, root: Path)
    requires root.anchor != "" && RelativeTo(p, root)
    ensures StartsWith(PathText(p), PathText(root))
  {
    if root.parts == [] {
      if p.parts != [] {
        assert PathText(p)[..|root.anchor|] == root.anchor;
      }
    } else {
      var rest := p.parts[|root.parts|..];
      assert p.parts == root.parts + rest;
      JoinPrefix(root.parts, rest, "/");
      PrefixUnderConcat(p.anchor, JoinWith(p.parts, "/"), JoinWith(root.parts, "/"));
    }
  }

  /**
   * The converse fails: `<dir>/<name><more>` is not under `<dir>/<name>`,
   * although its text begins with the root's text (`/a/bc` and `/a/b`).
   */
  lemma SiblingNotContained(anchor: string, dir: string, name: string, more: string)
    requires more != []
    ensures !RelativeTo(Path(anchor, [dir, name + more]), Path(anchor, [dir, name]))
    ensures StartsWith(PathText(Path(anchor, [dir, name + more])), PathText(Path(anchor, [dir, name])))
  {
    var p, root := Path(anchor, [dir, name + more]), Path(anchor, [dir, name]);
    assert JoinWith(p.parts, "/") == dir + "/" + (name + more);
    assert JoinWith(root.parts, "/") == dir + "/" + name;
    assert PathText(p) == PathText(root) + more;
  }
}

/** The part of Unix `std::path` the tools rely on: the last component of a
    path, its file name and extension, its parent and `join`. A path is split
    at '/'; empty and `.` pieces inside it are skipped, a leading '/' is the
    root and a leading `.` of a relative path is the current directory. */
module Paths {
  import opened Wrappers

  /** How many characters std keeps in front of the body: the root '/', or
      the `.` that starts a relative path. */
  function Floor(p: string): (f: nat)
    ensures f <= |p| && f <= 1
    ensures f == 1 ==> p[0] == '/' || p[0] == '.'
  {
    if |p| > 0 && p[0] == '/' then 1
    else if |p| > 0 && p[0] == '.' && (|p| == 1 || p[1] == '/') then 1
    else 0
  }

  /** The index of the last separator at or after `floor`. */
  function LastSep(p: string, floor: nat): (r: Option<nat>)
    requires floor <= |p|
    ensures r.Some? ==> floor <= r.value < |p| && p[r.value] == '/'
    decreases |p|
  {
    if |p| == floor then None
    else if p[|p| - 1] == '/' then Some(|p| - 1)
    else LastSep(p[..|p| - 1], floor)
  }

  /** The last piece of the body: what follows its last separator. */
  function LastPiece(p: string, floor: nat): string
    requires floor <= |p|
  {
    match LastSep(p, floor)
    case Some(i) => p[i + 1..]
    case None => p[floor..]
  }

  /** How many characters removing the last piece, with its separator, takes off. */
  function PieceSize(p: string, floor: nat): (n: nat)
    requires floor < |p|
    ensures 1 <= n <= |p| - floor
  {
    match LastSep(p, floor)
    case Some(i) => |p| - i
    case None => |p| - floor
  }

  /** Pieces that are not components. */
  predicate Skipped(piece: string) {
    piece == "" || piece == "."
  }

  /** `Components::trim_right`: drops trailing empty and `.` pieces. */
  function TrimRight(p: string, floor: nat): (t: string)
    requires floor <= |p|
    ensures floor <= |t| <= |p| && t == p[..|t|]
    decreases |p|
  {
    if |p| == floor then p
    else if Skipped(LastPiece(p, floor)) then TrimRight(p[..|p| - PieceSize(p, floor)], floor)
    else p
  }

  datatype Component = RootDir | CurDir | ParentDir | Normal(name: string)

  /** The last item of `Path::components()`, if there is one. */
  function LastComponent(p: string): Option<Component> {
    var f := Floor(p);
    var t := TrimRight(p, f);
    if |t| > f then
      var piece := LastPiece(t, f);
      Some(if piece == ".." then ParentDir else Normal(piece))
    else if f == 1 && p[0] == '/' then Some(RootDir)
    else if f == 1 then Some(CurDir)
    else None
  }

  /** `Path::file_name`: the last component when it is a name. */
  function FileName(p: string): Option<string> {
    match LastComponent(p)
    case Some(Normal(name)) => Some(name)
    case _ => None
  }

  function LastDot(s: string): (r: Option<nat>)
    ensures r.Some? ==> r.value < |s| && s[r.value] == '.' && '.' !in s[r.value + 1..]
    ensures r.None? ==> '.' !in s
    decreases |s|
  {
    if s == [] then None
    else if s[|s| - 1] == '.' then Some(|s| - 1)
    else LastDot(s[..|s| - 1])
  }

  /** `Path::extension`: what follows the last `.` of the file name, unless
      that `.` is the name's first character. */
  function Extension(p: string): (r: Option<string>)
    ensures r.Some? ==>
      && FileName(p).Some?
      && var name := FileName(p).value;
      && |r.value| + 2 <= |name|
      && name[|name| - |r.value|..] == r.value
      && name[|name| - |r.value| - 1] == '.'
      && '.' !in r.value
    ensures FileName(p).Some? && |FileName(p).value| > 0 && '.' in FileName(p).value[1..] ==> r.Some?
  {
    match FileName(p)
    case None => None
    case Some(name) =>
      match LastDot(name)
      case None => None
      case Some(i) => if i == 0 then None else Some(name[i + 1..])
  }

  /** `Path::parent`: the path without its last component, when that is a
      name, `.` or `..`; the root and the empty path have none. */
  function Parent(p: string): (r: Option<string>)
    ensures r.Some? ==> |r.value| < |p| && r.value == p[..|r.value|]
    ensures p == "" || p == "/" ==> r.None?
    ensures LastComponent(p).Some? && LastComponent(p).value.Normal? ==> r.Some?
  {
    var f := Floor(p);
    var t := TrimRight(p, f);
    if |t| > f then Some(TrimRight(t[..|t| - PieceSize(t, f)], f))
    else if f == 1 && p[0] != '/' then Some("")
    else None
  }

  /** `Path::join` on Unix: an absolute `name` replaces `base`; otherwise a
      separator is put between them unless `base` is empty or ends in one. */
  function Join(base: string, name: string): (r: string)
    ensures |name| > 0 && name[0] == '/' ==> r == name
    ensures !(|name| > 0 && name[0] == '/') ==>
      && |base| + |name| <= |r| <= |base| + |name| + 1
      && r[..|base|] == base && r[|r| - |name|..] == name
      && (|r| == |base| + |name| + 1 ==> r[|base|] == '/')
  {
    if |name| > 0 && name[0] == '/' then name
    else if |base| > 0 && base[|base| - 1] != '/' then base + "/" + name
    else base + name
  }

  /** A path with an extension always has a parent. */
  lemma ExtensionImpliesParent(p: string)
    requires Extension(p).Some?
    ensures Parent(p).Some?
  {
  }

  /** Joining one base with two names that are both relative or both
      absolute gives different paths for different names. */
  lemma JoinInjective(base: string, a: string, b: string)
    requires a != b
    requires (|a| > 0 && a[0] == '/') == (|b| > 0 && b[0] == '/')
    ensures Join(base, a) != Join(base, b)
  {
    if !(|a| > 0 && a[0] == '/') {
      var k := if |base| > 0 && base[|base| - 1] != '/' then |base| + 1 else |base|;
      assert Join(base, a)[k..] == a;
      assert Join(base, b)[k..] == b;
    }
  }
}

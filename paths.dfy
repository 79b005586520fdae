/**
 * The parts of Windows path handling (`ntpath`) the agent uses on strings:
 * `splitdrive`, `join`, `basename`, `dirname` and `splitext`. Drives are
 * drive letters (`C:`); UNC shares are not recognised (see README).
 */
module Paths {
  import opened Text

  predicate IsSep(c: char) { c == '\\' || c == '/' }

  /** `ntpath.splitdrive(p)` for drive letters: the drive is the first two characters when the second is a colon. */
  function SplitDrive(p: string): (r: (string, string))
    ensures r.0 + r.1 == p
    ensures r.0 == [] || |r.0| == 2
  {
    if |p| >= 2 && p[1] == ':' then (p[..2], p[2..]) else ([], p)
  }

  /** Index just past the last separator in `p`, 0 when there is none. */
  function AfterLastSep(p: string): (i: nat)
    ensures i <= |p|
    ensures i > 0 ==> IsSep(p[i - 1])
    ensures forall k :: i <= k < |p| ==> !IsSep(p[k])
  {
    if p == [] then 0
    else if IsSep(p[|p| - 1]) then |p|
    else AfterLastSep(p[..|p| - 1])
  }

  /** `ntpath.basename(p)`: what follows the last separator, after the drive. */
  function Basename(p: string): (r: string)
    ensures forall k :: 0 <= k < |r| ==> !IsSep(r[k])
  {
    var (_, rest) := SplitDrive(p);
    rest[AfterLastSep(rest)..]
  }

  /** `head.rstrip('\\/') or head` */
  function StripTrailingSeps(head: string): (r: string)
  {
    if head == [] || !IsSep(head[|head| - 1]) then head
    else if forall k :: 0 <= k < |head| ==> IsSep(head[k]) then head
    else StripTrailingSeps(head[..|head| - 1])
  }

  /** `ntpath.dirname(p)`: the drive and the part before the last separator, trailing separators dropped. */
  function Dirname(p: string): string
  {
    var (drive, rest) := SplitDrive(p);
    drive + StripTrailingSeps(rest[..AfterLastSep(rest)])
  }

  /** `ntpath.join(a, b)` for two components. */
  function Join(a: string, b: string): string
  {
    var (aDrive, aPath) := SplitDrive(a);
    var (bDrive, bPath) := SplitDrive(b);
    if bPath != [] && IsSep(bPath[0]) then
      (if bDrive != [] || aDrive == [] then bDrive else aDrive) + bPath
    else if bDrive != [] && bDrive != aDrive && Lower(bDrive) != Lower(aDrive) then
      bDrive + bPath
    else
      var drive := if bDrive != [] then bDrive else aDrive;
      var path := if aPath != [] && !IsSep(aPath[|aPath| - 1]) then aPath + "\\" else aPath;
      drive + path + bPath
  }

  /**
   * `ntpath.splitext(p)`: the extension starts at the last dot after the last
   * separator, unless everything between that separator and the dot is dots.
   */
  function SplitExt(p: string): (r: (string, string))
    ensures r.0 + r.1 == p
    ensures r.1 != [] ==> r.1[0] == '.'
    ensures forall k :: 0 <= k < |r.1| ==> !IsSep(r.1[k])
    ensures r.1 != [] ==> exists k :: AfterLastSep(p) <= k < |r.0| && r.0[k] != '.'
  {
    var start := AfterLastSep(p);
    var dot := LastDot(p, start);
    if dot < 0 || forall k :: start <= k < dot ==> p[k] == '.' then (p, [])
    else (p[..dot], p[dot..])
  }

  /** The index of the last `.` at or after `from`, or -1. */
  function LastDot(p: string, from: nat): (i: int)
    requires from <= |p|
    ensures -1 <= i < |p|
    ensures i >= 0 ==> from <= i && p[i] == '.'
    ensures forall k :: (if i < 0 then from else i + 1) <= k < |p| ==> p[k] != '.'
    decreases |p|
  {
    if |p| == from then -1
    else if p[|p| - 1] == '.' then |p| - 1
    else LastDot(p[..|p| - 1], from)
  }

  // ---------------------------------------------------------------------------
  // Properties
  // ---------------------------------------------------------------------------

  /** A plain name: non-empty, with no separator and no colon. */
  predicate PlainName(name: string)
  {
    name != [] && forall k :: 0 <= k < |name| ==> !IsSep(name[k]) && name[k] != ':'
  }

  /** The directory part `Join` puts in front of a relative name. */
  function DirPrefix(dir: string): (r: string)
    ensures r == [] || IsSep(r[|r| - 1])
  {
    var (drive, path) := SplitDrive(dir);
    if path != [] && !IsSep(path[|path| - 1]) then path + "\\" else path
  }

  lemma {:induction false} JoinOfPlainName(dir: string, name: string)
    requires PlainName(name)
    ensures Join(dir, name) == SplitDrive(dir).0 + DirPrefix(dir) + name
  {
    assert SplitDrive(name) == ([], name) by {
      if |name| >= 2 { assert name[1] != ':'; }
    }
  }

  /** A plain name joined to a directory is the basename of the result. */
  lemma {:induction false} BasenameOfJoin(dir: string, name: string)
    requires PlainName(name)
    ensures Basename(Join(dir, name)) == name
  {
    JoinOfPlainName(dir, name);
    var drive, path := SplitDrive(dir).0, DirPrefix(dir);
    var j := drive + path + name;
    if drive == [] {
      assert SplitDrive(path) == ([], path) by {
        var (d, p) := SplitDrive(dir);
        assert p == dir;
        if |path| >= 2 && |dir| >= 2 { assert path[1] == dir[1]; }
      }
      DriveOfJoin(path, name);
      assert j == path + name;
    } else {
      assert SplitDrive(j) == (drive, path + name) by {
        assert j[..2] == drive;
        assert j[2..] == path + name;
      }
    }
    BasenameAfterDirectory(j, path, name);
  }

  /** When what follows the drive is a directory ending in a separator and then a name without one, the name is the basename. */
  lemma {:induction false} BasenameAfterDirectory(p: string, path: string, name: string)
    requires SplitDrive(p).1 == path + name
    requires path == [] || IsSep(path[|path| - 1])
    requires forall k :: 0 <= k < |name| ==> !IsSep(name[k])
    ensures Basename(p) == name
  {
    AfterLastSepOfSuffix(path, name);
    assert (path + name)[|path|..] == name;
  }

  /** When a directory path ends with a separator, nothing after it counts as a drive. */
  lemma {:induction false} DriveOfJoin(path: string, name: string)
    requires path == [] || IsSep(path[|path| - 1])
    requires PlainName(name)
    requires SplitDrive(path) == ([], path)
    ensures SplitDrive(path + name) == ([], path + name)
  {
    var s := path + name;
    if |s| >= 2 {
      if |path| >= 2 {
        assert s[1] == path[1];
      } else if |path| == 1 {
        assert s[1] == name[0];
      } else {
        assert s[1] == name[1];
      }
    }
  }

  lemma {:induction false} AfterLastSepOfSuffix(path: string, name: string)
    requires path == [] || IsSep(path[|path| - 1])
    requires forall k :: 0 <= k < |name| ==> !IsSep(name[k])
    ensures AfterLastSep(path + name) == |path|
    decreases |name|
  {
    var s := path + name;
    if name == [] {
      assert s == path;
    } else {
      assert s[..|s| - 1] == path + name[..|name| - 1];
      AfterLastSepOfSuffix(path, name[..|name| - 1]);
    }
  }
}

/** Paths as sequences of segments over one abstract separator.

    A raw path string is read into its segments by `Split`, which drops the
    empty pieces that leading, trailing and repeated separators leave, and a
    path is written back by `Join`. `PathJoin` is Node's `path.join` on
    relative paths without `.` or `..` segments: concatenate with separators,
    then normalise. `ExtName` is Node's `path.extname` applied to one segment.
 */
module Paths {

  type Path = seq<string>

  const Separator: char := '/'

  /** A segment is a non-empty name with no separator in it. */
  predicate IsSegment(s: string) {
    s != [] && Separator !in s
  }

  /** Every segment of a well-formed path is a proper segment. */
  predicate WellFormed(p: Path) {
    forall i :: 0 <= i < |p| ==> IsSegment(p[i])
  }

  predicate EndsWith(s: string, suffix: string) {
    |suffix| <= |s| && s[|s| - |suffix|..] == suffix
  }

  /** The last segment of a path: the file (or directory) it names. */
  function BaseName(p: Path): string
    requires p != []
  {
    p[|p| - 1]
  }

  /** The path of the directory that holds the last segment. */
  function DirName(p: Path): (d: Path)
    requires p != []
    ensures d + [BaseName(p)] == p
  {
    p[..|p| - 1]
  }

  /** The sub-path of `p` below `root`: what is left once the root is removed. */
  function Relative(root: Path, p: Path): (r: Path)
    requires root <= p
    ensures root + r == p
    ensures |r| == |p| - |root|
  {
    p[|root|..]
  }

  /** Length of the separator-free run at the start of `s`. */
  function SegmentEnd(s: string): (n: nat)
    ensures n <= |s|
    ensures forall k :: 0 <= k < n ==> s[k] != Separator
    ensures n < |s| ==> s[n] == Separator
  {
    if s == [] || s[0] == Separator then 0 else 1 + SegmentEnd(s[1..])
  }

  /** The segments of a raw path string, in order. */
  function Split(s: string): (p: Path)
    ensures WellFormed(p)
    ensures |p| <= |s|
    decreases |s|
  {
    if s == [] then []
    else if s[0] == Separator then Split(s[1..])
    else
      var n := SegmentEnd(s);
      [s[..n]] + Split(s[n..])
  }

  /** The string form of a path: its segments with a separator between each two. */
  function Join(p: Path): string {
    if |p| == 0 then ""
    else if |p| == 1 then p[0]
    else p[0] + [Separator] + Join(p[1..])
  }

  /** Node's `path.join` on plain segments: join the parts, then normalise. */
  function PathJoin(parts: seq<string>): (p: Path)
    ensures WellFormed(p)
  {
    Split(Join(parts))
  }

  /** Index of the last '.' in `s`, or -1 when there is none. */
  function LastDot(s: string): (i: int)
    ensures -1 <= i < |s|
    ensures i >= 0 ==> s[i] == '.'
    ensures forall k :: i < k < |s| ==> s[k] != '.'
  {
    if s == [] then -1
    else if s[|s| - 1] == '.' then |s| - 1
    else LastDot(s[..|s| - 1])
  }

  /** The extension of a file name, from its last dot to its end. A name
      without a dot, a name whose only dot leads it (`.js`) and `..` have none. */
  function ExtName(name: string): (e: string)
    ensures e == "" || (e[0] == '.' && EndsWith(name, e) && |e| < |name|)
    ensures e != "" ==> forall k :: 1 <= k < |e| ==> e[k] != '.'
    ensures e != "" <==> name != ".." && exists k :: 0 < k < |name| && name[k] == '.'
  {
    var i := LastDot(name);
    if i <= 0 || name == ".." then "" else name[i..]
  }

  lemma SegmentIsItsOwnSplit(s: string)
    requires IsSegment(s)
    ensures Split(s) == [s]
  {
    assert SegmentEnd(s) == |s|;
    assert s[..|s|] == s && s[|s|..] == [];
  }

  /** A run that already ended before the appended text is not lengthened by it,
      and neither is one that the appended text closes with a separator. */
  lemma {:induction false} SegmentEndAppend(x: string, z: string)
    requires SegmentEnd(x) < |x| || (z != [] && z[0] == Separator)
    ensures SegmentEnd(x + z) == SegmentEnd(x)
  {
    if x != [] && x[0] != Separator {
      assert (x + z)[1..] == x[1..] + z;
      SegmentEndAppend(x[1..], z);
    }
  }

  /** Splitting at a separator splits the two sides independently. */
  lemma {:induction false} SplitAround(x: string, y: string)
    ensures Split(x + [Separator] + y) == Split(x) + Split(y)
    decreases |x|
  {
    var s := x + [Separator] + y;
    if x == [] {
      assert s[1..] == y;
    } else if x[0] == Separator {
      assert s[1..] == x[1..] + [Separator] + y;
      SplitAround(x[1..], y);
    } else {
      var n := SegmentEnd(x);
      SegmentEndAppend(x, [Separator] + y);
      assert s == x + ([Separator] + y);
      assert SegmentEnd(s) == n;
      assert s[..n] == x[..n];
      assert s[n..] == x[n..] + [Separator] + y;
      SplitAround(x[n..], y);
    }
  }

  /** Reading back a written well-formed path gives the same segments. */
  lemma {:induction false} SplitJoin(p: Path)
    requires WellFormed(p)
    ensures Split(Join(p)) == p
  {
    if |p| == 1 {
      SegmentIsItsOwnSplit(p[0]);
    } else if |p| > 1 {
      SplitAround(p[0], Join(p[1..]));
      SegmentIsItsOwnSplit(p[0]);
      SplitJoin(p[1..]);
    }
  }

  /** `path.join` of well-formed segments is those segments. */
  lemma PathJoinOfSegments(p: Path)
    requires WellFormed(p)
    ensures PathJoin(p) == p
  {
    SplitJoin(p);
  }

  /** `path.join` reads each part into segments and concatenates them, so a
      part such as `test/tmp` contributes two segments. */
  lemma {:induction false} PathJoinConcat(first: string, rest: seq<string>)
    requires rest != []
    ensures PathJoin([first] + rest) == Split(first) + PathJoin(rest)
  {
    var parts := [first] + rest;
    assert parts[0] == first && parts[1..] == rest;
    SplitAround(first, Join(rest));
  }

  /** Appending text to the last segment appends it to the written path. */
  lemma {:induction false} JoinExtendLast(p: Path, suffix: string)
    requires p != []
    ensures Join(DirName(p) + [BaseName(p) + suffix]) == Join(p) + suffix
  {
    var q := DirName(p) + [BaseName(p) + suffix];
    if |p| > 1 {
      assert q[0] == p[0];
      assert q[1..] == DirName(p[1..]) + [BaseName(p[1..]) + suffix];
      JoinExtendLast(p[1..], suffix);
    }
  }

  /** A file name has the extension `.js` exactly when it ends in `.js` and
      has at least one character before that dot. */
  lemma ScriptExtensionIff(name: string)
    ensures ExtName(name) == ".js" <==> |name| >= 4 && EndsWith(name, ".js")
  {
    var i := LastDot(name);
    if |name| >= 4 && EndsWith(name, ".js") {
      var n := |name|;
      assert name[n - 3..] == ".js";
      assert name[n - 3] == '.' && name[n - 2] == 'j' && name[n - 1] == 's';
      assert i == n - 3;
    }
    if ExtName(name) == ".js" {
      assert i > 0 && name[i..] == ".js";
    }
  }
}

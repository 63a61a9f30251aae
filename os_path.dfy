// The two POSIX path functions the file helpers use: `os.path.basename` and
// `os.path.splitext`.
module OsPath {
  import Text

  /** `os.path.basename`: everything after the last '/'. */
  function BaseName(p: string): (name: string)
    ensures '/' !in name
    ensures |name| <= |p| && p[|p| - |name|..] == name
  {
    p[Text.RFind(p, '/') + 1..]
  }

  /**
   * `os.path.splitext`: the split at the last dot of the last path component,
   * unless that component has only dots before it (".bashrc", "..").
   */
  function SplitExt(p: string): (string, string)
  {
    var sep := Text.RFind(p, '/');
    var dot := Text.RFind(p, '.');
    if SplitsAt(p, sep, dot) then (p[..dot], p[dot..]) else (p, "")
  }

  function Ext(p: string): string
  {
    SplitExt(p).1
  }

  /** Whether the path splits at position `dot`: a dot after the last '/' with a non-dot before it. */
  predicate SplitsAt(p: string, sep: int, dot: int)
    requires -1 <= sep && dot < |p|
  {
    dot > sep && exists j :: sep + 1 <= j < dot && p[j] != '.'
  }

  /** The two halves put back together give the path. */
  lemma SplitExtJoins(p: string)
    ensures SplitExt(p).0 + SplitExt(p).1 == p
  {
    var sep := Text.RFind(p, '/');
    var dot := Text.RFind(p, '.');
    if SplitsAt(p, sep, dot) {
      assert p[..dot] + p[dot..] == p;
    } else {
      assert p + "" == p;
    }
  }

  /**
   * What an extension taken from a base name looks like: empty, or a dot
   * followed by neither a dot nor a '/', taken from the end of the name,
   * which holds something other than dots before it.
   */
  predicate ExtShape(e: string, name: string)
  {
    e == "" ||
    (&& e[0] == '.' && '/' !in e && '.' !in e[1..]
     && |e| < |name| && name[|name| - |e|..] == e
     && exists j :: 0 <= j < |name| - |e| && name[j] != '.')
  }

  /** Every extension has that shape with respect to the path's base name. */
  lemma ExtOfBaseName(p: string)
    ensures ExtShape(Ext(p), BaseName(p))
  {
    var sep := Text.RFind(p, '/');
    var dot := Text.RFind(p, '.');
    if SplitsAt(p, sep, dot) {
      var j :| sep + 1 <= j < dot && p[j] != '.';
      TailShape(p, sep, dot, j);
      assert Ext(p) == p[dot..] && BaseName(p) == p[sep + 1..];
    } else {
      assert Ext(p) == "";
    }
  }

  /** The tail from the last dot, when that dot comes after the last '/' and a non-dot. */
  lemma TailShape(p: string, sep: int, dot: int, j: int)
    requires -1 <= sep && sep + 1 <= j < dot < |p| && p[dot] == '.' && p[j] != '.'
    requires forall k :: sep < k < |p| ==> p[k] != '/'
    requires forall k :: dot < k < |p| ==> p[k] != '.'
    ensures ExtShape(p[dot..], p[sep + 1..])
  {
    var e := p[dot..];
    var name := p[sep + 1..];
    assert forall k :: 0 <= k < |e| ==> e[k] == p[dot + k] && e[k] != '/';
    assert forall k :: 0 <= k < |e[1..]| ==> e[1..][k] == p[dot + 1 + k] && e[1..][k] != '.';
    assert name[dot - sep - 1..] == e;
    assert name[j - sep - 1] == p[j];
  }

  lemma RFindAt(s: string, c: char, i: int)
    requires -1 <= i < |s| && (i >= 0 ==> s[i] == c)
    requires forall j :: i < j < |s| ==> s[j] != c
    ensures Text.RFind(s, c) == i
  {
  }

  /** Some splits, as Python gives them. */
  lemma SplitExtExamples()
    ensures Ext("notes.TXT") == ".TXT"
    ensures Ext("dir.d/archive.tar.gz") == ".gz"
    ensures Ext(".bashrc") == ""
    ensures Ext("dir.d/README") == ""
  {
    RFindAt("notes.TXT", '/', -1);
    RFindAt("notes.TXT", '.', 5);
    assert "notes.TXT"[0] != '.';
    RFindAt("dir.d/archive.tar.gz", '/', 5);
    RFindAt("dir.d/archive.tar.gz", '.', 17);
    assert "dir.d/archive.tar.gz"[6] != '.';
    RFindAt(".bashrc", '/', -1);
    RFindAt(".bashrc", '.', 0);
    RFindAt("dir.d/README", '/', 5);
    RFindAt("dir.d/README", '.', 3);
  }
}

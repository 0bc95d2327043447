/** The POSIX os.path operations the download helpers use, on plain strings. */
module Paths {
  import opened Strings

  /** os.path.join(dir, name): an absolute name replaces the directory;
      otherwise a '/' goes between the two unless the directory is empty or
      already ends in one. */
  function Join(dir: string, name: string): (r: string)
    ensures StartsWith(name, "/") ==> r == name
    ensures !StartsWith(name, "/") && (dir == "" || dir[|dir| - 1] == '/') ==> r == dir + name
    ensures !StartsWith(name, "/") && dir != "" && dir[|dir| - 1] != '/' ==> r == dir + "/" + name
  {
    if StartsWith(name, "/") then name
    else if dir == "" || dir[|dir| - 1] == '/' then dir + name
    else dir + "/" + name
  }

  /** os.path.basename(p): the longest suffix of p without a '/', that is,
      what follows the last '/'. */
  function Basename(p: string): (r: string)
    ensures |r| <= |p| && r == p[|p| - |r|..]
    ensures '/' !in r
    ensures |r| < |p| ==> p[|p| - |r| - 1] == '/'
  {
    p[RFind(p, '/') + 1..]
  }

  /** n copies of the character c. */
  function Repeat(c: char, n: nat): (s: string)
    ensures |s| == n && forall i :: 0 <= i < n ==> s[i] == c
  {
    seq(n, _ => c)
  }

  /** p.rstrip('/'): the prefix left once every trailing '/' is removed. */
  function StripTrailingSlashes(p: string): (r: string)
    ensures |r| <= |p| && p == r + Repeat('/', |p| - |r|)
    ensures r == "" || r[|r| - 1] != '/'
  {
    if p != "" && p[|p| - 1] == '/' then
      var r := StripTrailingSlashes(p[..|p| - 1]);
      assert p == p[..|p| - 1] + ['/'];
      assert Repeat('/', |p| - 1 - |r|) + ['/'] == Repeat('/', |p| - |r|);
      r
    else
      assert Repeat('/', 0) == "";
      p
  }

  /** What dirname keeps of the part of a path up to its last '/': that part
      without its trailing slashes, unless it consists of slashes only. */
  function Parent(head: string): string {
    if head != "" && exists k :: 0 <= k < |head| && head[k] != '/' then StripTrailingSlashes(head) else head
  }

  /** os.path.dirname(p): everything up to and including the last '/', then
      without its trailing slashes unless it consists of slashes only. */
  function Dirname(p: string): (r: string)
    ensures '/' !in p ==> r == ""
    ensures |r| <= |p| && r == p[..|r|]
  {
    Parent(p[..RFind(p, '/') + 1])
  }

  /** The parent of a non-empty head is a non-empty prefix of it that only
      slashes follow, and it ends in a character other than '/' unless the
      head is made of slashes only, when it is the whole head. */
  lemma ParentOfHead(head: string)
    requires head != ""
    ensures var r := Parent(head);
      && r != "" && |r| <= |head|
      && head == r + Repeat('/', |head| - |r|)
      && (r[|r| - 1] == '/' ==> r == head && r == Repeat('/', |r|))
  {
    if exists k :: 0 <= k < |head| && head[k] != '/' {
      var r := StripTrailingSlashes(head);
      var k :| 0 <= k < |head| && head[k] != '/';
      assert head[k] == (r + Repeat('/', |head| - |r|))[k];
    } else {
      assert head == Repeat('/', |head|);
      assert Repeat('/', 0) == "";
    }
  }

  /** What dirname keeps: a non-empty prefix of p up to the last '/' at the
      latest, followed in p by slashes only up to that '/', and ending in a
      character other than '/' unless everything up to that '/' is made of
      slashes, when it is all of that ("//a" gives "//"). */
  lemma DirnameIsParent(p: string)
    requires '/' in p
    ensures var r := Dirname(p);
      && r != "" && |r| <= RFind(p, '/') + 1
      && p[..RFind(p, '/') + 1] == r + Repeat('/', RFind(p, '/') + 1 - |r|)
      && (r[|r| - 1] == '/' ==> r == p[..RFind(p, '/') + 1] && r == Repeat('/', |r|))
  {
    var i := RFind(p, '/');
    assert i >= 0 by {
      var w :| 0 <= w < |p| && p[w] == '/';
    }
    var head := p[..i + 1];
    ParentOfHead(head);
    assert Dirname(p) == Parent(head);
    assert |head| == i + 1;
  }

  /** A slice is made of dots exactly when each of its characters is one. */
  lemma DotsOnly(p: string, lo: nat, hi: nat)
    requires lo <= hi <= |p|
    ensures p[lo..hi] == Repeat('.', hi - lo) <==> forall k :: lo <= k < hi ==> p[k] == '.'
  {
    if forall k :: lo <= k < hi ==> p[k] == '.' {
      assert forall i :: 0 <= i < hi - lo ==> p[lo..hi][i] == p[lo + i];
    }
  }

  /** os.path.splitext(p)[0]: p without its last extension. A dot that only
      leads the file name (".bashrc") does not start an extension. */
  function SplitExtRoot(p: string): (root: string)
    ensures |root| <= |p| && root == p[..|root|]
    ensures '.' !in p ==> root == p
  {
    var sep := RFind(p, '/');
    var dot := RFind(p, '.');
    if dot > sep && exists k :: sep + 1 <= k < dot && p[k] != '.' then p[..dot] else p
  }

  /** When splitext cuts something off, it cuts from the last '.' on; that
      '.' lies in the file name (after the last '/'), and the name before it
      is not made of dots only. */
  lemma SplitExtRootDropsExtension(p: string)
    ensures var root := SplitExtRoot(p);
      root != p ==> |root| == RFind(p, '.') && RFind(p, '/') < |root|
                    && p[RFind(p, '/') + 1..|root|] != Repeat('.', |root| - RFind(p, '/') - 1)
  {
    var sep := RFind(p, '/');
    var dot := RFind(p, '.');
    if dot > sep && exists k :: sep + 1 <= k < dot && p[k] != '.' {
      var k :| sep + 1 <= k < dot && p[k] != '.';
      DotsOnly(p, sep + 1, dot);
      assert SplitExtRoot(p) == p[..dot];
    } else {
      assert SplitExtRoot(p) == p;
    }
  }

  /** When splitext cuts nothing off, the file name has no '.' after its
      first character other than '.'. */
  lemma SplitExtRootKeepsPlainName(p: string)
    ensures var root := SplitExtRoot(p);
      root == p ==> RFind(p, '.') <= RFind(p, '/')
                    || p[RFind(p, '/') + 1..RFind(p, '.')] == Repeat('.', RFind(p, '.') - RFind(p, '/') - 1)
  {
    var sep := RFind(p, '/');
    var dot := RFind(p, '.');
    if dot > sep {
      if exists k :: sep + 1 <= k < dot && p[k] != '.' {
        assert |SplitExtRoot(p)| == dot < |p|;
      } else {
        DotsOnly(p, sep + 1, dot);
      }
    }
  }

  /** In dir + "/" + name, with no '/' in name, the '/' added is the last one. */
  lemma LastSlashOfJoined(dir: string, name: string)
    requires '/' !in name
    ensures RFind(dir + "/" + name, '/') == |dir|
  {
    var p := dir + "/" + name;
    assert p[|dir|] == '/';
    forall k | |dir| < k < |p|
      ensures p[k] != '/'
    {
      assert p[k] == name[k - |dir| - 1];
    }
    RFindAt(p, '/', |dir|);
  }

  /** Joining a file name onto a directory is undone by basename and
      dirname, when the directory does not end in '/' and the name has
      no '/'. */
  lemma SplitJoined(dir: string, name: string)
    requires dir != "" && dir[|dir| - 1] != '/'
    requires '/' !in name && name != ""
    ensures Join(dir, name) == dir + "/" + name
    ensures Basename(dir + "/" + name) == name
    ensures Dirname(dir + "/" + name) == dir
  {
    var p := dir + "/" + name;
    LastSlashOfJoined(dir, name);
    assert p[|dir| + 1..] == name;
    var head := p[..|dir| + 1];
    assert head == dir + "/";
    assert head[..|head| - 1] == dir;
    assert head[|dir| - 1] != '/';
  }
}

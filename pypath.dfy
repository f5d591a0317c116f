/**
 * The few pieces of Python's `str` and `os.path` (POSIX flavour) that the
 * profiling scripts rely on, written out so that their results can be
 * reasoned about.
 */
module PyPath {
  predicate EndsWith(s: string, suffix: string)
  {
    |suffix| <= |s| && s[|s| - |suffix|..] == suffix
  }

  predicate NoChar(s: string, c: char)
  {
    forall j :: 0 <= j < |s| ==> s[j] != c
  }

  /** `p.rfind(c) + 1`: the index just past the last `c`, 0 without one. */
  function AfterLast(p: string, c: char): (i: nat)
    ensures i <= |p|
    ensures i > 0 ==> p[i - 1] == c
    ensures forall j :: i <= j < |p| ==> p[j] != c
    decreases |p|
  {
    if p == [] then 0
    else if p[|p| - 1] == c then |p|
    else AfterLast(p[..|p| - 1], c)
  }

  /** Text free of `c` appended after `p` does not move the last `c`. */
  lemma {:induction false} AfterLastAppend(p: string, b: string, c: char)
    requires NoChar(b, c)
    ensures AfterLast(p + b, c) == AfterLast(p, c)
    decreases |b|
  {
    if b != [] {
      var n := |b| - 1;
      assert (p + b)[..|p + b| - 1] == p + b[..n];
      AfterLastAppend(p, b[..n], c);
    } else {
      assert p + b == p;
    }
  }

  function RStripSlashes(s: string): string
    decreases |s|
  {
    if s != [] && s[|s| - 1] == '/' then RStripSlashes(s[..|s| - 1]) else s
  }

  /** `os.path.split(p)`: the head loses its trailing slashes unless it is all slashes. */
  function PathSplit(p: string): (string, string)
  {
    var i := AfterLast(p, '/');
    var head := p[..i];
    (if exists j :: 0 <= j < |head| && head[j] != '/' then RStripSlashes(head) else head, p[i..])
  }

  /** `os.path.join(a, b)`: an absolute `b` replaces `a`; otherwise one slash separates them. */
  function PathJoin(a: string, b: string): string
  {
    if |b| > 0 && b[0] == '/' then b
    else if a == "" || a[|a| - 1] == '/' then a + b
    else a + "/" + b
  }

  /**
   * Splitting a joined path gives back the slash-free last component, and
   * the first one when it is non-empty and does not end in a slash.
   */
  lemma {:induction false} SplitOfJoin(a: string, b: string)
    requires NoChar(b, '/')
    ensures PathSplit(PathJoin(a, b)).1 == b
    ensures a != "" && a[|a| - 1] != '/' ==> PathSplit(PathJoin(a, b)).0 == a
  {
    var p := PathJoin(a, b);
    if a == "" {
      assert p == [] + b;
      AfterLastAppend([], b, '/');
    } else if a[|a| - 1] == '/' {
      assert AfterLast(a, '/') == |a|;
      AfterLastAppend(a, b, '/');
      assert p[|a|..] == b;
    } else {
      var a' := a + "/";
      assert p == a' + b;
      assert AfterLast(a', '/') == |a'|;
      AfterLastAppend(a', b, '/');
      assert p[..|a'|] == a' && p[|a'|..] == b;
      assert a'[|a| - 1] != '/';
      assert a'[..|a'| - 1] == a;
      assert RStripSlashes(a) == a;
      assert RStripSlashes(a') == a;
    }
  }

  /**
   * `os.path.splitext(p)`: the extension runs from the last dot of the last
   * component, unless nothing but dots precedes that dot in the component.
   */
  function SplitExt(p: string): (string, string)
  {
    var sep := AfterLast(p, '/');
    var dot := AfterLast(p, '.');
    if dot > sep && exists j :: sep <= j < dot - 1 && p[j] != '.' then (p[..dot - 1], p[dot - 1..]) else (p, "")
  }

  /**
   * The two parts put together are the path, and the extension is empty or
   * a dot followed by text free of dots and slashes.
   */
  lemma {:induction false} SplitExtParts(p: string)
    ensures SplitExt(p).0 + SplitExt(p).1 == p
    ensures var ext := SplitExt(p).1;
      ext == "" || (ext[0] == '.' && NoChar(ext[1..], '.') && NoChar(ext, '/'))
  {
    var sep := AfterLast(p, '/');
    var dot := AfterLast(p, '.');
    if SplitExt(p).1 != "" {
      assert p[..dot - 1] + p[dot - 1..] == p;
      var ext := p[dot - 1..];
      forall j | 0 <= j < |ext|
        ensures ext[j] != '/' && (j > 0 ==> ext[j] != '.')
      {
        assert ext[j] == p[dot - 1 + j];
      }
    } else {
      assert p + "" == p;
    }
  }

  lemma {:induction false} NoCharConcat(a: string, b: string, c: char)
    requires NoChar(a, c) && NoChar(b, c)
    ensures NoChar(a + b, c)
  {
    forall j | 0 <= j < |a + b|
      ensures (a + b)[j] != c
    {
      if j < |a| { assert (a + b)[j] == a[j]; } else { assert (a + b)[j] == b[j - |a|]; }
    }
  }

  /** The last dot of `root + ext` is the one that starts `ext`. */
  lemma {:induction false} LastDotOf(root: string, ext: string)
    requires |ext| > 0 && ext[0] == '.' && NoChar(ext[1..], '.')
    ensures AfterLast(root + ext, '.') == |root| + 1
  {
    assert root + ext == (root + ['.']) + ext[1..];
    AfterLastAppend(root + ['.'], ext[1..], '.');
  }

  /** A dot-led extension after a component with a non-dot character is split off exactly. */
  lemma {:induction false} SplitExtOf(root: string, ext: string)
    requires NoChar(root, '/') && exists j :: 0 <= j < |root| && root[j] != '.'
    requires |ext| > 0 && ext[0] == '.' && NoChar(ext[1..], '.') && NoChar(ext, '/')
    ensures SplitExt(root + ext) == (root, ext)
  {
    var p := root + ext;
    LastDotOf(root, ext);
    NoCharConcat(root, ext, '/');
    AfterLastAppend([], p, '/');
    assert [] + p == p;
    var j :| 0 <= j < |root| && root[j] != '.';
    assert p[j] == root[j];
    assert p[..|root|] == root && p[|root|..] == ext;
  }
}

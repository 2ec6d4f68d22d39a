/** The parts of Python's `os.path` (POSIX flavour) that the tileset and model code use. */
module PosixPath {
  import opened Strings

  predicate AllSlashes(s: string) {
    forall k :: 0 <= k < |s| ==> s[k] == '/'
  }

  /** `s.rstrip('/')`. */
  function RStripSlashes(s: string): (r: string)
    ensures |r| <= |s| && r == s[..|r|]
    ensures r == [] || r[|r| - 1] != '/'
    ensures forall k :: |r| <= k < |s| ==> s[k] == '/'
  {
    if s != [] && s[|s| - 1] == '/' then RStripSlashes(s[..|s| - 1]) else s
  }

  /**
   * `os.path.split(p)`: the tail is everything after the last slash; the head is
   * everything before it, with its trailing slashes removed unless it is only slashes.
   */
  function Split(p: string): (r: (string, string))
    ensures '/' !in r.1 && EndsWith(p, r.1)
    ensures |r.1| == |p| || p[|p| - |r.1| - 1] == '/'
    ensures StartsWith(p, r.0) && |r.0| + |r.1| <= |p| && AllSlashes(p[|r.0|..|p| - |r.1|])
    ensures r.0 == [] || r.0[|r.0| - 1] != '/' || AllSlashes(r.0)
    ensures AllSlashes(r.0) ==> |r.0| + |r.1| == |p|
  {
    var i := LastIndexOf(p, '/') + 1;
    var head := p[..i];
    (if head != [] && !AllSlashes(head) then RStripSlashes(head) else head, p[i..])
  }

  /** `os.path.basename(p)`. */
  function Basename(p: string): (r: string)
    ensures '/' !in r && EndsWith(p, r)
    ensures |r| == |p| || p[|p| - |r| - 1] == '/'
  {
    Split(p).1
  }

  /** There is a character other than '.' in `p[lo..hi]`. */
  predicate HasNonDot(p: string, lo: int, hi: int)
    requires 0 <= lo <= hi <= |p|
  {
    exists k :: lo <= k < hi && p[k] != '.'
  }

  /**
   * `os.path.splitext(p)`: the extension starts at the last '.' of the final
   * path component, unless every character before that dot in the component is a dot.
   */
  function Splitext(p: string): (r: (string, string))
    ensures r.0 + r.1 == p
    ensures r.1 == [] || (r.1[0] == '.' && '/' !in r.1 && '.' !in r.1[1..])
    ensures r.1 != [] ==> LastIndexOf(p, '/') < |r.0| && HasNonDot(p, LastIndexOf(p, '/') + 1, |r.0|)
    ensures r.1 == [] && LastIndexOf(p, '.') > LastIndexOf(p, '/') ==>
      !HasNonDot(p, LastIndexOf(p, '/') + 1, LastIndexOf(p, '.'))
  {
    var sep := LastIndexOf(p, '/');
    var dot := LastIndexOf(p, '.');
    if dot > sep && HasNonDot(p, sep + 1, dot) then (p[..dot], p[dot..]) else (p, [])
  }

  /** `os.path.join(a, b)` for two components. */
  function Join(a: string, b: string): (r: string)
    ensures EndsWith(r, b)
    ensures StartsWith(b, "/") ==> r == b
    ensures !StartsWith(b, "/") ==> r == if a == [] || a[|a| - 1] == '/' then a + b else a + "/" + b
  {
    assert a != [] ==> (EndsWith(a, "/") <==> a[|a| - 1] == '/') by {
      if a != [] {
        assert a[|a| - 1..] == [a[|a| - 1]];
      }
    }
    if StartsWith(b, "/") then b
    else if a == [] || EndsWith(a, "/") then a + b
    else a + "/" + b
  }

  /** Last occurrences in a suffix of `p` are those of `p`, shifted. */
  lemma LastIndexOfDrop(p: string, i: nat, c: char)
    requires i <= |p|
    ensures LastIndexOf(p[i..], c) == if LastIndexOf(p, c) >= i then LastIndexOf(p, c) - i else -1
  {
    var t := p[i..];
    var q := LastIndexOf(p, c);
    assert forall k :: 0 <= k < |t| ==> t[k] == p[k + i];
    LastIndexOfUnique(t, c, if q >= i then q - i else -1);
  }

  lemma HasNonDotDrop(p: string, i: nat, lo: nat, hi: nat)
    requires i + hi <= |p| && lo <= hi
    ensures HasNonDot(p[i..], lo, hi) <==> HasNonDot(p, lo + i, hi + i)
  {
    var t := p[i..];
    if HasNonDot(t, lo, hi) {
      var k :| lo <= k < hi && t[k] != '.';
      assert p[k + i] == t[k];
    }
    if HasNonDot(p, lo + i, hi + i) {
      var k :| lo + i <= k < hi + i && p[k] != '.';
      assert t[k - i] == p[k];
    }
  }

  /** The extension of a path is the extension of its final component. */
  lemma SplitextOfTail(p: string, i: nat)
    requires i == LastIndexOf(p, '/') + 1
    ensures Splitext(p).0 == p[..i] + Splitext(p[i..]).0
    ensures Splitext(p).1 == Splitext(p[i..]).1
  {
    var dot := LastIndexOf(p, '.');
    LastIndexOfDrop(p, i, '/');
    LastIndexOfDrop(p, i, '.');
    if dot >= i && HasNonDot(p, i, dot) {
      SplitextOfTailCut(p, i, dot);
      SliceSplit(p, i, dot);
    } else {
      SplitextOfTailWhole(p, i);
      SliceSplit(p, i, i);
    }
  }

  /** Both splits cut at the same dot when the final component has an extension. */
  lemma SplitextOfTailCut(p: string, i: nat, dot: nat)
    requires i <= dot < |p|
    requires LastIndexOf(p, '/') + 1 == i && LastIndexOf(p, '.') == dot
    requires LastIndexOf(p[i..], '/') == -1 && LastIndexOf(p[i..], '.') == dot - i
    requires HasNonDot(p, i, dot)
    ensures Splitext(p) == (p[..dot], p[dot..])
    ensures Splitext(p[i..]) == (p[i..][..dot - i], p[i..][dot - i..])
  {
    HasNonDotDrop(p, i, 0, dot - i);
  }

  /** Neither split cuts when the final component has no extension. */
  lemma SplitextOfTailWhole(p: string, i: nat)
    requires i == LastIndexOf(p, '/') + 1
    requires LastIndexOf(p[i..], '/') == -1
    requires LastIndexOf(p[i..], '.') == if LastIndexOf(p, '.') >= i then LastIndexOf(p, '.') - i else -1
    requires !(LastIndexOf(p, '.') >= i && HasNonDot(p, i, LastIndexOf(p, '.')))
    ensures Splitext(p) == (p, []) && Splitext(p[i..]) == (p[i..], [])
  {
    var dot := LastIndexOf(p, '.');
    if dot >= i {
      HasNonDotDrop(p, i, 0, dot - i);
    }
  }

  /**
   * The path is not of the form ".../x//name": its last slash, if any, is the first
   * character or follows a character other than a slash.
   */
  predicate SingleSeparator(p: string) {
    var k := LastIndexOf(p, '/');
    k < 1 || p[k - 1] != '/'
  }

  /**
   * Joining the directory of `p` with the stem of its file name and a suffix gives
   * the stem of the whole path and the suffix.
   */
  lemma JoinSplitStem(p: string, suffix: string)
    requires SingleSeparator(p)
    requires !StartsWith(suffix, "/")
    ensures Join(Split(p).0, Splitext(Split(p).1).0 + suffix) == Splitext(p).0 + suffix
  {
    var i := LastIndexOf(p, '/') + 1;
    var t := p[i..];
    var d, b := p[..i], Splitext(t).0;
    assert Split(p).1 == t;
    assert Splitext(p).0 == d + b by {
      SplitextOfTail(p, i);
    }
    assert Join(Split(p).0, b + suffix) == d + (b + suffix) by {
      NoLeadingSlash(t, suffix);
      JoinDirectory(p, b + suffix);
    }
    AppendAssociative(d, b, suffix);
  }

  /** A stem of a component without slashes followed by such a suffix does not start with a slash. */
  lemma NoLeadingSlash(t: string, suffix: string)
    requires '/' !in t && !StartsWith(suffix, "/")
    ensures !StartsWith(Splitext(t).0 + suffix, "/")
  {
    var x := Splitext(t).0 + suffix;
    if Splitext(t).0 != [] {
      assert x[0] == t[0];
      assert t[0] in t;
      assert x[..1][0] == x[0];
    } else {
      assert x == suffix;
    }
  }

  /** Under `SingleSeparator`, the head of `p` is what precedes its last slash (or "/"). */
  lemma SplitHead(p: string)
    requires SingleSeparator(p)
    ensures LastIndexOf(p, '/') == -1 ==> Split(p).0 == []
    ensures LastIndexOf(p, '/') == 0 ==> Split(p).0 == "/"
    ensures LastIndexOf(p, '/') > 0 ==> Split(p).0 == p[..LastIndexOf(p, '/')]
  {
    var k := LastIndexOf(p, '/');
    if k == -1 {
      assert p[..0] == [];
    } else if k == 0 {
      SplitHeadRoot(p);
    } else if k > 0 {
      SplitHeadInner(p, k);
    }
  }

  /** A last slash at the start leaves the root as the head. */
  lemma SplitHeadRoot(p: string)
    requires LastIndexOf(p, '/') == 0
    ensures Split(p).0 == "/"
  {
    SliceSnoc(p, 0);
  }

  /** A last slash after a non-slash leaves everything before it as the head. */
  lemma SplitHeadInner(p: string, k: nat)
    requires k == LastIndexOf(p, '/') && k > 0 && p[k - 1] != '/'
    ensures Split(p).0 == p[..k]
  {
    var head := p[..k + 1];
    assert head[k - 1] != '/';
    PrefixOfPrefix(p, k, k + 1);
    assert RStripSlashes(p[..k]) == p[..k] by {
      assert p[..k][k - 1] == p[k - 1];
    }
  }

  /** Joining the head of `p` with a relative name puts the name right after `p`'s last slash. */
  lemma JoinDirectory(p: string, x: string)
    requires SingleSeparator(p) && !StartsWith(x, "/")
    ensures Join(Split(p).0, x) == p[..LastIndexOf(p, '/') + 1] + x
  {
    var k := LastIndexOf(p, '/');
    SplitHead(p);
    if k == -1 {
      assert p[..0] == [];
    } else if k == 0 {
      JoinAfterRoot(p, x);
    } else {
      JoinAfterInner(p, k, x);
    }
  }

  /** A last slash at the start: the head is the root, and the name follows it. */
  lemma JoinAfterRoot(p: string, x: string)
    requires LastIndexOf(p, '/') == 0 && Split(p).0 == "/" && !StartsWith(x, "/")
    ensures Join(Split(p).0, x) == p[..1] + x
  {
    assert p[..1] == "/";
  }

  /** A last slash inside the path: the head is what precedes it, and `join` puts the slash back. */
  lemma JoinAfterInner(p: string, k: nat, x: string)
    requires 0 < k == LastIndexOf(p, '/') && Split(p).0 == p[..k] && p[k - 1] != '/' && !StartsWith(x, "/")
    ensures Join(Split(p).0, x) == p[..k + 1] + x
  {
    var h := p[..k];
    assert h[|h| - 1] != '/';
    assert Join(h, x) == h + "/" + x;
    SliceSnoc(p, k);
  }
}

/**
 * `PlaylistSync._clean_filename`: a track title turned into the text that is
 * matched against file names. The forbidden characters are deleted, every
 * run of whitespace becomes one space, and the ends are stripped.
 */
module Clean {
  import opened Text

  /** The class `[<>:"/\\|?*]` of the first substitution. */
  const Forbidden: set<char> := {'<', '>', ':', '"', '/', '\\', '|', '?', '*'}

  predicate NoForbidden(s: string) {
    forall i :: 0 <= i < |s| ==> s[i] !in Forbidden
  }

  /** Every whitespace character is a plain space, and no two whitespace characters are adjacent. */
  predicate SpacesNormal(s: string) {
    (forall i :: 0 <= i < |s| && IsSpace(s[i]) ==> s[i] == ' ') &&
    (forall i :: 0 <= i < |s| - 1 ==> !(IsSpace(s[i]) && IsSpace(s[i + 1])))
  }

  predicate Trimmed(s: string) {
    s == [] || (!IsSpace(s[0]) && !IsSpace(s[|s| - 1]))
  }

  /** `re.sub(r'[<>:"/\\|?*]', '', s)`. */
  function RemoveForbidden(s: string): (r: string)
    ensures NoForbidden(r)
    ensures |r| <= |s|
    ensures |s| == 1 ==> r == (if s[0] in Forbidden then [] else s)
  {
    if s == [] then []
    else (if s[0] in Forbidden then [] else [s[0]]) + RemoveForbidden(s[1..])
  }

  /** The number of whitespace characters `s` starts with. */
  function LeadingSpaces(s: string): (n: nat)
    ensures n <= |s|
    ensures forall k :: 0 <= k < n ==> IsSpace(s[k])
    ensures n == |s| || !IsSpace(s[n])
  {
    if s != [] && IsSpace(s[0]) then 1 + LeadingSpaces(s[1..]) else 0
  }

  /** The number of whitespace characters `s` ends with. */
  function TrailingSpaces(s: string): (n: nat)
    ensures n <= |s|
    ensures forall k :: |s| - n <= k < |s| ==> IsSpace(s[k])
    ensures n == |s| || !IsSpace(s[|s| - 1 - n])
  {
    if s != [] && IsSpace(s[|s| - 1]) then 1 + TrailingSpaces(s[..|s| - 1]) else 0
  }

  /** `re.sub(r'\s+', ' ', s)`: each maximal run of whitespace becomes one space. */
  function CollapseSpaces(s: string): (r: string)
    ensures |r| <= |s|
    ensures r == [] <==> s == []
    ensures s != [] && !IsSpace(s[0]) ==> r[0] == s[0]
    ensures s != [] && IsSpace(s[0]) ==> r[0] == ' '
    decreases |s|
  {
    if s == [] then []
    else if IsSpace(s[0]) then
      var rest := s[1..][LeadingSpaces(s[1..])..];
      [' '] + CollapseSpaces(rest)
    else [s[0]] + CollapseSpaces(s[1..])
  }

  /**
   * `str.strip()`: whitespace removed from both ends. The result is the slice
   * of `s` after its leading whitespace, everything after it is whitespace,
   * and it neither starts nor ends with whitespace.
   */
  function Strip(s: string): (r: string)
    ensures Trimmed(r)
    ensures LeadingSpaces(s) + |r| <= |s| && r == s[LeadingSpaces(s)..LeadingSpaces(s) + |r|]
    ensures forall k :: LeadingSpaces(s) + |r| <= k < |s| ==> IsSpace(s[k])
  {
    var n := LeadingSpaces(s);
    if n == |s| then []
    else
      assert !IsSpace(s[n]);
      s[n..|s| - TrailingSpaces(s)]
  }

  /** The non-whitespace characters of `s`, in order. */
  function NonSpace(s: string): string {
    if s == [] then []
    else (if IsSpace(s[0]) then [] else [s[0]]) + NonSpace(s[1..])
  }

  /** `_clean_filename`. */
  function CleanFilename(title: string): string {
    Strip(CollapseSpaces(RemoveForbidden(title)))
  }

  // ---------------------------------------------------------------------------
  // Properties

  /** Collapsing adds no character other than a space. */
  lemma {:induction false} CollapseKeepsAllowed(s: string)
    requires NoForbidden(s)
    ensures NoForbidden(CollapseSpaces(s))
    decreases |s|
  {
    if s != [] {
      if IsSpace(s[0]) {
        var rest := s[1..][LeadingSpaces(s[1..])..];
        assert NoForbidden(rest) by {
          forall k | 0 <= k < |rest| ensures rest[k] !in Forbidden {
            assert rest[k] == s[1 + LeadingSpaces(s[1..]) + k];
          }
        }
        CollapseKeepsAllowed(rest);
        assert CollapseSpaces(s) == [' '] + CollapseSpaces(rest);
      } else {
        CollapseKeepsAllowed(s[1..]);
        assert CollapseSpaces(s) == [s[0]] + CollapseSpaces(s[1..]);
      }
    }
  }

  /** After collapsing, every whitespace character is a single plain space. */
  lemma {:induction false} CollapseSpacesNormal(s: string)
    ensures SpacesNormal(CollapseSpaces(s))
    decreases |s|
  {
    if s != [] {
      var r := CollapseSpaces(s);
      if IsSpace(s[0]) {
        var rest := s[1..][LeadingSpaces(s[1..])..];
        CollapseSpacesNormal(rest);
        var tail := CollapseSpaces(rest);
        assert r == [' '] + tail;
        assert tail != [] ==> !IsSpace(tail[0]);
      } else {
        CollapseSpacesNormal(s[1..]);
        assert r == [s[0]] + CollapseSpaces(s[1..]);
      }
    }
  }

  /** A slice keeps every property that holds character by character or pair by pair. */
  lemma SliceKeeps(s: string, a: nat, b: nat)
    requires a <= b <= |s|
    ensures NoForbidden(s) ==> NoForbidden(s[a..b])
    ensures SpacesNormal(s) ==> SpacesNormal(s[a..b])
  {
    var t := s[a..b];
    forall i | 0 <= i < |t| ensures t[i] == s[a + i] {
    }
  }

  /** What `_clean_filename` promises: no forbidden character, single plain spaces, nothing to strip. */
  lemma CleanFilenameShape(title: string)
    ensures NoForbidden(CleanFilename(title))
    ensures SpacesNormal(CleanFilename(title))
    ensures Trimmed(CleanFilename(title))
  {
    var c := CollapseSpaces(RemoveForbidden(title));
    CollapseKeepsAllowed(RemoveForbidden(title));
    CollapseSpacesNormal(RemoveForbidden(title));
    if LeadingSpaces(c) < |c| {
      SliceKeeps(c, LeadingSpaces(c), |c| - TrailingSpaces(c));
    }
  }

  /** The deletion works character by character: the kept characters stay in their order. */
  lemma {:induction false} RemoveForbiddenAppend(a: string, b: string)
    ensures RemoveForbidden(a + b) == RemoveForbidden(a) + RemoveForbidden(b)
  {
    if a == [] {
      assert a + b == b;
    } else {
      DropAppend(a, b, 1);
      RemoveForbiddenAppend(a[1..], b);
    }
  }

  lemma {:induction false} RemoveForbiddenNone(s: string)
    requires NoForbidden(s)
    ensures RemoveForbidden(s) == s
  {
    if s != [] {
      RemoveForbiddenNone(s[1..]);
    }
  }

  /** Text whose spaces are already single plain spaces is left alone by the collapse. */
  lemma {:induction false} CollapseNormal(s: string)
    requires SpacesNormal(s)
    ensures CollapseSpaces(s) == s
    decreases |s|
  {
    if s != [] {
      SliceKeeps(s, 1, |s|);
      if IsSpace(s[0]) {
        assert s[1..] == [] || !IsSpace(s[1]);
        assert LeadingSpaces(s[1..]) == 0;
        assert s[1..][0..] == s[1..];
        CollapseNormal(s[1..]);
        assert s == [' '] + s[1..];
      } else {
        CollapseNormal(s[1..]);
        assert s == [s[0]] + s[1..];
      }
    }
  }

  lemma StripTrimmed(s: string)
    requires Trimmed(s)
    ensures Strip(s) == s
  {
    if s != [] {
      assert LeadingSpaces(s) == 0;
      assert TrailingSpaces(s) == 0;
    }
  }

  /** Every text with the shape `_clean_filename` produces is its own cleaned form. */
  lemma CleanFixedPoint(s: string)
    requires NoForbidden(s) && SpacesNormal(s) && Trimmed(s)
    ensures CleanFilename(s) == s
  {
    RemoveForbiddenNone(s);
    CollapseNormal(s);
    StripTrimmed(s);
  }

  /** Cleaning twice gives what cleaning once gives. */
  lemma CleanIdempotent(title: string)
    ensures CleanFilename(CleanFilename(title)) == CleanFilename(title)
  {
    CleanFilenameShape(title);
    CleanFixedPoint(CleanFilename(title));
  }

  /** Whitespace that does not continue across the seam is collapsed on each side separately. */
  lemma {:induction false} LeadingSpacesAppend(a: string, b: string)
    requires LeadingSpaces(a) < |a| || b == [] || !IsSpace(b[0])
    ensures LeadingSpaces(a + b) == LeadingSpaces(a)
    decreases |a|
  {
    if a == [] {
      assert a + b == b;
    } else if IsSpace(a[0]) {
      DropAppend(a, b, 1);
      LeadingSpacesAppend(a[1..], b);
    }
  }

  /**
   * Two texts whose seam is not inside a run of whitespace collapse
   * independently. Together with `CollapseRun` and the single-character case
   * of `CollapseSpaces`, this fixes the collapse of every text, run by run.
   */
  lemma {:induction false} CollapseSplit(a: string, b: string)
    requires a == [] || b == [] || !IsSpace(a[|a| - 1]) || !IsSpace(b[0])
    ensures CollapseSpaces(a + b) == CollapseSpaces(a) + CollapseSpaces(b)
    decreases |a|, 2
  {
    if a == [] {
      assert a + b == b;
    } else if b == [] {
      assert a + b == a;
    } else if !IsSpace(a[0]) {
      CollapseSplitAtChar(a, b);
    } else {
      CollapseSplitAtSpace(a, b);
    }
  }

  /** `CollapseSplit` when `a` starts with a character other than whitespace. */
  lemma {:induction false} CollapseSplitAtChar(a: string, b: string)
    requires a != [] && b != [] && !IsSpace(a[0])
    requires !IsSpace(a[|a| - 1]) || !IsSpace(b[0])
    ensures CollapseSpaces(a + b) == CollapseSpaces(a) + CollapseSpaces(b)
    decreases |a|, 1
  {
    var a1 := a[1..];
    assert (a + b)[0] == a[0];
    DropAppend(a, b, 1);
    assert a1 == [] || a1[|a1| - 1] == a[|a| - 1];
    CollapseSplit(a1, b);
    CollapseAtChar(a + b);
    CollapseAtChar(a);
  }

  /** One step of the collapse on a text that starts with a character other than whitespace. */
  lemma CollapseAtChar(s: string)
    requires s != [] && !IsSpace(s[0])
    ensures CollapseSpaces(s) == [s[0]] + CollapseSpaces(s[1..])
  {
  }

  /** `CollapseSplit` when `a` starts with whitespace. */
  lemma {:induction false} CollapseSplitAtSpace(a: string, b: string)
    requires a != [] && b != [] && IsSpace(a[0])
    requires !IsSpace(a[|a| - 1]) || !IsSpace(b[0])
    ensures CollapseSpaces(a + b) == CollapseSpaces(a) + CollapseSpaces(b)
    decreases |a|, 1
  {
    var tail := a[1..][LeadingSpaces(a[1..])..];
    CollapseStep(a, tail);
    CollapseStepAcross(a, b);
    if tail != [] {
      assert tail[|tail| - 1] == a[|a| - 1];
    }
    CollapseSplit(tail, b);
    AppendAssoc([' '], CollapseSpaces(tail), CollapseSpaces(b));
  }

  /** The first step of the collapse of `a + b` swallows only the leading run of `a`. */
  lemma CollapseStepAcross(a: string, b: string)
    requires a != [] && b != [] && IsSpace(a[0])
    requires !IsSpace(a[|a| - 1]) || !IsSpace(b[0])
    ensures CollapseSpaces(a + b) == [' '] + CollapseSpaces(a[1..][LeadingSpaces(a[1..])..] + b)
  {
    var a1 := a[1..];
    var n := LeadingSpaces(a1);
    if n == |a1| {
      assert IsSpace(a[|a| - 1]) by {
        if a1 != [] {
          assert a[|a| - 1] == a1[|a1| - 1];
        }
      }
    }
    LeadingSpacesAppend(a1, b);
    DropAppend(a, b, 1);
    DropAppend(a1, b, n);
    assert (a + b)[0] == a[0];
    CollapseStep(a + b, a1[n..] + b);
  }

  /** One step of the collapse on a text `s` that starts with whitespace, whose leading run is followed by `rest`. */
  lemma CollapseStep(s: string, rest: string)
    requires s != [] && IsSpace(s[0])
    requires rest == s[1..][LeadingSpaces(s[1..])..]
    ensures CollapseSpaces(s) == [' '] + CollapseSpaces(rest)
  {
  }

  /** A run of whitespace, however long and of whichever kind, becomes one plain space. */
  lemma CollapseRun(w: string)
    requires w != [] && forall k :: 0 <= k < |w| ==> IsSpace(w[k])
    ensures CollapseSpaces(w) == " "
  {
    assert LeadingSpaces(w[1..]) == |w| - 1;
    assert w[1..][|w| - 1..] == [];
  }

  lemma {:induction false} NonSpaceAppend(a: string, b: string)
    ensures NonSpace(a + b) == NonSpace(a) + NonSpace(b)
  {
    if a == [] {
      assert a + b == b;
    } else {
      DropAppend(a, b, 1);
      assert (a + b)[0] == a[0];
      NonSpaceAppend(a[1..], b);
      AppendAssoc(if IsSpace(a[0]) then [] else [a[0]], NonSpace(a[1..]), NonSpace(b));
    }
  }

  /** One character in front of a text. */
  lemma NonSpaceCons(c: char, x: string)
    ensures NonSpace([c] + x) == (if IsSpace(c) then [] else [c]) + NonSpace(x)
  {
    DropAppend([c], x, 1);
    assert [c][1..] + x == x;
  }

  lemma {:induction false} NonSpaceOfSpaces(s: string)
    requires forall k :: 0 <= k < |s| ==> IsSpace(s[k])
    ensures NonSpace(s) == []
  {
    if s != [] {
      NonSpaceOfSpaces(s[1..]);
    }
  }

  /** Collapsing changes only whitespace: the other characters stay, in their order. */
  lemma {:induction false} NonSpaceCollapse(s: string)
    ensures NonSpace(CollapseSpaces(s)) == NonSpace(s)
    decreases |s|
  {
    if s != [] {
      if IsSpace(s[0]) {
        var n := LeadingSpaces(s[1..]);
        var rest := s[1..][n..];
        SplitAt(s[1..], n);
        NonSpaceAppend(s[1..][..n], rest);
        NonSpaceOfSpaces(s[1..][..n]);
        CollapseStep(s, rest);
        NonSpaceCons(' ', CollapseSpaces(rest));
        NonSpaceCollapse(rest);
      } else {
        CollapseAtChar(s);
        NonSpaceCons(s[0], CollapseSpaces(s[1..]));
        NonSpaceCollapse(s[1..]);
      }
    }
  }

  /** Only the middle of a text whose two ends are all whitespace has non-whitespace characters. */
  lemma NonSpaceMiddle(s: string, i: nat, j: nat)
    requires i <= j <= |s|
    requires forall k :: 0 <= k < i ==> IsSpace(s[k])
    requires forall k :: j <= k < |s| ==> IsSpace(s[k])
    ensures NonSpace(s) == NonSpace(s[i..j])
  {
    NonSpaceAfterSpaces(s[..j], i);
    NonSpaceBeforeSpaces(s, j);
    assert s[..j][i..] == s[i..j];
  }

  lemma {:induction false} NonSpaceAfterSpaces(s: string, i: nat)
    requires i <= |s|
    requires forall k :: 0 <= k < i ==> IsSpace(s[k])
    ensures NonSpace(s) == NonSpace(s[i..])
    decreases i
  {
    if i > 0 {
      NonSpaceAfterSpaces(s[1..], i - 1);
      assert s[1..][i - 1..] == s[i..];
    }
  }

  lemma NonSpaceBeforeSpaces(s: string, j: nat)
    requires j <= |s|
    requires forall k :: j <= k < |s| ==> IsSpace(s[k])
    ensures NonSpace(s) == NonSpace(s[..j])
  {
    SplitAt(s, j);
    NonSpaceAppend(s[..j], s[j..]);
    NonSpaceOfSpaces(s[j..]);
  }

  /** Stripping removes only whitespace. */
  lemma NonSpaceStrip(s: string)
    ensures NonSpace(Strip(s)) == NonSpace(s)
  {
    var r := Strip(s);
    NonSpaceMiddle(s, LeadingSpaces(s), LeadingSpaces(s) + |r|);
  }

  /** `_clean_filename` keeps every non-whitespace character the substitution keeps, in order. */
  lemma CleanKeepsText(title: string)
    ensures NonSpace(CleanFilename(title)) == NonSpace(RemoveForbidden(title))
  {
    NonSpaceCollapse(RemoveForbidden(title));
    NonSpaceStrip(CollapseSpaces(RemoveForbidden(title)));
  }
}

/**
 * The PDF text endpoint of `src/app/api/extract-pdf/route.js`: the text
 * cleanup `formatExtractedText` (three whole-string replacements), the
 * assembly of page text from `(y, text)` fragments that the reader's
 * callback pushes into the `lines` dictionary, and the status of each
 * answer of `POST`.
 *
 * The PDF reader is an event source: the model receives the sequence of
 * callbacks it would make. `y` positions are integers.
 */
module ExtractPdf {
  import opened Wrappers
  import opened Strings

  // ---------------------------------------------------------------------
  // Step 1: `text.replace(/ +/g, " ")`

  predicate NoDoubleSpace(s: string) {
    forall i :: 0 <= i < |s| - 1 ==> !(s[i] == ' ' && s[i + 1] == ' ')
  }

  /** `s` without its U+0020 characters. */
  function Unspaced(s: string): string {
    if s == [] then [] else (if s[0] == ' ' then [] else [s[0]]) + Unspaced(s[1..])
  }

  /** `s` without its leading U+0020 characters. */
  function DropSpaces(s: string): (r: string)
    ensures |r| <= |s| && r == s[|s| - |r|..]
    ensures forall k :: 0 <= k < |s| - |r| ==> s[k] == ' '
    ensures r == [] || r[0] != ' '
    ensures Unspaced(r) == Unspaced(s)
  {
    if s != [] && s[0] == ' ' then DropSpaces(s[1..]) else s
  }

  /** Every run of spaces becomes one space; nothing else changes. */
  function CollapseSpaces(s: string): (r: string)
    ensures NoDoubleSpace(r)
    ensures Unspaced(r) == Unspaced(s)
    ensures r == [] <==> s == []
    ensures r != [] ==> r[0] == s[0]
    decreases |s|
  {
    if s == [] then []
    else if s[0] == ' ' then
      var rest := CollapseSpaces(DropSpaces(s[1..]));
      assert Unspaced(s) == Unspaced(s[1..]);
      [' '] + rest
    else
      var rest := CollapseSpaces(s[1..]);
      [s[0]] + rest
  }

  /** A string without double spaces is left as it is. */
  lemma {:induction false} CollapseSpacesIdentity(s: string)
    requires NoDoubleSpace(s)
    ensures CollapseSpaces(s) == s
    decreases |s|
  {
    if s != [] {
      assert NoDoubleSpace(s[1..]) by {
        forall i | 0 <= i < |s[1..]| - 1 ensures !(s[1..][i] == ' ' && s[1..][i + 1] == ' ') {
          assert s[1..][i] == s[i + 1] && s[1..][i + 1] == s[i + 2];
        }
      }
      if s[0] == ' ' {
        assert DropSpaces(s[1..]) == s[1..] by {
          if |s| > 1 { assert s[1] != ' '; }
        }
      }
      CollapseSpacesIdentity(s[1..]);
    }
  }

  /** Leading spaces of a string that holds another character end inside it. */
  lemma {:induction false} DropSpacesConcat(a: string, b: string)
    requires a != [] && a[|a| - 1] != ' '
    ensures DropSpaces(a + b) == DropSpaces(a) + b
    ensures DropSpaces(a) != [] && DropSpaces(a)[|DropSpaces(a)| - 1] == a[|a| - 1]
    decreases |a|
  {
    assert (a + b)[0] == a[0];
    if a[0] == ' ' {
      assert (a + b)[1..] == a[1..] + b;
      DropSpacesConcat(a[1..], b);
    }
  }

  /** `n` spaces. */
  function Spaces(n: nat): (r: string)
    ensures |r| == n && forall k :: 0 <= k < n ==> r[k] == ' '
  {
    if n == 0 then [] else [' '] + Spaces(n - 1)
  }

  /** A run of spaces in front of text that starts otherwise is dropped whole. */
  lemma {:induction false} DropSpacesRun(n: nat, y: string)
    requires y == [] || y[0] != ' '
    ensures DropSpaces(Spaces(n) + y) == y
  {
    var w := Spaces(n) + y;
    if n == 0 {
      assert w == y;
    } else {
      assert w[0] == ' ';
      assert w[1..] == Spaces(n - 1) + y;
      DropSpacesRun(n - 1, y);
    }
  }

  /** A leading run of spaces becomes one space. */
  lemma {:induction false} LeadingRun(n: nat, y: string)
    requires y == [] || y[0] != ' '
    requires n >= 1
    ensures CollapseSpaces(Spaces(n) + y) == " " + CollapseSpaces(y)
  {
    var w := Spaces(n) + y;
    assert w[0] == ' ';
    DropSpacesRun(n, y);
    SpaceFirst(w);
  }

  /** A leading space starts one space and the run behind it is dropped. */
  lemma SpaceFirst(w: string)
    requires w != [] && w[0] == ' '
    ensures CollapseSpaces(w) == " " + CollapseSpaces(DropSpaces(w))
  {
  }

  lemma Assoc(a: string, b: string, c: string)
    ensures a + (b + c) == (a + b) + c
  {
  }

  /** Step 1 works piecewise at a character other than a space: no run of
      spaces crosses it. */
  lemma {:induction false} CollapseSpacesConcat(x: string, z: string)
    requires x == [] || x[|x| - 1] != ' '
    ensures CollapseSpaces(x + z) == CollapseSpaces(x) + CollapseSpaces(z)
    decreases |x|
  {
    if x == [] {
      assert x + z == z;
    } else {
      var u := x + z;
      assert u[0] == x[0];
      assert u[1..] == x[1..] + z;
      if x[0] == ' ' {
        var t := x[1..];
        assert t != [] && t[|t| - 1] == x[|x| - 1];
        var d := DropSpaces(t);
        DropSpacesConcat(t, z);
        CollapseSpacesConcat(d, z);
        calc {
          CollapseSpaces(u);
          [' '] + CollapseSpaces(DropSpaces(t + z));
          [' '] + CollapseSpaces(d + z);
          [' '] + (CollapseSpaces(d) + CollapseSpaces(z));
          { Assoc([' '], CollapseSpaces(d), CollapseSpaces(z)); }
          ([' '] + CollapseSpaces(d)) + CollapseSpaces(z);
        }
      } else {
        var t := x[1..];
        CollapseSpacesConcat(t, z);
        calc {
          CollapseSpaces(u);
          [x[0]] + CollapseSpaces(t + z);
          [x[0]] + (CollapseSpaces(t) + CollapseSpaces(z));
          { Assoc([x[0]], CollapseSpaces(t), CollapseSpaces(z)); }
          ([x[0]] + CollapseSpaces(t)) + CollapseSpaces(z);
        }
      }
    }
  }

  /** Step 1 replaces a run of `n >= 1` spaces between two other characters
      by exactly one space and handles the two sides on their own. */
  lemma {:induction false} SpaceRun(x: string, n: nat, y: string)
    requires x == [] || x[|x| - 1] != ' '
    requires y == [] || y[0] != ' '
    requires n >= 1
    ensures CollapseSpaces(x + Spaces(n) + y) == CollapseSpaces(x) + " " + CollapseSpaces(y)
  {
    var w := Spaces(n) + y;
    calc {
      CollapseSpaces(x + Spaces(n) + y);
    == { assert x + Spaces(n) + y == x + w; }
      CollapseSpaces(x + w);
    == { CollapseSpacesConcat(x, w); }
      CollapseSpaces(x) + CollapseSpaces(w);
    == { LeadingRun(n, y); }
      CollapseSpaces(x) + (" " + CollapseSpaces(y));
    == { Assoc(CollapseSpaces(x), " ", CollapseSpaces(y)); }
      CollapseSpaces(x) + " " + CollapseSpaces(y);
    }
  }

  // ---------------------------------------------------------------------
  // Step 2: `text.replace(/\n\s*\n/g, "\n\n")`

  /** The end of the white space run that starts at `i`. */
  function RunEnd(s: string, i: nat): (k: nat)
    requires i <= |s|
    ensures i <= k <= |s|
    ensures AllSpace(s[i..k])
    ensures k == |s| || !IsSpace(s[k])
    decreases |s| - i
  {
    if i < |s| && IsSpace(s[i]) then
      var k := RunEnd(s, i + 1);
      assert s[i..k] == [s[i]] + s[i + 1..k];
      k
    else i
  }

  /** The last newline in `s[lo..hi]`, or `lo - 1` when it has none. */
  function LastNewline(s: string, lo: nat, hi: nat): (j: int)
    requires lo <= hi <= |s|
    ensures lo - 1 <= j < hi
    ensures j >= lo ==> s[j] == '\n'
    ensures forall m :: j < m < hi && lo <= m ==> s[m] != '\n'
    decreases hi - lo
  {
    if hi == lo then lo - 1
    else if s[hi - 1] == '\n' then hi - 1
    else LastNewline(s, lo, hi - 1)
  }

  /** The global replacement scans from the left: at a newline, `\s*` takes
      the whole white space run behind it and gives back up to its last
      newline; a match is replaced and the scan resumes after it. */
  function CollapseBreaks(s: string): (r: string)
    decreases |s|
  {
    if s == [] then []
    else if s[0] == '\n' then
      var j := LastNewline(s, 1, RunEnd(s, 1));
      if j >= 1 then "\n\n" + CollapseBreaks(s[j + 1..]) else [s[0]] + CollapseBreaks(s[1..])
    else [s[0]] + CollapseBreaks(s[1..])
  }

  /** Two newlines with only white space between them are adjacent: every
      white space stretch holds at most the one paragraph break `"\n\n"`. */
  predicate BreaksNormal(t: string) {
    forall i, j :: 0 <= i < j < |t| && t[i] == '\n' && t[j] == '\n' && AllSpace(t[i + 1..j]) ==> j == i + 1
  }

  predicate NoNewline(w: string) {
    forall i :: 0 <= i < |w| ==> w[i] != '\n'
  }

  /** A first character other than a newline is copied. */
  lemma CopiesFirst(u: string)
    requires u != [] && u[0] != '\n'
    ensures CollapseBreaks(u) == [u[0]] + CollapseBreaks(u[1..])
  {
  }

  /** Text without newlines goes through unchanged. */
  lemma {:induction false} PassThrough(w: string, v: string)
    requires NoNewline(w)
    ensures CollapseBreaks(w + v) == w + CollapseBreaks(v)
    decreases |w|
  {
    if w != [] {
      var u := w + v;
      var t := w[1..];
      assert u[0] == w[0] && w[0] != '\n';
      assert u[1..] == t + v;
      assert NoNewline(t) by {
        forall m | 0 <= m < |t| ensures t[m] != '\n' {
          assert t[m] == w[m + 1];
        }
      }
      CopiesFirst(u);
      PassThrough(t, v);
      assert w == [w[0]] + t;
      assert [w[0]] + (t + CollapseBreaks(v)) == w + CollapseBreaks(v);
    } else {
      assert w + v == v;
    }
  }

  lemma StartsUnchanged(v: string)
    requires v != [] && !IsSpace(v[0])
    ensures CollapseBreaks(v) != [] && CollapseBreaks(v)[0] == v[0]
  {
  }

  /** Inside a white space stretch every character is white space. */
  lemma SpaceAt(t: string, i: int, j: int, m: int)
    requires 0 <= i < j <= |t| && AllSpace(t[i + 1..j]) && i < m < j
    ensures IsSpace(t[m])
  {
    assert t[m] == t[i + 1..j][m - i - 1];
  }

  /** A stretch of `p + u` behind the prefix is a stretch of `u`. */
  lemma ShiftStretch(p: string, u: string, i: int, j: int)
    requires |p| <= i < j <= |p| + |u|
    ensures (p + u)[i] == u[i - |p|] && (p + u)[j - 1] == u[j - 1 - |p|]
    ensures AllSpace((p + u)[i + 1..j]) ==> AllSpace(u[i - |p| + 1..j - |p|])
  {
    assert (p + u)[i + 1..j] == u[i - |p| + 1..j - |p|];
  }

  /** Prefixing a character other than a newline keeps the breaks normal. */
  lemma NormalCons(c: char, t: string)
    requires c != '\n' && BreaksNormal(t)
    ensures BreaksNormal([c] + t)
  {
    var u := [c] + t;
    forall i, j | 0 <= i < j < |u| && u[i] == '\n' && u[j] == '\n' && AllSpace(u[i + 1..j])
      ensures j == i + 1
    {
      ShiftStretch([c], t, i, j + 1);
      ShiftStretch([c], t, i, j);
    }
  }

  /** One or two newlines, then white space without newlines, then text
      that does not start with white space: the breaks stay normal. */
  lemma NormalAfterBreak(p: string, w: string, x: string)
    requires p == "\n" || p == "\n\n"
    requires AllSpace(w) && NoNewline(w)
    requires x == [] || !IsSpace(x[0])
    requires BreaksNormal(w + x)
    ensures BreaksNormal(p + (w + x))
  {
    var wx := w + x;
    var t := p + wx;
    forall i, j | 0 <= i < j < |t| && t[i] == '\n' && t[j] == '\n' && AllSpace(t[i + 1..j])
      ensures j == i + 1
    {
      if i >= |p| {
        ShiftStretch(p, wx, i, j + 1);
        ShiftStretch(p, wx, i, j);
      } else if j >= |p| {
        assert t[j] == wx[j - |p|];
        if j - |p| > |w| {
          SpaceAt(t, i, j, |p| + |w|);
        }
      }
    }
  }

  /** The case of a newline that starts a match ending at `j`. */
  lemma BreakMatchNormal(s: string, j: nat, k: nat)
    requires 1 <= j < k <= |s| && AllSpace(s[1..k]) && (k == |s| || !IsSpace(s[k]))
    requires forall m :: j < m < k ==> s[m] != '\n'
    requires BreaksNormal(CollapseBreaks(s[j + 1..]))
    ensures BreaksNormal("\n\n" + CollapseBreaks(s[j + 1..]))
  {
    var w := s[j + 1..k];
    var v := s[k..];
    assert s[j + 1..] == w + v;
    assert AllSpace(w) && NoNewline(w) by {
      forall m | 0 <= m < |w| ensures IsSpace(w[m]) && w[m] != '\n' {
        assert w[m] == s[1..k][j + m] == s[j + 1 + m];
      }
    }
    PassThrough(w, v);
    if v != [] { StartsUnchanged(v); }
    NormalAfterBreak("\n\n", w, CollapseBreaks(v));
  }

  /** The case of a newline whose white space run has no other newline. */
  lemma LoneNewlineNormal(s: string, k: nat)
    requires 1 <= k <= |s| && AllSpace(s[1..k]) && (k == |s| || !IsSpace(s[k]))
    requires forall m :: 1 <= m < k ==> s[m] != '\n'
    requires BreaksNormal(CollapseBreaks(s[1..]))
    ensures BreaksNormal("\n" + CollapseBreaks(s[1..]))
  {
    var w := s[1..k];
    var v := s[k..];
    assert s[1..] == w + v;
    assert NoNewline(w) by {
      forall m | 0 <= m < |w| ensures w[m] != '\n' { assert w[m] == s[1 + m]; }
    }
    PassThrough(w, v);
    if v != [] { StartsUnchanged(v); }
    NormalAfterBreak("\n", w, CollapseBreaks(v));
  }

  /** `RunEnd` is the first index from `i` on that is not white space. */
  lemma RunEndIs(s: string, i: nat, k: nat)
    requires i <= k <= |s| && AllSpace(s[i..k]) && (k == |s| || !IsSpace(s[k]))
    ensures RunEnd(s, i) == k
  {
    var e := RunEnd(s, i);
  }

  /** `LastNewline` is the newline in `s[lo..hi]` after which there is none. */
  lemma LastNewlineIs(s: string, lo: nat, hi: nat, j: int)
    requires lo <= hi <= |s| && lo - 1 <= j < hi
    requires j >= lo ==> s[j] == '\n'
    requires forall m :: j < m < hi && lo <= m ==> s[m] != '\n'
    ensures LastNewline(s, lo, hi) == j
  {
  }

  /** One step of step 2 at a newline, once the run and its last newline
      are known. */
  lemma BreakAt(s: string, k: nat, j: int)
    requires s != [] && s[0] == '\n' && 1 <= k <= |s|
    requires RunEnd(s, 1) == k && LastNewline(s, 1, k) == j
    ensures j >= 1 ==> CollapseBreaks(s) == "\n\n" + CollapseBreaks(s[j + 1..])
    ensures j < 1 ==> CollapseBreaks(s) == [s[0]] + CollapseBreaks(s[1..])
  {
  }

  /** At a newline of `x` whose white space run ends inside `x`, the scan
      of `x + z` finds the same run and the same last newline. */
  lemma PrefixMatch(x: string, z: string)
    requires x != [] && x[0] == '\n' && !IsSpace(x[|x| - 1])
    ensures RunEnd(x, 1) < |x|
    ensures RunEnd(x + z, 1) == RunEnd(x, 1)
    ensures LastNewline(x + z, 1, RunEnd(x, 1)) == LastNewline(x, 1, RunEnd(x, 1))
  {
    var u := x + z;
    var k := RunEnd(x, 1);
    assert k < |x|;
    assert u[1..k] == x[1..k] && u[k] == x[k];
    RunEndIs(u, 1, k);
    var j := LastNewline(x, 1, k);
    forall m | j < m < k && 1 <= m ensures u[m] != '\n' { assert u[m] == x[m]; }
    if j >= 1 { assert u[j] == x[j]; }
    LastNewlineIs(u, 1, k, j);
  }

  lemma SliceConcat(x: string, z: string, m: nat)
    requires m <= |x|
    ensures (x + z)[m..] == x[m..] + z
  {
  }

  /** The first step of step 2 on `x` and on `x + z` emits the same text
      `h` and consumes the same `m` characters of `x`. */
  lemma SharedStep(x: string, z: string) returns (h: string, m: nat)
    requires x != [] && !IsSpace(x[|x| - 1])
    ensures 1 <= m <= |x|
    ensures CollapseBreaks(x) == h + CollapseBreaks(x[m..])
    ensures CollapseBreaks(x + z) == h + CollapseBreaks(x[m..] + z)
  {
    var u := x + z;
    assert u[0] == x[0];
    if x[0] == '\n' {
      var k := RunEnd(x, 1);
      var j := LastNewline(x, 1, k);
      PrefixMatch(x, z);
      BreakAt(u, k, j);
      BreakAt(x, k, j);
      if j >= 1 {
        h, m := "\n\n", j + 1;
      } else {
        h, m := [x[0]], 1;
      }
    } else {
      CopiesFirst(u);
      CopiesFirst(x);
      h, m := [x[0]], 1;
    }
    SliceConcat(x, z, m);
  }

  /** Step 2 works piecewise behind a character other than white space: no
      match crosses it. */
  lemma {:induction false} CollapseBreaksConcat(x: string, z: string)
    requires x == [] || !IsSpace(x[|x| - 1])
    ensures CollapseBreaks(x + z) == CollapseBreaks(x) + CollapseBreaks(z)
    decreases |x|
  {
    if x == [] {
      assert x + z == z;
    } else {
      var h, m := SharedStep(x, z);
      var t := x[m..];
      assert t == [] || t[|t| - 1] == x[|x| - 1];
      CollapseBreaksConcat(t, z);
      Assoc(h, CollapseBreaks(t), CollapseBreaks(z));
    }
  }

  /** A leading stretch from a newline to a newline becomes `"\n\n"`. */
  lemma LeadingStretch(u: string, y: string)
    requires AllSpace(u)
    requires y == [] || !IsSpace(y[0])
    ensures CollapseBreaks("\n" + u + "\n" + y) == "\n\n" + CollapseBreaks(y)
  {
    var w := "\n" + u + "\n" + y;
    var k := |u| + 2;
    assert w[0] == '\n';
    assert w[1..k] == u + "\n";
    assert k == |w| || w[k] == y[0];
    RunEndIs(w, 1, k);
    assert w[k - 1] == '\n';
    LastNewlineIs(w, 1, k, k - 1);
    BreakAt(w, k, k - 1);
    assert w[k..] == y;
  }

  /** Step 2 at one stretch: white space from a newline to a newline, between
      two characters that are not white space, becomes exactly `"\n\n"`. */
  lemma BreakStretch(x: string, u: string, y: string)
    requires x == [] || !IsSpace(x[|x| - 1])
    requires AllSpace(u)
    requires y == [] || !IsSpace(y[0])
    ensures CollapseBreaks(x + "\n" + u + "\n" + y) == CollapseBreaks(x) + "\n\n" + CollapseBreaks(y)
  {
    var w := "\n" + u + "\n" + y;
    assert x + "\n" + u + "\n" + y == x + w;
    CollapseBreaksConcat(x, w);
    LeadingStretch(u, y);
    Assoc(CollapseBreaks(x), "\n\n", CollapseBreaks(y));
  }

  /** In text with normal breaks, a newline's stretch ends at the very next
      newline, if it holds one. */
  lemma NormalHeadBreak(s: string)
    requires BreaksNormal(s) && s != [] && s[0] == '\n'
    ensures var j := LastNewline(s, 1, RunEnd(s, 1)); j >= 1 ==> j == 1
  {
    var k := RunEnd(s, 1);
    var j := LastNewline(s, 1, k);
    if j >= 1 {
      assert AllSpace(s[1..j]) by {
        forall m | 0 <= m < j - 1 ensures IsSpace(s[1..j][m]) { assert s[1..j][m] == s[1..k][m]; }
      }
    }
  }

  /** Text whose breaks are already normal goes through step 2 unchanged. */
  lemma {:induction false} CollapseBreaksIdentity(s: string)
    requires BreaksNormal(s)
    ensures CollapseBreaks(s) == s
    decreases |s|
  {
    if s != [] {
      NormalSlice(s, 1, s[1..]);
      if s[0] == '\n' {
        NormalHeadBreak(s);
        var j := LastNewline(s, 1, RunEnd(s, 1));
        if j >= 1 {
          NormalSlice(s, 2, s[2..]);
          CollapseBreaksIdentity(s[2..]);
          assert s == "\n\n" + s[2..];
        } else {
          CollapseBreaksIdentity(s[1..]);
          assert s == [s[0]] + s[1..];
        }
      } else {
        CollapseBreaksIdentity(s[1..]);
        assert s == [s[0]] + s[1..];
      }
    }
  }

  /** The result of step 2 has normal breaks. */
  lemma {:induction false} CollapseBreaksNormal(s: string)
    ensures BreaksNormal(CollapseBreaks(s))
    decreases |s|
  {
    if s == [] {
    } else if s[0] == '\n' {
      var k := RunEnd(s, 1);
      var j := LastNewline(s, 1, k);
      if j >= 1 {
        CollapseBreaksNormal(s[j + 1..]);
        BreakMatchNormal(s, j, k);
      } else {
        CollapseBreaksNormal(s[1..]);
        LoneNewlineNormal(s, k);
        assert CollapseBreaks(s) == "\n" + CollapseBreaks(s[1..]);
      }
    } else {
      CollapseBreaksNormal(s[1..]);
      NormalCons(s[0], CollapseBreaks(s[1..]));
    }
  }

  // ---------------------------------------------------------------------
  // What the cleanup keeps

  /** `s` without any white space: the text the cleanup must not change. */
  function Visible(s: string): string {
    if s == [] then [] else (if IsSpace(s[0]) then [] else [s[0]]) + Visible(s[1..])
  }

  lemma {:induction false} VisibleConcat(a: string, b: string)
    ensures Visible(a + b) == Visible(a) + Visible(b)
    decreases |a|
  {
    if a != [] {
      assert (a + b)[0] == a[0];
      assert (a + b)[1..] == a[1..] + b;
      VisibleConcat(a[1..], b);
    } else {
      assert a + b == b;
    }
  }

  lemma {:induction false} VisibleOfSpace(w: string)
    requires AllSpace(w)
    ensures Visible(w) == []
    decreases |w|
  {
    if w != [] { VisibleOfSpace(w[1..]); }
  }

  lemma {:induction false} VisibleUnspaced(s: string)
    ensures Visible(Unspaced(s)) == Visible(s)
    decreases |s|
  {
    if s != [] {
      VisibleUnspaced(s[1..]);
      VisibleConcat(if s[0] == ' ' then [] else [s[0]], Unspaced(s[1..]));
    }
  }

  lemma {:induction false} CollapseBreaksVisible(s: string)
    ensures Visible(CollapseBreaks(s)) == Visible(s)
    decreases |s|
  {
    if s != [] {
      if s[0] == '\n' {
        var j := LastNewline(s, 1, RunEnd(s, 1));
        if j >= 1 {
          var k := RunEnd(s, 1);
          assert s == s[..j + 1] + s[j + 1..];
          assert AllSpace(s[..j + 1]) by {
            forall m | 0 <= m < j + 1 ensures IsSpace(s[m]) {
              if m > 0 { assert s[m] == s[1..k][m - 1]; }
            }
          }
          VisibleConcat(s[..j + 1], s[j + 1..]);
          VisibleOfSpace(s[..j + 1]);
          VisibleConcat("\n\n", CollapseBreaks(s[j + 1..]));
          VisibleOfSpace("\n\n");
          CollapseBreaksVisible(s[j + 1..]);
          return;
        }
      }
      CollapseBreaksVisible(s[1..]);
      VisibleConcat([s[0]], CollapseBreaks(s[1..]));
    }
  }

  lemma TrimVisible(s: string)
    ensures Visible(Trim(s)) == Visible(s)
  {
    var r := Trim(s);
    var i :| TrimmedAt(s, r, i);
    TrimmedSplit(s, r, i);
    VisibleConcat(s[..i] + r, s[i + |r|..]);
    VisibleConcat(s[..i], r);
    VisibleOfSpace(s[..i]);
    VisibleOfSpace(s[i + |r|..]);
  }

  /** A slice of a string with normal breaks has normal breaks. */
  lemma NormalSlice(s: string, a: nat, t: string)
    requires a + |t| <= |s| && t == s[a..a + |t|] && BreaksNormal(s)
    ensures BreaksNormal(t)
  {
    forall i, j | 0 <= i < j < |t| && t[i] == '\n' && t[j] == '\n' && AllSpace(t[i + 1..j])
      ensures j == i + 1
    {
      assert t[i] == s[a + i] && t[j] == s[a + j];
      var u := s[a + i + 1..a + j];
      var v := t[i + 1..j];
      forall m | 0 <= m < |u| ensures u[m] == v[m] {
        assert u[m] == s[a + i + 1 + m];
        assert v[m] == t[i + 1 + m];
      }
      assert u == v;
    }
  }

  // ---------------------------------------------------------------------
  // `formatExtractedText`

  function FormatExtractedText(text: string): string {
    Trim(CollapseBreaks(CollapseSpaces(text)))
  }

  /** The cleanup keeps every visible character in order, leaves no white
      space at either end, no double space and at most one paragraph break
      per stretch of white space. */
  lemma FormatExtractedTextProperties(text: string)
    ensures var r := FormatExtractedText(text);
            && Visible(r) == Visible(text)
            && (r == [] || (!IsSpace(r[0]) && !IsSpace(r[|r| - 1])))
            && BreaksNormal(r)
            && NoDoubleSpace(r)
  {
    FormatKeepsVisible(text);
    FormatBreaksNormal(text);
    FormatSingleSpaced(text);
  }

  /** Text that is already clean (single spaces, normal breaks, no white
      space at either end) is returned as it is. */
  lemma FormatCleanIdentity(text: string)
    requires NoDoubleSpace(text) && BreaksNormal(text)
    requires text == [] || (!IsSpace(text[0]) && !IsSpace(text[|text| - 1]))
    ensures FormatExtractedText(text) == text
  {
    CollapseSpacesIdentity(text);
    CollapseBreaksIdentity(text);
    TrimIdentity(text);
  }

  /** A slice of a string without double spaces has none. */
  lemma SingleSpaceSlice(s: string, a: nat, t: string)
    requires a + |t| <= |s| && t == s[a..a + |t|] && NoDoubleSpace(s)
    ensures NoDoubleSpace(t)
  {
    forall i | 0 <= i < |t| - 1 ensures !(t[i] == ' ' && t[i + 1] == ' ') {
      assert t[i] == s[a + i] && t[i + 1] == s[a + i + 1];
    }
  }

  /** A suffix of a string without double spaces has none. */
  lemma SingleSpaceSuffix(s: string, a: nat)
    requires a <= |s| && NoDoubleSpace(s)
    ensures NoDoubleSpace(s[a..])
  {
    var t := s[a..];
    assert t == s[a..a + |t|];
    SingleSpaceSlice(s, a, t);
  }

  /** A first character adds no double space unless it and the next are spaces. */
  lemma SingleSpaceCons(c: char, t: string)
    requires NoDoubleSpace(t) && !(c == ' ' && t != [] && t[0] == ' ')
    ensures NoDoubleSpace([c] + t)
  {
    var u := [c] + t;
    forall i | 0 <= i < |u| - 1 ensures !(u[i] == ' ' && u[i + 1] == ' ') {
      if i > 0 { assert u[i] == t[i - 1] && u[i + 1] == t[i]; }
    }
  }

  lemma BreakPairSingleSpaced(t: string)
    requires NoDoubleSpace(t)
    ensures NoDoubleSpace("\n\n" + t)
  {
    SingleSpaceCons('\n', t);
    SingleSpaceCons('\n', "\n" + t);
    assert "\n\n" + t == ['\n'] + ("\n" + t);
  }

  /** Step 2 creates no double space: it copies characters or writes two
      newlines, and keeps the first character. */
  lemma {:induction false} CollapseBreaksSingleSpaced(s: string)
    requires NoDoubleSpace(s)
    ensures NoDoubleSpace(CollapseBreaks(s))
    ensures s != [] ==> CollapseBreaks(s) != [] && CollapseBreaks(s)[0] == s[0]
    decreases |s|
  {
    if s != [] {
      var k := RunEnd(s, 1);
      var j := LastNewline(s, 1, k);
      if s[0] == '\n' && j >= 1 {
        BreakAt(s, k, j);
        var t := s[j + 1..];
        SingleSpaceSuffix(s, j + 1);
        CollapseBreaksSingleSpaced(t);
        BreakPairSingleSpaced(CollapseBreaks(t));
      } else {
        if s[0] == '\n' { BreakAt(s, k, j); } else { CopiesFirst(s); }
        var t := s[1..];
        SingleSpaceSuffix(s, 1);
        CollapseBreaksSingleSpaced(t);
        assert t != [] ==> t[0] == s[1] && !(s[0] == ' ' && s[1] == ' ');
        SingleSpaceCons(s[0], CollapseBreaks(t));
      }
    }
  }

  /** The cleanup leaves no double space. */
  lemma FormatSingleSpaced(text: string)
    ensures NoDoubleSpace(FormatExtractedText(text))
  {
    var a := CollapseSpaces(text);
    CollapseBreaksSingleSpaced(a);
    TrimSingleSpaced(CollapseBreaks(a));
  }

  /** Trimming leaves no double space where there was none: the result is a slice. */
  lemma TrimSingleSpaced(b: string)
    requires NoDoubleSpace(b)
    ensures NoDoubleSpace(Trim(b))
  {
    var r := Trim(b);
    var i :| TrimmedAt(b, r, i);
    SingleSpaceSlice(b, i, r);
  }

  lemma FormatKeepsVisible(text: string)
    ensures Visible(FormatExtractedText(text)) == Visible(text)
  {
    var a := CollapseSpaces(text);
    var b := CollapseBreaks(a);
    VisibleUnspaced(a);
    VisibleUnspaced(text);
    CollapseBreaksVisible(a);
    TrimVisible(b);
  }

  lemma FormatBreaksNormal(text: string)
    ensures BreaksNormal(FormatExtractedText(text))
  {
    var a := CollapseSpaces(text);
    CollapseBreaksNormal(a);
    TrimBreaksNormal(CollapseBreaks(a));
  }

  /** Trimming keeps breaks normal: the result is a slice. */
  lemma TrimBreaksNormal(b: string)
    requires BreaksNormal(b)
    ensures BreaksNormal(Trim(b))
  {
    var r := Trim(b);
    var i :| TrimmedAt(b, r, i);
    NormalSlice(b, i, r);
  }

  // ---------------------------------------------------------------------
  // Line assembly in the reader callback

  /** One callback of `reader.parseBuffer`: an item (whose `text` may be
      empty, as for page markers), an error, or the end of the file. */
  datatype ReaderEvent = Item(y: int, text: string) | ReaderError(message: string) | Done

  /** `lines[item.y].push(item.text)` for an item with text. */
  function AddFragment(lines: map<int, seq<string>>, y: int, text: string): (r: map<int, seq<string>>)
    ensures text == "" ==> r == lines
    ensures text != "" ==> r.Keys == lines.Keys + {y} && r[y] == (if y in lines then lines[y] else []) + [text]
    ensures forall k :: k in lines && k != y ==> k in r && r[k] == lines[k]
  {
    if text == "" then lines
    else lines[y := (if y in lines then lines[y] else []) + [text]]
  }

  /** The texts of the items at height `y`, in arrival order. */
  function Fragments(events: seq<ReaderEvent>, y: int): seq<string> {
    if events == [] then []
    else
      (if events[0].Item? && events[0].y == y && events[0].text != "" then [events[0].text] else [])
      + Fragments(events[1..], y)
  }

  /** The `lines` dictionary after the given items. */
  function AssembleOnto(lines: map<int, seq<string>>, events: seq<ReaderEvent>): map<int, seq<string>>
    decreases |events|
  {
    if events == [] then lines
    else
      var next := if events[0].Item? then AddFragment(lines, events[0].y, events[0].text) else lines;
      AssembleOnto(next, events[1..])
  }

  function LineAt(lines: map<int, seq<string>>, y: int): seq<string> {
    if y in lines then lines[y] else []
  }

  /** Each line holds its fragments in arrival order. */
  lemma {:induction false} AssembleFragments(lines: map<int, seq<string>>, events: seq<ReaderEvent>, y: int)
    ensures LineAt(AssembleOnto(lines, events), y) == LineAt(lines, y) + Fragments(events, y)
    decreases |events|
  {
    if events == [] {
      assert LineAt(lines, y) + [] == LineAt(lines, y);
    } else {
      var e := events[0];
      var next := if e.Item? then AddFragment(lines, e.y, e.text) else lines;
      var rest := Fragments(events[1..], y);
      AssembleFragments(next, events[1..], y);
      var head := if e.Item? && e.y == y && e.text != "" then [e.text] else [];
      assert Fragments(events, y) == head + rest;
      LineAfterEvent(lines, e, y);
      assert LineAt(AssembleOnto(lines, events), y) == (LineAt(lines, y) + head) + rest;
      assert (LineAt(lines, y) + head) + rest == LineAt(lines, y) + (head + rest);
    }
  }

  /** The line at `y` after one event gains that event's fragment, if any. */
  lemma LineAfterEvent(lines: map<int, seq<string>>, e: ReaderEvent, y: int)
    ensures var next := if e.Item? then AddFragment(lines, e.y, e.text) else lines;
            LineAt(next, y) == LineAt(lines, y) + (if e.Item? && e.y == y && e.text != "" then [e.text] else [])
  {
  }

  /** Only heights that received text have a line. */
  lemma {:induction false} AssembleKeys(lines: map<int, seq<string>>, events: seq<ReaderEvent>, y: int)
    ensures y in AssembleOnto(lines, events) <==> y in lines || Fragments(events, y) != []
    decreases |events|
  {
    if events != [] {
      var e := events[0];
      var next := if e.Item? then AddFragment(lines, e.y, e.text) else lines;
      AssembleKeys(next, events[1..], y);
      var head := if e.Item? && e.y == y && e.text != "" then [e.text] else [];
      assert Fragments(events, y) == head + Fragments(events[1..], y);
      assert y in next <==> y in lines || head != [];
    }
  }

  /** Existence of a least key. */
  lemma {:induction false} MinExists(ks: set<int>)
    requires ks != {}
    ensures exists m :: m in ks && forall k :: k in ks ==> m <= k
    decreases |ks|
  {
    var x := PickKey(ks);
    var rest := ks - {x};
    if rest != {} {
      MinExists(rest);
      var m :| m in rest && forall k :: k in rest ==> m <= k;
      var least := if x < m then x else m;
      forall k | k in ks ensures least <= k {
        if k != x { assert k in rest; }
      }
    } else {
      forall k | k in ks ensures x <= k {
        assert k !in rest;
      }
    }
  }

  lemma PickKey(ks: set<int>) returns (x: int)
    requires ks != {}
    ensures x in ks
  {
    if forall y :: y !in ks {
      assert false;
    }
    x :| x in ks;
  }

  function MinKey(ks: set<int>): (m: int)
    requires ks != {}
    ensures m in ks && forall k :: k in ks ==> m <= k
  {
    MinExists(ks);
    var m :| m in ks && forall k :: k in ks ==> m <= k;
    m
  }

  /** `Object.keys(lines).sort((y1, y2) => y1 - y2)`: every key once, ascending. */
  function SortedKeys(ks: set<int>): (r: seq<int>)
    ensures |r| == |ks|
    ensures forall k :: k in ks <==> k in r
    ensures forall i, j :: 0 <= i < j < |r| ==> r[i] < r[j]
    decreases |ks|
  {
    if ks == {} then []
    else
      var m := MinKey(ks);
      var rest := SortedKeys(ks - {m});
      MinFirst(ks, m, rest);
      [m] + rest
  }

  /** The least key put before the sorted other keys sorts them all. */
  lemma MinFirst(ks: set<int>, m: int, rest: seq<int>)
    requires m in ks && forall k :: k in ks ==> m <= k
    requires |rest| == |ks - {m}|
    requires forall k :: k in ks - {m} <==> k in rest
    requires forall i, j :: 0 <= i < j < |rest| ==> rest[i] < rest[j]
    ensures |[m] + rest| == |ks|
    ensures forall k :: k in ks <==> k in [m] + rest
    ensures forall i, j :: 0 <= i < j < |[m] + rest| ==> ([m] + rest)[i] < ([m] + rest)[j]
  {
    var r := [m] + rest;
    forall i | 0 <= i < |rest| ensures m < rest[i] {
      assert rest[i] in rest;
      assert rest[i] in ks - {m};
    }
    forall i, j | 0 <= i < j < |r| ensures r[i] < r[j] {
      if i > 0 {
        assert r[i] == rest[i - 1] && r[j] == rest[j - 1];
      } else {
        assert r[j] == rest[j - 1];
      }
    }
  }

  /** The line texts in key order, each `lines[y].join("")`. */
  function LineTexts(lines: map<int, seq<string>>, ys: seq<int>): (r: seq<string>)
    requires forall i :: 0 <= i < |ys| ==> ys[i] in lines
    ensures |r| == |ys|
    ensures forall i :: 0 <= i < |ys| ==> r[i] == Join(lines[ys[i]], "")
  {
    seq(|ys|, i requires 0 <= i < |ys| => Join(lines[ys[i]], ""))
  }

  /** The page text the end callback resolves with: lines by ascending `y`,
      joined by newlines. */
  function PageText(lines: map<int, seq<string>>): string {
    var ys := SortedKeys(lines.Keys);
    Join(LineTexts(lines, ys), "\n")
  }

  /** How the promise around `parseBuffer` settles: the first error rejects,
      the end resolves with the page text, and `None` means it never settles. */
  function SettleFrom(lines: map<int, seq<string>>, events: seq<ReaderEvent>): Option<Result<string, string>>
    decreases |events|
  {
    if events == [] then None
    else match events[0]
      case ReaderError(m) => Some(Failure(m))
      case Done => Some(Success(PageText(lines)))
      case Item(y, text) => SettleFrom(AddFragment(lines, y, text), events[1..])
  }

  predicate AllItems(events: seq<ReaderEvent>) {
    forall i :: 0 <= i < |events| ==> events[i].Item?
  }

  /** Items followed by the end resolve with the text of the assembled lines. */
  lemma {:induction false} SettleAtEnd(lines: map<int, seq<string>>, items: seq<ReaderEvent>, rest: seq<ReaderEvent>)
    requires AllItems(items)
    ensures SettleFrom(lines, items + [Done] + rest) == Some(Success(PageText(AssembleOnto(lines, items))))
    decreases |items|
  {
    if items == [] {
      assert items + [Done] + rest == [Done] + rest;
    } else {
      assert (items + [Done] + rest)[1..] == items[1..] + [Done] + rest;
      assert AllItems(items[1..]) by {
        forall i | 0 <= i < |items[1..]| ensures items[1..][i].Item? { assert items[1..][i] == items[i + 1]; }
      }
      SettleAtEnd(AddFragment(lines, items[0].y, items[0].text), items[1..], rest);
    }
  }

  /** Items followed by an error reject with that error, whatever follows. */
  lemma {:induction false} SettleAtError(lines: map<int, seq<string>>, items: seq<ReaderEvent>, m: string, rest: seq<ReaderEvent>)
    requires AllItems(items)
    ensures SettleFrom(lines, items + [ReaderError(m)] + rest) == Some(Failure(m))
    decreases |items|
  {
    if items == [] {
      assert items + [ReaderError(m)] + rest == [ReaderError(m)] + rest;
    } else {
      assert (items + [ReaderError(m)] + rest)[1..] == items[1..] + [ReaderError(m)] + rest;
      assert AllItems(items[1..]) by {
        forall i | 0 <= i < |items[1..]| ensures items[1..][i].Item? { assert items[1..][i] == items[i + 1]; }
      }
      SettleAtError(AddFragment(lines, items[0].y, items[0].text), items[1..], m, rest);
    }
  }

  /** The `lines` dictionary that the reader callback fills. */
  class PageAssembler {
    var lines: map<int, seq<string>>

    constructor ()
      ensures lines == map[]
    {
      lines := map[];
    }

    /** The callback for an item. */
    method OnItem(y: int, text: string)
      modifies this
      ensures lines == AddFragment(old(lines), y, text)
    {
      if text != "" {
        if y !in lines {
          lines := lines[y := []];
        }
        lines := lines[y := lines[y] + [text]];
      }
    }

    /** `reader.parseBuffer` delivering `events` until the promise settles. */
    method ParseBuffer(events: seq<ReaderEvent>) returns (settled: Option<Result<string, string>>)
      modifies this
      ensures settled == SettleFrom(old(lines), events)
    {
      var i := 0;
      settled := None;
      while i < |events|
        invariant 0 <= i <= |events|
        invariant settled.None? ==> SettleFrom(lines, events[i..]) == SettleFrom(old(lines), events)
        invariant settled.Some? ==> settled == SettleFrom(old(lines), events)
        decreases |events| - i, if settled.None? then 1 else 0
      {
        match events[i] {
          case ReaderError(m) =>
            settled := Some(Failure(m));
            return;
          case Done =>
            settled := Some(Success(PageText(lines)));
            return;
          case Item(y, text) =>
            assert events[i..][1..] == events[i + 1..];
            OnItem(y, text);
        }
        i := i + 1;
      }
    }
  }

  // ---------------------------------------------------------------------
  // `POST`

  /** `formData.get("file")`. */
  datatype FormField = NoField | TextField(value: string) | FileField(events: seq<ReaderEvent>)

  datatype Body = TextBody(text: string) | ErrorBody(error: string, details: Option<string>)

  datatype Response = Response(status: int, body: Body)

  const NoFile := "No file provided"
  const ImageOnly := "Could not extract text from PDF. It might be an image-only PDF."
  const ProcessFailed := "Failed to process PDF"
  /** The message of the `TypeError` a string field raises at `file.arrayBuffer()`. */
  const NotAFile := "file.arrayBuffer is not a function"

  /** The answer of `POST`, or `None` when the reader never settles. */
  method Post(field: FormField) returns (response: Option<Response>)
    ensures field.NoField? || field == TextField("") ==> response == Some(Response(400, ErrorBody(NoFile, None)))
    ensures field.TextField? && field.value != "" ==>
              response == Some(Response(500, ErrorBody(ProcessFailed, Some(NotAFile))))
    ensures field.FileField? ==>
              match SettleFrom(map[], field.events)
              case None => response.None?
              case Some(Failure(m)) => response == Some(Response(500, ErrorBody(ProcessFailed, Some(m))))
              case Some(Success(text)) =>
                if AllSpace(text) then response == Some(Response(400, ErrorBody(ImageOnly, None)))
                else response == Some(Response(200, TextBody(FormatExtractedText(text))))
  {
    match field {
      case NoField =>
        return Some(Response(400, ErrorBody(NoFile, None)));
      case TextField(value) =>
        if value == "" {
          return Some(Response(400, ErrorBody(NoFile, None)));
        }
        return Some(Response(500, ErrorBody(ProcessFailed, Some(NotAFile))));
      case FileField(events) =>
        var assembler := new PageAssembler();
        var settled := assembler.ParseBuffer(events);
        match settled {
          case None =>
            return None;
          case Some(Failure(m)) =>
            return Some(Response(500, ErrorBody(ProcessFailed, Some(m))));
          case Some(Success(text)) =>
            TrimEmptyIff(text);
            if Trim(text) == [] {
              return Some(Response(400, ErrorBody(ImageOnly, None)));
            }
            return Some(Response(200, TextBody(FormatExtractedText(text))));
        }
    }
  }
}

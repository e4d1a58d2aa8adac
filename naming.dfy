/**
 * The names the reconcile loop derives from a context name: every maximal
 * run of characters other than ASCII letters and digits becomes one '-',
 * and the namespace is that name behind an optional prefix.
 */
module Naming {
  import opened Text

  /** A string made of ASCII letters, digits and '-', with no two '-' in a row. */
  predicate Clean(s: string) {
    && (forall k :: 0 <= k < |s| ==> IsAlnum(s[k]) || s[k] == '-')
    && (forall i, j :: 0 <= i < |s| && 0 <= j < |s| && j == i + 1 ==> IsAlnum(s[i]) || IsAlnum(s[j]))
  }

  /** The string less its leading run of characters that are not letters or digits. */
  function SkipRun(s: string): (r: string)
    ensures |r| <= |s| && r == s[|s| - |r|..]
    ensures r == [] || IsAlnum(r[0])
    ensures forall k :: 0 <= k < |s| - |r| ==> !IsAlnum(s[k])
  {
    if s == [] || IsAlnum(s[0]) then s else SkipRun(s[1..])
  }

  /** The replacement of every match of [^a-zA-Z0-9]+ by "-". */
  function Sanitize(s: string): (r: string)
    ensures |r| <= |s|
    ensures r == [] <==> s == []
    ensures s != [] ==> r[0] == (if IsAlnum(s[0]) then s[0] else '-')
    ensures Clean(r)
    decreases |s|
  {
    if s == [] then []
    else if IsAlnum(s[0]) then [s[0]] + Sanitize(s[1..])
    else "-" + Sanitize(SkipRun(s[1..]))
  }

  /** Go's strings.TrimSuffix: drop one trailing copy of `suffix`, if there is one. */
  function TrimSuffix(s: string, suffix: string): (r: string)
    ensures r == s || s == r + suffix
    ensures |suffix| <= |s| && s[|s| - |suffix|..] == suffix ==> s == r + suffix
  {
    if |suffix| <= |s| && s[|s| - |suffix|..] == suffix then s[..|s| - |suffix|] else s
  }

  /** The namespace of a sanitised name: the name itself, or the prefix less one trailing '-', a '-', and the name. */
  function NamespaceName(prefix: string, name: string): (r: string)
    ensures prefix == [] ==> r == name
    ensures prefix != [] && prefix[|prefix| - 1] == '-' ==> r == prefix[..|prefix| - 1] + "-" + name
    ensures prefix != [] && prefix[|prefix| - 1] != '-' ==> r == prefix + "-" + name
  {
    if prefix == [] then name
    else
      var p := TrimSuffix(prefix, "-");
      p + "-" + name
  }

  // ---- properties ----

  /** A leading run of letters and digits is copied unchanged. */
  lemma {:induction false} SanitizeAlnumPrefix(a: string, b: string)
    requires forall k :: 0 <= k < |a| ==> IsAlnum(a[k])
    ensures Sanitize(a + b) == a + Sanitize(b)
    decreases |a|
  {
    if a != [] {
      var ab := a + b;
      assert Sanitize(ab) == [a[0]] + Sanitize(a[1..] + b) by {
        assert ab[0] == a[0] && ab[1..] == a[1..] + b;
        SanitizeLetter(ab);
      }
      SanitizeAlnumPrefix(a[1..], b);
      assert [a[0]] + (a[1..] + Sanitize(b)) == a + Sanitize(b);
    } else {
      assert a + b == b;
    }
  }

  /** A maximal run of other characters becomes a single '-'. */
  lemma SanitizeRun(run: string, b: string)
    requires run != [] && forall k :: 0 <= k < |run| ==> !IsAlnum(run[k])
    requires b == [] || IsAlnum(b[0])
    ensures Sanitize(run + b) == "-" + Sanitize(b)
  {
    RunThenRest(run, b);
    SanitizeDash(run + b, b);
  }

  /** After the first character of `run + b`, the rest of the run is skipped up to `b`. */
  lemma RunThenRest(run: string, b: string)
    requires run != [] && forall k :: 0 <= k < |run| ==> !IsAlnum(run[k])
    requires b == [] || IsAlnum(b[0])
    ensures run + b != [] && !IsAlnum((run + b)[0]) && SkipRun((run + b)[1..]) == b
  {
    var tail := run[1..];
    assert (run + b)[1..] == tail + b;
    assert forall k :: 0 <= k < |tail| ==> !IsAlnum(tail[k]) by {
      assert forall k :: 0 <= k < |tail| ==> tail[k] == run[k + 1];
    }
    SkipRunOf(tail, b);
  }

  /** One step of Sanitize on a leading letter or digit. */
  lemma SanitizeLetter(s: string)
    requires s != [] && IsAlnum(s[0])
    ensures Sanitize(s) == [s[0]] + Sanitize(s[1..])
  {
  }

  /** One step of Sanitize on a leading other character, whose run ends where `rest` begins. */
  lemma SanitizeDash(s: string, rest: string)
    requires s != [] && !IsAlnum(s[0]) && SkipRun(s[1..]) == rest
    ensures Sanitize(s) == "-" + Sanitize(rest)
  {
  }

  lemma {:induction false} SkipRunOf(run: string, b: string)
    requires forall k :: 0 <= k < |run| ==> !IsAlnum(run[k])
    requires b == [] || IsAlnum(b[0])
    ensures SkipRun(run + b) == b
    decreases |run|
  {
    if run != [] {
      assert (run + b)[1..] == run[1..] + b;
      SkipRunOf(run[1..], b);
    } else {
      assert run + b == b;
    }
  }

  /** A clean string is its own sanitised form. */
  lemma {:induction false} SanitizeClean(s: string)
    requires Clean(s)
    ensures Sanitize(s) == s
    decreases |s|
  {
    if s != [] {
      var t := s[1..];
      assert Clean(t) by {
        assert forall k :: 0 <= k < |t| ==> t[k] == s[k + 1];
      }
      SanitizeClean(t);
      if IsAlnum(s[0]) {
        assert Sanitize(s) == [s[0]] + Sanitize(t);
      } else {
        assert s[0] == '-';
        assert t == [] || IsAlnum(t[0]);
        assert SkipRun(t) == t;
        assert Sanitize(s) == "-" + Sanitize(t);
      }
      assert s == [s[0]] + t;
    }
  }

  /** Sanitize leaves a string unchanged exactly when the string is clean. */
  lemma SanitizeFixedPoint(s: string)
    ensures Sanitize(s) == s <==> Clean(s)
  {
    if Clean(s) { SanitizeClean(s); }
  }

  /** Sanitising twice is sanitising once. */
  lemma SanitizeIdempotent(s: string)
    ensures Sanitize(Sanitize(s)) == Sanitize(s)
  {
    SanitizeClean(Sanitize(s));
  }

  /** A prefix ending in '-' and the same prefix without it give the same namespace. */
  lemma PrefixDashDropped(p: string, name: string)
    requires p != []
    requires p[|p| - 1] != '-'
    ensures NamespaceName(p + "-", name) == NamespaceName(p, name)
  {
    assert (p + "-")[|p + "-"| - 1..] == "-";
    assert (p + "-")[..|p|] == p;
    assert p[|p| - 1..] != "-" by {
      assert p[|p| - 1..][0] == p[|p| - 1];
    }
  }
}

/**
 * The PHP string primitives the router relies on, specialised to the characters it uses:
 * `rtrim`, `ltrim` and `trim` with the character list '/', the `'/' . trim(p, '/')` path
 * normalisation, the case-insensitive prefix removal done with `preg_replace('#^...#i')`,
 * `str_replace` and the truthiness of a string.
 */
module PhpStrings {

  /** A string of n slashes. */
  function Slashes(n: nat): string
  {
    if n == 0 then "" else Slashes(n - 1) + "/"
  }

  lemma {:induction false} SlashesSpec(n: nat)
    ensures |Slashes(n)| == n
    ensures forall i :: 0 <= i < n ==> Slashes(n)[i] == '/'
  {
    if n > 0 {
      SlashesSpec(n - 1);
    }
  }

  /** rtrim(s, '/'): the longest prefix of s that does not end in '/'. */
  function RTrimSlash(s: string): string
  {
    if |s| > 0 && s[|s| - 1] == '/' then RTrimSlash(s[..|s| - 1]) else s
  }

  /** rtrim keeps a prefix of s that does not end in '/' and drops only slashes. */
  lemma {:induction false} RTrimSlashSpec(s: string)
    ensures var r := RTrimSlash(s);
            && |r| <= |s| && r == s[..|r|]
            && (r == [] || r[|r| - 1] != '/')
            && forall i :: |r| <= i < |s| ==> s[i] == '/'
  {
    if |s| > 0 && s[|s| - 1] == '/' {
      var t := s[..|s| - 1];
      RTrimSlashSpec(t);
      var r := RTrimSlash(t);
      assert r == t[..|r|] == s[..|r|];
    }
  }

  /** ltrim(s, '/'): the longest suffix of s that does not start with '/'. */
  function LTrimSlash(s: string): string
  {
    if |s| > 0 && s[0] == '/' then LTrimSlash(s[1..]) else s
  }

  /** ltrim keeps a suffix of s that does not start with '/' and drops only slashes. */
  lemma {:induction false} LTrimSlashSpec(s: string)
    ensures var r := LTrimSlash(s);
            && |r| <= |s| && r == s[|s| - |r|..]
            && (r == [] || r[0] != '/')
            && forall i :: 0 <= i < |s| - |r| ==> s[i] == '/'
  {
    if |s| > 0 && s[0] == '/' {
      var t := s[1..];
      LTrimSlashSpec(t);
      var r := LTrimSlash(t);
      assert r == t[|t| - |r|..] == s[|s| - |r|..];
      forall i | 0 <= i < |s| - |r|
        ensures s[i] == '/'
      {
        if i > 0 {
          assert s[i] == t[i - 1];
        }
      }
    }
  }

  /** trim(s, '/'): s without its leading and trailing slashes. */
  function TrimSlash(s: string): string
  {
    LTrimSlash(RTrimSlash(s))
  }

  /** trim leaves no slash at either end. */
  lemma TrimSlashSpec(s: string)
    ensures var r := TrimSlash(s);
            r == [] || (r[0] != '/' && r[|r| - 1] != '/')
  {
    var t := RTrimSlash(s);
    var r := LTrimSlash(t);
    assert t == [] || t[|t| - 1] != '/' by { RTrimSlashSpec(s); }
    LTrimSlashSpec(t);
    if r != [] {
      assert r[|r| - 1] == t[|t| - 1];
    }
  }

  /** trim removes nothing but slashes, and only at the ends. */
  lemma TrimSlashOnlyRemovesSlashes(s: string)
    ensures var t := RTrimSlash(s);
            var r := TrimSlash(s);
            && |r| <= |t| <= |s|
            && s == Slashes(|t| - |r|) + r + Slashes(|s| - |t|)
  {
    var t := RTrimSlash(s);
    RTrimSlashSplit(s);
    LTrimSlashSplit(t);
  }

  /** rtrim cuts a run of slashes off the end. */
  lemma RTrimSlashSplit(s: string)
    ensures |RTrimSlash(s)| <= |s| && s == RTrimSlash(s) + Slashes(|s| - |RTrimSlash(s)|)
  {
    var t := RTrimSlash(s);
    assert |t| <= |s| && t == s[..|t|] && forall i :: |t| <= i < |s| ==> s[i] == '/' by {
      RTrimSlashSpec(s);
    }
    SlashRunAtEnd(s, |t|);
  }

  /** A string whose characters from k on are slashes is its first k characters and a run of slashes. */
  lemma SlashRunAtEnd(s: string, k: nat)
    requires k <= |s|
    requires forall i :: k <= i < |s| ==> s[i] == '/'
    ensures s == s[..k] + Slashes(|s| - k)
  {
    SlashSuffix(s, k);
    assert s == s[..k] + s[k..];
  }

  /** ltrim cuts a run of slashes off the start. */
  lemma LTrimSlashSplit(s: string)
    ensures |LTrimSlash(s)| <= |s| && s == Slashes(|s| - |LTrimSlash(s)|) + LTrimSlash(s)
  {
    var r := LTrimSlash(s);
    var k := |s| - |r|;
    assert k >= 0 && s == s[..k] + r && s[..k] == Slashes(k) by {
      LTrimSlashSpec(s);
      SlashPrefix(s, k);
    }
  }

  lemma SlashPrefix(s: string, k: nat)
    requires k <= |s|
    requires forall i :: 0 <= i < k ==> s[i] == '/'
    ensures s[..k] == Slashes(k)
  {
    OnlySlashes(s[..k]);
  }

  lemma SlashSuffix(s: string, k: nat)
    requires k <= |s|
    requires forall i :: k <= i < |s| ==> s[i] == '/'
    ensures s[k..] == Slashes(|s| - k)
  {
    assert forall i :: 0 <= i < |s| - k ==> s[k..][i] == s[k + i];
    OnlySlashes(s[k..]);
  }

  /** A string made of slashes only is Slashes of its length. */
  lemma {:induction false} OnlySlashes(s: string)
    requires forall i :: 0 <= i < |s| ==> s[i] == '/'
    ensures s == Slashes(|s|)
  {
    if |s| > 0 {
      OnlySlashes(s[..|s| - 1]);
      assert s == s[..|s| - 1] + "/";
    }
  }

  /** A path in the router's normal form: one leading '/', no trailing '/' unless it is "/". */
  predicate IsNormalPath(p: string)
  {
    |p| >= 1 && p[0] == '/' && (|p| > 1 ==> p[1] != '/' && p[|p| - 1] != '/')
  }

  /** '/' . trim(p, '/') */
  function NormalizePath(p: string): string
  {
    "/" + TrimSlash(p)
  }

  /** The normalised path is in normal form, and after its '/' comes the trimmed input. */
  lemma NormalizePathSpec(p: string)
    ensures IsNormalPath(NormalizePath(p))
    ensures NormalizePath(p)[1..] == TrimSlash(p)
  {
    TrimSlashSpec(p);
  }

  /** RTrimSlash ignores slashes appended to its argument. */
  lemma {:induction false} RTrimSlashAppended(s: string, n: nat)
    ensures RTrimSlash(s + Slashes(n)) == RTrimSlash(s)
  {
    if n > 0 {
      var t := s + Slashes(n);
      assert t[..|t| - 1] == s + Slashes(n - 1);
      RTrimSlashAppended(s, n - 1);
    } else {
      assert s + Slashes(n) == s;
    }
  }

  /** LTrimSlash ignores slashes prepended to its argument. */
  lemma {:induction false} LTrimSlashPrepended(s: string, n: nat)
    ensures LTrimSlash(Slashes(n) + s) == LTrimSlash(s)
  {
    if n > 0 {
      var t := Slashes(n) + s;
      SlashesSpec(n);
      assert t[0] == '/';
      SlashesTail(n);
      assert t[1..] == Slashes(n - 1) + s;
      LTrimSlashPrepended(s, n - 1);
    } else {
      assert Slashes(n) + s == s;
    }
  }

  lemma SlashesTail(n: nat)
    requires n > 0
    ensures Slashes(n)[1..] == Slashes(n - 1)
  {
    SlashesSpec(n);
    SlashesSpec(n - 1);
    assert forall i :: 0 <= i < n - 1 ==> Slashes(n)[1..][i] == Slashes(n - 1)[i];
  }

  /** A path already in normal form is left alone, so normalisation is idempotent. */
  lemma NormalPathFixed(p: string)
    requires IsNormalPath(p)
    ensures NormalizePath(p) == p
  {
    if |p| == 1 {
      assert RTrimSlash(p) == RTrimSlash(p[..0]);
    } else {
      assert RTrimSlash(p) == p;
      assert p[1..] != [] && p[1..][0] != '/';
      assert LTrimSlash(p) == LTrimSlash(p[1..]) == p[1..];
    }
  }

  lemma NormalizeIdempotent(p: string)
    ensures NormalizePath(NormalizePath(p)) == NormalizePath(p)
  {
    NormalizePathSpec(p);
    NormalPathFixed(NormalizePath(p));
  }

  /** NormalizePath leaves a path unchanged exactly when it is already in normal form. */
  lemma NormalizeFixpoints(p: string)
    ensures NormalizePath(p) == p <==> IsNormalPath(p)
  {
    NormalizePathSpec(p);
    if IsNormalPath(p) {
      NormalPathFixed(p);
    }
  }

  /** Slashes added at either end of a path do not change its normal form. */
  lemma NormalizeIgnoresOuterSlashes(m: nat, p: string, n: nat)
    ensures NormalizePath(Slashes(m) + p + Slashes(n)) == NormalizePath(p)
  {
    assert Slashes(m) + p + Slashes(n) == (Slashes(m) + p) + Slashes(n);
    RTrimSlashAppended(Slashes(m) + p, n);
    RTrimSlashOfPrepended(m, p);
    LTrimSlashPrepended(RTrimSlash(p), m);
  }

  lemma NormalizeLeadingSlash(p: string)
    ensures NormalizePath("/" + p) == NormalizePath(p)
  {
    NormalizeIgnoresOuterSlashes(1, p, 0);
    assert Slashes(1) == "/" && Slashes(0) == "";
    assert Slashes(1) + p + Slashes(0) == "/" + p;
  }

  /** Prepended slashes survive rtrim unless the rest trims to nothing. */
  lemma {:induction false} RTrimSlashOfPrepended(m: nat, p: string)
    ensures LTrimSlash(RTrimSlash(Slashes(m) + p)) == LTrimSlash(Slashes(m) + RTrimSlash(p))
  {
    var q := RTrimSlash(p);
    RTrimSlashSpec(p);
    SlashesSpec(m);
    if q == [] {
      // p consists of slashes only, so the whole string does
      var s := Slashes(m) + p;
      RTrimSlashSpec(s);
      AllSlashes(s);
      LTrimSlashPrepended(q, m);
      assert q == [] && LTrimSlash(q) == [];
    } else {
      var s := Slashes(m) + p;
      var t := Slashes(m) + q;
      // RTrimSlash(s) == t: t is a prefix of s, does not end in '/', and the rest is slashes
      assert t == s[..|t|];
      RTrimSlashUnique(s, t);
    }
  }

  /** A string made only of slashes trims to nothing. */
  lemma AllSlashes(s: string)
    requires forall i :: 0 <= i < |RTrimSlash(s)| ==> RTrimSlash(s)[i] == '/'
    ensures LTrimSlash(RTrimSlash(s)) == []
  {
    RTrimSlashSpec(s);
  }

  /** RTrimSlash is determined by its contract. */
  lemma {:induction false} RTrimSlashUnique(s: string, t: string)
    requires |t| <= |s| && t == s[..|t|]
    requires t == [] || t[|t| - 1] != '/'
    requires forall i :: |t| <= i < |s| ==> s[i] == '/'
    ensures RTrimSlash(s) == t
    decreases |s|
  {
    if |s| > |t| {
      assert s[..|s| - 1][..|t|] == t;
      RTrimSlashUnique(s[..|s| - 1], t);
    } else {
      assert s == t;
    }
  }

  /** ASCII lower-casing, the case folding of a PCRE pattern with the i flag and no u flag. */
  function AsciiLower(c: char): char
  {
    if 'A' <= c <= 'Z' then (c as int + 32) as char else c
  }

  predicate EqualIgnoringCase(a: string, b: string)
  {
    |a| == |b| && forall i :: 0 <= i < |a| ==> AsciiLower(a[i]) == AsciiLower(b[i])
  }

  predicate StartsWithIgnoringCase(s: string, prefix: string)
  {
    |prefix| <= |s| && EqualIgnoringCase(s[..|prefix|], prefix)
  }

  /**
   * preg_replace('#^' . prefix . '#i', '', s) for a prefix without regular-expression
   * metacharacters: the prefix is removed once, at the start only, ignoring ASCII case.
   */
  function StripPrefixIgnoringCase(s: string, prefix: string): string
  {
    if StartsWithIgnoringCase(s, prefix) then s[|prefix|..] else s
  }

  /** The removal keeps a suffix of s: all but the prefix's length when s starts with the
      prefix in any case, and all of s otherwise. */
  lemma StripPrefixSpec(s: string, prefix: string)
    ensures var r := StripPrefixIgnoringCase(s, prefix);
            && |r| <= |s| && r == s[|s| - |r|..]
            && |s| - |r| == if StartsWithIgnoringCase(s, prefix) then |prefix| else 0
  {
  }

  /** Removing a prefix from that prefix, written in any case, followed by p gives back p. */
  lemma StripPrefixRoundTrip(cased: string, prefix: string, p: string)
    requires EqualIgnoringCase(cased, prefix)
    ensures StripPrefixIgnoringCase(cased + p, prefix) == p
  {
    assert (cased + p)[..|prefix|] == cased;
  }

  /** Does `needle` occur in s at position i? */
  predicate OccursAt(s: string, needle: string, i: nat)
  {
    i + |needle| <= |s| && s[i..i + |needle|] == needle
  }

  /**
   * str_replace(search, replace, s): every non-overlapping occurrence of a non-empty
   * search string, scanning left to right, is replaced; an empty search string leaves s as it is.
   */
  function ReplaceAll(s: string, search: string, replace: string): (r: string)
    decreases |s|
  {
    if search == [] || |s| < |search| then s
    else if s[..|search|] == search then replace + ReplaceAll(s[|search|..], search, replace)
    else [s[0]] + ReplaceAll(s[1..], search, replace)
  }

  /** A string in which the search string does not occur is returned unchanged. */
  lemma {:induction false} ReplaceAllAbsent(s: string, search: string, replace: string)
    requires forall i :: 0 <= i <= |s| ==> !OccursAt(s, search, i)
    ensures ReplaceAll(s, search, replace) == s
    decreases |s|
  {
    if search == [] || |s| < |search| {
    } else {
      assert !OccursAt(s, search, 0);
      assert s[..|search|] != search;
      forall i | 0 <= i <= |s[1..]|
        ensures !OccursAt(s[1..], search, i)
      {
        assert !OccursAt(s, search, i + 1);
        if i + |search| <= |s[1..]| {
          assert s[1..][i..i + |search|] == s[i + 1..i + 1 + |search|];
        }
      }
      ReplaceAllAbsent(s[1..], search, replace);
    }
  }

  /** With a one-character search string, replacement distributes over concatenation. */
  lemma {:induction false} ReplaceAllOneCharSplit(a: string, b: string, c: char, replace: string)
    ensures ReplaceAll(a + b, [c], replace) == ReplaceAll(a, [c], replace) + ReplaceAll(b, [c], replace)
  {
    if a != [] {
      var s := a + b;
      assert s[1..] == a[1..] + b;
      ReplaceAllOneCharSplit(a[1..], b, c, replace);
      if a[0] == c {
        assert s[..1] == [c] && a[..1] == [c];
        assert ReplaceAll(s, [c], replace) == replace + ReplaceAll(s[1..], [c], replace);
        assert ReplaceAll(a, [c], replace) == replace + ReplaceAll(a[1..], [c], replace);
      } else {
        assert s[..1] != [c] && a[..1] != [c];
        assert ReplaceAll(s, [c], replace) == [a[0]] + ReplaceAll(s[1..], [c], replace);
        assert ReplaceAll(a, [c], replace) == [a[0]] + ReplaceAll(a[1..], [c], replace);
      }
    } else {
      assert a + b == b;
    }
  }

  lemma NoSlashNoOccurrence(s: string)
    requires '/' !in s
    ensures forall i :: 0 <= i <= |s| ==> !OccursAt(s, "/", i)
  {
    forall i | 0 <= i <= |s|
      ensures !OccursAt(s, "/", i)
    {
      if i + 1 <= |s| {
        assert s[i..i + 1][0] == s[i] && s[i] in s;
      }
    }
  }

  /** Removing every '/' from a string without one changes nothing. */
  lemma ReplaceAllNoSlash(s: string)
    requires '/' !in s
    ensures ReplaceAll(s, "/", "") == s
  {
    NoSlashNoOccurrence(s);
    ReplaceAllAbsent(s, "/", "");
  }

  /** Replacing a string by itself changes nothing. */
  lemma {:induction false} ReplaceAllSelf(s: string, search: string)
    ensures ReplaceAll(s, search, search) == s
    decreases |s|
  {
    if search == [] || |s| < |search| {
    } else if s[..|search|] == search {
      ReplaceAllSelf(s[|search|..], search);
      assert s == s[..|search|] + s[|search|..];
    } else {
      ReplaceAllSelf(s[1..], search);
      assert s == [s[0]] + s[1..];
    }
  }

  /** PHP truthiness of a string: only "" and "0" are falsy. */
  predicate Truthy(s: string)
  {
    s != "" && s != "0"
  }
}

/**
 Bounded child names. `digest` is the first eight bytes of the hash, in hexadecimal.
 */
module Names {
  predicate IsLetter(c: char) { 'a' <= c <= 'z' }

  predicate IsDigit(c: char) { '0' <= c <= '9' }

  predicate IsHex(c: char) { IsDigit(c) || 'a' <= c <= 'f' }

  predicate IsLetDig(c: char) { IsLetter(c) || IsDigit(c) }

  const MAX := 63
  const PREFIX := 46
  const DIGEST := 16

  function ReplaceDots(s: string): (r: string)
    ensures |r| == |s| && forall i :: 0 <= i < |s| ==> r[i] == if s[i] == '.' then '-' else s[i]
  {
    seq(|s|, i requires 0 <= i < |s| => if s[i] == '.' then '-' else s[i])
  }

  /** Without the hyphens at the end. */
  function TrimRight(s: string): (r: string)
    ensures r <= s && (r != "" ==> r[|r| - 1] != '-')
    ensures forall i :: |r| <= i < |s| ==> s[i] == '-'
  {
    if s != "" && s[|s| - 1] == '-' then TrimRight(s[..|s| - 1]) else s
  }

  function Normalized(original: string): string
    requires original != ""
  {
    var dashed := ReplaceDots(original);
    if IsDigit(dashed[0]) then "c-" + dashed else dashed
  }

  function Original(name: string, suffix: string): (r: string)
    ensures r != ""
  {
    name + "-" + suffix
  }

  /** The name is used as it is. */
  predicate Plain(name: string, suffix: string) {
    var original := Original(name, suffix);
    |Normalized(original)| <= MAX && Normalized(original) == original
  }

  function Shortened(original: string): string
    requires original != ""
  {
    var normalized := Normalized(original);
    TrimRight(if |normalized| > PREFIX then normalized[..PREFIX] else normalized)
  }

  function ResourceName(digest: string -> string, name: string, suffix: string): string {
    var original := Original(name, suffix);
    if Plain(name, suffix) then Normalized(original) else Shortened(original) + "-" + digest(original)
  }

  // ---- labels ----

  /** A label of section 2.3.1 of RFC 1035: a letter, then letters, digits and hyphens, no hyphen at the end. */
  predicate IsLabel(s: string) {
    && 0 < |s| <= MAX
    && IsLetter(s[0]) && IsLetDig(s[|s| - 1])
    && forall i | 0 <= i < |s| :: IsLetDig(s[i]) || s[i] == '-'
  }

  /** Every DNS subdomain name is of this form. */
  predicate IsName(s: string) {
    s != "" && IsLetDig(s[0]) && forall i | 0 <= i < |s| :: IsLetDig(s[i]) || s[i] == '-' || s[i] == '.'
  }

  predicate IsSuffix(s: string) {
    s != "" && IsLetDig(s[|s| - 1]) && forall i | 0 <= i < |s| :: IsLetDig(s[i]) || s[i] == '-'
  }

  ghost predicate HexDigest(digest: string -> string) {
    forall x :: |digest(x)| == DIGEST && forall i :: 0 <= i < DIGEST ==> IsHex(digest(x)[i])
  }

  lemma NormalizedLabel(original: string)
    requires IsName(original)
    ensures var n := Normalized(original);
      n != "" && IsLetter(n[0]) && forall i :: 0 <= i < |n| ==> IsLetDig(n[i]) || n[i] == '-'
  {
    var dashed := ReplaceDots(original);
    assert forall i :: 0 <= i < |dashed| ==> IsLetDig(dashed[i]) || dashed[i] == '-';
  }

  /** Cutting and trimming keep the first letter and leave room for a hyphen and the digest. */
  lemma TrimmedLabel(prefix: string, digest: string)
    requires 0 < |prefix| <= PREFIX && IsLetter(prefix[0])
    requires forall i :: 0 <= i < |prefix| ==> IsLetDig(prefix[i]) || prefix[i] == '-'
    requires |digest| == DIGEST && forall i :: 0 <= i < DIGEST ==> IsHex(digest[i])
    ensures IsLabel(TrimRight(prefix) + "-" + digest)
  {
    var t := TrimRight(prefix);
    assert t != "" && t[0] == prefix[0] && |t| <= PREFIX;
    assert forall i :: 0 <= i < |t| ==> IsLetDig(t[i]) || t[i] == '-';
    hide TrimRight;
    LabelWithDigest(t, digest);
  }

  lemma LabelWithDigest(t: string, digest: string)
    requires 0 < |t| <= PREFIX && IsLetter(t[0])
    requires forall i :: 0 <= i < |t| ==> IsLetDig(t[i]) || t[i] == '-'
    requires |digest| == DIGEST && forall i :: 0 <= i < DIGEST ==> IsHex(digest[i])
    ensures IsLabel(t + "-" + digest)
  {
    var r := t + "-" + digest;
    forall i | 0 <= i < |r| ensures IsLetDig(r[i]) || r[i] == '-' {
      if i > |t| {
        assert r[i] == digest[i - |t| - 1];
      }
    }
    assert r[|r| - 1] == digest[DIGEST - 1];
  }

  /** Every child name is a label of at most 63 characters. */
  lemma ResourceNameIsLabel(digest: string -> string, name: string, suffix: string)
    requires HexDigest(digest) && IsName(name) && IsSuffix(suffix)
    ensures IsLabel(ResourceName(digest, name, suffix))
  {
    var original := Original(name, suffix);
    forall i | 0 <= i < |original| ensures IsLetDig(original[i]) || original[i] == '-' || original[i] == '.' {
      if i > |name| {
        assert original[i] == suffix[i - |name| - 1];
      }
    }
    NormalizedLabel(original);
    var n := Normalized(original);
    if Plain(name, suffix) {
      assert n[|n| - 1] == suffix[|suffix| - 1];
    } else {
      TrimmedLabel(if |n| > PREFIX then n[..PREFIX] else n, digest(original));
    }
  }

  // ---- what a name looks like ----

  /** `p` is what is left of the name: the first characters, dots as hyphens, a letter put before a digit, no hyphen at the end. */
  ghost predicate Recalls(p: string, original: string) {
    var o := if original != "" && '0' <= original[0] <= '9' then 2 else 0;
    && |p| <= 46 && |p| <= |original| + o && (p != "" ==> p[|p| - 1] != '-')
    && (forall i :: 0 <= i < |p| ==>
          p[i] == if i < o then "c-"[i] else if original[i - o] == '.' then '-' else original[i - o])
    && (forall k :: |p| - o <= k < 46 - o && 0 <= k < |original| ==> original[k] == '.' || original[k] == '-')
  }

  lemma NormalizedAt(original: string)
    requires original != ""
    ensures var n := Normalized(original);
      var o := if '0' <= original[0] <= '9' then 2 else 0;
      && |n| == |original| + o
      && (o == 2 ==> n[0] == 'c' && n[1] == '-')
      && forall k :: 0 <= k < |original| ==> n[k + o] == if original[k] == '.' then '-' else original[k]
  {
    var dashed := ReplaceDots(original);
    assert IsDigit(original[0]) ==> forall k :: 0 <= k < |original| ==> ("c-" + dashed)[k + 2] == dashed[k];
  }

  lemma ShortenedAt(original: string)
    requires original != ""
    ensures var n, p := Normalized(original), Shortened(original);
      && |p| <= 46 && p <= n && (p != "" ==> p[|p| - 1] != '-')
      && forall i :: |p| <= i < 46 && i < |n| ==> n[i] == '-'
  {
    var n := Normalized(original);
    hide Normalized, TrimRight;
    var cut := if |n| > PREFIX then n[..PREFIX] else n;
    assert cut <= n && forall i :: 0 <= i < |cut| ==> cut[i] == n[i];
  }

  lemma ShortenedRecalls(original: string)
    requires original != ""
    ensures Recalls(Shortened(original), original)
  {
    NormalizedAt(original);
    ShortenedAt(original);
    hide Normalized, Shortened;
    PrefixRecalls(Shortened(original), Normalized(original), original);
  }

  lemma PrefixRecalls(p: string, n: string, original: string)
    requires |p| <= 46 && p <= n && (p != "" ==> p[|p| - 1] != '-')
    requires forall i :: |p| <= i < 46 && i < |n| ==> n[i] == '-'
    requires var o := if original != "" && '0' <= original[0] <= '9' then 2 else 0;
      && |n| == |original| + o && (o == 2 ==> n[0] == 'c' && n[1] == '-')
      && forall k :: 0 <= k < |original| ==> n[k + o] == if original[k] == '.' then '-' else original[k]
    ensures Recalls(p, original)
  {
    var o := |n| - |original|;
    forall i | 0 <= i < |p|
      ensures p[i] == if i < o then "c-"[i] else if original[i - o] == '.' then '-' else original[i - o]
    {
      assert p[i] == n[i];
      if i >= o {
        assert n[(i - o) + o] == n[i];
      } else {
        assert i == 0 || i == 1;
      }
    }
    forall k | |p| - o <= k < 46 - o && 0 <= k < |original| ensures original[k] == '.' || original[k] == '-' {
      assert n[k + o] == '-';
    }
  }

  /** Used as it is exactly if it is short, without dots and does not begin with a digit. */
  lemma PlainMeans(name: string, suffix: string)
    ensures var original := name + "-" + suffix;
      Plain(name, suffix) <==> |original| <= 63 && '.' !in original && !('0' <= original[0] <= '9')
  {
    var original := name + "-" + suffix;
    var n := Normalized(original);
    NormalizedAt(original);
    hide Normalized;
    if |n| == |original| {
      SameWithoutDots(n, original);
    }
  }

  lemma SameWithoutDots(n: string, original: string)
    requires |n| == |original|
    requires forall k :: 0 <= k < |original| ==> n[k + 0] == if original[k] == '.' then '-' else original[k]
    ensures n == original <==> '.' !in original
  {
    if '.' in original {
      var k :| 0 <= k < |original| && original[k] == '.';
      assert n[k + 0] != original[k];
    }
  }

  lemma CutDigest(p: string, hex: string)
    requires |hex| == 16
    ensures var r := p + "-" + hex;
      |r| >= 17 && r[..|r| - 17] == p && r[|r| - 17..] == "-" + hex
  {
  }

  /**
   A name and suffix that make a short label are joined by a hyphen and used as they are;
   otherwise what fits of them is followed by the digest of all of them.
   */
  lemma ResourceNameForm(digest: string -> string, name: string, suffix: string)
    requires HexDigest(digest)
    ensures var original := name + "-" + suffix;
      var r := ResourceName(digest, name, suffix);
      if |original| <= 63 && '.' !in original && !('0' <= original[0] <= '9') then r == original
      else |r| >= 17 && Recalls(r[..|r| - 17], original) && r[|r| - 17..] == "-" + digest(original)
  {
    var original := name + "-" + suffix;
    PlainMeans(name, suffix);
    ShortenedRecalls(original);
    CutDigest(Shortened(original), digest(original));
    hide Normalized, Shortened, Recalls;
    if Plain(name, suffix) {
      assert Normalized(original) == original;
    }
  }

  // ---- collisions ----

  /** A suffix that cannot be mistaken for the end of a digest. */
  predicate NotHex(suffix: string) {
    |suffix| < DIGEST || exists i | |suffix| - DIGEST <= i < |suffix| :: !IsHex(suffix[i])
  }

  /** A name used as it is does not end like one with a digest. */
  lemma PlainIsNotHashed(name: string, suffix: string, prefix: string, hex: string)
    requires NotHex(suffix) && |hex| == DIGEST && forall i :: 0 <= i < DIGEST ==> IsHex(hex[i])
    ensures name + "-" + suffix != prefix + "-" + hex
  {
    var a, b := name + "-" + suffix, prefix + "-" + hex;
    forall i | |b| - DIGEST <= i < |b| ensures IsHex(b[i]) {
      assert b[i] == hex[i - |b| + DIGEST];
    }
    var k := |name|;
    if |suffix| >= DIGEST {
      var i :| |suffix| - DIGEST <= i < |suffix| && !IsHex(suffix[i]);
      k := |name| + 1 + i;
    }
    assert |a| - DIGEST <= k < |a| && !IsHex(a[k]);
  }

  /** With such a suffix, two names share a child name only if they are equal or their digests collide. */
  lemma ResourceNameCollision(digest: string -> string, a: string, b: string, suffix: string)
    requires HexDigest(digest) && NotHex(suffix)
    requires ResourceName(digest, a, suffix) == ResourceName(digest, b, suffix)
    ensures a == b || digest(Original(a, suffix)) == digest(Original(b, suffix))
  {
    var x, y := Original(a, suffix), Original(b, suffix);
    var r := ResourceName(digest, a, suffix);
    if Plain(a, suffix) && Plain(b, suffix) {
      assert x[..|x| - |suffix| - 1] == a && y[..|y| - |suffix| - 1] == b;
    } else if Plain(a, suffix) {
      PlainIsNotHashed(a, suffix, Shortened(y), digest(y));
    } else if Plain(b, suffix) {
      PlainIsNotHashed(b, suffix, Shortened(x), digest(x));
    } else {
      assert r[|r| - DIGEST..] == digest(x);
      assert r[|r| - DIGEST..] == digest(y);
    }
  }

  /** The names the suffix can be confused with when it is itself a digest: a collision without a digest collision. */
  lemma HexSuffixCollides(digest: string -> string, b: string, suffix: string)
    requires HexDigest(digest) && IsName(b) && |suffix| == DIGEST
    requires !Plain(b, suffix) && digest(Original(b, suffix)) == suffix && '.' in b
    ensures var a := Shortened(Original(b, suffix));
      a != b && ResourceName(digest, a, suffix) == ResourceName(digest, b, suffix)
  {
    var original := Original(b, suffix);
    assert forall i :: 0 <= i < |suffix| ==> IsHex(suffix[i]);
    forall i | 0 <= i < |original| ensures IsLetDig(original[i]) || original[i] == '-' || original[i] == '.' {
      if i > |b| {
        assert original[i] == suffix[i - |b| - 1];
      }
    }
    NormalizedLabel(original);
    var a := Shortened(original);
    assert a != "" && a[0] == Normalized(original)[0] && '.' !in a;
    var x := Original(a, suffix);
    assert forall i :: 0 <= i < |x| ==> x[i] == if i < |a| then a[i] else if i == |a| then '-' else suffix[i - |a| - 1];
    assert ReplaceDots(x) == x;
  }
}

/** Pod naming in hub mode: `sanitize` and the name shared by both pod builders. */
module Naming {

  /** Lower-casing as far as it can produce an allowed character: ASCII letters and the
      two code points outside ASCII whose lower case is an ASCII letter. Any other
      lower-case result is not allowed and becomes a hyphen anyway. */
  function Lower(c: char): char
  {
    if 'A' <= c <= 'Z' then c - 'A' + 'a'
    else if c == '\U{212A}' then 'k'
    else if c == '\U{0130}' then 'i'
    else c
  }

  predicate Allowed(c: char)
  {
    'a' <= c <= 'z' || '0' <= c <= '9' || c == '-'
  }

  function Clean(c: char): char
  {
    if Allowed(Lower(c)) then Lower(c) else '-'
  }

  function CleanAll(s: string): (r: string)
    ensures |r| == |s| && forall i :: 0 <= i < |s| ==> r[i] == Clean(s[i])
  {
    seq(|s|, i requires 0 <= i < |s| => Clean(s[i]))
  }

  function TrimLeft(s: string): (r: string)
    ensures r == [] || r[0] != '-'
    ensures |r| <= |s|
  {
    if s != [] && s[0] == '-' then TrimLeft(s[1..]) else s
  }

  function TrimRight(s: string): (r: string)
    ensures r == [] || r[|r| - 1] != '-'
    ensures |r| <= |s|
  {
    if s != [] && s[|s| - 1] == '-' then TrimRight(s[..|s| - 1]) else s
  }

  function Trim(s: string): string
  {
    TrimRight(TrimLeft(s))
  }

  function SanitizeSpec(s: string): string
  {
    Trim(CleanAll(s))
  }

  /** The builder loop of `sanitize`. */
  method Sanitize(s: string) returns (r: string)
    ensures r == SanitizeSpec(s)
  {
    var b := "";
    for i := 0 to |s|
      invariant |b| == i
      invariant forall k :: 0 <= k < i ==> b[k] == Clean(s[k])
    {
      var c := Lower(s[i]);
      if Allowed(c) {
        b := b + [c];
      } else {
        b := b + ['-'];
      }
    }
    assert b == CleanAll(s);
    r := Trim(b);
  }

  /** A string Kubernetes naming can take as it is: allowed characters, no hyphen at
      either end. */
  predicate Canonical(s: string)
  {
    && (forall i :: 0 <= i < |s| ==> Allowed(s[i]))
    && (s != [] ==> s[0] != '-' && s[|s| - 1] != '-')
  }

  function Hyphens(n: nat): (r: string)
    ensures |r| == n && forall i :: 0 <= i < n ==> r[i] == '-'
  {
    seq(n, i requires 0 <= i < n => '-')
  }

  lemma HyphensFirst(n: nat)
    ensures Hyphens(n + 1) == "-" + Hyphens(n) == Hyphens(n) + "-"
  {}

  lemma {:induction false} TrimLeftCut(s: string)
    ensures s == Hyphens(|s| - |TrimLeft(s)|) + TrimLeft(s)
  {
    if s != "" && s[0] == '-' {
      TrimLeftCut(s[1..]);
      HyphensFirst(|s| - 1 - |TrimLeft(s)|);
      assert s == "-" + s[1..];
    }
  }

  lemma {:induction false} TrimRightCut(s: string)
    ensures s == TrimRight(s) + Hyphens(|s| - |TrimRight(s)|)
  {
    if s != "" && s[|s| - 1] == '-' {
      TrimRightCut(s[..|s| - 1]);
      HyphensFirst(|s| - 1 - |TrimRight(s)|);
      assert s == s[..|s| - 1] + "-";
    }
  }

  /** Trimming cuts off hyphens and nothing else. */
  lemma TrimCut(s: string) returns (n: nat, m: nat)
    ensures s == Hyphens(n) + (Trim(s) + Hyphens(m))
  {
    TrimLeftCut(s);
    TrimRightCut(TrimLeft(s));
    n, m := |s| - |TrimLeft(s)|, |TrimLeft(s)| - |Trim(s)|;
  }

  lemma TrimEnds(s: string)
    ensures Trim(s) != "" ==> Trim(s)[0] != '-' && Trim(s)[|Trim(s)| - 1] != '-'
  {
    var left := TrimLeft(s);
    TrimRightCut(left);
    if Trim(s) != "" { assert left[0] == Trim(s)[0]; }
  }

  lemma SanitizeCanonical(s: string)
    ensures Canonical(SanitizeSpec(s))
  {
    var all, r := CleanAll(s), SanitizeSpec(s);
    var n, m := TrimCut(all);
    TrimEnds(all);
    forall i | 0 <= i < |r| ensures Allowed(r[i]) { assert r[i] == all[n + i]; }
  }

  lemma TrimKeeps(s: string)
    requires s != "" ==> s[0] != '-' && s[|s| - 1] != '-'
    ensures Trim(s) == s
  {
    assert TrimLeft(s) == s;
  }

  /** `sanitize` leaves exactly the canonical strings alone, so it is idempotent. */
  lemma SanitizeFixesCanonical(s: string)
    ensures SanitizeSpec(s) == s <==> Canonical(s)
  {
    SanitizeCanonical(s);
    if Canonical(s) {
      assert CleanAll(s) == s;
      TrimKeeps(s);
    }
  }

  /** What becomes of one character, by code point: upper-case letters are lowered, lower-case letters,
      digits and the hyphen stay, the Kelvin sign and the dotted capital I give a letter, everything
      else gives a hyphen. */
  predicate Becomes(c: char, r: char)
  {
    var n := c as int;
    r as int == if 65 <= n <= 90 then n + 32
                else if 97 <= n <= 122 || 48 <= n <= 57 then n
                else if n == 0x212A then 107
                else if n == 0x130 then 105
                else 45
  }

  /** `r` is what `s[from..to]` becomes, it has no hyphen at either end, and everything cut off would
      have become a hyphen. */
  predicate Survives(s: string, r: string, from: nat, to: nat)
  {
    && from <= to <= |s| && |r| == to - from
    && (forall k :: from <= k < to ==> Becomes(s[k], r[k - from]))
    && (forall k :: 0 <= k < |s| && !(from <= k < to) ==> Becomes(s[k], '-'))
    && (r == "" || (r[0] as int != 45 && r[|r| - 1] as int != 45))
  }

  lemma CleanMeans(c: char, r: char)
    ensures Clean(c) == r <==> Becomes(c, r)
  {}

  lemma {:induction false} TrimLeftIs(n: nat, r: string)
    requires r == "" || r[0] != '-'
    ensures TrimLeft(Hyphens(n) + r) == r
  {
    if n == 0 {
      assert Hyphens(0) + r == r;
    } else {
      assert (Hyphens(n) + r)[1..] == Hyphens(n - 1) + r;
      TrimLeftIs(n - 1, r);
    }
  }

  lemma {:induction false} TrimRightIs(r: string, n: nat)
    requires r == "" || r[|r| - 1] != '-'
    ensures TrimRight(r + Hyphens(n)) == r
  {
    if n == 0 {
      assert r + Hyphens(0) == r;
    } else {
      var t := r + Hyphens(n);
      assert t[..|t| - 1] == r + Hyphens(n - 1);
      TrimRightIs(r, n - 1);
    }
  }

  lemma SurvivesOnce(s: string, r: string, from: nat, to: nat)
    requires Survives(s, r, from, to)
    ensures SanitizeSpec(s) == r
  {
    var all := CleanAll(s);
    CleanedMeans(s);
    if r == "" {
      assert all == Hyphens(|s|) + "";
      TrimLeftIs(|s|, "");
    } else {
      var tail := r + Hyphens(|s| - to);
      forall k | from <= k < to ensures all[k] == r[k - from] { assert Becomes(s[k], r[k - from]); }
      assert all == Hyphens(from) + tail;
      TrimLeftIs(from, tail);
      TrimRightIs(r, |s| - to);
    }
  }

  lemma CleanedMeans(s: string)
    ensures forall k :: 0 <= k < |s| ==> Becomes(s[k], CleanAll(s)[k])
  {
    forall k | 0 <= k < |s| ensures Becomes(s[k], CleanAll(s)[k]) { CleanMeans(s[k], CleanAll(s)[k]); }
  }

  lemma SanitizedSurvives(s: string) returns (from: nat, to: nat)
    ensures Survives(s, SanitizeSpec(s), from, to)
  {
    var m;
    from, m := TrimCut(CleanAll(s));
    SanitizeCanonical(s);
    to := from + |SanitizeSpec(s)|;
    Placed(s, SanitizeSpec(s), from, m);
  }

  lemma Placed(s: string, r: string, n: nat, m: nat)
    requires CleanAll(s) == Hyphens(n) + (r + Hyphens(m)) && (r == "" || (r[0] != '-' && r[|r| - 1] != '-'))
    ensures Survives(s, r, n, n + |r|)
  {
    CleanedMeans(s);
    assert forall k :: n <= k < n + |r| ==> CleanAll(s)[k] == r[k - n];
  }

  /** `sanitize` by code points: there is exactly one string that survives, and it is the result. */
  lemma SanitizeMeans(s: string, r: string)
    ensures r == SanitizeSpec(s) <==> exists from: nat, to: nat :: Survives(s, r, from, to)
  {
    if from: nat, to: nat :| Survives(s, r, from, to) {
      SurvivesOnce(s, r, from, to);
    }
    var from, to := SanitizedSurvives(s);
  }

  lemma PrefixCancels(p: string, a: string, b: string)
    ensures p + a == p + b <==> a == b
  {
    assert (p + a)[|p|..] == a && (p + b)[|p|..] == b;
  }

  function PodName(serial: string): string
  {
    "hub-test-" + SanitizeSpec(serial)
  }

  /** A pod's name in full. */
  lemma PodNameOfPixel()
    ensures PodName("_Pixel.7A ") == "hub-test-pixel-7a"
  {
    var r := "pixel-7a";
    assert "hub-test-" + r == "hub-test-pixel-7a";
    assert Survives("_Pixel.7A ", r, 1, 9);
    SurvivesOnce("_Pixel.7A ", r, 1, 9);
  }

  /** On canonical serials (the lower-case alphanumeric serials hub-server hands out)
      distinct devices get distinct pod names. */
  lemma PodNameInjective(s: string, t: string)
    requires Canonical(s) && Canonical(t)
    ensures PodName(s) == PodName(t) <==> s == t
  {
    SanitizeFixesCanonical(s);
    SanitizeFixesCanonical(t);
    PrefixCancels("hub-test-", s, t);
  }

  /** Outside the canonical serials two devices can share one pod name. */
  lemma PodNameCollision()
    ensures PodName("a_b") == PodName("a.b")
  {
    assert CleanAll("a_b") == "a-b" == CleanAll("a.b");
  }
}

/**
 String operations the routing compiler, its interpreter and the settings
 normaliser share. Letter case is the ASCII one; see README.md.
 */
module Text {

  predicate HasSuffix(s: string, t: string) {
    |t| <= |s| && s[|s| - |t|..] == t
  }

  function TrimPrefix(s: string, p: string): string {
    if |p| <= |s| && s[..|p|] == p then s[|p|..] else s
  }

  function TrimSuffix(s: string, t: string): string {
    if HasSuffix(s, t) then s[..|s| - |t|] else s
  }

  function LowerChar(c: char): char {
    if 'A' <= c <= 'Z' then (c as int + 32) as char else c
  }

  function Lower(s: string): (r: string)
    ensures |r| == |s|
    ensures forall i :: 0 <= i < |s| ==> r[i] == LowerChar(s[i])
  {
    seq(|s|, i requires 0 <= i < |s| => LowerChar(s[i]))
  }

  /** Case-insensitive comparison (`strings.EqualFold`). */
  predicate SameName(a: string, b: string) {
    Lower(a) == Lower(b)
  }

  predicate IsSpace(c: char) {
    c == ' ' || '\t' as int <= c as int <= '\r' as int
  }

  /** Strips what is blank from both ends. */
  function Trim<T>(s: seq<T>, blank: T -> bool): (r: seq<T>)
    ensures |r| <= |s|
    decreases |s|
  {
    if s == [] then s
    else if blank(s[0]) then Trim(s[1..], blank)
    else if blank(s[|s| - 1]) then Trim(s[..|s| - 1], blank)
    else s
  }

  function TrimSpace(s: string): string {
    Trim(s, IsSpace)
  }

  predicate AllBlank<T>(s: seq<T>, blank: T -> bool) {
    forall i :: 0 <= i < |s| ==> blank(s[i])
  }

  predicate Trimmed<T>(s: seq<T>, blank: T -> bool) {
    s == [] || (!blank(s[0]) && !blank(s[|s| - 1]))
  }

  /** What is left is what stood between the blanks. */
  lemma {:induction false} TrimExactly<T>(lead: seq<T>, t: seq<T>, trail: seq<T>, blank: T -> bool)
    requires AllBlank(lead, blank) && Trimmed(t, blank) && AllBlank(trail, blank)
    ensures Trim(lead + t + trail, blank) == t
    decreases |lead| + 2 * |trail|
  {
    var s := lead + t + trail;
    if lead != [] {
      assert s[1..] == lead[1..] + t + trail;
      TrimExactly(lead[1..], t, trail, blank);
    } else if trail != [] {
      if t == [] {
        assert s == trail + [] + [];
        TrimExactly(trail, t, [], blank);
      } else {
        assert s[0] == t[0] && s[..|s| - 1] == lead + t + trail[..|trail| - 1];
        TrimExactly(lead, t, trail[..|trail| - 1], blank);
      }
    } else {
      assert s == t;
    }
  }

  /** And everything is some text between blanks. */
  lemma {:induction false} TrimSplits<T>(s: seq<T>, blank: T -> bool) returns (lead: seq<T>, trail: seq<T>)
    ensures s == lead + Trim(s, blank) + trail && Trimmed(Trim(s, blank), blank)
    ensures AllBlank(lead, blank) && AllBlank(trail, blank)
    decreases |s|
  {
    lead, trail := [], [];
    if s != [] {
      if blank(s[0]) {
        lead, trail := TrimSplits(s[1..], blank);
        Reassociate([s[0]], lead + Trim(s, blank), trail);
        Reassociate([s[0]], lead, Trim(s, blank));
        assert s == [s[0]] + s[1..];
        lead := [s[0]] + lead;
      } else if blank(s[|s| - 1]) {
        lead, trail := TrimSplits(s[..|s| - 1], blank);
        Reassociate(lead + Trim(s, blank), trail, [s[|s| - 1]]);
        assert s == s[..|s| - 1] + [s[|s| - 1]];
        trail := trail + [s[|s| - 1]];
      }
    }
  }

  /** The six characters of white space. */
  lemma SpacesExactly(c: char)
    ensures IsSpace(c) <==> c as int in {0x20, 0x09, 0x0A, 0x0B, 0x0C, 0x0D}
  {
  }

  /** Case folding takes the n-th capital to the n-th small letter and touches nothing else. */
  lemma LowerExactly(c: char, n: int)
    ensures c as int == 'A' as int + n && 0 <= n < 26 ==> LowerChar(c) as int == 'a' as int + n
    ensures !('A' <= c <= 'Z') ==> LowerChar(c) == c
  {
  }

  lemma LowerTrimmed(s: string)
    ensures Lower(Lower(s)) == Lower(s)
    ensures Trimmed(s, IsSpace) ==> TrimSpace(Lower(s)) == Lower(s)
  {
    var t := Lower(s);
    assert Lower(t) == t;
    if Trimmed(s, IsSpace) {
      assert Trimmed(t, IsSpace);
    }
  }

  predicate IsSeparator(c: char) {
    c == '\\' || c == '/' || c == ':'
  }

  /** Whether an application rule names a path rather than a bare executable. */
  predicate IsPath(s: string) {
    exists i :: 0 <= i < |s| && IsSeparator(s[i])
  }

  function AfterLastSeparator(s: string): string {
    if s == "" || IsSeparator(s[|s| - 1]) then ""
    else AfterLastSeparator(s[..|s| - 1]) + [s[|s| - 1]]
  }

  lemma {:induction false} WholeName(n: string)
    requires !IsPath(n)
    ensures AfterLastSeparator(n) == n
  {
    if n != "" {
      assert !IsSeparator(n[|n| - 1]);
      WholeName(n[..|n| - 1]);
    }
  }

  /** The base of a path is the name after its last separator, whichever kind that is. */
  lemma {:induction false} BaseExactly(directory: string, name: string)
    requires directory != "" && IsSeparator(directory[|directory| - 1]) && !IsPath(name)
    ensures Base(directory + name) == name
  {
    var path := directory + name;
    if name == "" {
      assert path == directory;
    } else {
      assert !IsSeparator(name[|name| - 1]);
      assert path[..|path| - 1] == directory + name[..|name| - 1];
      BaseExactly(directory, name[..|name| - 1]);
    }
  }

  /** `filepath.Base` of a cleaned executable path; the base of nothing is ".". */
  function Base(path: string): string {
    if path == "" then "." else AfterLastSeparator(path)
  }

  /** `filepath.Clean` on paths that are already clean; nothing becomes ".". */
  function Clean(path: string): string {
    if path == "" then "." else path
  }

  function Digit(d: nat): char
    requires d < 10
  {
    "0123456789"[d]
  }

  function Decimal(n: nat): (s: string)
    ensures s != ""
  {
    if n < 10 then [Digit(n)] else Decimal(n / 10) + [Digit(n % 10)]
  }

  lemma {:induction false} DecimalInjective(m: nat, n: nat)
    requires Decimal(m) == Decimal(n)
    ensures m == n
  {
    var s, t := Decimal(m), Decimal(n);
    assert s[|s| - 1] == Digit(m % 10) && t[|t| - 1] == Digit(n % 10);
    if m >= 10 && n >= 10 {
      assert Decimal(m / 10) == s[..|s| - 1] && Decimal(n / 10) == t[..|t| - 1];
      DecimalInjective(m / 10, n / 10);
    }
  }

  /** Appends the members of `xs` that `acc` does not hold yet, in order. */
  function AddNew(acc: seq<string>, xs: seq<string>): seq<string>
    decreases |xs|
  {
    if xs == [] then acc
    else AddNew(if xs[0] in acc then acc else acc + [xs[0]], xs[1..])
  }

  lemma {:induction false} AddNewMembers(acc: seq<string>, xs: seq<string>)
    ensures forall x :: x in AddNew(acc, xs) <==> x in acc || x in xs
    decreases |xs|
  {
    if xs != [] {
      var acc' := if xs[0] in acc then acc else acc + [xs[0]];
      AddNewMembers(acc', xs[1..]);
      forall x ensures x in AddNew(acc, xs) <==> x in acc || x in xs {
        assert x in xs <==> x == xs[0] || x in xs[1..];
      }
    }
  }

  lemma Reassociate<T>(a: seq<T>, b: seq<T>, c: seq<T>)
    ensures a + (b + c) == a + b + c
  {
  }
}

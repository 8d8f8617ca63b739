/**
 The "block untunneled traffic" checkbox of client/ui/editdialog.go and the rule
 in core/addressconfig.go it is meant to flip. Checking the box merges the two
 halves of an address family into its default route; unchecking splits it again.
 */
module AllowedIps {
  import opened Options
  import opened Addresses

  function All(f: Family): Prefix { Prefix(f, 0, 0) }

  function Low(f: Family): Prefix { Prefix(f, 0, 1) }

  /** 128.0.0.0/1, or 8000::/1: the top bit set. */
  function High(f: Family): Prefix { Prefix(f, Pow2(f.Width() - 1), 1) }

  /** The set of addresses a list of prefixes covers, compared. */
  ghost predicate SameCover(a: seq<Prefix>, b: seq<Prefix>) {
    forall ip :: ValidIp(ip) ==> (AnyContains(a, ip) <==> AnyContains(b, ip))
  }

  // ----------------------------------------------------------------- geometry

  lemma AllContains(f: Family, ip: Ip)
    requires ValidIp(ip)
    ensures Contains(All(f), ip) <==> ip.family == f
  {
    if ip.family == f {
      SmallQuotient(ip.addr, Pow2(f.Width()));
      SmallQuotient(0, Pow2(f.Width()));
    }
  }

  /** The two halves of a family are exactly the whole of it. */
  lemma HalvesContain(f: Family, ip: Ip)
    requires ValidIp(ip)
    ensures Contains(Low(f), ip) || Contains(High(f), ip) <==> ip.family == f
  {
    if ip.family == f {
      var half := Pow2(f.Width() - 1);
      assert Pow2(f.Width()) == 2 * half;
      assert half / half == 1;
      if ip.addr < half {
        assert ip.addr / half == 0 && 0 / half == 0;
      } else {
        assert ip.addr == half + (ip.addr - half);
        OneAndAHalf(ip.addr, half);
      }
    }
  }

  lemma SmallQuotient(a: nat, n: nat)
    requires a < n
    ensures a / n == 0
  {
  }

  lemma OneAndAHalf(a: nat, half: nat)
    requires 0 < half <= a < 2 * half
    ensures a / half == 1
  {
  }

  lemma CoverAppend(a: seq<Prefix>, b: seq<Prefix>, ip: Ip)
    ensures AnyContains(a + b, ip) <==> AnyContains(a, ip) || AnyContains(b, ip)
  {
    if i :| 0 <= i < |a| && Contains(a[i], ip) { assert (a + b)[i] == a[i]; }
    if i :| 0 <= i < |b| && Contains(b[i], ip) { assert (a + b)[|a| + i] == b[i]; }
  }

  lemma CoverOne(p: Prefix, ip: Ip)
    ensures AnyContains([p], ip) <==> Contains(p, ip)
  {
    if Contains(p, ip) { assert Contains([p][0], ip); }
  }

  // --------------------------------------------------------------- the filter

  function Without(allowed: seq<Prefix>, drop: set<Prefix>): seq<Prefix> {
    if allowed == [] then []
    else (if allowed[0] in drop then [] else [allowed[0]]) + Without(allowed[1..], drop)
  }

  lemma {:induction false} WithoutMembers(allowed: seq<Prefix>, drop: set<Prefix>)
    ensures forall p :: p in Without(allowed, drop) <==> p in allowed && p !in drop
  {
    if allowed != [] {
      WithoutMembers(allowed[1..], drop);
      assert forall p :: p in allowed <==> p == allowed[0] || p in allowed[1..];
    }
  }

  lemma WithoutStep(done: seq<Prefix>, allowed: seq<Prefix>, i: nat, drop: set<Prefix>)
    requires i < |allowed|
    ensures done + Without(allowed[i..], drop)
         == (if allowed[i] in drop then done else done + [allowed[i]]) + Without(allowed[i + 1..], drop)
  {
    assert allowed[i..][1..] == allowed[i + 1..];
  }

  /** Dropping entries loses exactly what the dropped ones that were there covered. */
  lemma WithoutCovers(allowed: seq<Prefix>, drop: set<Prefix>, ip: Ip)
    ensures AnyContains(allowed, ip) <==>
            AnyContains(Without(allowed, drop), ip) || exists p :: p in drop && p in allowed && Contains(p, ip)
  {
    var kept := Without(allowed, drop);
    WithoutMembers(allowed, drop);
    if i :| 0 <= i < |allowed| && Contains(allowed[i], ip) {
      if allowed[i] !in drop {
        assert allowed[i] in kept;
        var k :| 0 <= k < |kept| && kept[k] == allowed[i];
      }
    }
    if i :| 0 <= i < |kept| && Contains(kept[i], ip) {
      assert kept[i] in allowed;
      var k :| 0 <= k < |allowed| && allowed[k] == kept[i];
    }
  }

  // --------------------------------------------------------------------- block

  function HalvesSet(): set<Prefix> { {Low(V4), High(V4), Low(V6), High(V6)} }

  /** What is put back for one family: its default route, or the one half there was. */
  function Merged(f: Family, low: bool, high: bool): seq<Prefix> {
    if low && high then [All(f)] else if low then [Low(f)] else if high then [High(f)] else []
  }

  lemma MergedCovers(f: Family, low: bool, high: bool, ip: Ip)
    requires ValidIp(ip)
    ensures AnyContains(Merged(f, low, high), ip) <==> (low && Contains(Low(f), ip)) || (high && Contains(High(f), ip))
  {
    AllContains(f, ip);
    HalvesContain(f, ip);
    CoverOne(All(f), ip);
    CoverOne(Low(f), ip);
    CoverOne(High(f), ip);
  }

  function Blocked(allowed: seq<Prefix>): seq<Prefix> {
    Without(allowed, HalvesSet())
    + Merged(V4, Low(V4) in allowed, High(V4) in allowed)
    + Merged(V6, Low(V6) in allowed, High(V6) in allowed)
  }

  lemma BlockedCovers(allowed: seq<Prefix>)
    ensures SameCover(allowed, Blocked(allowed))
  {
    var kept := Without(allowed, HalvesSet());
    var m4 := Merged(V4, Low(V4) in allowed, High(V4) in allowed);
    var m6 := Merged(V6, Low(V6) in allowed, High(V6) in allowed);
    forall ip | ValidIp(ip) ensures AnyContains(allowed, ip) <==> AnyContains(Blocked(allowed), ip) {
      WithoutCovers(allowed, HalvesSet(), ip);
      MergedCovers(V4, Low(V4) in allowed, High(V4) in allowed, ip);
      MergedCovers(V6, Low(V6) in allowed, High(V6) in allowed, ip);
      CoverAppend(kept, m4, ip);
      CoverAppend(kept + m4, m6, ip);
    }
  }

  predicate BothHalves(allowed: seq<Prefix>, f: Family) {
    Low(f) in allowed && High(f) in allowed
  }

  // ------------------------------------------------------------------- unblock

  function Split(f: Family, found: bool): seq<Prefix> {
    if found then [Low(f), High(f)] else []
  }

  function Unblocked(allowed: seq<Prefix>): seq<Prefix> {
    Without(allowed, {All(V4), All(V6)}) + Split(V4, All(V4) in allowed) + Split(V6, All(V6) in allowed)
  }

  lemma SplitCovers(f: Family, found: bool, ip: Ip)
    requires ValidIp(ip)
    ensures AnyContains(Split(f, found), ip) <==> found && Contains(All(f), ip)
  {
    AllContains(f, ip);
    HalvesContain(f, ip);
    if found {
      assert [Low(f), High(f)] == [Low(f)] + [High(f)];
      CoverAppend([Low(f)], [High(f)], ip);
      CoverOne(Low(f), ip);
      CoverOne(High(f), ip);
    }
  }

  lemma UnblockedCovers(allowed: seq<Prefix>)
    ensures SameCover(allowed, Unblocked(allowed))
  {
    var kept := Without(allowed, {All(V4), All(V6)});
    var s4, s6 := Split(V4, All(V4) in allowed), Split(V6, All(V6) in allowed);
    forall ip | ValidIp(ip) ensures AnyContains(allowed, ip) <==> AnyContains(Unblocked(allowed), ip) {
      WithoutCovers(allowed, {All(V4), All(V6)}, ip);
      SplitCovers(V4, All(V4) in allowed, ip);
      SplitCovers(V6, All(V6) in allowed, ip);
      CoverAppend(kept, s4, ip);
      CoverAppend(kept + s4, s6, ip);
    }
  }

  // -------------------------------------------------------------- the firewall

  predicate IsZeroDefault(p: Prefix) {
    p.bits == 0 && p.addr == 0
  }

  predicate HasZeroDefault(allowed: seq<Prefix>) {
    exists i :: 0 <= i < |allowed| && IsZeroDefault(allowed[i])
  }

  /** core/addressconfig.go:172-190: restrict only a single peer that routes a whole family. */
  method EnableFirewall(peers: seq<seq<Prefix>>, tableOff: bool) returns (restricts: bool)
    ensures restricts <==>
            |peers| == 1 && !tableOff && exists p :: p in peers[0] && p.bits == 0 && p.addr == 0
  {
    restricts := false;
    if |peers| == 1 && !tableOff {
      for i := 0 to |peers[0]|
        invariant forall k :: 0 <= k < i ==> !IsZeroDefault(peers[0][k])
      {
        if peers[0][i].bits == 0 && peers[0][i].addr == 0 {
          assert peers[0][i] in peers[0];
          return true;
        }
      }
    }
  }

  lemma ZeroDefaults(p: Prefix)
    ensures IsZeroDefault(p) <==> p == All(V4) || p == All(V6)
  {
    assert p.family == V4 || p.family == V6;
  }

  // ------------------------------------------------------------- the checkbox

  /** The scan that takes the halves out and remembers which of them were there. */
  method TakeHalves(allowed: seq<Prefix>) returns (kept: seq<Prefix>, low4: bool, high4: bool, low6: bool, high6: bool)
    ensures kept == Without(allowed, HalvesSet())
    ensures low4 == (Low(V4) in allowed) && high4 == (High(V4) in allowed)
    ensures low6 == (Low(V6) in allowed) && high6 == (High(V6) in allowed)
  {
    var l4, h4, l6, h6 := Low(V4), High(V4), Low(V6), High(V6);
    kept, low4, high4, low6, high6 := [], false, false, false, false;
    for i := 0 to |allowed|
      invariant kept + Without(allowed[i..], {l4, h4, l6, h6}) == Without(allowed, {l4, h4, l6, h6})
      invariant low4 == (l4 in allowed[..i]) && high4 == (h4 in allowed[..i])
      invariant low6 == (l6 in allowed[..i]) && high6 == (h6 in allowed[..i])
    {
      var p := allowed[i];
      WithoutStep(kept, allowed, i, {l4, h4, l6, h6});
      if p == l6 { low6 := true; }
      else if p == h6 { high6 := true; }
      else if p == l4 { low4 := true; }
      else if p == h4 { high4 := true; }
      else { kept := kept + [p]; }
    }
    assert kept + [] == kept;
  }

  method Block(allowed: seq<Prefix>) returns (r: Option<seq<Prefix>>)
    ensures r.Some? <==> BothHalves(allowed, V4) || BothHalves(allowed, V6)
    ensures r.Some? ==> SameCover(allowed, r.value) && HasZeroDefault(r.value)
    ensures r.Some? ==> All(V4) in r.value || All(V6) in r.value
  {
    var kept, low4, high4, low6, high6 := TakeHalves(allowed);
    if !((low4 && high4) || (low6 && high6)) { return None; }
    kept := kept + Merged(V4, low4, high4) + Merged(V6, low6, high6);
    BlockedCovers(allowed);
    BlockedRestricts(allowed);
    r := Some(kept);
  }

  lemma BlockedRestricts(allowed: seq<Prefix>)
    requires BothHalves(allowed, V4) || BothHalves(allowed, V6)
    ensures HasZeroDefault(Blocked(allowed)) && (All(V4) in Blocked(allowed) || All(V6) in Blocked(allowed))
  {
    var kept := Without(allowed, HalvesSet());
    var m4 := Merged(V4, Low(V4) in allowed, High(V4) in allowed);
    if BothHalves(allowed, V4) {
      assert Blocked(allowed)[|kept|] == All(V4);
    } else {
      assert Blocked(allowed)[|kept + m4|] == All(V6);
    }
  }

  method TakeDefaults(allowed: seq<Prefix>) returns (kept: seq<Prefix>, found4: bool, found6: bool)
    ensures kept == Without(allowed, {All(V4), All(V6)})
    ensures found4 == (All(V4) in allowed) && found6 == (All(V6) in allowed)
  {
    kept, found4, found6 := [], false, false;
    for i := 0 to |allowed|
      invariant kept + Without(allowed[i..], {All(V4), All(V6)}) == Without(allowed, {All(V4), All(V6)})
      invariant found4 == (All(V4) in allowed[..i]) && found6 == (All(V6) in allowed[..i])
    {
      var p := allowed[i];
      WithoutStep(kept, allowed, i, {All(V4), All(V6)});
      if p == All(V6) { found6 := true; }
      else if p == All(V4) { found4 := true; }
      else { kept := kept + [p]; }
    }
    assert kept + [] == kept;
  }

  method Unblock(allowed: seq<Prefix>) returns (r: Option<seq<Prefix>>)
    ensures r.Some? <==> All(V4) in allowed || All(V6) in allowed
    ensures r.Some? ==> SameCover(allowed, r.value) && !HasZeroDefault(r.value)
    ensures r.Some? ==> BothHalves(r.value, V4) || BothHalves(r.value, V6)
  {
    var kept, found4, found6 := TakeDefaults(allowed);
    if !(found4 || found6) { return None; }
    kept := kept + Split(V4, found4) + Split(V6, found6);
    UnblockedCovers(allowed);
    UnblockedDoesNotRestrict(allowed);
    r := Some(kept);
  }

  lemma UnblockedDoesNotRestrict(allowed: seq<Prefix>)
    ensures !HasZeroDefault(Unblocked(allowed))
    ensures All(V4) in allowed ==> BothHalves(Unblocked(allowed), V4)
    ensures All(V6) in allowed ==> BothHalves(Unblocked(allowed), V6)
  {
    var out := Unblocked(allowed);
    WithoutMembers(allowed, {All(V4), All(V6)});
    forall i | 0 <= i < |out| ensures !IsZeroDefault(out[i]) {
      ZeroDefaults(out[i]);
      assert out[i] in out;
    }
  }

  /** Checking and unchecking the box is reversible, keeps every covered address and flips the firewall. */
  method Toggle(allowed: seq<Prefix>, tableOff: bool)
    returns (on: Option<seq<Prefix>>, off: Option<seq<Prefix>>, restrictedOn: bool, restrictedOff: bool)
    ensures on.Some? ==> off.Some? && SameCover(allowed, on.value) && SameCover(allowed, off.value)
    ensures on.Some? ==> restrictedOn == !tableOff && !restrictedOff
  {
    on := Block(allowed);
    off, restrictedOn, restrictedOff := None, false, false;
    if on.Some? {
      restrictedOn := EnableFirewall([on.value], tableOff);
      off := Unblock(on.value);
      restrictedOff := EnableFirewall([off.value], tableOff);
    }
  }
}

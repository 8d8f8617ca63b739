/**
 The signed preset catalog's anti-rollback state, client/smart/presets.go and
 client/smart/catalog.go. Signatures and digests are abstract: a verified payload
 is a revision of at least one and the non-empty digest of its content.
 */
module Catalog {
  import opened Options

  /** The digest is empty for the built-in catalog only. */
  datatype Status = Status(revision: nat, digest: string)

  predicate Verified(p: Status) {
    p.revision >= 1 && p.digest != ""
  }

  const BUILTIN := Status(1, "")

  /** What one update URL produced, and whether the cache file could be replaced. */
  datatype Fetch = Unusable | Fetched(payload: Status, cached: bool)

  datatype Outcome = Changed | Unchanged | Failed

  /** The catalog in memory and the one on disk. */
  datatype World = World(current: Status, cache: Option<Status>)

  predicate Refused(current: Status, p: Status) {
    p.revision < current.revision
        || (p.revision == current.revision && current.digest != "" && p.digest != current.digest)
  }

  /** The first URL that is usable, acceptable and, if newer, storable decides. */
  function Updated(w: World, fetches: seq<Fetch>): (World, Outcome) {
    if fetches == [] then (w, Failed)
    else
      var f := fetches[0];
      if f.Unusable? || Refused(w.current, f.payload) then Updated(w, fetches[1..])
      else if f.payload.revision == w.current.revision then (w, Unchanged)
      else if !f.cached then Updated(w, fetches[1..])
      else (World(f.payload, Some(f.payload)), Changed)
  }

  function Loaded(w: World, readable: bool): World {
    if !readable || w.cache.None? || Refused(w.current, w.cache.value) then w else w.(current := w.cache.value)
  }

  class State {
    var current: Status
    var cache: Option<Status>

    ghost function Snap(): World
      reads this
    {
      World(current, cache)
    }

    constructor (cache: Option<Status>)
      ensures Snap() == World(BUILTIN, cache)
    {
      this.current, this.cache := BUILTIN, cache;
    }

    /** client/smart/presets.go:239-275. */
    method LoadCached(readable: bool) returns (ok: bool)
      modifies this`current
      ensures Snap() == Loaded(old(Snap()), readable)
      ensures ok && cache.Some? ==> current == cache.value
    {
      if cache.None? { return true; }
      if !readable { return false; }
      var payload := cache.value;
      if payload.revision < current.revision { return false; }
      if payload.revision == current.revision && current.digest != ""
          && payload.digest != current.digest { return false; }
      current := payload;
      ok := true;
    }

    /** client/smart/presets.go:326-393. */
    method Update(fetches: seq<Fetch>) returns (outcome: Outcome)
      modifies this
      ensures (Snap(), outcome) == Updated(old(Snap()), fetches)
    {
      for i := 0 to |fetches|
        invariant Snap() == old(Snap())
        invariant Updated(Snap(), fetches[i..]) == Updated(Snap(), fetches)
      {
        assert fetches[i..][1..] == fetches[i + 1..];
        if fetches[i].Unusable? { continue; }
        var payload := fetches[i].payload;
        if payload.revision < current.revision { continue; }
        if payload.revision == current.revision {
          if current.digest != "" && payload.digest != current.digest { continue; }
          return Unchanged;
        }
        if !fetches[i].cached { continue; }
        cache := Some(payload);
        current := payload;
        return Changed;
      }
      assert fetches[|fetches|..] == [];
      outcome := Failed;
    }
  }

  /** A response that settles an update: newer and stored, or what is there already. */
  predicate Settles(w: World, f: Fetch) {
    && f.Fetched?
    && (|| (f.payload.revision > w.current.revision && f.cached)
        || (f.payload.revision == w.current.revision
            && (w.current.digest == "" || f.payload.digest == w.current.digest)))
  }

  /** The first response that settles it does, and decides whether anything changed. */
  lemma {:induction false} FirstSettlingDecides(w: World, fetches: seq<Fetch>, i: nat)
    requires i < |fetches| && Settles(w, fetches[i])
    requires forall j :: 0 <= j < i ==> !Settles(w, fetches[j])
    ensures var p := fetches[i].payload;
            Updated(w, fetches)
            == if p.revision > w.current.revision then (World(p, Some(p)), Changed) else (w, Unchanged)
  {
    if i > 0 {
      assert !Settles(w, fetches[0]);
      FirstSettlingDecides(w, fetches[1..], i - 1);
    }
  }

  /** And an update fails exactly when none does, leaving everything as it was. */
  lemma {:induction false} FailsExactly(w: World, fetches: seq<Fetch>)
    ensures Updated(w, fetches).1 == Failed <==> forall j :: 0 <= j < |fetches| ==> !Settles(w, fetches[j])
    ensures Updated(w, fetches).1 == Failed ==> Updated(w, fetches).0 == w
  {
    if fetches != [] {
      FailsExactly(w, fetches[1..]);
      assert forall j :: 1 <= j < |fetches| ==> fetches[j] == fetches[1..][j - 1];
      if !Settles(w, fetches[0]) && Updated(w, fetches).1 == Failed {
        forall j | 0 <= j < |fetches| ensures !Settles(w, fetches[j]) {
          if j > 0 { assert !Settles(w, fetches[1..][j - 1]); }
        }
      }
    }
  }

  /** A start takes up the cache exactly when it can be read, is there and does not fall behind or contradict memory. */
  lemma LoadsExactly(w: World, readable: bool)
    ensures Loaded(w, readable) == w.(current :=
              if readable && w.cache.Some?
                 && (|| w.cache.value.revision > w.current.revision
                     || (w.cache.value.revision == w.current.revision
                         && (w.current.digest == "" || w.cache.value.digest == w.current.digest)))
              then w.cache.value else w.current)
  {
  }

  // ------------------------------------------------------------------ one session

  /** The revision does not fall, and a revision whose content is known keeps it. */
  predicate Advances(a: Status, b: Status) {
    a.revision <= b.revision && (a.revision == b.revision && a.digest != "" ==> a.digest == b.digest)
  }

  predicate VerifiedFetches(fetches: seq<Fetch>) {
    forall f :: f in fetches && f.Fetched? ==> Verified(f.payload)
  }

  lemma {:induction false} UpdateAdvances(w: World, fetches: seq<Fetch>)
    ensures var (w', outcome) := Updated(w, fetches);
            && Advances(w.current, w'.current)
            && (outcome == Changed <==> w.current.revision < w'.current.revision)
            && (if outcome == Changed then w'.cache == Some(w'.current) else w' == w)
  {
    if fetches != [] {
      UpdateAdvances(w, fetches[1..]);
    }
  }

  /** What can happen: this process loads, updates or restarts; another one replaces or removes the cache file. */
  datatype Event =
    | Load(readable: bool)
    | Update(fetches: seq<Fetch>)
    | Restart(readable: bool)
    | Replaced(cache: Option<Status>)

  /** A restart forgets what was in memory and loads the cache at once. */
  function Step(w: World, e: Event): World {
    match e
    case Load(readable) => Loaded(w, readable)
    case Update(fetches) => Updated(w, fetches).0
    case Restart(readable) => Loaded(w.(current := BUILTIN), readable)
    case Replaced(cache) => w.(cache := cache)
  }

  function After(w: World, es: seq<Event>): World
    decreases |es|
  {
    if es == [] then w else After(Step(w, es[0]), es[1..])
  }

  /** Whatever happens to the cache file, within one session the catalog in memory only advances. */
  lemma {:induction false} SessionAdvances(w: World, es: seq<Event>)
    requires forall i :: 0 <= i < |es| ==> !es[i].Restart?
    ensures Advances(w.current, After(w, es).current)
    decreases |es|
  {
    if es != [] {
      if es[0].Update? { UpdateAdvances(w, es[0].fetches); }
      SessionAdvances(Step(w, es[0]), es[1..]);
    }
  }

  // ------------------------------------------------------------- the stored catalog

  predicate Stored(w: World) {
    w.cache.Some? && Verified(w.cache.value)
  }

  /** Nothing on disk is newer than what is in memory. */
  predicate CaughtUp(w: World) {
    w.cache.Some? ==> w.cache.value.revision <= w.current.revision
  }

  predicate KeepsStored(w: World, fetches: seq<Fetch>)
    requires w.cache.Some?
  {
    var w' := Updated(w, fetches).0;
    w'.cache.Some? && Advances(w.cache.value, w'.cache.value)
  }

  /** An update can set the stored catalog back exactly when memory has fallen behind the disk. */
  lemma StoredSafeExactlyWhenCaughtUp(w: World)
    requires Stored(w)
    ensures CaughtUp(w) <==> forall fetches :: VerifiedFetches(fetches) ==> KeepsStored(w, fetches)
  {
    if CaughtUp(w) {
      forall fetches ensures KeepsStored(w, fetches) {
        UpdateAdvances(w, fetches);
      }
    } else {
      // The cached revision again, with other content: newer than memory, so it is taken and stored.
      var other := Status(w.cache.value.revision, w.cache.value.digest + "'");
      var fetches := [Fetched(other, true)];
      assert |other.digest| != |w.cache.value.digest|;
      assert VerifiedFetches(fetches) && !KeepsStored(w, fetches);
    }
  }

  /** Which events leave memory caught up: a readable start does, an unreadable one only if there is nothing newer. */
  lemma CaughtUpAfter(w: World, e: Event)
    requires Stored(w)
    ensures e.Load? && e.readable ==> CaughtUp(Step(w, e))
    ensures e == Restart(true) ==> CaughtUp(Step(w, e))
    ensures e == Restart(false) ==> (CaughtUp(Step(w, e)) <==> w.cache.value.revision <= BUILTIN.revision)
    ensures e.Update? && CaughtUp(w) ==> CaughtUp(Step(w, e))
  {
    if e.Update? { UpdateAdvances(w, e.fetches); }
  }

  /** No update of the run is made while memory is behind the disk. */
  predicate UpdatesCaughtUp(w: World, es: seq<Event>)
    decreases |es|
  {
    es == [] || ((es[0].Update? ==> CaughtUp(w)) && UpdatesCaughtUp(Step(w, es[0]), es[1..]))
  }

  predicate OwnEvent(e: Event) {
    !e.Replaced? && (e.Update? ==> VerifiedFetches(e.fetches))
  }

  /** Over any number of sessions that keep to this, the stored catalog only advances. */
  lemma {:induction false} StoredCatalogAdvances(w: World, es: seq<Event>)
    requires Stored(w) && UpdatesCaughtUp(w, es)
    requires forall i :: 0 <= i < |es| ==> OwnEvent(es[i])
    ensures Stored(After(w, es)) && Advances(w.cache.value, After(w, es).cache.value)
    decreases |es|
  {
    if es != [] {
      assert OwnEvent(es[0]);
      if es[0].Update? {
        UpdateAdvances(w, es[0].fetches);
        TakenIsVerified(w, es[0].fetches);
      }
      StoredCatalogAdvances(Step(w, es[0]), es[1..]);
    }
  }

  lemma {:induction false} TakenIsVerified(w: World, fetches: seq<Fetch>)
    requires VerifiedFetches(fetches)
    ensures var (w', outcome) := Updated(w, fetches); outcome == Changed ==> Verified(w'.current)
  {
    if fetches != [] {
      assert fetches[0] in fetches;
      TakenIsVerified(w, fetches[1..]);
    }
  }

  /**
   And a run that does not can lose it: after any run whatever, if the next update
   finds memory behind the disk, some signed response makes that update set the
   stored catalog back.
   */
  lemma StoredCatalogCanFall(w: World, es: seq<Event>) returns (fetches: seq<Fetch>)
    requires Stored(After(w, es)) && !CaughtUp(After(w, es))
    ensures VerifiedFetches(fetches) && !KeepsStored(After(w, es), fetches)
  {
    StoredSafeExactlyWhenCaughtUp(After(w, es));
    fetches :| VerifiedFetches(fetches) && !KeepsStored(After(w, es), fetches);
  }

  /** For one: a restart that cannot read its cache, then an older signed catalog. */
  lemma UnreadableCacheAllowsRollback(older: Status, newer: Status)
    requires Verified(older) && Verified(newer) && 1 < older.revision < newer.revision
    ensures var es := [Restart(false), Update([Fetched(older, true)])];
            After(World(newer, Some(newer)), es).cache == Some(older)
  {
    var w, es := World(newer, Some(newer)), [Restart(false), Update([Fetched(older, true)])];
    assert es[1..] == [es[1]] && [es[1]][1..] == [];
    assert Step(w, es[0]) == World(BUILTIN, Some(newer));
    assert After(World(BUILTIN, Some(newer)), [es[1]]) == After(World(older, Some(older)), []);
  }
}

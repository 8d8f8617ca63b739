/**
 The part of `Normalized` (client/smart/settings.go:258-321) that fixes version,
 mode and the selected services. How one custom rule is normalised (URL, IDNA and
 path rules of the platform) and which tunnel names are valid are parameters.
 */
module SettingsNormal {
  import opened Options
  import opened Text
  import opened Policy

  const SETTINGS_VERSION := 5
  const MAX_FALLBACKS := 8
  const AI_SERVICE_ID := "ai"
  const LEGACY_DEFAULTS := ["discord", "youtube", "telegram", "instagram"]

  datatype Error = UnsupportedVersion | UnknownProtection | TooManyFallbacks | BadFallbackName | BadCatalog | BadRule

  datatype Result = Normal(settings: Settings) | Invalid(error: Error)

  function CleanId(id: string): string {
    Lower(TrimSpace(id))
  }

  /** The known services named by `ids`, cleaned, each once, in order of first mention. */
  function KnownIds(known: set<string>, acc: seq<string>, ids: seq<string>): seq<string>
    decreases |ids|
  {
    if ids == [] then acc
    else
      var id := CleanId(ids[0]);
      KnownIds(known, if id in known && id !in acc then acc + [id] else acc, ids[1..])
  }

  method KeepKnown(known: set<string>, ids: seq<string>) returns (selected: seq<string>)
    ensures selected == KnownIds(known, [], ids)
  {
    selected := [];
    var seen: set<string> := {};
    for i := 0 to |ids|
      invariant KnownIds(known, selected, ids[i..]) == KnownIds(known, [], ids)
      invariant forall x :: x in seen <==> x in selected
    {
      assert ids[i..][1..] == ids[i + 1..];
      var id := CleanId(ids[i]);
      if id in known && id !in seen {
        seen := seen + {id};
        selected := selected + [id];
      }
    }
    assert ids[|ids|..] == [];
  }

  /** `selectedExactlyMatches`: the same set of ids, whatever the order or repetition. */
  predicate ExactlyMatches(values: seq<string>, expected: seq<string>) {
    (set v | v in values :: CleanId(v)) == set e | e in expected
  }

  function RawApps(s: Settings, appsNil: bool, defaults: seq<string>): seq<string> {
    if s.version == 0 && (appsNil || s.mode == "social" || s.mode == "native") then defaults
    else if 0 < s.version < SETTINGS_VERSION && ExactlyMatches(s.selectedApps, LEGACY_DEFAULTS)
    then s.selectedApps + [AI_SERVICE_ID]
    else s.selectedApps
  }

  predicate RulesNormalise(rules: seq<CustomRule>, normRule: CustomRule -> Option<CustomRule>) {
    forall i :: 0 <= i < |rules| ==> normRule(rules[i]).Some?
  }

  /** What the caller may rely on afterwards; `catalog` is missing when its signature did not verify. */
  method Normalized(s: Settings, appsNil: bool, catalog: Option<seq<Service>>, defaults: seq<string>,
                    normRule: CustomRule -> Option<CustomRule>, validName: string -> bool)
    returns (r: Result)
    requires forall x :: normRule(x).Some? ==> NormalRule(normRule(x).value)
    ensures r.Normal? <==>
              && s.version <= 5 && s.protection in {"", "all"} && |s.fallbackProfiles| <= 8
              && (forall i :: 0 <= i < |s.fallbackProfiles| ==> validName(s.fallbackProfiles[i]))
              && catalog.Some? && RulesNormalise(s.customRules, normRule)
    ensures r == Invalid(UnsupportedVersion) <==> s.version > 5
    ensures r == Invalid(UnknownProtection) <==> s.version <= 5 && s.protection !in {"", "all"}
    ensures r == Invalid(TooManyFallbacks) <==>
              s.version <= 5 && s.protection in {"", "all"} && |s.fallbackProfiles| > 8
    ensures r == Invalid(BadFallbackName) ==> exists n :: n in s.fallbackProfiles && !validName(n)
    ensures r == Invalid(BadCatalog) ==> catalog.None?
    ensures r.Normal? ==>
              && NormalSettings(r.settings) && r.settings.mode == NormalizeMode(s.mode)
              && r.settings.version == 5
              && r.settings.selectedApps == KnownIds(Ids(catalog.value), [], RawApps(s, appsNil, defaults))
              && |r.settings.customRules| == |s.customRules|
              && (forall i :: 0 <= i < |s.customRules| ==>
                 normRule(s.customRules[i]) == Some(r.settings.customRules[i]))
              && r.settings == s.(mode := r.settings.mode, version := SETTINGS_VERSION,
                                  selectedApps := r.settings.selectedApps, customRules := r.settings.customRules)
  {
    if s.version > SETTINGS_VERSION { return Invalid(UnsupportedVersion); }
    if s.protection != "" && s.protection != "all" { return Invalid(UnknownProtection); }
    if |s.fallbackProfiles| > MAX_FALLBACKS { return Invalid(TooManyFallbacks); }
    for i := 0 to |s.fallbackProfiles|
      invariant forall k :: 0 <= k < i ==> validName(s.fallbackProfiles[k])
    {
      if !validName(s.fallbackProfiles[i]) { return Invalid(BadFallbackName); }
    }
    if catalog.None? { return Invalid(BadCatalog); }
    var selected := KeepKnown(Ids(catalog.value), RawApps(s, appsNil, defaults));
    var rules: seq<CustomRule> := [];
    for i := 0 to |s.customRules|
      invariant |rules| == i
      invariant forall k :: 0 <= k < i ==> normRule(s.customRules[k]) == Some(rules[k])
    {
      var normal := normRule(s.customRules[i]);
      if normal.None? { return Invalid(BadRule); }
      rules := rules + [normal.value];
    }
    r := Normal(s.(mode := NormalizeMode(s.mode), version := SETTINGS_VERSION, selectedApps := selected,
                       customRules := rules));
  }

  function Ids(catalog: seq<Service>): set<string> {
    set i | 0 <= i < |catalog| :: catalog[i].id
  }

  // ------------------------------------------------------------- idempotence

  lemma CleanIdempotent(id: string)
    ensures CleanId(CleanId(id)) == CleanId(id)
  {
    var lead, trail := TrimSplits(id, IsSpace);
    LowerTrimmed(TrimSpace(id));
  }

  predicate Distinct(xs: seq<string>) {
    forall i, j :: 0 <= i < j < |xs| ==> xs[i] != xs[j]
  }

  predicate Settled(known: set<string>, xs: seq<string>) {
    Distinct(xs) && forall i :: 0 <= i < |xs| ==> xs[i] in known && CleanId(xs[i]) == xs[i]
  }

  lemma {:induction false} KnownIdsSettle(known: set<string>, acc: seq<string>, ids: seq<string>)
    requires Settled(known, acc)
    ensures Settled(known, KnownIds(known, acc, ids))
    decreases |ids|
  {
    if ids != [] {
      CleanIdempotent(ids[0]);
      var id := CleanId(ids[0]);
      KnownIdsSettle(known, if id in known && id !in acc then acc + [id] else acc, ids[1..]);
    }
  }

  lemma {:induction false} SettledStays(known: set<string>, acc: seq<string>, xs: seq<string>)
    requires Settled(known, acc + xs)
    ensures KnownIds(known, acc, xs) == acc + xs
    decreases |xs|
  {
    if xs != [] {
      assert acc + xs == (acc + [xs[0]]) + xs[1..];
      assert (acc + xs)[|acc|] == xs[0];
      assert forall k :: 0 <= k < |acc| ==> (acc + xs)[k] == acc[k];
      SettledStays(known, acc + [xs[0]], xs[1..]);
    } else {
      assert acc + xs == acc;
    }
  }

  /** Selecting services is settled by one pass: the result is distinct, known, and its own normal form. */
  lemma SelectionIsIdempotent(known: set<string>, ids: seq<string>)
    ensures var once := KnownIds(known, [], ids); Settled(known, once) && KnownIds(known, [], once) == once
  {
    KnownIdsSettle(known, [], ids);
    SettledStays(known, [], KnownIds(known, [], ids));
    assert [] + KnownIds(known, [], ids) == KnownIds(known, [], ids);
  }

  /** What is selected: the known services that some entry names, without regard to case or padding. */
  lemma {:induction false} KnownIdsMembers(known: set<string>, acc: seq<string>, ids: seq<string>, x: string)
    ensures x in KnownIds(known, acc, ids) <==> x in acc || (x in known && Names(ids, x))
    decreases |ids|
  {
    if ids != [] {
      var id := CleanId(ids[0]);
      KnownIdsMembers(known, if id in known && id !in acc then acc + [id] else acc, ids[1..], x);
      assert forall y :: y in ids <==> y == ids[0] || y in ids[1..];
    }
  }

  /** In order of first mention: entries added behind never move what is there. */
  lemma {:induction false} KnownIdsInOrder(known: set<string>, acc: seq<string>, ids: seq<string>, more: seq<string>)
    ensures KnownIds(known, acc, ids + more) == KnownIds(known, KnownIds(known, acc, ids), more)
    ensures acc <= KnownIds(known, acc, ids)
    decreases |ids|
  {
    if ids == [] {
      assert ids + more == more;
    } else {
      var id := CleanId(ids[0]);
      assert (ids + more)[1..] == ids[1..] + more;
      KnownIdsInOrder(known, if id in known && id !in acc then acc + [id] else acc, ids[1..], more);
    }
  }

  ghost predicate Names(ids: seq<string>, x: string) {
    exists id :: id in ids && CleanId(id) == x
  }

  /** Whether the ids are the four old defaults, in whatever order, case and number. */
  ghost predicate OldDefaults(ids: seq<string>) {
    && (forall id :: id in ids ==> CleanId(id) in {"discord", "youtube", "telegram", "instagram"})
    && Names(ids, "discord") && Names(ids, "youtube") && Names(ids, "telegram") && Names(ids, "instagram")
  }

  lemma OldDefaultsExactly(ids: seq<string>)
    ensures ExactlyMatches(ids, LEGACY_DEFAULTS) <==> OldDefaults(ids)
  {
    var cleaned, before := set v | v in ids :: CleanId(v), set e | e in LEGACY_DEFAULTS;
    assert before == {"discord", "youtube", "telegram", "instagram"};
    forall x ensures x in cleaned <==> Names(ids, x) {
    }
    if OldDefaults(ids) {
      assert cleaned == before;
    } else if cleaned == before {
      forall id | id in ids ensures CleanId(id) in before {
        assert CleanId(id) in cleaned;
      }
    }
  }

  lemma NamesAppend(ids: seq<string>, last: string, x: string)
    ensures Names(ids + [last], x) <==> Names(ids, x) || CleanId(last) == x
  {
    if Names(ids, x) {
      var id :| id in ids && CleanId(id) == x;
      assert id in ids + [last];
    }
    if CleanId(last) == x { assert last in ids + [last]; }
  }

  /** The migration adds the AI services to an untouched old selection, and changes no other selection. */
  lemma MigrationExactly(s: Settings, appsNil: bool, defaults: seq<string>, known: set<string>, x: string)
    requires s.version > 0 && x in known
    ensures x in KnownIds(known, [], RawApps(s, appsNil, defaults)) <==>
            Names(s.selectedApps, x) || (x == "ai" && s.version < 5 && OldDefaults(s.selectedApps))
  {
    KnownIdsMembers(known, [], RawApps(s, appsNil, defaults), x);
    OldDefaultsExactly(s.selectedApps);
    NamesAppend(s.selectedApps, AI_SERVICE_ID, x);
    LowerTrimmed("ai");
    assert Lower("ai") == "ai" && CleanId("ai") == "ai";
  }

  /** Settings without a version get the defaults when nothing was selected or the mode is a legacy one. */
  lemma FirstMigration(s: Settings, appsNil: bool, defaults: seq<string>)
    requires s.version == 0
    ensures RawApps(s, appsNil, defaults)
            == if appsNil || s.mode in {"social", "native"} then defaults else s.selectedApps
  {
  }

  /** The names a mode goes by, in any case and with any padding; every other name means full tunnel. */
  lemma ModeExactly(lead: string, name: string, trail: string)
    requires AllBlank(lead, IsSpace) && AllBlank(trail, IsSpace) && Trimmed(name, IsSpace)
    ensures NormalizeMode(lead + name + trail) == "selected" <==>
            SameName(name, "selected") || SameName(name, "social") || SameName(name, "native")
    ensures NormalizeMode(lead + name + trail) in {"selected", "all"}
  {
    TrimExactly(lead, name, trail, IsSpace);
    assert Lower("selected") == "selected" && Lower("social") == "social" && Lower("native") == "native";
  }

  /** And normalised settings pass through unchanged: version and mode no longer trigger a migration. */
  lemma MigrationHappensOnce(s: Settings, appsNil: bool, defaults: seq<string>)
    requires s.version == SETTINGS_VERSION && (s.mode == MODE_ALL || s.mode == MODE_SELECTED)
    ensures RawApps(s, appsNil, defaults) == s.selectedApps && NormalizeMode(s.mode) == s.mode
  {
  }
}

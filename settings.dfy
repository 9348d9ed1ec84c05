/**
 * The plugin's settings (inc/settings-page.php): eight boolean flags with
 * defaults, the sanitising callback that every save goes through, and the
 * read that merges what was saved over the defaults.
 */
module Settings {
  import opened Php

  const OptionName: string := "weave_starter_plugin_settings"

  /** The default settings, in the order `get_defaults` lists them. */
  const DefaultPairs: seq<(string, bool)> := [
    ("enable_cpt", true),
    ("cpt_public", true),
    ("enable_shortcodes", true),
    ("enable_admin_columns", true),
    ("enable_admin_page", false),
    ("enable_frontend_block", true),
    ("debug_mode", false),
    ("cleanup_dashboard", false)
  ]

  /** No key is listed twice. */
  predicate DistinctKeys<K(==), V>(ps: seq<(K, V)>) {
    forall i, j :: 0 <= i < j < |ps| ==> ps[i].0 != ps[j].0
  }

  /** The keys of a list of pairs. */
  function KeySet<K, V>(ps: seq<(K, V)>): set<K> {
    if ps == [] then {} else KeySet(ps[..|ps| - 1]) + {ps[|ps| - 1].0}
  }

  lemma {:induction false} InKeySet<K, V>(ps: seq<(K, V)>, k: K)
    ensures k in KeySet(ps) <==> exists i :: 0 <= i < |ps| && ps[i].0 == k
  {
    if ps != [] {
      var init := ps[..|ps| - 1];
      InKeySet(init, k);
      if k in KeySet(init) {
        var i :| 0 <= i < |init| && init[i].0 == k;
        assert ps[i].0 == k;
      }
      if exists i :: 0 <= i < |ps| && ps[i].0 == k {
        var i :| 0 <= i < |ps| && ps[i].0 == k;
        if i < |init| {
          assert init[i].0 == k;
        }
      }
    }
  }

  lemma KeySetIsIndexed<K, V>(ps: seq<(K, V)>)
    ensures KeySet(ps) == set i | 0 <= i < |ps| :: ps[i].0
  {
    forall k ensures k in KeySet(ps) <==> k in set i | 0 <= i < |ps| :: ps[i].0 {
      InKeySet(ps, k);
    }
  }

  /** The map a list of (key, value) pairs denotes. */
  function PairsToMap<K, V>(ps: seq<(K, V)>): (m: map<K, V>)
    ensures m.Keys == KeySet(ps)
    ensures forall i :: 0 <= i < |ps| ==> ps[i].0 in m
  {
    if ps == [] then map[]
    else
      var init := ps[..|ps| - 1];
      assert forall i :: 0 <= i < |init| ==> init[i] == ps[i];
      PairsToMap(init)[ps[|ps| - 1].0 := ps[|ps| - 1].1]
  }

  /** Each listed pair survives into the map when no key repeats, and the map has one key per pair. */
  lemma {:induction false} PairsToMapFaithful<K, V>(ps: seq<(K, V)>)
    requires DistinctKeys(ps)
    ensures forall i :: 0 <= i < |ps| ==> PairsToMap(ps)[ps[i].0] == ps[i].1
    ensures |PairsToMap(ps).Keys| == |ps|
  {
    if ps != [] {
      var init := ps[..|ps| - 1];
      var last := ps[|ps| - 1];
      assert DistinctKeys(init) by {
        forall i, j | 0 <= i < j < |init| ensures init[i].0 != init[j].0 {
          assert init[i] == ps[i] && init[j] == ps[j];
        }
      }
      PairsToMapFaithful(init);
      InKeySet(init, last.0);
      forall i | 0 <= i < |init| ensures init[i].0 != last.0 {
        assert init[i] == ps[i];
      }
      assert last.0 !in KeySet(init);
      var m := PairsToMap(ps);
      forall i | 0 <= i < |ps| ensures m[ps[i].0] == ps[i].1 {
        if i < |init| {
          assert init[i] == ps[i];
          assert ps[i].0 != last.0;
        }
      }
    }
  }

  /** `get_defaults()` as a map. */
  function Defaults(): map<string, bool> {
    PairsToMap(DefaultPairs)
  }

  /** The defaults have exactly eight keys, each with its listed value. */
  lemma DefaultsExact()
    ensures |Defaults().Keys| == 8
    ensures forall i :: 0 <= i < |DefaultPairs| ==> Defaults()[DefaultPairs[i].0] == DefaultPairs[i].1
  {
    PairsToMapFaithful(DefaultPairs);
  }

  /** Five features are on out of the box; the admin page, debug mode and dashboard cleanup are off. */
  lemma DefaultValues()
    ensures "enable_cpt" in Defaults() && Defaults()["enable_cpt"]
    ensures "cpt_public" in Defaults() && Defaults()["cpt_public"]
    ensures "enable_shortcodes" in Defaults() && Defaults()["enable_shortcodes"]
    ensures "enable_admin_columns" in Defaults() && Defaults()["enable_admin_columns"]
    ensures "enable_frontend_block" in Defaults() && Defaults()["enable_frontend_block"]
    ensures "enable_admin_page" in Defaults() && !Defaults()["enable_admin_page"]
    ensures "debug_mode" in Defaults() && !Defaults()["debug_mode"]
    ensures "cleanup_dashboard" in Defaults() && !Defaults()["cleanup_dashboard"]
  {
    DefaultsExact();
    assert DefaultPairs[0].0 == "enable_cpt" && DefaultPairs[1].0 == "cpt_public";
    assert DefaultPairs[2].0 == "enable_shortcodes" && DefaultPairs[3].0 == "enable_admin_columns";
    assert DefaultPairs[4].0 == "enable_admin_page" && DefaultPairs[5].0 == "enable_frontend_block";
    assert DefaultPairs[6].0 == "debug_mode" && DefaultPairs[7].0 == "cleanup_dashboard";
  }

  /** What `sanitize_settings($input)` returns: exactly the default keys, each cast or defaulted. */
  ghost predicate SanitizedFrom(input: map<string, Value>, r: map<string, bool>) {
    && r.Keys == Defaults().Keys
    && (forall k :: k in r && IsSet(input, k) ==> r[k] == Truthy(input[k]))
    && (forall k :: k in r && !IsSet(input, k) ==> r[k] == Defaults()[k])
  }

  /**
   * `sanitize_settings`: for each default key, the boolean cast of the input
   * value when it is set, otherwise the default. Other input keys are dropped.
   */
  method SanitizeSettings(input: map<string, Value>) returns (r: map<string, bool>)
    ensures SanitizedFrom(input, r)
  {
    var defaults := Defaults();
    r := map[];
    DefaultsExact();
    for i := 0 to |DefaultPairs|
      invariant r.Keys == set j | 0 <= j < i :: DefaultPairs[j].0
      invariant r.Keys <= defaults.Keys
      invariant forall k :: k in r && IsSet(input, k) ==> r[k] == Truthy(input[k])
      invariant forall k :: k in r && !IsSet(input, k) ==> r[k] == defaults[k]
    {
      var (key, default) := DefaultPairs[i];
      assert defaults[key] == default;
      r := r[key := if IsSet(input, key) then Truthy(input[key]) else default];
    }
    KeySetIsIndexed(DefaultPairs);
  }

  /** The settings as PHP values, the form they are stored and read back in. */
  function Lift(s: map<string, bool>): (v: map<string, Value>)
    ensures v.Keys == s.Keys && forall k :: k in s ==> v[k] == Bool(s[k])
  {
    map k | k in s :: Bool(s[k])
  }

  /** The sanitised settings are determined by the input. */
  lemma SanitizedIsUnique(input: map<string, Value>, r1: map<string, bool>, r2: map<string, bool>)
    requires SanitizedFrom(input, r1) && SanitizedFrom(input, r2)
    ensures r1 == r2
  {
  }

  /** Sanitising sanitised settings changes nothing. */
  lemma {:induction false} SanitizeIdempotent(input: map<string, Value>, r: map<string, bool>, r2: map<string, bool>)
    requires SanitizedFrom(input, r)
    requires SanitizedFrom(Lift(r), r2)
    ensures r2 == r
  {
    var again := Lift(r);
    forall k | k in r ensures r2[k] == r[k] {
      assert IsSet(again, k);
      assert again[k] == Bool(r[k]);
    }
  }

  /** `get_settings()`: the saved option (`[]` when there is none) merged over the defaults. */
  function GetSettings(saved: map<string, Value>): (s: map<string, Value>)
    ensures s.Keys == saved.Keys + Defaults().Keys
    ensures forall k :: k in saved ==> s[k] == saved[k]
    ensures forall k :: k in Defaults() && k !in saved ==> s[k] == Bool(Defaults()[k])
  {
    Lift(Defaults()) + saved
  }

  /** Once sanitised settings are saved, reading them back gives them unchanged. */
  lemma {:induction false} GetSettingsOfSanitized(input: map<string, Value>, r: map<string, bool>)
    requires SanitizedFrom(input, r)
    ensures GetSettings(Lift(r)) == Lift(r)
  {
    var s := GetSettings(Lift(r));
    assert s.Keys == Lift(r).Keys;
    forall k | k in s ensures s[k] == Lift(r)[k] {
    }
  }

  /** With nothing saved, every setting reads as its default. */
  lemma {:induction false} NothingSavedReadsDefaults()
    ensures GetSettings(map[]) == Lift(Defaults())
  {
    var s := GetSettings(map[]);
    assert s.Keys == Lift(Defaults()).Keys;
  }

  /** `empty($settings[$key])` on the merged settings. */
  predicate SettingOff(saved: map<string, Value>, key: string) {
    EmptyAt(GetSettings(saved), key)
  }
}

/**
 * General hooks (inc/hooks.php): the Settings link prepended to the plugin's
 * row on the Plugins screen, the optional dashboard clean-up, and the gate
 * in front of the plugin's debug log.
 */
module Hooks {
  import opened Wrappers
  import opened Php
  import opened Settings
  import opened OrderedMaps

  // ---------------------------------------------------------------------
  // add_plugin_action_links

  /** A PHP array key: an integer or a string. */
  datatype Key = IntKey(n: int) | StrKey(s: string)

  /** An array of action links, in order. */
  type Links = seq<(Key, string)>

  /** How many entries of `links` have integer keys. */
  function CountInt(links: Links): nat {
    if links == [] then 0 else (if links[|links| - 1].0.IntKey? then 1 else 0) + CountInt(links[..|links| - 1])
  }

  /** The renumbering `array_unshift` applies: integer keys become `next`, `next + 1`, ... in order; string keys stay. */
  function Renumber(links: Links, next: nat): (r: Links)
    ensures |r| == |links|
  {
    if links == [] then []
    else if links[0].0.IntKey? then [(IntKey(next), links[0].1)] + Renumber(links[1..], next + 1)
    else [links[0]] + Renumber(links[1..], next)
  }

  /** `array_unshift($links, $v)`: `$v` goes first under key 0 and the integer keys are renumbered after it. */
  function Unshift(links: Links, v: string): (r: Links)
    ensures |r| == |links| + 1 && r[0] == (IntKey(0), v)
  {
    [(IntKey(0), v)] + Renumber(links, 1)
  }

  const SettingsPageUrl: string := "admin.php?page=weave-starter-plugin"

  /** The Settings link (the translation of its label is not modelled). */
  function SettingsLink(h: Helpers): string {
    "<a href=\"" + h.escUrl(h.adminUrl(SettingsPageUrl)) + "\">" + h.escHtml("Settings") + "</a>"
  }

  /** `add_plugin_action_links`. */
  function AddPluginActionLinks(links: Links, h: Helpers): (r: Links)
    ensures |r| == |links| + 1 && r[0] == (IntKey(0), SettingsLink(h))
  {
    Unshift(links, SettingsLink(h))
  }

  lemma {:induction false} CountIntPrefix(links: Links, i: nat)
    requires i < |links|
    ensures CountInt(links[..i + 1]) == CountInt(links[..i]) + (if links[i].0.IntKey? then 1 else 0)
  {
    assert links[..i + 1][..i] == links[..i];
  }

  lemma {:induction false} CountIntHead(links: Links, i: nat)
    requires 0 < |links| && i <= |links| - 1
    ensures CountInt(links[..i + 1]) == (if links[0].0.IntKey? then 1 else 0) + CountInt(links[1..][..i])
    decreases i
  {
    if i > 0 {
      CountIntHead(links, i - 1);
      CountIntPrefix(links, i);
      CountIntPrefix(links[1..], i - 1);
      assert links[1..][i - 1] == links[i];
    } else {
      assert links[..1] == [links[0]];
      assert [links[0]][..0] == [];
    }
  }

  /**
   * Each renumbered entry keeps its value; a string key is kept and the
   * integer key of entry `i` becomes `next` plus the number of integer keys before it.
   */
  lemma {:induction false} RenumberShape(links: Links, next: nat, i: nat)
    requires i < |links|
    ensures Renumber(links, next)[i].1 == links[i].1
    ensures links[i].0.StrKey? ==> Renumber(links, next)[i].0 == links[i].0
    ensures links[i].0.IntKey? ==> Renumber(links, next)[i].0 == IntKey(next + CountInt(links[..i]))
  {
    var step := if links[0].0.IntKey? then 1 else 0;
    if i == 0 {
      assert links[..0] == [];
    } else {
      RenumberShape(links[1..], next + step, i - 1);
      assert links[1..][i - 1] == links[i];
      CountIntHead(links, i - 1);
    }
  }

  /** The original links follow the Settings link, in order and with their values unchanged, string keys included. */
  lemma {:induction false} OriginalLinksFollow(links: Links, h: Helpers, i: nat)
    requires i < |links|
    ensures AddPluginActionLinks(links, h)[i + 1].1 == links[i].1
    ensures links[i].0.StrKey? ==> AddPluginActionLinks(links, h)[i + 1].0 == links[i].0
    ensures links[i].0.IntKey? ==> AddPluginActionLinks(links, h)[i + 1].0 == IntKey(1 + CountInt(links[..i]))
  {
    RenumberShape(links, 1, i);
  }

  lemma {:induction false} CountIntMonotone(links: Links, i: nat, j: nat)
    requires i <= j <= |links|
    ensures CountInt(links[..i]) <= CountInt(links[..j])
    decreases j - i
  {
    if i < j {
      CountIntMonotone(links, i, j - 1);
      CountIntPrefix(links, j - 1);
    }
  }

  /** A links array without repeated keys keeps that property: the new key 0 and the renumbered keys are all distinct. */
  lemma {:induction false} ActionLinksKeepUniqueKeys(links: Links, h: Helpers)
    requires UniqueKeys(links)
    ensures UniqueKeys(AddPluginActionLinks(links, h))
  {
    var r := AddPluginActionLinks(links, h);
    forall i, j | 0 <= i < j < |r| ensures r[i].0 != r[j].0 {
      RenumberShape(links, 1, j - 1);
      assert r[j] == Renumber(links, 1)[j - 1];
      if i > 0 {
        RenumberShape(links, 1, i - 1);
        assert r[i] == Renumber(links, 1)[i - 1];
        if links[i - 1].0.IntKey? && links[j - 1].0.IntKey? {
          CountIntPrefix(links, i - 1);
          CountIntMonotone(links, i, j - 1);
        }
      }
    }
  }

  // ---------------------------------------------------------------------
  // maybe_cleanup_dashboard

  /** A `remove_meta_box($id, $screen, $context)` call. */
  datatype MetaBox = MetaBox(id: string, screen: string, context: string)

  const CleanedWidgets: seq<MetaBox> := [MetaBox("dashboard_quick_press", "dashboard", "side"), MetaBox("dashboard_primary", "dashboard", "side")]

  /** The meta boxes `maybe_cleanup_dashboard` removes, given the saved settings. */
  function MaybeCleanupDashboard(saved: map<string, Value>): (removed: seq<MetaBox>)
    ensures removed == [] <==> SettingOff(saved, "cleanup_dashboard")
    ensures removed != [] ==> removed == CleanedWidgets
  {
    if SettingOff(saved, "cleanup_dashboard") then [] else CleanedWidgets
  }

  /** Dashboard clean-up is off out of the box. */
  lemma {:induction false} DashboardUntouchedByDefault()
    ensures MaybeCleanupDashboard(map[]) == []
  {
    DefaultValues();
    NothingSavedReadsDefaults();
    assert GetSettings(map[])["cleanup_dashboard"] == Bool(false);
  }

  /** Once `cleanup_dashboard` is saved as on, Quick Draft and WordPress Events and News are removed from the dashboard. */
  lemma {:induction false} DashboardCleanedWhenEnabled(saved: map<string, Value>)
    requires "cleanup_dashboard" in saved && Truthy(saved["cleanup_dashboard"])
    ensures MaybeCleanupDashboard(saved) == [MetaBox("dashboard_quick_press", "dashboard", "side"), MetaBox("dashboard_primary", "dashboard", "side")]
  {
    assert GetSettings(saved)["cleanup_dashboard"] == saved["cleanup_dashboard"];
  }

  // ---------------------------------------------------------------------
  // debug_log

  const LogPrefix: string := "[Weave Starter Plugin] "

  /**
   * `debug_log($message)`: the line handed to `error_log`, if any. `wpDebug`
   * is the `WP_DEBUG` constant, `None` when it is not defined.
   */
  function DebugLog(wpDebug: Option<Value>, saved: map<string, Value>, message: string): (line: Option<string>)
    ensures wpDebug.None? || !Truthy(wpDebug.value) ==> line == None
    ensures SettingOff(saved, "debug_mode") ==> line == None
    ensures line.Some? ==> line.value == LogPrefix + message
    ensures line.None? ==> wpDebug.None? || !Truthy(wpDebug.value) || SettingOff(saved, "debug_mode")
  {
    if wpDebug.None? || !Truthy(wpDebug.value) then None
    else if SettingOff(saved, "debug_mode") then None
    else Some(LogPrefix + message)
  }

  /** Debug mode is off out of the box: nothing is logged, whatever `WP_DEBUG` says. */
  lemma {:induction false} NothingLoggedByDefault(wpDebug: Option<Value>, message: string)
    ensures DebugLog(wpDebug, map[], message) == None
  {
    DefaultValues();
    NothingSavedReadsDefaults();
    assert GetSettings(map[])["debug_mode"] == Bool(false);
  }

  /** With `WP_DEBUG` on and `debug_mode` saved as on, every message is logged under the plugin's prefix. */
  lemma {:induction false} LoggedWhenBothEnabled(saved: map<string, Value>, message: string)
    requires "debug_mode" in saved && Truthy(saved["debug_mode"])
    ensures DebugLog(Some(Bool(true)), saved, message) == Some("[Weave Starter Plugin] " + message)
  {
    assert GetSettings(saved)["debug_mode"] == saved["debug_mode"];
  }

  /** The message can be read back from the logged line. */
  lemma LoggedMessageRecoverable(wpDebug: Option<Value>, saved: map<string, Value>, message: string)
    requires DebugLog(wpDebug, saved, message).Some?
    ensures DebugLog(wpDebug, saved, message).value[|LogPrefix|..] == message
  {
  }
}

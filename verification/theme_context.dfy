/**
 * The theme provider: a light/dark mode chosen on mount from the saved
 * preference or the system setting, changed by the user (and then saved),
 * following the system setting only while nothing is saved, and applied to
 * the document root as exactly one of the classes "light" and "dark".
 *
 * The browser storage slot, the system preference and the root element's
 * class list are fields; the CSS custom properties and colour tables are not
 * part of this model.
 */
module ThemeContext {
  import opened Common

  datatype Mode = Light | Dark

  /** The mode's name, as stored and as a class name. */
  function ModeName(m: Mode): string
  {
    match m
    case Light => "light"
    case Dark => "dark"
  }

  /** A stored value that names a mode. */
  function ParseMode(s: string): (r: Option<Mode>)
    ensures r.Some? ==> ModeName(r.value) == s
  {
    if s == "light" then Some(Light) else if s == "dark" then Some(Dark) else None
  }

  /** Stored names read back as the mode they name. */
  lemma ParseModeName(m: Mode)
    ensures ParseMode(ModeName(m)) == Some(m)
  {
  }

  /** The mode set on mount: a saved "light" or "dark", otherwise the system preference. */
  function InitialMode(saved: Option<string>, systemDark: bool): Mode
  {
    if saved.Some? && ParseMode(saved.value).Some? then ParseMode(saved.value).value
    else if systemDark then Dark else Light
  }

  /** The other mode. */
  function Toggled(m: Mode): (r: Mode)
    ensures r != m
  {
    if m == Light then Dark else Light
  }

  /** Toggling twice gives back the mode. */
  lemma ToggleTwice(m: Mode)
    ensures Toggled(Toggled(m)) == m
  {
  }

  /** Whether a system theme change is followed: only while no preference (or an empty one) is saved. */
  predicate FollowsSystem(saved: Option<string>)
  {
    saved.None? || saved.value == ""
  }

  /** What consumers of the theme see: the mode and whether it is dark. */
  datatype ThemeValue = ThemeValue(mode: Mode, isDark: bool)

  /** useTheme: the provider's value, or light (not dark) outside a provider. */
  function UseTheme(context: Option<ThemeValue>): (r: ThemeValue)
    ensures context.None? ==> r.mode == Light && !r.isDark
    ensures context.Some? ==> r == context.value
  {
    if context.None? then ThemeValue(Light, false) else context.value
  }

  class ThemeProvider {
    var mode: Mode
    var mounted: bool
    /** The storage slot for the theme key. */
    var saved: Option<string>
    /** The classes on the document's root element. */
    var rootClasses: set<string>

    /** Before mount the mode is light; the storage slot and the root's classes are whatever the page has. */
    constructor (saved: Option<string>, rootClasses: set<string>)
      ensures mode == Light && !mounted && this.saved == saved && this.rootClasses == rootClasses
    {
      mode := Light;
      mounted := false;
      this.saved := saved;
      this.rootClasses := rootClasses;
    }

    /** The mount effect: read the saved preference or the system setting, then mark the provider mounted. */
    method Mount(systemDark: bool)
      modifies this
      ensures mode == InitialMode(saved, systemDark) && mounted
      ensures saved == old(saved) && rootClasses == old(rootClasses)
    {
      if saved.Some? && saved.value != "" && (saved.value == "light" || saved.value == "dark") {
        mode := if saved.value == "light" then Light else Dark;
      } else {
        mode := if systemDark then Dark else Light;
      }
      mounted := true;
    }

    /** setMode: change the mode and save its name. */
    method SetMode(m: Mode)
      modifies this
      ensures mode == m && saved == Some(ModeName(m))
      ensures mounted == old(mounted) && rootClasses == old(rootClasses)
    {
      mode := m;
      saved := Some(ModeName(m));
    }

    /** toggleTheme: set the other mode. */
    method ToggleTheme()
      modifies this
      ensures mode == Toggled(old(mode)) && saved == Some(ModeName(mode))
      ensures mounted == old(mounted) && rootClasses == old(rootClasses)
    {
      var next := if mode == Light then Dark else Light;
      SetMode(next);
    }

    /** The system-change listener: follow the new system setting only while nothing is saved. */
    method SystemChange(matches: bool)
      modifies this
      ensures mode == if FollowsSystem(old(saved)) then (if matches then Dark else Light) else old(mode)
      ensures saved == old(saved) && mounted == old(mounted) && rootClasses == old(rootClasses)
    {
      if saved.None? || saved.value == "" {
        mode := if matches then Dark else Light;
      }
    }

    /**
     * The apply effect: once mounted, remove "light" and "dark" from the
     * root's classes and add the current mode's; before mount nothing changes.
     */
    method ApplyTheme()
      modifies this
      ensures mounted ==> rootClasses == (old(rootClasses) - {"light", "dark"}) + {ModeName(mode)}
      ensures !mounted ==> rootClasses == old(rootClasses)
      ensures mode == old(mode) && mounted == old(mounted) && saved == old(saved)
    {
      if mounted {
        rootClasses := rootClasses - {"light", "dark"};
        rootClasses := rootClasses + {ModeName(mode)};
      }
    }

    /** The value the provider hands to consumers; before mount it renders without a provider. */
    function Context(): (r: Option<ThemeValue>)
      reads this
      ensures r.Some? <==> mounted
      ensures r.Some? ==> r.value.mode == mode && (r.value.isDark <==> mode == Dark)
    {
      if mounted then Some(ThemeValue(mode, mode == Dark)) else None
    }
  }

  /** After applying, the root carries exactly one theme class, the mode's, and its other classes are kept. */
  lemma AppliedClasses(before: set<string>, m: Mode)
    ensures var after := (before - {"light", "dark"}) + {ModeName(m)};
      ("light" in after <==> m == Light) && ("dark" in after <==> m == Dark) &&
      after - {"light", "dark"} == before - {"light", "dark"}
  {
    var after := (before - {"light", "dark"}) + {ModeName(m)};
    assert ModeName(m) in {"light", "dark"};
    if m == Light {
      assert "dark" != "light";
    } else {
      assert "light" != "dark";
    }
    assert after - {"light", "dark"} == before - {"light", "dark"};
  }

  /** A mode chosen with setMode comes back on the next mount, whatever the system says. */
  lemma ReloadKeepsMode(m: Mode, systemDark: bool)
    ensures InitialMode(Some(ModeName(m)), systemDark) == m
  {
    ParseModeName(m);
  }

  /** Once a mode has been chosen, system changes no longer move it. */
  lemma ChosenModeIgnoresSystem(m: Mode)
    ensures !FollowsSystem(Some(ModeName(m)))
  {
  }

  /** Without a usable saved value the mount follows the system setting. */
  lemma MountFollowsSystem(saved: Option<string>, systemDark: bool)
    requires saved.None? || ParseMode(saved.value).None?
    ensures InitialMode(saved, systemDark) == if systemDark then Dark else Light
  {
  }
}

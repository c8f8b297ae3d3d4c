/**
 * The theme manager of the dashboard's front end (themeManager.js).
 *
 * A persisted mode (`corporate`, `dark`, `light`; `corporate` when nothing is
 * stored) is resolved against the operating system's "prefers dark" signal
 * into the `data-theme` attribute of the document. The browser globals the
 * source touches are injected state of `ThemeEnv`: the local-storage map,
 * the media query's `matches` flag, the attribute, and the media query's
 * list of registered change handlers.
 */
module Theme {
  import opened Wrappers

  /** The local-storage key that holds the mode. */
  const ThemeKey: string := "asci_theme"
  const Corporate: string := "corporate"

  /** A theme that can be applied to the document. */
  datatype Resolved = Dark | Light {
    /** The value written to the `data-theme` attribute. */
    function Name(): string {
      if Dark? then "dark" else "light"
    }
  }

  /** `getStoredThemeMode()` on a snapshot of local storage: an absent or empty entry reads as `corporate`. */
  function StoredMode(storage: map<string, string>): string {
    if ThemeKey in storage && storage[ThemeKey] != "" then storage[ThemeKey] else Corporate
  }

  lemma StoredModeDefault(storage: map<string, string>)
    requires ThemeKey !in storage || storage[ThemeKey] == ""
    ensures StoredMode(storage) == Corporate
  {
  }

  /** Whatever non-empty mode is stored is read back unchanged; other keys do not matter. */
  lemma StoredModeRoundTrip(storage: map<string, string>, mode: string)
    requires mode != ""
    ensures StoredMode(storage[ThemeKey := mode]) == mode
  {
  }

  /** Storing the empty string reads back as the default rather than as "". */
  lemma StoredEmptyModeReadsCorporate(storage: map<string, string>)
    ensures StoredMode(storage[ThemeKey := ""]) == Corporate
  {
  }

  /** `resolveTheme(mode)` with the OS signal passed in. */
  function ResolveTheme(mode: string, prefersDark: bool): Resolved {
    if mode == Corporate then
      (if prefersDark then Dark else Light)
    else if mode == "dark" then Dark
    else Light
  }

  /** `corporate` follows the operating system: dark exactly when the OS prefers dark. */
  lemma ResolveCorporateFollowsOs(prefersDark: bool)
    ensures ResolveTheme(Corporate, prefersDark) == Dark <==> prefersDark
    ensures ResolveTheme(Corporate, prefersDark) == Light <==> !prefersDark
  {
  }

  /** Every mode other than `corporate`, unknown strings included, ignores the OS signal;
      only `dark` resolves to dark. */
  lemma ResolveExplicitIgnoresOs(mode: string, prefersDark: bool)
    requires mode != Corporate
    ensures ResolveTheme(mode, prefersDark) == ResolveTheme(mode, !prefersDark)
    ensures ResolveTheme(mode, prefersDark) == Dark <==> mode == "dark"
  {
  }

  /** `removeEventListener`: the handler list without `handler`, the others in their order. */
  function Without(handlers: seq<nat>, handler: nat): (r: seq<nat>)
    ensures |r| <= |handlers|
    decreases handlers
  {
    if handlers == [] then []
    else if handlers[0] == handler then Without(handlers[1..], handler)
    else [handlers[0]] + Without(handlers[1..], handler)
  }

  /** After removal the handler is gone and every other handler is still there. */
  lemma {:induction false} WithoutSpec(handlers: seq<nat>, handler: nat)
    ensures handler !in Without(handlers, handler)
    ensures forall h :: h in Without(handlers, handler) <==> h in handlers && h != handler
  {
    if handlers != [] {
      WithoutSpec(handlers[1..], handler);
      assert handlers == [handlers[0]] + handlers[1..];
    }
  }

  /** Removing a handler that is not registered changes nothing, so a second teardown is a no-op. */
  lemma {:induction false} WithoutAbsent(handlers: seq<nat>, handler: nat)
    requires handler !in handlers
    ensures Without(handlers, handler) == handlers
  {
    if handlers != [] {
      WithoutAbsent(handlers[1..], handler);
      assert handlers == [handlers[0]] + handlers[1..];
    }
  }

  lemma WithoutIdempotent(handlers: seq<nat>, handler: nat)
    ensures Without(Without(handlers, handler), handler) == Without(handlers, handler)
  {
    WithoutSpec(handlers, handler);
    WithoutAbsent(Without(handlers, handler), handler);
  }

  /** The browser environment of the theme manager. */
  class ThemeEnv {
    /** `localStorage`. */
    var storage: map<string, string>
    /** `window.matchMedia("(prefers-color-scheme: dark)").matches`. */
    var prefersDark: bool
    /** The `data-theme` attribute of `document.documentElement` (None while unset). */
    var dataTheme: Option<string>
    /** The media query's registered change handlers; each stands for one `onSystemThemeChange` closure. */
    var listeners: seq<nat>
    /** The identity the next closure created by `initializeThemeSync` gets. */
    var nextHandler: nat

    ghost predicate Valid()
      reads this
    {
      && (forall i :: 0 <= i < |listeners| ==> listeners[i] < nextHandler)
      && (forall i, j :: 0 <= i < j < |listeners| ==> listeners[i] != listeners[j])
    }

    constructor (storage: map<string, string>, prefersDark: bool)
      ensures Valid()
      ensures this.storage == storage && this.prefersDark == prefersDark
      ensures dataTheme == None && listeners == []
    {
      this.storage := storage;
      this.prefersDark := prefersDark;
      dataTheme := None;
      listeners := [];
      nextHandler := 0;
    }

    function GetStoredThemeMode(): string
      reads this
    {
      StoredMode(storage)
    }

    /** `setStoredThemeMode(mode)`: writes the mode and nothing else; the theme is not applied. */
    method SetStoredThemeMode(mode: string)
      modifies this`storage
      ensures storage == old(storage)[ThemeKey := mode]
      ensures mode != "" ==> GetStoredThemeMode() == mode
    {
      storage := storage[ThemeKey := mode];
    }

    /** `applyThemeMode(mode)`: writes the resolved theme to the attribute and returns it; storage is not touched. */
    method ApplyThemeMode(mode: string) returns (resolved: Resolved)
      modifies this`dataTheme
      ensures resolved == ResolveTheme(mode, prefersDark)
      ensures dataTheme == Some(resolved.Name())
    {
      resolved := ResolveTheme(mode, prefersDark);
      dataTheme := Some(resolved.Name());
    }

    /** `onSystemThemeChange`: re-applies `corporate` only while `corporate` is the stored mode. */
    method OnSystemThemeChange()
      modifies this`dataTheme
      ensures GetStoredThemeMode() == Corporate ==> dataTheme == Some(ResolveTheme(Corporate, prefersDark).Name())
      ensures GetStoredThemeMode() != Corporate ==> dataTheme == old(dataTheme)
    {
      if GetStoredThemeMode() == Corporate {
        var _ := ApplyThemeMode(Corporate);
      }
    }

    /**
     * `initializeThemeSync()`: applies the stored mode, then registers a fresh
     * `onSystemThemeChange` handler. The returned handler identity stands for
     * the teardown closure, which is `Teardown(handler)`.
     */
    method InitializeThemeSync() returns (handler: nat)
      requires Valid()
      modifies this`dataTheme, this`listeners, this`nextHandler
      ensures Valid()
      ensures dataTheme == Some(ResolveTheme(GetStoredThemeMode(), prefersDark).Name())
      ensures handler !in old(listeners)
      ensures listeners == old(listeners) + [handler]
    {
      var _ := ApplyThemeMode(GetStoredThemeMode());
      handler := nextHandler;
      nextHandler := nextHandler + 1;
      listeners := listeners + [handler];
    }

    /** The teardown closure: removes exactly the handler its `initializeThemeSync` call registered. */
    method Teardown(handler: nat)
      requires Valid()
      modifies this`listeners
      ensures Valid()
      ensures listeners == Without(old(listeners), handler)
      ensures handler !in listeners
    {
      WithoutSpec(listeners, handler);
      listeners := Without(listeners, handler);
      assert forall i :: 0 <= i < |listeners| ==> listeners[i] in old(listeners);
      WithoutKeepsDistinct(old(listeners), handler);
    }

    /**
     * The operating system switches its preference. The media query fires
     * `change` only when `matches` actually flips, and then calls every
     * registered handler in registration order.
     */
    method OsPreferenceChanged(dark: bool)
      modifies this`prefersDark, this`dataTheme
      ensures prefersDark == dark
      ensures dark != old(prefersDark) && |listeners| > 0 && GetStoredThemeMode() == Corporate
        ==> dataTheme == Some(ResolveTheme(Corporate, dark).Name())
      ensures dark == old(prefersDark) || |listeners| == 0 || GetStoredThemeMode() != Corporate
        ==> dataTheme == old(dataTheme)
    {
      var fires := dark != prefersDark;
      prefersDark := dark;
      if fires {
        var i := 0;
        while i < |listeners|
          invariant 0 <= i <= |listeners|
          invariant prefersDark == dark
          invariant GetStoredThemeMode() != Corporate || i == 0 ==> dataTheme == old(dataTheme)
          invariant GetStoredThemeMode() == Corporate && i > 0 ==> dataTheme == Some(ResolveTheme(Corporate, dark).Name())
        {
          OnSystemThemeChange();
          i := i + 1;
        }
      }
    }
  }

  lemma {:induction false} WithoutKeepsDistinct(handlers: seq<nat>, handler: nat)
    requires forall i, j :: 0 <= i < j < |handlers| ==> handlers[i] != handlers[j]
    ensures var r := Without(handlers, handler);
      forall i, j :: 0 <= i < j < |r| ==> r[i] != r[j]
  {
    if handlers != [] {
      WithoutKeepsDistinct(handlers[1..], handler);
      WithoutSpec(handlers[1..], handler);
      var rest := Without(handlers[1..], handler);
      if handlers[0] != handler {
        assert handlers[0] !in handlers[1..];
        assert handlers[0] !in rest;
        var r := [handlers[0]] + rest;
        forall i, j | 0 <= i < j < |r| ensures r[i] != r[j] {
          if i == 0 {
            assert r[j] == rest[j - 1];
          } else {
            assert r[i] == rest[i - 1] && r[j] == rest[j - 1];
          }
        }
      }
    }
  }

  /** Start-up, an OS switch under `corporate`, then the same after teardown, and a second teardown. */
  method LifecycleScenario()
  {
    var env := new ThemeEnv(map[], false);
    var h := env.InitializeThemeSync();
    assert env.dataTheme == Some("light");
    env.OsPreferenceChanged(true);
    assert env.dataTheme == Some("dark");
    env.SetStoredThemeMode("light");
    var r := env.ApplyThemeMode(env.GetStoredThemeMode());
    env.OsPreferenceChanged(false);
    assert env.dataTheme == Some("light");
    env.SetStoredThemeMode(Corporate);
    env.Teardown(h);
    assert env.listeners == [];
    env.OsPreferenceChanged(true);
    assert env.dataTheme == Some("light");
    env.Teardown(h);
    assert env.listeners == [];
  }
}

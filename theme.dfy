/**
 * ThemeManager: resolves the light/dark theme on page load, applies it to the
 * document's `data-theme` attribute, persists it under the storage key
 * "theme", and flips it when the toggle button is clicked.
 */
module Theme {

  import opened Wrappers

  const ThemeKey := "theme"
  const Light := "light"
  const Dark := "dark"

  /** The toggle button's glyphs: a crescent moon offers dark, a sun offers light. */
  const MoonGlyph := "\U{263E}"
  const SunGlyph := "\U{2600}"

  /** What the browser and page provide to the manager. */
  datatype Environment = Environment(
    hasMatchMedia: bool,           // window.matchMedia exists
    prefersDark: bool,             // (prefers-color-scheme: dark) matches
    prefersLight: bool,            // (prefers-color-scheme: light) matches
    hasInitializeParticles: bool,  // window.initializeParticles exists
    hasReinitializeParticles: bool,
    hasParticlesElement: bool,     // an element with id particles-js exists
    hasParticleInstances: bool,    // window.pJSDom holds at least one instance
    hasToggleButton: bool)         // an element with id themeToggle exists

  /** Calls into the particle background plugin. */
  datatype ParticleCall = Initialize | Reinitialize | Recolor(theme: string)

  /** The particle calls a theme change makes: with the particle element
      present, a reinitialisation when the plugin offers one, otherwise a
      recolouring of the first existing instance, if any. */
  function ParticleRefresh(env: Environment, theme: string): seq<ParticleCall>
  {
    if !env.hasParticlesElement then []
    else if env.hasReinitializeParticles then [Reinitialize]
    else if env.hasParticleInstances then [Recolor(theme)]
    else []
  }

  /** localStorage.getItem(key). */
  function GetItem(storage: map<string, string>, key: string): Option<string>
  {
    if key in storage then Some(storage[key]) else None
  }

  /** getSystemPreference: dark exactly when the media query says so, light otherwise. */
  function SystemPreference(env: Environment): (r: string)
    ensures r == Light || r == Dark
    ensures r == Dark <==> env.hasMatchMedia && env.prefersDark
  {
    if env.hasMatchMedia && env.prefersDark then Dark
    else if env.hasMatchMedia && env.prefersLight then Light
    else Light
  }

  /** `localStorage.getItem("theme") || this.getSystemPreference()`. */
  function ResolveTheme(storage: map<string, string>, env: Environment): string
  {
    var saved := GetItem(storage, ThemeKey);
    if Truthy(saved) then saved.value else SystemPreference(env)
  }

  /** The theme a click on the toggle switches to. */
  function Toggled(current: Option<string>): string
  {
    if current == Some(Light) then Dark else Light
  }

  function Glyph(theme: string): string
  {
    if theme == Light then MoonGlyph else SunGlyph
  }

  /** The resolved theme is never empty: a saved non-empty value wins,
      otherwise light or dark from the system. */
  lemma ResolveThemeCases(storage: map<string, string>, env: Environment)
    ensures var r := ResolveTheme(storage, env);
      && r != ""
      && (ThemeKey in storage && storage[ThemeKey] != "" ==> r == storage[ThemeKey])
      && (ThemeKey !in storage || storage[ThemeKey] == "" ==> r == SystemPreference(env))
  {
  }

  /** Whatever was persisted is what the next page load resolves, without
      consulting the system preference. */
  lemma ReloadKeepsTheme(storage: map<string, string>, env: Environment, theme: string)
    requires theme != ""
    ensures ResolveTheme(storage[ThemeKey := theme], env) == theme
  {
  }

  /** Toggling is an involution on light and dark, and always lands on one of them. */
  lemma ToggleInvolution(theme: string)
    requires theme == Light || theme == Dark
    ensures Toggled(Some(Toggled(Some(theme)))) == theme
    ensures Toggled(Some(theme)) != theme
  {
  }

  class ThemeManager {
    const env: Environment
    /** localStorage. */
    var storage: map<string, string>
    /** The document element's data-theme attribute. */
    var dataTheme: Option<string>
    /** The toggle button's text, when the script has set it. */
    var toggleGlyph: Option<string>
    var particlesInitialized: bool
    var particleCalls: seq<ParticleCall>
    /** Every theme passed to setTheme, in order. */
    var applied: seq<string>
    var clickHandlers: nat
    var systemListeners: nat

    /** After construction: the attribute, the stored preference and the last
        applied theme agree and are non-empty, the button shows the matching
        glyph, and no system-preference listener exists. */
    ghost predicate Valid()
      reads this
    {
      && dataTheme.Some? && dataTheme.value != ""
      && ThemeKey in storage && storage[ThemeKey] == dataTheme.value
      && |applied| > 0 && applied[|applied| - 1] == dataTheme.value
      && (env.hasToggleButton ==> toggleGlyph == Some(Glyph(dataTheme.value)))
      && systemListeners == 0
    }

    /** new ThemeManager(): init resolves the theme, applies and persists it
        exactly once, starts the particles when it can, binds the toggle, and,
        because the preference is now stored, registers no system listener. */
    constructor (env: Environment, storage: map<string, string>)
      ensures Valid()
      ensures this.env == env
      ensures applied == [ResolveTheme(storage, env)]
      ensures dataTheme == Some(ResolveTheme(storage, env))
      ensures this.storage == storage[ThemeKey := ResolveTheme(storage, env)]
      ensures particlesInitialized == (env.hasInitializeParticles && env.hasParticlesElement)
      ensures particleCalls == if particlesInitialized then [Initialize] else []
      ensures clickHandlers == if env.hasToggleButton then 1 else 0
      ensures systemListeners == 0
    {
      this.env := env;
      this.storage := storage;
      dataTheme := None;
      toggleGlyph := None;
      particlesInitialized := false;
      particleCalls := [];
      applied := [];
      clickHandlers := 0;
      systemListeners := 0;
      new;
      var theme := ResolveTheme(storage, env);
      SetTheme(theme);
      if !particlesInitialized && env.hasInitializeParticles && env.hasParticlesElement {
        particleCalls := particleCalls + [Initialize];
        particlesInitialized := true;
      }
      if env.hasToggleButton {
        clickHandlers := clickHandlers + 1;
      }
      SetupSystemThemeListener();
    }

    /** setTheme: the attribute and the stored preference both become `theme`. */
    method SetTheme(theme: string)
      modifies this
      ensures dataTheme == Some(theme)
      ensures storage == old(storage)[ThemeKey := theme]
      ensures applied == old(applied) + [theme]
      ensures toggleGlyph == if env.hasToggleButton then Some(Glyph(theme)) else old(toggleGlyph)
      ensures particlesInitialized == old(particlesInitialized) && particleCalls == old(particleCalls)
      ensures clickHandlers == old(clickHandlers) && systemListeners == old(systemListeners)
    {
      dataTheme := Some(theme);
      storage := storage[ThemeKey := theme];
      applied := applied + [theme];
      if env.hasToggleButton {
        toggleGlyph := Some(Glyph(theme));
      }
    }

    /** setupSystemThemeListener: listens only when nothing is stored and matchMedia exists. */
    method SetupSystemThemeListener()
      modifies this
      ensures systemListeners ==
        old(systemListeners) + if !Truthy(GetItem(storage, ThemeKey)) && env.hasMatchMedia then 1 else 0
      ensures storage == old(storage) && dataTheme == old(dataTheme) && applied == old(applied)
      ensures toggleGlyph == old(toggleGlyph) && clickHandlers == old(clickHandlers)
      ensures particlesInitialized == old(particlesInitialized) && particleCalls == old(particleCalls)
    {
      if !Truthy(GetItem(storage, ThemeKey)) && env.hasMatchMedia {
        systemListeners := systemListeners + 1;
      }
    }

    /** A particle refresh after a theme change: reinitialize when the plugin
        offers it, otherwise recolour the first existing instance
        (fallbackThemeSwitch), if there is one. */
    method RefreshParticles(theme: string)
      modifies this
      ensures particleCalls == old(particleCalls) + ParticleRefresh(env, theme)
      ensures storage == old(storage) && dataTheme == old(dataTheme) && applied == old(applied)
      ensures toggleGlyph == old(toggleGlyph) && particlesInitialized == old(particlesInitialized)
      ensures clickHandlers == old(clickHandlers) && systemListeners == old(systemListeners)
    {
      if env.hasParticlesElement {
        if env.hasReinitializeParticles {
          particleCalls := particleCalls + [Reinitialize];
        } else if env.hasParticleInstances {
          particleCalls := particleCalls + [Recolor(theme)];
        }
      }
    }

    /** toggleTheme: light becomes dark and anything else becomes light; the
        new theme is applied and persisted. */
    method ToggleTheme()
      requires Valid()
      modifies this
      ensures Valid()
      ensures dataTheme == Some(Toggled(old(dataTheme)))
      ensures storage == old(storage)[ThemeKey := Toggled(old(dataTheme))]
      ensures applied == old(applied) + [Toggled(old(dataTheme))]
      ensures toggleGlyph == if env.hasToggleButton then Some(Glyph(Toggled(old(dataTheme)))) else old(toggleGlyph)
      ensures particleCalls == old(particleCalls) + ParticleRefresh(env, Toggled(old(dataTheme)))
      ensures particlesInitialized == old(particlesInitialized)
      ensures clickHandlers == old(clickHandlers) && systemListeners == old(systemListeners)
    {
      var next := Toggled(dataTheme);
      SetTheme(next);
      RefreshParticles(next);
    }

    /** The body of the system-preference listener. It re-applies the system
        theme only while nothing is stored; once the manager is valid a theme
        is always stored, so the handler changes nothing. */
    method SystemThemeChanged(matchesDark: bool)
      modifies this
      ensures Truthy(GetItem(old(storage), ThemeKey)) ==> unchanged(this)
      ensures old(Valid()) ==> unchanged(this)
      ensures !Truthy(GetItem(old(storage), ThemeKey)) ==>
        && dataTheme == Some(if matchesDark then Dark else Light)
        && storage == old(storage)[ThemeKey := if matchesDark then Dark else Light]
        && applied == old(applied) + [if matchesDark then Dark else Light]
        && toggleGlyph == (if env.hasToggleButton then Some(Glyph(if matchesDark then Dark else Light)) else old(toggleGlyph))
        && particleCalls == old(particleCalls) + ParticleRefresh(env, if matchesDark then Dark else Light)
        && particlesInitialized == old(particlesInitialized)
        && clickHandlers == old(clickHandlers) && systemListeners == old(systemListeners)
    {
      if !Truthy(GetItem(storage, ThemeKey)) {
        var next := if matchesDark then Dark else Light;
        SetTheme(next);
        RefreshParticles(next);
      }
    }
  }
}

/**
 * The light/dark theme provider (src/components/providers/ThemeProvider.tsx): the
 * stored-theme validation and initial-theme choice, the provider's state with its
 * mount and apply effects, and the fallback context outside a provider.
 */
module ThemeProvider {
  import opened Wrappers

  datatype Theme = Light | Dark

  /** The local-storage key the theme is saved under. */
  const STORAGE_KEY: string := "one-piece-theme"
  /** The provider's `defaultTheme` when none is passed. */
  const DEFAULT_THEME: Theme := Dark
  /** The custom property the apply effect sets, and its value. */
  const TRANSITION_PROPERTY: string := "--theme-transition"
  const TRANSITION_VALUE: string := "all 0.3s ease-in-out"

  /** The class name and stored string of a theme. */
  function Name(t: Theme): (s: string)
    ensures s == "light" || s == "dark"
  {
    match t
    case Light => "light"
    case Dark => "dark"
  }

  /** The only two class names the apply effect manages. */
  function ThemeClasses(): (c: set<string>)
    ensures forall t :: Name(t) in c
  {
    {"light", "dark"}
  }

  /** The toggle's state updater: light becomes dark and anything else becomes light. */
  function Toggle(t: Theme): (r: Theme)
    ensures r != t
  {
    if t == Light then Dark else Light
  }

  /** Toggling twice gives back the theme toggled. */
  lemma ToggleTwice(t: Theme)
    ensures Toggle(Toggle(t)) == t
  {
  }

  /** Accepts exactly the strings "light" and "dark"; anything else, or nothing stored, is rejected. */
  function Parse(stored: Option<string>): (r: Option<Theme>)
    ensures r.Some? <==> stored == Some("light") || stored == Some("dark")
    ensures r.Some? ==> stored == Some(Name(r.value))
  {
    if stored == Some("light") then Some(Light)
    else if stored == Some("dark") then Some(Dark)
    else None
  }

  /** A stored theme name reads back as the same theme. */
  lemma ParseName(t: Theme)
    ensures Parse(Some(Name(t))) == Some(t)
  {
  }

  /** `localStorage.getItem`: `null` for a missing key. */
  function GetItem(items: map<string, string>, key: string): (r: Option<string>)
    ensures r.Some? <==> key in items
    ensures r.Some? ==> r.value == items[key]
  {
    if key in items then Some(items[key]) else None
  }

  /** What the browser offers the theme helpers: stored items and the colour-scheme query. */
  datatype Window = Window(items: map<string, string>, prefersDark: bool)

  /** The system preference; `None` is the server, where the answer is dark. */
  function GetSystemTheme(window: Option<Window>): (t: Theme)
    ensures window.None? ==> t == Dark
    ensures window.Some? ==> (t == Dark <==> window.value.prefersDark)
  {
    match window
    case None => Dark
    case Some(w) => if w.prefersDark then Dark else Light
  }

  /** The stored theme if it is valid; nothing on the server. */
  function GetStoredTheme(window: Option<Window>): (r: Option<Theme>)
    ensures window.None? ==> r.None?
    ensures window.Some? ==> (r.Some? <==> GetItem(window.value.items, STORAGE_KEY) in {Some("light"), Some("dark")})
    ensures window.Some? && r.Some? ==> GetItem(window.value.items, STORAGE_KEY) == Some(Name(r.value))
  {
    match window
    case None => None
    case Some(w) => Parse(GetItem(w.items, STORAGE_KEY))
  }

  /** The valid stored theme if there is one, the system preference otherwise. */
  function GetInitialTheme(window: Option<Window>): (t: Theme)
    ensures GetStoredTheme(window).Some? ==> t == GetStoredTheme(window).value
    ensures GetStoredTheme(window).None? ==> t == GetSystemTheme(window)
  {
    var stored := GetStoredTheme(window);
    if stored.Some? then stored.value else GetSystemTheme(window)
  }

  /** The mount effect's choice: a saved "light" or "dark", else the system preference. */
  function MountChoice(saved: Option<string>, prefersDark: bool): (t: Theme)
    ensures saved == Some("light") ==> t == Light
    ensures saved == Some("dark") ==> t == Dark
    ensures saved != Some("light") && saved != Some("dark") ==> (t == Dark <==> prefersDark)
  {
    if saved.Some? && saved.value != "" && (saved.value == "light" || saved.value == "dark") then
      (if saved.value == "light" then Light else Dark)
    else if prefersDark then Dark else Light
  }

  /** The mount effect and `getInitialTheme` pick the same theme in a browser. */
  lemma MountChoiceIsInitialTheme(w: Window)
    ensures MountChoice(GetItem(w.items, STORAGE_KEY), w.prefersDark) == GetInitialTheme(Some(w))
  {
  }

  /** `window.localStorage`. */
  class Storage {
    var items: map<string, string>
    constructor (items: map<string, string>)
      ensures this.items == items
    {
      this.items := items;
    }
  }

  /** `document.documentElement`: its class list and inline custom properties. */
  class Root {
    var classList: set<string>
    var style: map<string, string>
    constructor (classList: set<string>, style: map<string, string>)
      ensures this.classList == classList && this.style == style
    {
      this.classList := classList;
      this.style := style;
    }
  }

  /** The provider's two state cells and the browser objects its effects write. */
  class Provider {
    var theme: Theme
    var mounted: bool
    const root: Root
    const storage: Storage

    /** The first render: the `defaultTheme` prop, dark when it is not passed; not yet mounted. */
    constructor (defaultTheme: Option<Theme>, root: Root, storage: Storage)
      ensures defaultTheme.Some? ==> theme == defaultTheme.value
      ensures defaultTheme.None? ==> theme == DEFAULT_THEME == Dark
      ensures !mounted
      ensures this.root == root && this.storage == storage
    {
      theme := if defaultTheme.Some? then defaultTheme.value else DEFAULT_THEME;
      mounted := false;
      this.root := root;
      this.storage := storage;
    }

    /** The mount effect: a valid saved theme wins over the system preference; then mounted. */
    method MountEffect(prefersDark: bool)
      modifies this
      ensures theme == MountChoice(GetItem(storage.items, STORAGE_KEY), prefersDark)
      ensures theme == GetInitialTheme(Some(Window(storage.items, prefersDark)))
      ensures mounted
    {
      var saved := GetItem(storage.items, STORAGE_KEY);
      if saved.Some? && saved.value != "" && (saved.value == "light" || saved.value == "dark") {
        theme := if saved.value == "light" then Light else Dark;
      } else {
        theme := if prefersDark then Dark else Light;
      }
      mounted := true;
      MountChoiceIsInitialTheme(Window(storage.items, prefersDark));
    }

    /**
     * The apply effect: nothing before mount; afterwards the root carries exactly the
     * current theme's class among "light" and "dark", its other classes untouched, and
     * storage holds the theme's name, so the stored theme reads back as the current one.
     */
    method ApplyEffect()
      modifies root, storage
      ensures !mounted ==> unchanged(root, storage)
      ensures mounted ==> root.classList * ThemeClasses() == {Name(theme)}
      ensures mounted ==> root.classList - ThemeClasses() == old(root.classList) - ThemeClasses()
      ensures mounted ==> storage.items == old(storage.items)[STORAGE_KEY := Name(theme)]
      ensures mounted ==> root.style == old(root.style)[TRANSITION_PROPERTY := TRANSITION_VALUE]
      ensures mounted ==> forall p :: GetStoredTheme(Some(Window(storage.items, p))) == Some(theme)
    {
      if !mounted {
        return;
      }
      root.classList := root.classList - {"light", "dark"};
      root.classList := root.classList + {Name(theme)};
      storage.items := storage.items[STORAGE_KEY := Name(theme)];
      root.style := root.style[TRANSITION_PROPERTY := TRANSITION_VALUE];
      ParseName(theme);
    }

    /**
     * The context the provider's children read. Before mount the provider renders its
     * children in a plain wrapper with no context, so they get the fallback: dark, with
     * setters that do nothing. After mount they get its theme and live setters.
     */
    function ChildContext(): (c: Context)
      reads this
      ensures !mounted ==> c == Context(Dark, false)
      ensures mounted ==> c == Context(theme, true)
    {
      UseTheme(if mounted then Some(theme) else None)
    }

    method SetTheme(newTheme: Theme)
      modifies this
      ensures theme == newTheme && mounted == old(mounted)
    {
      theme := newTheme;
    }

    method ToggleTheme()
      modifies this
      ensures theme == Toggle(old(theme)) && mounted == old(mounted)
    {
      theme := Toggle(theme);
    }
  }

  /** A request a consumer makes through the context. */
  datatype Request = SetRequest(t: Theme) | ToggleRequest

  /** What `useTheme` hands a consumer: the theme, and whether its setters reach a provider. */
  datatype Context = Context(theme: Theme, connected: bool)

  /** Inside a provider, its theme and live setters; outside, dark with setters that do nothing. */
  function UseTheme(provider: Option<Theme>): (c: Context)
    ensures provider.None? ==> c == Context(Dark, false)
    ensures provider.Some? ==> c.theme == provider.value && c.connected
  {
    match provider
    case None => Context(Dark, false)
    case Some(t) => Context(t, true)
  }

  /** The provider's theme after a consumer's request; a disconnected context changes nothing. */
  function Dispatch(c: Context, r: Request, current: Theme): (t: Theme)
    ensures !c.connected ==> t == current
    ensures c.connected && r.SetRequest? ==> t == r.t
    ensures c.connected && r.ToggleRequest? ==> t != current
  {
    if !c.connected then current
    else match r
      case SetRequest(n) => n
      case ToggleRequest => Toggle(current)
  }
  /** Before mount, a child's set or toggle request does not reach the provider. */
  lemma PreMountRequestsIgnored(p: Provider, r: Request)
    requires !p.mounted
    ensures Dispatch(p.ChildContext(), r, p.theme) == p.theme
  {
  }

}

/** components/ThemeProvider.tsx: the theme state, the 'theme-preference'
    cookie and the document's data-theme attribute. The cookie is an
    optional string (a read does not validate it), the OS dark-mode
    preference is a parameter of the events that observe it, and the
    context a component sees is an optional value. */
module ThemeProvider {
  import opened Base

  /** The theme the OS preference calls for. */
  function ThemeForOs(prefersDark: bool): (t: string)
    ensures t == "dark" <==> prefersDark
    ensures t == "light" <==> !prefersDark
  {
    if prefersDark then "dark" else "light"
  }

  /** The theme chosen on mount: a saved cookie wins, unchecked, whatever
      the OS prefers; without one the OS decides. */
  function InitialTheme(cookie: Option<string>, prefersDark: bool): (t: string)
    ensures Truthy(cookie) ==> t == cookie.value
    ensures !Truthy(cookie) ==> t == ThemeForOs(prefersDark)
  {
    if Truthy(cookie) then cookie.value else ThemeForOs(prefersDark)
  }

  /** toggleTheme's new value: 'light' becomes 'dark', anything else (even
      an unexpected cookie value) becomes 'light'. */
  function Toggled(theme: string): (t: string)
    ensures t in {"light", "dark"}
    ensures t == "dark" <==> theme == "light"
  {
    if theme == "light" then "dark" else "light"
  }

  /** Toggling twice restores a valid theme; an invalid one settles on
      'dark' after two toggles. */
  lemma ToggleTwice(theme: string)
    ensures theme in {"light", "dark"} ==> Toggled(Toggled(theme)) == theme
    ensures theme !in {"light", "dark"} ==> Toggled(Toggled(theme)) == "dark"
  {
  }

  /** The provider's state across renders. */
  class ThemeStore {
    var theme: string
    var mounted: bool
    /** The 'theme-preference' cookie. */
    var cookie: Option<string>
    /** document.documentElement's data-theme attribute. */
    var dataTheme: Option<string>

    /** Once mounted, the attribute always shows the current theme. */
    predicate Valid()
      reads this
    {
      mounted ==> dataTheme == Some(theme)
    }

    /** First render: 'light' until the mount effect runs. */
    constructor (cookie: Option<string>)
      ensures theme == "light" && !mounted && this.cookie == cookie && dataTheme == None
      ensures Valid()
    {
      theme := "light";
      mounted := false;
      this.cookie := cookie;
      dataTheme := None;
    }

    /** The mount effect. */
    method Mount(prefersDark: bool)
      modifies this
      ensures mounted && cookie == old(cookie)
      ensures theme == InitialTheme(cookie, prefersDark)
      ensures Valid()
    {
      var savedTheme := cookie;
      if Truthy(savedTheme) {
        theme := savedTheme.value;
        dataTheme := Some(savedTheme.value);
      } else {
        var initialTheme := ThemeForOs(prefersDark);
        theme := initialTheme;
        dataTheme := Some(initialTheme);
      }
      mounted := true;
    }

    /** The OS 'change' listener: only registered after mount, and only
        acting while no cookie is saved. */
    method OsChange(matchesDark: bool)
      requires Valid()
      modifies this
      ensures Valid() && mounted == old(mounted) && cookie == old(cookie)
      ensures !old(mounted) || Truthy(cookie) ==> theme == old(theme) && dataTheme == old(dataTheme)
      ensures old(mounted) && !Truthy(cookie) ==> theme == ThemeForOs(matchesDark)
    {
      if !mounted {
        return;
      }
      if !Truthy(cookie) {
        var newTheme := ThemeForOs(matchesDark);
        theme := newTheme;
        dataTheme := Some(newTheme);
      }
    }

    /** toggleTheme: the new theme goes to the state, the cookie and the
        attribute. */
    method Toggle()
      requires Valid()
      modifies this
      ensures mounted == old(mounted)
      ensures theme == Toggled(old(theme))
      ensures cookie == Some(theme) && dataTheme == Some(theme)
      ensures Truthy(cookie)
      ensures Valid()
    {
      var newTheme := Toggled(theme);
      theme := newTheme;
      cookie := Some(newTheme);
      dataTheme := Some(newTheme);
    }
  }

  /** The value the context carries. */
  datatype ThemeContext = ThemeContext(theme: string)

  datatype Result<T> = Success(value: T) | Failure(error: string)

  /** useTheme: the context inside a provider, an error outside one. */
  function UseTheme(context: Option<ThemeContext>): (r: Result<ThemeContext>)
    ensures r.Failure? <==> context.None?
    ensures r.Failure? ==> r.error == "useTheme must be used within a ThemeProvider"
    ensures r.Success? ==> r.value == context.value
  {
    match context
    case None => Failure("useTheme must be used within a ThemeProvider")
    case Some(c) => Success(c)
  }
}

/** The dashboard header: the search suggestions and the initials shown in
    the user menu; and the theme manager, which keeps the light/dark choice in
    storage. */
module Dashboard {
  import opened Wrappers
  import opened Text
  import opened Seqs
  import opened UserRecord
  import opened Storage

  /** A search suggestion; its icon is presentation only. */
  datatype Suggestion = Suggestion(name: string, href: string, keywords: seq<string>)

  const Suggestions: seq<Suggestion> := [
    Suggestion("Generate Single Ad", "#generate-ad", ["generate", "ad", "create", "advertisement"]),
    Suggestion("My Topics", "#topics", ["topics", "campaigns", "view", "manage"]),
    Suggestion("Auto Post", "#auto-post", ["auto", "post", "automated", "posting"]),
    Suggestion("Scheduled Posts", "#scheduled", ["scheduled", "posts", "calendar", "upcoming"]),
    Suggestion("Analytics", "#analytics", ["analytics", "stats", "reports", "data"]),
    Suggestion("Settings", "#settings", ["settings", "preferences", "config", "options"])
  ]

  /** The filter of `renderSuggestions`: the lower-cased name (the label) or some
      lower-cased keyword contains the lower-cased query. */
  predicate Matches(s: Suggestion, query: string) {
    || Contains(Lower(s.name), Lower(query))
    || exists k :: 0 <= k < |s.keywords| && Contains(Lower(s.keywords[k]), Lower(query))
  }

  /** The list filter of `renderSuggestions`, over any list of suggestions:
      it keeps exactly the matching ones, in their own order. */
  function MatchingSuggestions(items: seq<Suggestion>, query: string): (r: seq<Suggestion>)
    ensures |r| <= |items|
    ensures forall i :: 0 <= i < |r| ==> r[i] in items && Matches(r[i], query)
    ensures forall i :: 0 <= i < |items| && Matches(items[i], query) ==> items[i] in r
  {
    Filter(items, s => Matches(s, query))
  }

  /** The suggestions `renderSuggestions(query)` lists. */
  function RenderSuggestions(query: string): (r: seq<Suggestion>)
    ensures |r| <= |Suggestions|
    ensures forall s :: s in r <==> s in Suggestions && Matches(s, query)
  {
    MatchingSuggestions(Suggestions, query)
  }

  /** On focus the query is empty and every suggestion is listed, in order. */
  lemma EmptyQueryKeepsAll()
    ensures RenderSuggestions("") == Suggestions
  {
    forall i | 0 <= i < |Suggestions|
      ensures Matches(Suggestions[i], "")
    {
      ContainsEmpty(Lower(Suggestions[i].name));
    }
    FilterAll(Suggestions, s => Matches(s, ""));
  }

  /** Typing more only narrows the list: a suggestion listed for a query is
      listed for every prefix of it. */
  lemma LongerQueryNarrows(query: string, more: string, s: Suggestion)
    requires Matches(s, query + more)
    ensures Matches(s, query)
  {
    LowerAppend(query, more);
    if Contains(Lower(s.name), Lower(query + more)) {
      ContainsPrefix(Lower(s.name), Lower(query), Lower(more));
    } else {
      var k :| 0 <= k < |s.keywords| && Contains(Lower(s.keywords[k]), Lower(query + more));
      ContainsPrefix(Lower(s.keywords[k]), Lower(query), Lower(more));
    }
  }

  /** `getInitials(email)`: "--" for an empty email, otherwise the same
      initials the auth manager gives a user with that email. */
  function GetInitials(email: string): (r: string)
    ensures email == "" ==> r == "--"
    ensures email != "" ==> r == Initials(email) && |r| <= 2
  {
    if email == "" then "--" else Initials(email)
  }

  const ThemeKey: string := "automatter_theme"

  /** The stored text for a theme choice. */
  function ThemeName(dark: bool): (r: string)
    ensures r == "dark" <==> dark
  {
    if dark then "dark" else "light"
  }

  /** `localStorage.getItem("automatter_theme") === "dark"` */
  predicate StoredDark(items: map<string, string>) {
    ThemeKey in items && items[ThemeKey] == "dark"
  }

  class ThemeManager {
    var isDarkMode: bool
    const storage: LocalStorage

    /** The shown theme is the stored one. */
    ghost predicate Valid()
      reads this, storage
    {
      isDarkMode == StoredDark(storage.items)
    }

    /** `new ThemeManager()`: dark exactly when "dark" is stored. Any other
        stored text, or none, gives the light theme. */
    constructor (storage: LocalStorage)
      ensures this.storage == storage && isDarkMode == StoredDark(storage.items)
      ensures Valid()
    {
      this.storage := storage;
      var stored := storage.GetItem(ThemeKey);
      isDarkMode := stored == Some("dark");
    }

    /** `toggleTheme`: flips the theme and stores the new choice; no other key
        of the store changes. */
    method ToggleTheme()
      modifies this, storage
      ensures isDarkMode == !old(isDarkMode)
      ensures storage.items == old(storage.items)[ThemeKey := ThemeName(isDarkMode)]
      ensures Valid()
    {
      isDarkMode := !isDarkMode;
      storage.SetItem(ThemeKey, if isDarkMode then "dark" else "light");
    }
  }

  /** Toggling twice gives back the theme, and a manager created afresh over
      the same store (a reload) shows the theme last chosen. */
  method ToggleTwiceRestores(storage: LocalStorage) returns (before: bool, after: bool, reloaded: bool)
    modifies storage
    ensures after == before && reloaded == after
  {
    var m := new ThemeManager(storage);
    before := m.isDarkMode;
    m.ToggleTheme();
    m.ToggleTheme();
    after := m.isDarkMode;
    var again := new ThemeManager(storage);
    reloaded := again.isDarkMode;
  }
}

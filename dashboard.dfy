/**
 * The character browser: the category carousel (a ring of three slides with automatic
 * advance), the navigation between the category, team, driver and character views, and
 * the case-insensitive search filters of each view. The character fetch is a parameter,
 * images and layout are not modelled.
 */
module Dashboard {
  import opened Wrappers
  import opened Text
  import opened Lists

  // ---------------------------------------------------------------- the carousel ring

  /** `Object.keys(CATEGORIES)`, in declaration order. */
  const CategoryIds: seq<string> := ["f1", "marvel", "classic"]

  /** `nextSlide`: one step forward around a ring of `n` slides. */
  function NextSlide(i: int, n: nat): (j: int)
    requires n > 0 && 0 <= i
    ensures 0 <= j < n
    ensures i < n - 1 ==> j == i + 1
    ensures i == n - 1 ==> j == 0
  {
    (i + 1) % n
  }

  /** `prevSlide`: one step back, `(i - 1 + n) % n`. */
  function PrevSlide(i: int, n: nat): (j: int)
    requires n > 0 && 0 <= i
    ensures 0 <= j < n
    ensures 0 < i < n ==> j == i - 1
    ensures i == 0 ==> j == n - 1
  {
    (i - 1 + n) % n
  }

  /** On the ring, forward and back undo each other. */
  lemma SlidesInverse(i: int, n: nat)
    requires n > 0 && 0 <= i < n
    ensures PrevSlide(NextSlide(i, n), n) == i
    ensures NextSlide(PrevSlide(i, n), n) == i
  {
  }

  /** `k` steps forward. */
  function Advance(i: int, n: nat, k: nat): (j: int)
    requires n > 0 && 0 <= i < n
    ensures 0 <= j < n
    ensures j == (i + k) % n
  {
    if k == 0 then i
    else
      ModSucc(i + k - 1, n);
      NextSlide(Advance(i, n, k - 1), n)
  }

  /** Taking the remainder before adding one changes nothing modulo `n`. */
  lemma ModSucc(a: nat, n: nat)
    requires n > 0
    ensures (a % n + 1) % n == (a + 1) % n
  {
    var q, r := a / n, a % n;
    assert a == q * n + r;
    if r + 1 < n {
      assert a + 1 == q * n + (r + 1);
      ModUnique(a + 1, n, q, r + 1);
    } else {
      assert a + 1 == (q + 1) * n + 0;
      ModUnique(a + 1, n, q + 1, 0);
    }
  }

  lemma ModUnique(a: nat, n: nat, q: int, r: int)
    requires n > 0 && 0 <= r < n && a == q * n + r
    ensures a % n == r
  {
    var q', r' := a / n, a % n;
    var d := q' - q;
    assert d * n == q' * n - q * n;
    assert d * n == r - r';
    MulBound(d, n);
  }

  lemma {:induction false} MulBound(d: int, n: int)
    requires n >= 0
    ensures d >= 1 ==> d * n >= n
    ensures d <= -1 ==> d * n <= -n
    decreases if d < 0 then -d else d
  {
    if d > 1 {
      assert d * n == (d - 1) * n + n;
      MulBound(d - 1, n);
    } else if d < -1 {
      assert d * n == (d + 1) * n - n;
      MulBound(d + 1, n);
    }
  }

  /** `n` steps forward return to the start. */
  lemma FullTurn(i: int, n: nat)
    requires n > 0 && 0 <= i < n
    ensures Advance(i, n, n) == i
  {
    ModUnique(i + n, n, 1, i);
  }

  // ---------------------------------------------------------------- data and filters

  datatype View = Categories | TeamsView | DriversView | CharactersView

  datatype F1Driver = F1Driver(name: string)
  datatype F1Team = F1Team(id: string, name: string, color: string, drivers: seq<F1Driver>)

  /** `F1_TEAMS`, as `Object.entries` lists it. */
  const F1Teams: seq<F1Team> := [
    F1Team("ferrari", "Scuderia Ferrari", "#DC143C", [F1Driver("Charles Leclerc"), F1Driver("Lewis Hamilton")]),
    F1Team("mclaren", "McLaren F1 Team", "#FF8000", [F1Driver("Lando Norris"), F1Driver("Oscar Piastri")]),
    F1Team("mercedes", "Mercedes-AMG F1", "#00D2BE", [F1Driver("George Russell"), F1Driver("Kimi Antonelli")]),
    F1Team("redbull", "Red Bull Racing", "#0600EF", [F1Driver("Max Verstappen"), F1Driver("Yuki Tsunoda")])
  ]

  /** A character as the server lists it. */
  datatype CharacterInfo = CharacterInfo(name: string, description: string, skills: seq<string>)

  /** `text.toLowerCase().includes(term.toLowerCase())`. */
  predicate Matches(text: string, term: string)
  {
    Contains(ToLower(text), ToLower(term))
  }

  /** The empty term matches everything. */
  lemma EmptyTermMatches(text: string)
    ensures Matches(text, "")
  {
    ContainsTrivial(ToLower(text));
  }

  predicate AnyMatches(texts: seq<string>, term: string)
  {
    exists i :: 0 <= i < |texts| && Matches(texts[i], term)
  }

  predicate TeamMatches(t: F1Team, term: string)
  {
    Matches(t.name, term) || exists i :: 0 <= i < |t.drivers| && Matches(t.drivers[i].name, term)
  }

  /** `filteredTeams`: the teams whose name or whose driver's name matches, in order. */
  function FilteredTeams(teams: seq<F1Team>, term: string): (r: seq<F1Team>)
    ensures forall t :: t in r <==> t in teams && TeamMatches(t, term)
    ensures IsSubseq(r, teams)
    ensures term == "" ==> r == teams
  {
    var p := (t: F1Team) => TeamMatches(t, term);
    FilterIff(p, teams);
    FilterIsSubseq(p, teams);
    if term == "" then
      forall t | t in teams ensures p(t) { EmptyTermMatches(t.name); }
      FilterAll(p, teams);
      Filter(p, teams)
    else Filter(p, teams)
  }

  /** `filteredDrivers`: the team's drivers whose name matches, in order. */
  function FilteredDrivers(team: F1Team, term: string): (r: seq<F1Driver>)
    ensures forall d :: d in r <==> d in team.drivers && Matches(d.name, term)
    ensures IsSubseq(r, team.drivers)
    ensures term == "" ==> r == team.drivers
  {
    var p := (d: F1Driver) => Matches(d.name, term);
    FilterIff(p, team.drivers);
    FilterIsSubseq(p, team.drivers);
    if term == "" then
      forall d | d in team.drivers ensures p(d) { EmptyTermMatches(d.name); }
      FilterAll(p, team.drivers);
      Filter(p, team.drivers)
    else Filter(p, team.drivers)
  }

  predicate CharacterMatches(c: CharacterInfo, term: string)
  {
    Matches(c.name, term) || Matches(c.description, term) || AnyMatches(c.skills, term)
  }

  /** `filteredCharacters`: the entries whose name, description or one of its skills matches, in order. */
  function FilteredCharacters(entries: seq<(string, CharacterInfo)>, term: string): (r: seq<(string, CharacterInfo)>)
    ensures forall e :: e in r <==> e in entries && CharacterMatches(e.1, term)
    ensures IsSubseq(r, entries)
    ensures term == "" ==> r == entries
  {
    var p := (e: (string, CharacterInfo)) => CharacterMatches(e.1, term);
    FilterIff(p, entries);
    FilterIsSubseq(p, entries);
    if term == "" then
      forall e | e in entries ensures p(e) { EmptyTermMatches(e.1.name); }
      FilterAll(p, entries);
      Filter(p, entries)
    else Filter(p, entries)
  }

  /** The character card built for a driver of the selected team. */
  datatype DriverCard = DriverCard(id: string, name: string, description: string, skills: seq<string>)

  /** The id is the lower-cased name with its first space made `_` (a string pattern replaces once). */
  function DriverCardOf(team: F1Team, d: F1Driver): (c: DriverCard)
    ensures |c.id| == |d.name| && c.name == d.name
    ensures forall i :: 0 <= i < |d.name| ==>
      c.id[i] == if d.name[i] == ' ' && ' ' !in d.name[..i] then '_' else LowerChar(d.name[i])
    ensures c.description == team.name + " F1车手" && c.skills == ["赛车策略", "团队合作"]
  {
    var lower := ToLower(d.name);
    assert forall i :: 0 <= i < |d.name| ==> (' ' in lower[..i] <==> ' ' in d.name[..i]) by {
      forall i, j | 0 <= j < i < |d.name| ensures lower[..i][j] == ' ' <==> d.name[..i][j] == ' ' {
      }
    }
    DriverCard(ReplaceFirst(lower, ' ', '_'), d.name, team.name + " F1车手", ["赛车策略", "团队合作"])
  }

  // ---------------------------------------------------------------- the screen

  class DashboardScreen {
    var characters: seq<(string, CharacterInfo)>
    var searchTerm: string
    var loading: bool
    var currentView: View
    var selectedCategory: Option<string>
    var selectedTeam: Option<string>
    var carouselIndex: int
    var isAutoPlaying: bool

    /** The carousel index is a slide. */
    predicate Valid()
      reads this`carouselIndex
    {
      0 <= carouselIndex < |CategoryIds|
    }

    constructor ()
      ensures Valid()
      ensures characters == [] && searchTerm == "" && loading && currentView == Categories
      ensures selectedCategory.None? && selectedTeam.None? && carouselIndex == 0 && isAutoPlaying
    {
      characters, searchTerm, loading := [], "", true;
      currentView, selectedCategory, selectedTeam := Categories, None, None;
      carouselIndex, isAutoPlaying := 0, true;
    }

    /** `fetchCharacters` settles: the list is replaced only on success; loading ends either way. */
    method FetchDone(response: Option<seq<(string, CharacterInfo)>>)
      modifies this`characters, this`loading
      ensures characters == if response.Some? then response.value else old(characters)
      ensures !loading
    {
      if response.Some? {
        characters := response.value;
      }
      loading := false;
    }

    /** `handleCategorySelect`: F1 opens the teams, any other category its characters. */
    method SelectCategory(categoryId: string)
      modifies this`selectedCategory, this`currentView
      ensures selectedCategory == Some(categoryId)
      ensures currentView == if categoryId == "f1" then TeamsView else CharactersView
    {
      selectedCategory := Some(categoryId);
      currentView := if categoryId == "f1" then TeamsView else CharactersView;
    }

    /** `handleTeamSelect`. */
    method SelectTeam(teamId: string)
      modifies this`selectedTeam, this`currentView
      ensures selectedTeam == Some(teamId) && currentView == DriversView
    {
      selectedTeam, currentView := Some(teamId), DriversView;
    }

    /** `handleBackToCategories`: both selections are cleared. */
    method BackToCategories()
      modifies this`selectedCategory, this`selectedTeam, this`currentView
      ensures currentView == Categories && selectedCategory.None? && selectedTeam.None?
    {
      currentView, selectedCategory, selectedTeam := Categories, None, None;
    }

    /** `handleBackToTeams`: the team selection is cleared, the category kept. */
    method BackToTeams()
      modifies this`selectedTeam, this`currentView
      ensures currentView == TeamsView && selectedTeam.None?
    {
      currentView, selectedTeam := TeamsView, None;
    }

    /** The home breadcrumb: back to the categories, keeping both selections. */
    method Home()
      modifies this`currentView
      ensures currentView == Categories
    {
      currentView := Categories;
    }

    method Next()
      requires Valid()
      modifies this`carouselIndex
      ensures Valid() && carouselIndex == NextSlide(old(carouselIndex), |CategoryIds|)
    {
      carouselIndex := (carouselIndex + 1) % |CategoryIds|;
    }

    method Prev()
      requires Valid()
      modifies this`carouselIndex
      ensures Valid() && carouselIndex == PrevSlide(old(carouselIndex), |CategoryIds|)
    {
      carouselIndex := (carouselIndex - 1 + |CategoryIds|) % |CategoryIds|;
    }

    /** One tick of the five-second interval: it advances only on the category view with auto-play on. */
    method AutoTick()
      requires Valid()
      modifies this`carouselIndex
      ensures Valid()
      ensures currentView == Categories && isAutoPlaying ==> carouselIndex == NextSlide(old(carouselIndex), |CategoryIds|)
      ensures !(currentView == Categories && isAutoPlaying) ==> carouselIndex == old(carouselIndex)
    {
      if currentView == Categories && isAutoPlaying {
        Next();
      }
    }

    /** An indicator of the carousel was clicked. */
    method ChangeIndex(index: int)
      requires 0 <= index < |CategoryIds|
      modifies this`carouselIndex
      ensures Valid() && carouselIndex == index
    {
      carouselIndex := index;
    }

    /** The mouse enters (`false`) or leaves (`true`) the carousel, or the play button toggles it. */
    method SetAutoPlaying(on: bool)
      modifies this`isAutoPlaying
      ensures isAutoPlaying == on
    {
      isAutoPlaying := on;
    }

    method SetSearchTerm(term: string)
      modifies this`searchTerm
      ensures searchTerm == term
    {
      searchTerm := term;
    }
  }
}

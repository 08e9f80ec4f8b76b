/**
 * The top-level view (src/App.tsx): the tutor store, the filter and sort state, the
 * session flags, and the listing pipeline derived from them. The derived views are
 * computed directly from the state; the memoisation of the original is left out.
 */
module App {
  import opened Seqs
  import opened Text
  import opened Sorting
  import opened Types
  import opened FilterPanel

  /** The four options of the sort menu. */
  datatype SortKey = Rating | PriceLow | PriceHigh | Experience

  /** Everything `filteredTutors` depends on besides the store. */
  datatype Filters = Filters(query: string, selected: Selections)

  // ---------------------------------------------------------------------------
  // Filtering

  /** `searchQuery.trim()` is truthy: only then does the text check run. */
  predicate QueryActive(query: string) {
    Trim(query) != []
  }

  /** The text check. Matching uses the lower-cased query as typed, not the trimmed one. */
  predicate MatchesQuery(t: Tutor, query: string) {
    var q := ToLower(query);
    || Contains(ToLower(t.name), q)
    || Contains(ToLower(t.bio), q)
    || exists inst :: inst in t.instruments && Contains(ToLower(inst), q)
  }

  /** `xs.some(x => selected.includes(x))`. */
  predicate HasAny(xs: seq<string>, selected: seq<string>) {
    exists x :: x in xs && x in selected
  }

  /** The callback given to `tutors.filter`, early returns and all. */
  predicate Keep(t: Tutor, f: Filters) {
    if QueryActive(f.query) && !MatchesQuery(t, f.query) then false
    else if |f.selected.instruments| > 0 && !HasAny(t.instruments, f.selected.instruments) then false
    else if |f.selected.suburbs| > 0 && t.suburb !in f.selected.suburbs then false
    else if |f.selected.days| > 0 && !HasAny(t.availability, f.selected.days) then false
    else true
  }

  /**
   * The matching rule stated dimension by dimension: a conjunction over the four
   * dimensions, a non-empty intersection within the instrument and day dimensions,
   * exact membership for the suburb, and an empty selection constraining nothing.
   */
  ghost predicate MatchesAllDimensions(t: Tutor, f: Filters) {
    && (IsBlank(f.query) || MatchesQuery(t, f.query))
    && (f.selected.instruments == [] || (set x | x in t.instruments) * (set x | x in f.selected.instruments) != {})
    && (f.selected.suburbs == [] || t.suburb in f.selected.suburbs)
    && (f.selected.days == [] || (set x | x in t.availability) * (set x | x in f.selected.days) != {})
  }

  /** A tutor is kept iff every one of the four dimension checks passes. */
  lemma KeepIffAllDimensions(t: Tutor, f: Filters)
    ensures Keep(t, f) <==> MatchesAllDimensions(t, f)
  {
    TrimEmptyIffBlank(f.query);
    HasAnyIffIntersects(t.instruments, f.selected.instruments);
    HasAnyIffIntersects(t.availability, f.selected.days);
  }

  lemma HasAnyIffIntersects(xs: seq<string>, selected: seq<string>)
    ensures HasAny(xs, selected) <==> (set x | x in xs) * (set x | x in selected) != {}
  {
    if HasAny(xs, selected) {
      var x :| x in xs && x in selected;
      assert x in (set x | x in xs) * (set x | x in selected);
    }
  }

  /** `filteredTutors`: the kept tutors, in store order, unaltered and with their multiplicities. */
  function FilterTutors(tutors: seq<Tutor>, f: Filters): (r: seq<Tutor>)
    ensures IsSubsequence(r, tutors)
    ensures forall t :: t in r ==> Keep(t, f)
    ensures forall t :: multiset(r)[t] == if Keep(t, f) then multiset(tutors)[t] else 0
  {
    if tutors == [] then []
    else
      var rest := FilterTutors(tutors[1..], f);
      assert tutors == [tutors[0]] + tutors[1..];
      if Keep(tutors[0], f) then [tutors[0]] + rest
      else (assert rest == [] || rest[0] != tutors[0]; rest)
  }

  /** With a blank query and nothing selected, the filtered list is the whole store, in order. */
  lemma {:induction false} NoFilterKeepsAll(tutors: seq<Tutor>, f: Filters)
    requires IsBlank(f.query) && !HasFilters(f.selected)
    ensures FilterTutors(tutors, f) == tutors
  {
    TrimEmptyIffBlank(f.query);
    if tutors != [] {
      NoFilterKeepsAll(tutors[1..], f);
    }
  }

  lemma FilterUnfold(tutors: seq<Tutor>, f: Filters)
    requires tutors != []
    ensures FilterTutors(tutors, f) == (if Keep(tutors[0], f) then [tutors[0]] else []) + FilterTutors(tutors[1..], f)
  {
  }

  /** Appending a tutor to the store appends it to the filtered list iff it passes the filter. */
  lemma {:induction false} FilterAppend(tutors: seq<Tutor>, t: Tutor, f: Filters)
    ensures FilterTutors(tutors + [t], f) == FilterTutors(tutors, f) + (if Keep(t, f) then [t] else [])
  {
    var added := if Keep(t, f) then [t] else [];
    if tutors == [] {
      assert [t][1..] == [];
      assert FilterTutors([t], f) == added + FilterTutors([], f);
    } else {
      var all := tutors + [t];
      assert all[0] == tutors[0] && all[1..] == tutors[1..] + [t];
      FilterAppend(tutors[1..], t, f);
      var head := if Keep(tutors[0], f) then [tutors[0]] else [];
      FilterUnfold(all, f);
      FilterUnfold(tutors, f);
      var restAll, rest := FilterTutors(all[1..], f), FilterTutors(tutors[1..], f);
      assert restAll == rest + added;
      ConcatAssociative(head, rest, added);
    }
  }

  /** A query with a leading space switches the text check on. */
  lemma PaddedQueryIsActive()
    ensures QueryActive(" piano")
  {
    assert !IsWhitespace(" piano"[1]);
    TrimEmptyIffBlank(" piano");
  }

  /** Lower-casing makes the capitalised name and the typed query equal. */
  lemma NameLowersToQuery()
    ensures ToLower("Piano") == ToLower("piano")
  {
    var name, query := ToLower("Piano"), ToLower("piano");
    assert forall k | 0 <= k < 5 :: name[k] == query[k];
  }

  /** A tutor called "Piano" who teaches piano and has no bio. */
  const PianoTeacher: Tutor := Tutor("1", "Piano", "", ["Piano"], "Carlton", ["Monday"], 60.0, 3, "", 4.5)

  /** The padded query is longer than every lower-cased text field of `PianoTeacher`, so it matches none. */
  lemma PaddedQueryMisses()
    ensures !MatchesQuery(PianoTeacher, " piano")
  {
    var q := ToLower(" piano");
    assert |q| == 6;
    ContainsNeedsRoom(ToLower("Piano"), q);
    ContainsNeedsRoom(ToLower(""), q);
  }

  /** The query as typed finds `PianoTeacher` by name. */
  lemma QueryFindsByName()
    ensures MatchesQuery(PianoTeacher, "piano")
  {
    NameLowersToQuery();
    var name := ToLower("Piano");
    assert StartsWith(name, ToLower("piano")) by {
      assert name[..|name|] == name;
    }
  }

  /**
   * The query is trimmed only to decide whether the text check runs: a leading space
   * stays part of what must match, so " piano" does not find a tutor called "Piano"
   * who mentions nothing else, while "piano" does.
   */
  lemma UntrimmedQueryMustMatchVerbatim()
    ensures QueryActive(" piano") && !MatchesQuery(PianoTeacher, " piano")
    ensures MatchesQuery(PianoTeacher, "piano")
  {
    PaddedQueryIsActive();
    PaddedQueryMisses();
    QueryFindsByName();
  }

  // ---------------------------------------------------------------------------
  // Facets

  /** Every instrument that some tutor in the store teaches. */
  function InstrumentFacet(tutors: seq<Tutor>): set<string> {
    if tutors == [] then {}
    else
      var last := tutors[|tutors| - 1];
      InstrumentFacet(tutors[..|tutors| - 1]) + (set x | x in last.instruments)
  }

  /** Every suburb some tutor in the store is in. */
  function SuburbFacet(tutors: seq<Tutor>): set<string> {
    if tutors == [] then {} else SuburbFacet(tutors[..|tutors| - 1]) + {tutors[|tutors| - 1].suburb}
  }

  lemma {:induction false} InstrumentFacetMembers(tutors: seq<Tutor>, x: string)
    ensures x in InstrumentFacet(tutors) <==> exists k :: 0 <= k < |tutors| && x in tutors[k].instruments
  {
    if tutors != [] {
      var init := tutors[..|tutors| - 1];
      InstrumentFacetMembers(init, x);
      if x in InstrumentFacet(init) {
        var k :| 0 <= k < |init| && x in init[k].instruments;
        assert tutors[k] == init[k];
      }
      if exists k :: 0 <= k < |tutors| && x in tutors[k].instruments {
        var k :| 0 <= k < |tutors| && x in tutors[k].instruments;
        if k < |init| {
          assert init[k] == tutors[k];
        }
      }
    }
  }

  lemma {:induction false} SuburbFacetMembers(tutors: seq<Tutor>, x: string)
    ensures x in SuburbFacet(tutors) <==> exists k :: 0 <= k < |tutors| && tutors[k].suburb == x
  {
    if tutors != [] {
      var init := tutors[..|tutors| - 1];
      SuburbFacetMembers(init, x);
      if x in SuburbFacet(init) {
        var k :| 0 <= k < |init| && init[k].suburb == x;
        assert tutors[k] == init[k];
      }
      if exists k :: 0 <= k < |tutors| && tutors[k].suburb == x {
        var k :| 0 <= k < |tutors| && tutors[k].suburb == x;
        if k < |init| {
          assert init[k] == tutors[k];
        }
      }
    }
  }

  /** Adding a listing adds its instruments and its suburb to the facets, and nothing else. */
  lemma FacetsOfAppend(tutors: seq<Tutor>, t: Tutor)
    ensures InstrumentFacet(tutors + [t]) == InstrumentFacet(tutors) + (set x | x in t.instruments)
    ensures SuburbFacet(tutors + [t]) == SuburbFacet(tutors) + {t.suburb}
  {
    assert (tutors + [t])[..|tutors|] == tutors;
  }

  /** The comparator-free `sort()`: `a` goes behind `b` when `b` is smaller in code-point order. */
  function Ascending(): (string, string) -> bool {
    (a, b) => LexLess(b, a)
  }

  lemma AscendingIsWeakOrder()
    ensures StrictWeakOrder(Ascending())
  {
    forall a, b ensures Ascending()(a, b) ==> !Ascending()(b, a) {
      LexLessAsymmetric(b, a);
    }
    forall a, b, c | Ascending()(a, c) ensures Ascending()(a, b) || Ascending()(b, c) {
      if a != b && !LexLess(b, a) {
        LexLessTotal(a, b);
        LexLessTransitive(c, a, b);
      }
    }
  }

  /** `Array.from(set).sort()`: the distinct values in strictly ascending order. */
  method SortDistinct(xs: seq<string>) returns (r: seq<string>)
    requires NoDuplicates(xs)
    ensures multiset(r) == multiset(xs)
    ensures forall i, j :: 0 <= i < j < |r| ==> LexLess(r[i], r[j])
  {
    var a := new string[|xs|](k requires 0 <= k < |xs| => xs[k]);
    assert a[..] == xs;
    InsertionSort(a, Ascending());
    r := a[..];
    AscendingIsWeakOrder();
    StableSortSorted(xs, Ascending());
    StableSortPermutes(xs, Ascending());
    assert NoDuplicates(r) by {
      forall x | x in r ensures multiset(r)[x] == 1 {
        assert x in multiset(r);
      }
    }
    forall i, j | 0 <= i < j < |r| ensures LexLess(r[i], r[j]) {
      DistinctAt(r, i, j);
      LexLessTotal(r[i], r[j]);
    }
  }

  /** `availableInstruments`: each instrument taught in the store exactly once, ascending. */
  method AvailableInstruments(tutors: seq<Tutor>) returns (r: seq<string>)
    ensures forall x :: x in r <==> x in InstrumentFacet(tutors)
    ensures forall i, j :: 0 <= i < j < |r| ==> LexLess(r[i], r[j])
  {
    var seen: seq<string> := [];
    var i := 0;
    while i < |tutors|
      invariant 0 <= i <= |tutors|
      invariant NoDuplicates(seen)
      invariant forall x :: x in seen <==> x in InstrumentFacet(tutors[..i])
    {
      var instruments := tutors[i].instruments;
      assert tutors[..i + 1][..i] == tutors[..i];
      var k := 0;
      while k < |instruments|
        invariant 0 <= k <= |instruments|
        invariant NoDuplicates(seen)
        invariant forall x :: x in seen <==> x in InstrumentFacet(tutors[..i]) || x in instruments[..k]
      {
        assert instruments[..k + 1] == instruments[..k] + [instruments[k]];
        if instruments[k] !in seen {
          seen := seen + [instruments[k]];
        }
        k := k + 1;
      }
      assert instruments[..k] == instruments;
      i := i + 1;
    }
    assert tutors[..i] == tutors;
    r := SortDistinct(seen);
    assert forall x :: x in r <==> x in multiset(r);
  }

  /** `availableSuburbs`: each suburb of the store exactly once, ascending. */
  method AvailableSuburbs(tutors: seq<Tutor>) returns (r: seq<string>)
    ensures forall x :: x in r <==> x in SuburbFacet(tutors)
    ensures forall i, j :: 0 <= i < j < |r| ==> LexLess(r[i], r[j])
  {
    var seen: seq<string> := [];
    var i := 0;
    while i < |tutors|
      invariant 0 <= i <= |tutors|
      invariant NoDuplicates(seen)
      invariant forall x :: x in seen <==> x in SuburbFacet(tutors[..i])
    {
      assert tutors[..i + 1][..i] == tutors[..i];
      if tutors[i].suburb !in seen {
        seen := seen + [tutors[i].suburb];
      }
      i := i + 1;
    }
    assert tutors[..i] == tutors;
    r := SortDistinct(seen);
    assert forall x :: x in r <==> x in multiset(r);
  }

  // ---------------------------------------------------------------------------
  // Sorting

  /** The comparator for each sort option: its sign decides the order. */
  function Compare(key: SortKey, a: Tutor, b: Tutor): real {
    match key
    case Rating => b.rating - a.rating
    case PriceLow => a.hourlyRate - b.hourlyRate
    case PriceHigh => b.hourlyRate - a.hourlyRate
    case Experience => (b.experience - a.experience) as real
  }

  /** `a` is placed behind `b`: the comparator is positive. */
  function Behind(key: SortKey): (Tutor, Tutor) -> bool {
    (a, b) => Compare(key, a, b) > 0.0
  }

  lemma BehindIsWeakOrder(key: SortKey)
    ensures StrictWeakOrder(Behind(key))
  {
  }

  /** What each sort option promises of the displayed order. */
  predicate OrderedBy(key: SortKey, s: seq<Tutor>) {
    match key
    case Rating => forall i, j :: 0 <= i < j < |s| ==> s[i].rating >= s[j].rating
    case PriceLow => forall i, j :: 0 <= i < j < |s| ==> s[i].hourlyRate <= s[j].hourlyRate
    case PriceHigh => forall i, j :: 0 <= i < j < |s| ==> s[i].hourlyRate >= s[j].hourlyRate
    case Experience => forall i, j :: 0 <= i < j < |s| ==> s[i].experience >= s[j].experience
  }

  /**
   * `sortedTutors`: copies the filtered list and sorts the copy. The result is a
   * permutation of the input, ordered as the option promises, and tutors the
   * comparator calls equal keep their filtered order.
   */
  method SortedTutors(filtered: seq<Tutor>, key: SortKey) returns (r: seq<Tutor>)
    ensures r == StableSort(filtered, Behind(key))
    ensures multiset(r) == multiset(filtered)
    ensures OrderedBy(key, r)
    ensures forall y :: TiedWith(r, y, Behind(key)) == TiedWith(filtered, y, Behind(key))
  {
    var a := new Tutor[|filtered|](k requires 0 <= k < |filtered| => filtered[k]);
    assert a[..] == filtered;
    InsertionSort(a, Behind(key));
    r := a[..];
    BehindIsWeakOrder(key);
    StableSortPermutes(filtered, Behind(key));
    StableSortSorted(filtered, Behind(key));
    forall y ensures TiedWith(r, y, Behind(key)) == TiedWith(filtered, y, Behind(key)) {
      StableSortStable(filtered, y, Behind(key));
    }
  }

  // ---------------------------------------------------------------------------
  // State

  /** Which screen the top-level view renders, with the browse screen's overlays. */
  datatype Screen = Browse(contact: Option<Tutor>, loginPanel: bool) | Dashboard

  /** All state of the top-level view, as one value. */
  datatype Snapshot = Snapshot(
    tutors: seq<Tutor>,
    selected: Selections,
    searchQuery: string,
    sortBy: SortKey,
    selectedTutor: Option<Tutor>,
    showLoginModal: bool,
    isLoggedIn: bool)

  /** The state hooks of the top-level view. */
  class AppState {
    var tutors: seq<Tutor>
    var selectedInstruments: seq<string>
    var selectedSuburbs: seq<string>
    var selectedDays: seq<string>
    var searchQuery: string
    var sortBy: SortKey
    var selectedTutor: Option<Tutor>
    var showLoginModal: bool
    var isLoggedIn: bool

    function State(): Snapshot
      reads this
    {
      Snapshot(tutors, Selections(selectedInstruments, selectedSuburbs, selectedDays),
               searchQuery, sortBy, selectedTutor, showLoginModal, isLoggedIn)
    }

    function CurrentFilters(): Filters
      reads this
    {
      Filters(searchQuery, Selections(selectedInstruments, selectedSuburbs, selectedDays))
    }

    /** The dashboard replaces the browse screen while logged in; the overlays belong to the browse screen. */
    function CurrentScreen(): (s: Screen)
      reads this
      ensures s.Dashboard? <==> isLoggedIn
      ensures s.Browse? ==> s.contact == selectedTutor && s.loginPanel == showLoginModal
    {
      if isLoggedIn then Dashboard else Browse(selectedTutor, showLoginModal)
    }

    /** Start-up: the seed store, no filters, sorted by rating, logged out, no overlay. */
    constructor(seed: seq<Tutor>)
      ensures State() == Snapshot(seed, ClearAll(), "", Rating, None, false, false)
      ensures CurrentScreen() == Browse(None, false)
    {
      tutors := seed;
      selectedInstruments, selectedSuburbs, selectedDays := [], [], [];
      searchQuery := "";
      sortBy := Rating;
      selectedTutor := None;
      showLoginModal := false;
      isLoggedIn := false;
    }

    /** `handleLogin`: always succeeds, and closes the login panel. */
    method HandleLogin()
      modifies this
      ensures State() == old(State()).(isLoggedIn := true, showLoginModal := false)
      ensures CurrentScreen() == Dashboard
    {
      isLoggedIn := true;
      showLoginModal := false;
    }

    /** `handleLogout`: back to browsing with the store, the filters and the overlays as they were. */
    method HandleLogout()
      modifies this
      ensures State() == old(State()).(isLoggedIn := false)
      ensures CurrentScreen() == Browse(selectedTutor, showLoginModal)
    {
      isLoggedIn := false;
    }

    /** `handleCreateAdvertisement`: appends the new record with the supplied id; nothing else changes. */
    method HandleCreateAdvertisement(newTutor: NewTutor, id: string)
      modifies this
      ensures tutors == old(tutors) + [WithId(newTutor, id)]
      ensures State() == old(State()).(tutors := tutors)
    {
      tutors := tutors + [WithId(newTutor, id)];
    }

    /** The header's login button opens the login panel. */
    method OpenLoginModal()
      modifies this
      ensures State() == old(State()).(showLoginModal := true)
    {
      showLoginModal := true;
    }

    /** The login panel's close action. */
    method CloseLoginModal()
      modifies this
      ensures State() == old(State()).(showLoginModal := false)
    {
      showLoginModal := false;
    }

    /** A card's contact button opens the contact panel for that tutor. */
    method ContactTutor(t: Tutor)
      modifies this
      ensures State() == old(State()).(selectedTutor := Some(t))
    {
      selectedTutor := Some(t);
    }

    /** The contact panel's close action. */
    method CloseContact()
      modifies this
      ensures State() == old(State()).(selectedTutor := None)
    {
      selectedTutor := None;
    }

    /** Typing in the search box. */
    method SetSearchQuery(query: string)
      modifies this
      ensures State() == old(State()).(searchQuery := query)
    {
      searchQuery := query;
    }

    /** Choosing a sort option. */
    method SetSortBy(key: SortKey)
      modifies this
      ensures State() == old(State()).(sortBy := key)
    {
      sortBy := key;
    }

    /** The filter panel's three change callbacks, applied to the selections it computed. */
    method UpdateSelections(next: Selections)
      modifies this
      ensures State() == old(State()).(selected := next)
    {
      selectedInstruments, selectedSuburbs, selectedDays := next.instruments, next.suburbs, next.days;
    }

    /** The list on the browse screen: the store, filtered, then sorted by the chosen option. */
    method VisibleTutors() returns (r: seq<Tutor>)
      ensures r == StableSort(FilterTutors(tutors, CurrentFilters()), Behind(sortBy))
      ensures multiset(r) == multiset(FilterTutors(tutors, CurrentFilters()))
      ensures OrderedBy(sortBy, r)
    {
      r := SortedTutors(FilterTutors(tutors, CurrentFilters()), sortBy);
    }
  }
}

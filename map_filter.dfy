/** The pure part of the map screen: which catalog places the search box and
    the category chips keep, which of those are drawn as markers, and the
    colour of each marker. */
module MapFilter {
  import opened Text

  /** A point of interest of the campus catalog. */
  datatype Place = Place(id: int, name: string, category: string, lat: real, lng: real, description: string)

  /** The category chip that switches the category test off. */
  const All: string := "all"

  /** The one category whose markers the user can hide. */
  const Helpdesk: string := "helpdesk"

  /** The colour of a marker whose category has no entry of its own. */
  const FallbackColor: string := "#666"

  const MarkerColors: map<string, string> := map[
    "academic" := "#2196F3",
    "hostel" := "#FF9800",
    "food" := "#4CAF50",
    "admin" := "#9C27B0",
    "green" := "#8BC34A",
    "entrance" := "#F44336",
    "laboratory" := "#00BCD4",
    "auditorium" := "#E91E63",
    "bank" := "#795548",
    "garden" := "#FFC107",
    "helpdesk" := "#607D8B"
  ]

  // ---------------------------------------------------------------------------
  // The filter chain, stage by stage, as the screen runs it

  /** The places of the chosen category, in catalog order. */
  function ByCategory(places: seq<Place>, category: string): (r: seq<Place>)
    ensures |r| <= |places|
    ensures forall p :: p in r ==> p in places && p.category == category
  {
    if places == [] then []
    else (if places[0].category == category then [places[0]] else []) + ByCategory(places[1..], category)
  }

  /** The search test: the lower-cased name contains the lower-cased query. */
  predicate NameMatches(name: string, query: string)
    ensures query == "" ==> NameMatches(name, query)
  {
    Contains(Lower(name), Lower(query))
  }

  /** The places whose name matches the query, in catalog order. */
  function ByName(places: seq<Place>, query: string): (r: seq<Place>)
    ensures |r| <= |places|
    ensures forall p :: p in r ==> p in places && NameMatches(p.name, query)
  {
    if places == [] then []
    else (if NameMatches(places[0].name, query) then [places[0]] else []) + ByName(places[1..], query)
  }

  /** The filter effect's list: the category stage runs unless the chip is
      `All`, then the search stage runs unless the query is empty. */
  function Filtered(catalog: seq<Place>, category: string, query: string): (r: seq<Place>)
    ensures |r| <= |catalog|
    ensures forall p :: p in r ==> p in catalog && Matches(p, category, query)
  {
    var byCategory := if category != All then ByCategory(catalog, category) else catalog;
    if query != "" then ByName(byCategory, query) else byCategory
  }

  // ---------------------------------------------------------------------------
  // The reference definition: one pass with the whole predicate

  /** Whether a place belongs on the map for the given chip and query. */
  predicate Matches(p: Place, category: string, query: string)
    ensures category == All ==> (Matches(p, category, query) <==> NameMatches(p.name, query))
  {
    (category == All || p.category == category) && (query == "" || NameMatches(p.name, query))
  }

  function Select(catalog: seq<Place>, category: string, query: string): (r: seq<Place>)
    ensures |r| <= |catalog|
    ensures forall p :: p in r ==> p in catalog && Matches(p, category, query)
  {
    if catalog == [] then []
    else (if Matches(catalog[0], category, query) then [catalog[0]] else []) + Select(catalog[1..], category, query)
  }

  /** `a` is obtained from `b` by deleting elements, the others kept in order. */
  ghost predicate IsSubsequence<T>(a: seq<T>, b: seq<T>)
    decreases |b|
  {
    if b == [] then a == []
    else (a != [] && a[0] == b[0] && IsSubsequence(a[1..], b[1..])) || IsSubsequence(a, b[1..])
  }

  lemma {:induction false} ByCategoryIsSelect(places: seq<Place>, category: string)
    requires category != All
    ensures ByCategory(places, category) == Select(places, category, "")
  {
    if places != [] {
      ByCategoryIsSelect(places[1..], category);
    }
  }

  lemma {:induction false} ByNameIsSelect(places: seq<Place>, category: string, query: string)
    requires query != ""
    ensures ByName(Select(places, category, ""), query) == Select(places, category, query)
  {
    if places != [] {
      ByNameIsSelect(places[1..], category, query);
      var rest := Select(places[1..], category, "");
      if Matches(places[0], category, "") {
        assert Select(places, category, "") == [places[0]] + rest;
        assert ([places[0]] + rest)[1..] == rest;
      } else {
        assert Select(places, category, "") == rest;
      }
    }
  }

  lemma {:induction false} SelectAllEmpty(places: seq<Place>)
    ensures Select(places, All, "") == places
  {
    if places != [] {
      SelectAllEmpty(places[1..]);
    }
  }

  /** The two-stage chain keeps exactly the places the one-pass predicate keeps. */
  lemma FilteredIsSelect(catalog: seq<Place>, category: string, query: string)
    ensures Filtered(catalog, category, query) == Select(catalog, category, query)
  {
    var byCategory := if category != All then ByCategory(catalog, category) else catalog;
    if category != All {
      ByCategoryIsSelect(catalog, category);
    } else {
      SelectAllEmpty(catalog);
    }
    assert byCategory == Select(catalog, category, "");
    if query != "" {
      ByNameIsSelect(catalog, category, query);
    }
  }

  lemma {:induction false} SelectIsSubsequence(catalog: seq<Place>, category: string, query: string)
    ensures IsSubsequence(Select(catalog, category, query), catalog)
  {
    if catalog != [] {
      SelectIsSubsequence(catalog[1..], category, query);
      if Matches(catalog[0], category, query) {
        assert Select(catalog, category, query)[1..] == Select(catalog[1..], category, query);
      } else {
        assert Select(catalog, category, query) == Select(catalog[1..], category, query);
      }
    }
  }

  lemma {:induction false} SelectMembership(catalog: seq<Place>, category: string, query: string, p: Place)
    ensures p in Select(catalog, category, query) <==> p in catalog && Matches(p, category, query)
  {
    if catalog != [] {
      SelectMembership(catalog[1..], category, query, p);
      assert catalog == [catalog[0]] + catalog[1..];
    }
  }

  /** The list the map shows is the catalog's places that pass the chip and the
      search, in catalog order: a subsequence of the catalog holding exactly the
      matching places. */
  lemma FilteredSpec(catalog: seq<Place>, category: string, query: string)
    ensures Filtered(catalog, category, query) == Select(catalog, category, query)
    ensures IsSubsequence(Filtered(catalog, category, query), catalog)
    ensures forall p :: p in Filtered(catalog, category, query) <==> p in catalog && Matches(p, category, query)
  {
    FilteredIsSelect(catalog, category, query);
    SelectIsSubsequence(catalog, category, query);
    forall p {
      SelectMembership(catalog, category, query, p);
    }
  }

  /** With the `All` chip and an empty search box every place is shown, which
      is also the screen's initial list. */
  lemma ShowEverything(catalog: seq<Place>)
    ensures Filtered(catalog, All, "") == catalog
  {
  }

  // ---------------------------------------------------------------------------
  // Case-insensitivity and what the search looks at

  lemma {:induction false} ByNameUpper(places: seq<Place>, query: string)
    ensures ByName(places, Upper(query)) == ByName(places, query)
    ensures ByName(places, Lower(query)) == ByName(places, query)
  {
    LowerOfUpper(query);
    LowerIdempotent(query);
    if places != [] {
      ByNameUpper(places[1..], query);
    }
  }

  /** Typing the query in capitals, or in small letters, shows the same places. */
  lemma CaseInsensitive(catalog: seq<Place>, category: string, query: string)
    ensures Filtered(catalog, category, Upper(query)) == Filtered(catalog, category, query)
    ensures Filtered(catalog, category, Lower(query)) == Filtered(catalog, category, query)
  {
    var byCategory := if category != All then ByCategory(catalog, category) else catalog;
    ByNameUpper(byCategory, query);
  }

  /** A place with its description blanked. */
  function Undescribed(p: Place): Place
  {
    p.(description := "")
  }

  function UndescribedAll(places: seq<Place>): (r: seq<Place>)
    ensures |r| == |places|
    ensures forall i :: 0 <= i < |places| ==> r[i] == Undescribed(places[i])
  {
    if places == [] then [] else [Undescribed(places[0])] + UndescribedAll(places[1..])
  }

  lemma {:induction false} SelectUndescribed(catalog: seq<Place>, category: string, query: string)
    ensures Select(UndescribedAll(catalog), category, query) == UndescribedAll(Select(catalog, category, query))
  {
    if catalog != [] {
      SelectUndescribed(catalog[1..], category, query);
      assert UndescribedAll(catalog)[1..] == UndescribedAll(catalog[1..]);
      var head := if Matches(catalog[0], category, query) then [catalog[0]] else [];
      UndescribedAppend(head, Select(catalog[1..], category, query));
    }
  }

  lemma {:induction false} UndescribedAppend(a: seq<Place>, b: seq<Place>)
    ensures UndescribedAll(a + b) == UndescribedAll(a) + UndescribedAll(b)
  {
  }

  /** Only names are searched: blanking every description changes which places
      are shown not at all (the shown places lose their descriptions, nothing
      more). */
  lemma DescriptionIgnored(catalog: seq<Place>, category: string, query: string)
    ensures Filtered(UndescribedAll(catalog), category, query) == UndescribedAll(Filtered(catalog, category, query))
  {
    FilteredIsSelect(catalog, category, query);
    FilteredIsSelect(UndescribedAll(catalog), category, query);
    SelectUndescribed(catalog, category, query);
  }

  // ---------------------------------------------------------------------------
  // Markers

  /** The filtered places that get a marker: all of them, except helpdesks
      while the helpdesk toggle is off. */
  function VisibleMarkers(filtered: seq<Place>, showHelpdesks: bool): (r: seq<Place>)
    ensures |r| <= |filtered|
    ensures forall p :: p in r ==> p in filtered && (showHelpdesks || p.category != Helpdesk)
  {
    if filtered == [] then []
    else (if filtered[0].category == Helpdesk && !showHelpdesks then [] else [filtered[0]])
         + VisibleMarkers(filtered[1..], showHelpdesks)
  }

  /** Markers are a subsequence of the filtered list; with the toggle on they
      are the whole list, with it off they are exactly its non-helpdesk places,
      so their number is the list's length less its helpdesks. */
  lemma {:induction false} VisibleMarkersSpec(filtered: seq<Place>, showHelpdesks: bool)
    ensures IsSubsequence(VisibleMarkers(filtered, showHelpdesks), filtered)
    ensures |VisibleMarkers(filtered, showHelpdesks)| <= |filtered|
    ensures showHelpdesks ==> VisibleMarkers(filtered, showHelpdesks) == filtered
    ensures |VisibleMarkers(filtered, showHelpdesks)| ==
            |filtered| - (if showHelpdesks then 0 else |ByCategory(filtered, Helpdesk)|)
    ensures forall p :: p in VisibleMarkers(filtered, showHelpdesks) <==>
                        p in filtered && (showHelpdesks || p.category != Helpdesk)
  {
    if filtered != [] {
      var rest := filtered[1..];
      VisibleMarkersSpec(rest, showHelpdesks);
      var m := VisibleMarkers(filtered, showHelpdesks);
      if !(filtered[0].category == Helpdesk && !showHelpdesks) {
        assert m[1..] == VisibleMarkers(rest, showHelpdesks);
      } else {
        assert m == VisibleMarkers(rest, showHelpdesks);
      }
      assert filtered == [filtered[0]] + rest;
    }
  }

  /** The pin colour of a category: its entry in the table, or the neutral
      fallback for a category the table does not list. */
  function MarkerColor(category: string): (color: string)
    ensures category in MarkerColors ==> color == MarkerColors[category]
    ensures color == FallbackColor <==> category !in MarkerColors
  {
    if category in MarkerColors then MarkerColors[category] else FallbackColor
  }
}

/** The map screen's state and the events that change it: the filter effect,
    the location effect, the "My Location" button, marker taps, pan and zoom,
    and the helpdesk toggle. */
module MapScreen {
  import opened Common
  import opened MapFilter

  /** The fallback centre shown before any position is known. */
  const DefaultLatitude: real := 12.9716
  const DefaultLongitude: real := 77.5946

  /** The base latitude span; the base longitude span is this times the
      window's aspect ratio. */
  const LatitudeDelta: real := 0.005

  /** Span multipliers: the opening view, the close view (one search result,
      "My Location") and the view after a marker tap. */
  const InitialZoom: real := 4.0
  const CloseZoom: real := 2.0
  const TapZoom: real := 1.5

  /** The map's visible area: a centre and the two spans. */
  datatype Region = Region(latitude: real, longitude: real, latitudeDelta: real, longitudeDelta: real)

  class MapScreenState {
    const catalog: seq<Place>
    /** LONGITUDE_DELTA: the base latitude span scaled by the window's aspect ratio. */
    const longitudeDelta: real

    var region: Region
    var searchQuery: string
    var selectedCategory: string
    var filteredLocations: seq<Place>
    var userLocation: Option<Coords>
    var showHelpdesks: bool

    /** The shown list is always the filter of the catalog by the current chip
        and query. */
    ghost predicate Valid()
      reads this
    {
      filteredLocations == Filtered(catalog, selectedCategory, searchQuery)
    }

    /** A region centred on a point, both base spans scaled by `zoom`. */
    function CenteredOn(latitude: real, longitude: real, zoom: real): (r: Region)
      reads this
    {
      Region(latitude, longitude, LatitudeDelta * zoom, longitudeDelta * zoom)
    }

    /** The screen as mounted: default region, empty search, the `All` chip,
        the whole catalog, no user position, helpdesks hidden; then the filter
        effect's first run, which recentres on the only place of a one-place
        catalog. */
    constructor (catalog: seq<Place>, aspectRatio: real)
      ensures Valid()
      ensures this.catalog == catalog && longitudeDelta == LatitudeDelta * aspectRatio
      ensures searchQuery == "" && selectedCategory == All && filteredLocations == catalog
      ensures userLocation == None && !showHelpdesks
      ensures |catalog| == 1 ==> region == CenteredOn(catalog[0].lat, catalog[0].lng, CloseZoom)
      ensures |catalog| != 1 ==> region == CenteredOn(DefaultLatitude, DefaultLongitude, InitialZoom)
    {
      this.catalog := catalog;
      longitudeDelta := LatitudeDelta * aspectRatio;
      region := Region(DefaultLatitude, DefaultLongitude, LatitudeDelta * InitialZoom, LatitudeDelta * aspectRatio * InitialZoom);
      searchQuery := "";
      selectedCategory := All;
      filteredLocations := catalog;
      userLocation := None;
      showHelpdesks := false;
      new;
      ShowEverything(catalog);
      RunFilterEffect();
    }

    /** The body of the filter effect: recompute the list and, when exactly one
        place is left, centre the close view on it. */
    method RunFilterEffect()
      modifies this
      ensures Valid()
      ensures filteredLocations == Filtered(catalog, selectedCategory, searchQuery)
      ensures |filteredLocations| == 1 ==>
                region == CenteredOn(filteredLocations[0].lat, filteredLocations[0].lng, CloseZoom)
      ensures |filteredLocations| != 1 ==> region == old(region)
      ensures searchQuery == old(searchQuery) && selectedCategory == old(selectedCategory)
      ensures userLocation == old(userLocation) && showHelpdesks == old(showHelpdesks)
    {
      var filtered := Filtered(catalog, selectedCategory, searchQuery);
      filteredLocations := filtered;
      if |filtered| == 1 {
        region := CenteredOn(filtered[0].lat, filtered[0].lng, CloseZoom);
      }
    }

    /** Typing in the search box. Re-entering the current text re-renders
        nothing, so the effect does not run again. */
    method SetSearchQuery(query: string)
      requires Valid()
      modifies this
      ensures Valid()
      ensures searchQuery == query && selectedCategory == old(selectedCategory)
      ensures filteredLocations == Filtered(catalog, selectedCategory, query)
      ensures query != old(searchQuery) && |filteredLocations| == 1 ==>
                region == CenteredOn(filteredLocations[0].lat, filteredLocations[0].lng, CloseZoom)
      ensures query == old(searchQuery) || |filteredLocations| != 1 ==> region == old(region)
      ensures userLocation == old(userLocation) && showHelpdesks == old(showHelpdesks)
    {
      if query != searchQuery {
        searchQuery := query;
        RunFilterEffect();
      }
    }

    /** Tapping a category chip, `All` included. */
    method SelectCategory(category: string)
      requires Valid()
      modifies this
      ensures Valid()
      ensures selectedCategory == category && searchQuery == old(searchQuery)
      ensures filteredLocations == Filtered(catalog, category, searchQuery)
      ensures category != old(selectedCategory) && |filteredLocations| == 1 ==>
                region == CenteredOn(filteredLocations[0].lat, filteredLocations[0].lng, CloseZoom)
      ensures category == old(selectedCategory) || |filteredLocations| != 1 ==> region == old(region)
      ensures userLocation == old(userLocation) && showHelpdesks == old(showHelpdesks)
    {
      if category != selectedCategory {
        selectedCategory := category;
        RunFilterEffect();
      }
    }

    /** The location effect: a new position from the location hook becomes the
        user's position and the region's centre, the spans kept; an absent
        position changes nothing. */
    method LocationChanged(location: Option<Coords>)
      requires Valid()
      modifies this
      ensures Valid()
      ensures location.Some? ==> userLocation == location
      ensures location.Some? ==> region == old(region).(latitude := location.value.latitude,
                                                         longitude := location.value.longitude)
      ensures location.None? ==> userLocation == old(userLocation) && region == old(region)
      ensures filteredLocations == old(filteredLocations) && showHelpdesks == old(showHelpdesks)
      ensures searchQuery == old(searchQuery) && selectedCategory == old(selectedCategory)
    {
      if location.Some? {
        userLocation := location;
        region := region.(latitude := location.value.latitude, longitude := location.value.longitude);
      }
    }

    /** The "My Location" button: the close view on the user's position, or
        nothing while the position is unknown. */
    method PressMyLocation()
      requires Valid()
      modifies this`region
      ensures Valid()
      ensures userLocation.Some? ==>
                region == CenteredOn(userLocation.value.latitude, userLocation.value.longitude, CloseZoom)
      ensures userLocation.None? ==> region == old(region)
    {
      if userLocation.Some? {
        region := CenteredOn(userLocation.value.latitude, userLocation.value.longitude, CloseZoom);
      }
    }

    /** Tapping a drawn marker centres the tap view on its place. */
    method TapMarker(place: Place)
      requires Valid()
      requires place in Markers()
      modifies this`region
      ensures Valid()
      ensures region == CenteredOn(place.lat, place.lng, TapZoom)
    {
      region := CenteredOn(place.lat, place.lng, TapZoom);
    }

    /** The map reports a pan or zoom: its region replaces the stored one. */
    method RegionChangeComplete(reported: Region)
      requires Valid()
      modifies this`region
      ensures Valid()
      ensures region == reported
    {
      region := reported;
    }

    /** The helpdesk button flips the flag; the filtered list, and so the
        count of places found, stays as it is. */
    method ToggleHelpdesks()
      requires Valid()
      modifies this`showHelpdesks
      ensures Valid()
      ensures showHelpdesks == !old(showHelpdesks)
    {
      showHelpdesks := !showHelpdesks;
    }

    /** The places drawn as markers: the filtered list, helpdesks dropped while
        the toggle is off. */
    function Markers(): (markers: seq<Place>)
      reads this
      ensures IsSubsequence(markers, filteredLocations)
      ensures showHelpdesks ==> markers == filteredLocations
      ensures |markers| == |filteredLocations| - (if showHelpdesks then 0 else |ByCategory(filteredLocations, Helpdesk)|)
      ensures forall p :: p in markers <==>
                          p in filteredLocations && (showHelpdesks || p.category != Helpdesk)
    {
      VisibleMarkersSpec(filteredLocations, showHelpdesks);
      VisibleMarkers(filteredLocations, showHelpdesks)
    }

    /** The "N locations found" count (and "N results" under a search): the
        number of matching catalog places, helpdesks counted whether or not
        their markers are drawn. */
    function LocationsFound(): (n: nat)
      reads this
      requires Valid()
      ensures n == |Select(catalog, selectedCategory, searchQuery)|
      ensures |Markers()| <= n
    {
      FilteredIsSelect(catalog, selectedCategory, searchQuery);
      VisibleMarkersSpec(filteredLocations, showHelpdesks);
      |filteredLocations|
    }
  }
}

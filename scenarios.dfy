/** Worked event sequences for the location hook and the map screen, each
    checked against the contracts of their event methods alone. */
module Scenarios {
  import opened Common
  import opened SearchExamples
  import opened MapFilter
  import opened MapScreen
  import opened LocationHook

  /** Permission is refused: the hook ends in the error status with the fixed
      denial text and no position. */
  method PermissionDenied() returns (status: Status, error: Option<string>, location: Option<Coords>)
    ensures status == Error && error == Some("Location permission denied") && location == None
  {
    var hook := new LocationTracker();
    hook.Activate();
    hook.PermissionResolved("denied");
    status, error, location := hook.status, hook.error, hook.location;
  }

  /** A watch reading that arrives after a successful fix replaces the
      position; the status stays success. */
  method WatchAfterFix() returns (status: Status, location: Option<Coords>)
    ensures status == Success && location == Some(Coords(1.0, 2.0, 5.0))
  {
    var hook := new LocationTracker();
    hook.Activate();
    hook.WatchSetupResolved(Handle(7));
    hook.PermissionResolved("granted");
    hook.FixResolved(Coords(0.0, 0.0, 10.0));
    hook.WatchUpdate(Coords(1.0, 2.0, 5.0));
    status, location := hook.status, hook.location;
  }

  /** Unmounting while the watch setup is still pending removes nothing; the
      handle that resolves afterwards is kept but never removed, and a fix
      that arrives afterwards still changes the status. */
  method ResultsAfterCleanup() returns (status: Status, removed: seq<Handle>, subscription: Option<Handle>)
    ensures status == Success && removed == [] && subscription == Some(Handle(3))
  {
    var hook := new LocationTracker();
    hook.Activate();
    hook.Cleanup();
    hook.WatchSetupResolved(Handle(3));
    hook.PermissionResolved("granted");
    hook.FixResolved(Coords(0.0, 0.0, 10.0));
    status, removed, subscription := hook.status, hook.removed, hook.subscription;
  }

  /** Unmounting after the watch is set up removes its handle exactly once. */
  method CleanupRemovesOnce() returns (removed: seq<Handle>)
    ensures removed == [Handle(5)]
  {
    var hook := new LocationTracker();
    hook.Activate();
    hook.WatchSetupResolved(Handle(5));
    hook.PermissionResolved("granted");
    hook.OneShotFailed(None);
    hook.Cleanup();
    removed := hook.removed;
  }

  /** Searching "night" or "NIGHT" narrows the two-place catalog to the
      Nightingale Block and centres the close view on it; "xyz" then finds
      nothing and leaves the view where it was. */
  method NightingaleSearch(aspectRatio: real)
    returns (night: seq<Place>, shouting: seq<Place>, nothing: seq<Place>, focused: Region, after: Region)
    ensures night == shouting == [Nightingale]
    ensures nothing == []
    ensures focused == Region(1.0, 2.0, LatitudeDelta * CloseZoom, LatitudeDelta * aspectRatio * CloseZoom)
    ensures after == focused
  {
    var screen := new MapScreenState([Nightingale, FoodCourt], aspectRatio);
    NightingaleQueries();
    screen.SetSearchQuery("night");
    night, focused := screen.filteredLocations, screen.region;
    screen.SetSearchQuery("NIGHT");
    shouting := screen.filteredLocations;
    screen.SetSearchQuery("xyz");
    nothing, after := screen.filteredLocations, screen.region;
  }


  /** Showing the helpdesks draws every filtered place, hiding them again
      restores the flag, and the count of places found is the whole catalog
      both times. */
  method HelpdeskToggle(catalog: seq<Place>, aspectRatio: real)
    returns (shownCount: nat, shownMarkers: seq<Place>, hiddenCount: nat, shown: bool)
    ensures shownCount == hiddenCount == |catalog|
    ensures shownMarkers == catalog
    ensures !shown
  {
    var screen := new MapScreenState(catalog, aspectRatio);
    screen.ToggleHelpdesks();
    shownCount, shownMarkers := screen.LocationsFound(), screen.Markers();
    screen.ToggleHelpdesks();
    hiddenCount, shown := screen.LocationsFound(), screen.showHelpdesks;
  }
}

/** The location hook: a one-shot position request (permission, then a fix)
    and a position watch, both started when the hook mounts, whose results
    arrive as separate events; the watch is removed when the hook unmounts. */
module LocationHook {
  import opened Common

  datatype Status = Idle | Loading | Success | Error

  /** Where the one-shot request is suspended: not yet started, awaiting the
      permission answer, awaiting the fix, or finished. */
  datatype OneShotStep = Unstarted | RequestingPermission | RequestingFix | Settled

  /** Where the watch is: not yet asked for, setup pending, subscribed, setup
      failed, or removed at unmount. */
  datatype WatchStep = WatchIdle | WatchPending | WatchActive | WatchFailed | WatchRemoved

  /** The handle the provider returns for a watch. */
  datatype Handle = Handle(id: nat)

  const PermissionDeniedMessage: string := "Location permission denied"
  const DefaultErrorMessage: string := "Failed to get location"

  /** The error text for an exception: its message, or the default when the
      message is missing or empty. */
  function ErrorMessage(thrown: Option<string>): (message: string)
    ensures message != ""
    ensures thrown.Some? && thrown.value != "" ==> message == thrown.value
    ensures thrown.None? || thrown.value == "" ==> message == DefaultErrorMessage
  {
    if thrown.Some? && thrown.value != "" then thrown.value else DefaultErrorMessage
  }

  /** The status moves only forward: idle to loading, loading to success or
      error, and stays put otherwise. */
  predicate MayFollow(before: Status, after: Status)
    ensures MayFollow(before, after) && before != after ==>
              after != Idle && (before == Idle || before == Loading)
  {
    before == after || (before == Idle && after == Loading) ||
    (before == Loading && (after == Success || after == Error))
  }

  class LocationTracker {
    var location: Option<Coords>
    var error: Option<string>
    var status: Status
    /** The watch handle kept for cleanup. */
    var subscription: Option<Handle>
    /** Every handle whose `remove` has been called, in order. */
    var removed: seq<Handle>
    var oneShot: OneShotStep
    var watch: WatchStep

    ghost predicate Valid()
      reads this
    {
      && (status == Idle <==> oneShot == Unstarted)
      && (status == Loading <==> oneShot == RequestingPermission || oneShot == RequestingFix)
      && (oneShot == Unstarted <==> watch == WatchIdle)
      && (status == Idle ==> location == None)
      && (status == Error <==> error.Some?)
      && (error.Some? ==> error.value != "")
      && (status == Success ==> location.Some?)
      && (subscription.Some? <==> watch == WatchActive || watch == WatchRemoved)
      && (watch == WatchRemoved ==> removed != [])
      && (forall h :: h in removed ==> subscription == Some(h))
    }

    /** The hook's first render: nothing known, nothing requested. */
    constructor ()
      ensures Valid()
      ensures location == None && error == None && status == Idle
      ensures subscription == None && removed == []
      ensures oneShot == Unstarted && watch == WatchIdle
    {
      location, error, status := None, None, Idle;
      subscription, removed := None, [];
      oneShot, watch := Unstarted, WatchIdle;
    }

    /** The mount effect: the status becomes loading before any provider
        answer, the permission request goes out and the watch is asked for. */
    method Activate()
      requires Valid() && oneShot == Unstarted
      modifies this
      ensures Valid() && MayFollow(old(status), status)
      ensures status == Loading && oneShot == RequestingPermission && watch == WatchPending
      ensures location == old(location) && error == old(error)
      ensures subscription == old(subscription) && removed == old(removed)
    {
      status := Loading;
      oneShot := RequestingPermission;
      watch := WatchPending;
    }

    /** The permission answer. Anything but "granted" ends the one-shot path
        with the denial error and no position; "granted" goes on to the fix. */
    method PermissionResolved(permission: string)
      requires Valid() && oneShot == RequestingPermission
      modifies this
      ensures Valid() && MayFollow(old(status), status)
      ensures permission != "granted" ==>
                status == Error && error == Some(PermissionDeniedMessage) && oneShot == Settled
      ensures permission == "granted" ==>
                status == Loading && error == old(error) && oneShot == RequestingFix
      ensures location == old(location) && watch == old(watch)
      ensures subscription == old(subscription) && removed == old(removed)
    {
      if permission != "granted" {
        error := Some(PermissionDeniedMessage);
        status := Error;
        oneShot := Settled;
      } else {
        oneShot := RequestingFix;
      }
    }

    /** The one-shot fix arrives: it becomes the position, the status success
        and the error cleared. */
    method FixResolved(fix: Coords)
      requires Valid() && oneShot == RequestingFix
      modifies this
      ensures Valid() && MayFollow(old(status), status)
      ensures location == Some(fix) && status == Success && error == None && oneShot == Settled
      ensures watch == old(watch) && subscription == old(subscription) && removed == old(removed)
    {
      location := Some(fix);
      status := Success;
      error := None;
      oneShot := Settled;
    }

    /** The permission request or the fix throws: the error is the exception's
        message (or the default) and the status error; the position stays. */
    method OneShotFailed(thrown: Option<string>)
      requires Valid() && (oneShot == RequestingPermission || oneShot == RequestingFix)
      modifies this
      ensures Valid() && MayFollow(old(status), status)
      ensures error == Some(ErrorMessage(thrown)) && status == Error && oneShot == Settled
      ensures location == old(location) && watch == old(watch)
      ensures subscription == old(subscription) && removed == old(removed)
    {
      error := Some(ErrorMessage(thrown));
      status := Error;
      oneShot := Settled;
    }

    /** The watch is set up: its handle is kept for cleanup. */
    method WatchSetupResolved(handle: Handle)
      requires Valid() && watch == WatchPending
      modifies this
      ensures Valid() && MayFollow(old(status), status)
      ensures subscription == Some(handle) && watch == WatchActive
      ensures location == old(location) && error == old(error) && status == old(status)
      ensures oneShot == old(oneShot) && removed == old(removed)
    {
      subscription := Some(handle);
      watch := WatchActive;
    }

    /** The watch setup throws: no handle is kept and the status and error are
        untouched. */
    method WatchSetupFailed()
      requires Valid() && watch == WatchPending
      modifies this
      ensures Valid() && MayFollow(old(status), status)
      ensures subscription == None && watch == WatchFailed
      ensures location == old(location) && error == old(error) && status == old(status)
      ensures oneShot == old(oneShot) && removed == old(removed)
    {
      watch := WatchFailed;
    }

    /** A watch reading replaces the position and nothing else, whatever the
        one-shot path did, a denied permission included. */
    method WatchUpdate(fix: Coords)
      requires Valid() && (watch == WatchPending || watch == WatchActive)
      modifies this
      ensures Valid() && MayFollow(old(status), status)
      ensures location == Some(fix)
      ensures error == old(error) && status == old(status) && oneShot == old(oneShot)
      ensures watch == old(watch) && subscription == old(subscription) && removed == old(removed)
    {
      location := Some(fix);
    }

    /** The unmount cleanup: `remove` is called once on the kept handle, if
        there is one; without one nothing happens. */
    method Cleanup()
      requires Valid() && watch != WatchIdle
      modifies this
      ensures Valid() && MayFollow(old(status), status)
      ensures old(subscription).Some? ==>
                removed == old(removed) + [old(subscription).value] && watch == WatchRemoved
      ensures old(subscription).None? ==> removed == old(removed) && watch == old(watch)
      ensures location == old(location) && error == old(error) && status == old(status)
      ensures oneShot == old(oneShot) && subscription == old(subscription)
    {
      if subscription.Some? {
        removed := removed + [subscription.value];
        watch := WatchRemoved;
      }
    }

    /** `isLoading`: the permission or the fix is still awaited, so no error
        has been recorded. */
    function IsLoading(): (loading: bool)
      reads this
      requires Valid()
      ensures loading <==> oneShot == RequestingPermission || oneShot == RequestingFix
      ensures loading ==> error == None
    {
      status == Loading
    }

    /** `hasPermission`: the fix succeeded, so a position is known and no error
        is recorded. */
    function HasPermission(): (granted: bool)
      reads this
      requires Valid()
      ensures granted ==> location.Some? && error == None && oneShot == Settled
    {
      status == Success
    }
  }
}

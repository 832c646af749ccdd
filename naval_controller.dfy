/** The server-side command state of a networked ship: an eight-step
  * throttle in [-4, 4], an emergency stop, a waypoint list and the index of
  * the waypoint auto-navigation steers for. */
module NavalControl {
  import opened Mathf

  /** A `float3` position. */
  datatype Vec3 = Vec3(x: real, y: real, z: real)

  const MinThrottle: real := -4.0
  const MaxThrottle: real := 4.0
  /** A waypoint counts as reached inside this distance. */
  const ArrivalDistance: real := 5.0

  class NetworkedNavalController {
    var waypoints: seq<Vec3>
    var currentWaypointIndex: int
    var autoNavigationEnabled: bool
    var currentThrottle: real
    var emergencyStopActive: bool

    /** The throttle stays in range, the index never passes the end of the
      * list, and auto-navigation always has a waypoint ahead. */
    ghost predicate Valid()
      reads this
    {
      MinThrottle <= currentThrottle <= MaxThrottle &&
      0 <= currentWaypointIndex <= |waypoints| &&
      (autoNavigationEnabled ==> currentWaypointIndex < |waypoints|)
    }

    /** `Awake`'s `InitializeNavigation`, with the synced throttle and stop
      * flag at their defaults. */
    constructor ()
      ensures Valid()
      ensures waypoints == [] && currentWaypointIndex == 0 && !autoNavigationEnabled
      ensures currentThrottle == 0.0 && !emergencyStopActive
    {
      waypoints := [];
      currentWaypointIndex := 0;
      autoNavigationEnabled := false;
      currentThrottle := 0.0;
      emergencyStopActive := false;
    }

    /** Moves the throttle by `direction`, clamped to [-4, 4]; ignored while
      * the emergency stop is on. */
    method CmdAdjustThrottle(direction: real)
      requires Valid()
      modifies this`currentThrottle
      ensures Valid()
      ensures emergencyStopActive ==> currentThrottle == old(currentThrottle)
      ensures !emergencyStopActive ==> currentThrottle == Clamp(old(currentThrottle) + direction, MinThrottle, MaxThrottle)
    {
      if emergencyStopActive {
        return;
      }
      var newThrottle := Clamp(currentThrottle + direction, MinThrottle, MaxThrottle);
      currentThrottle := newThrottle;
    }

    /** Stops: throttle 0, auto-navigation off, the stop flag on. */
    method CmdEmergencyStop()
      requires Valid()
      modifies this`emergencyStopActive, this`currentThrottle, this`autoNavigationEnabled
      ensures Valid()
      ensures emergencyStopActive && currentThrottle == 0.0 && !autoNavigationEnabled
    {
      emergencyStopActive := true;
      currentThrottle := 0.0;
      autoNavigationEnabled := false;
    }

    /** Appends a waypoint. */
    method CmdAddWaypoint(position: Vec3)
      requires Valid()
      modifies this`waypoints
      ensures Valid()
      ensures waypoints == old(waypoints) + [position]
    {
      waypoints := waypoints + [position];
    }

    /** Flips auto-navigation when there are waypoints; switching it on
      * restarts from the first waypoint and releases the emergency stop. */
    method CmdToggleAutoNavigation()
      requires Valid()
      modifies this`autoNavigationEnabled, this`currentWaypointIndex, this`emergencyStopActive
      ensures Valid()
      ensures |waypoints| == 0 ==> unchanged(this)
      ensures |waypoints| > 0 ==> autoNavigationEnabled == !old(autoNavigationEnabled)
      ensures |waypoints| > 0 && autoNavigationEnabled ==> currentWaypointIndex == 0 && !emergencyStopActive
      ensures !autoNavigationEnabled ==>
        currentWaypointIndex == old(currentWaypointIndex) && emergencyStopActive == old(emergencyStopActive)
    {
      if |waypoints| == 0 {
        return;
      }
      autoNavigationEnabled := !autoNavigationEnabled;
      if autoNavigationEnabled {
        currentWaypointIndex := 0;
        emergencyStopActive := false;
      }
    }

    /** Empties the route: no waypoints, index 0, auto-navigation off. */
    method CmdClearWaypoints()
      requires Valid()
      modifies this`waypoints, this`currentWaypointIndex, this`autoNavigationEnabled
      ensures Valid()
      ensures waypoints == [] && currentWaypointIndex == 0 && !autoNavigationEnabled
    {
      waypoints := [];
      currentWaypointIndex := 0;
      autoNavigationEnabled := false;
    }

    /** The waypoint bookkeeping of one navigation update;
      * `distanceToWaypoint` is the distance from the ship to the current
      * waypoint. Inside 5 units the index moves on, and auto-navigation
      * ends when it passes the last waypoint. */
    method UpdateNavigation(distanceToWaypoint: real)
      requires Valid()
      modifies this`currentWaypointIndex, this`autoNavigationEnabled
      ensures Valid()
      ensures old(currentWaypointIndex) <= currentWaypointIndex <= old(currentWaypointIndex) + 1
      ensures currentWaypointIndex == old(currentWaypointIndex) + 1 <==>
        old(autoNavigationEnabled) && distanceToWaypoint < ArrivalDistance
      ensures autoNavigationEnabled ==> old(autoNavigationEnabled)
      ensures old(autoNavigationEnabled) && !autoNavigationEnabled ==> currentWaypointIndex == |waypoints|
    {
      if !autoNavigationEnabled || |waypoints| == 0 {
        return;
      }
      if currentWaypointIndex < |waypoints| {
        if distanceToWaypoint < ArrivalDistance {
          currentWaypointIndex := currentWaypointIndex + 1;
          if currentWaypointIndex >= |waypoints| {
            autoNavigationEnabled := false;
            return;
          }
        }
      }
    }
  }
}

/**
 * A device (a registered point-of-sale or check-in terminal) of one
 * organizer: its per-organizer number and the permissions it holds on the
 * organizer and its events.
 */
module Devices {

  /** The permissions a device holds wherever it has access at all. */
  const Permissions: set<string> := {"can_view_orders", "can_change_orders"}

  /** The permission argument: none, one name, or a list or tuple of names. */
  datatype PermQuery = NoPerm | Perm(name: string) | PermList(names: seq<string>)

  /** The largest id in `ids`, or 0 when there is none (`Max(...)` or 0). */
  function MaxId(ids: seq<nat>): (m: nat)
    ensures forall i :: 0 <= i < |ids| ==> ids[i] <= m
    ensures |ids| > 0 ==> m in ids
    ensures |ids| == 0 ==> m == 0
  {
    if |ids| == 0 then 0
    else
      var rest := MaxId(ids[1..]);
      assert forall i :: 1 <= i < |ids| ==> ids[i] == ids[1..][i - 1];
      if ids[0] >= rest then ids[0] else rest
  }

  /** Whether `perm` is granted by a set of held permissions, for an entity one has access to. */
  predicate Grants(held: set<string>, perm: PermQuery) {
    match perm
    case NoPerm => true
    case Perm(p) => p == "" || p in held
    case PermList(ps) => exists i :: 0 <= i < |ps| && ps[i] in held
  }

  class Device {
    var organizer: int
    var allEvents: bool
    var limitEvents: set<int>
    var deviceId: nat   // 0 while unset

    constructor (organizer: int, allEvents: bool, limitEvents: set<int>)
      ensures this.organizer == organizer && this.allEvents == allEvents
      ensures this.limitEvents == limitEvents && deviceId == 0
    {
      this.organizer, this.allEvents, this.limitEvents := organizer, allEvents, limitEvents;
      deviceId := 0;
    }

    /**
     * `save`: a device without a number gets one more than the largest
     * number among the organizer's devices, `orgDeviceIds`.
     */
    method Save(orgDeviceIds: seq<nat>)
      modifies this`deviceId
      ensures old(deviceId) != 0 ==> deviceId == old(deviceId)
      ensures old(deviceId) == 0 ==> deviceId == MaxId(orgDeviceIds) + 1
      ensures old(deviceId) == 0 ==> forall i :: 0 <= i < |orgDeviceIds| ==> orgDeviceIds[i] < deviceId
    {
      if deviceId == 0 {
        deviceId := MaxId(orgDeviceIds) + 1;
      }
    }

    predicate HasEventAccess(org: int, event: int)
      reads this
    {
      (allEvents && org == organizer) || event in limitEvents
    }

    /** `get_event_permission_set`: everything with access to the event, nothing without. */
    function EventPermissionSet(org: int, event: int): (r: set<string>)
      reads this
      ensures r == Permissions || r == {}
      ensures r != {} <==> (allEvents && org == organizer) || event in limitEvents
    {
      if HasEventAccess(org, event) then Permissions else {}
    }

    /** `get_organizer_permission_set`: everything for its own organizer, nothing for others. */
    function OrganizerPermissionSet(org: int): (r: set<string>)
      reads this
      ensures r == Permissions || r == {}
      ensures r != {} <==> org == organizer
    {
      if organizer == org then Permissions else {}
    }

    /**
     * `has_event_permission`: a list needs one listed permission, no name
     * (or an empty one) needs access only, a name needs that permission;
     * all of them checked against `EventPermissionSet`.
     */
    function HasEventPermission(org: int, event: int, perm: PermQuery): (r: bool)
      reads this
      ensures r <==> EventPermissionSet(org, event) != {} && Grants(EventPermissionSet(org, event), perm)
    {
      var access := HasEventAccess(org, event);
      match perm
      case PermList(ps) => access && exists i :: 0 <= i < |ps| && ps[i] in Permissions
      case NoPerm => access
      case Perm(p) => access && (p == "" || p in Permissions)
    }

    /** `has_organizer_permission`: the same rule, where access means being the device's organizer. */
    function HasOrganizerPermission(org: int, perm: PermQuery): (r: bool)
      reads this
      ensures r <==> OrganizerPermissionSet(org) != {} && Grants(OrganizerPermissionSet(org), perm)
    {
      match perm
      case PermList(ps) => org == organizer && exists i :: 0 <= i < |ps| && ps[i] in Permissions
      case NoPerm => org == organizer
      case Perm(p) => org == organizer && (p == "" || p in Permissions)
    }

    /**
     * `get_events_with_any_permission`: every event of the organizer
     * (`orgEvents`) for a device on all events, otherwise its own list.
     */
    function EventsWithAnyPermission(orgEvents: set<int>): (r: set<int>)
      reads this
      ensures r <= orgEvents + limitEvents
      ensures limitEvents <= orgEvents ==>
        forall e :: e in r <==> e in orgEvents && EventPermissionSet(organizer, e) != {}
    {
      if allEvents then orgEvents else limitEvents
    }
  }

  /** A fresh device number is above every number the organizer has handed out. */
  lemma NewDeviceIdFresh(ids: seq<nat>)
    ensures MaxId(ids) + 1 !in ids
    ensures MaxId(ids) + 1 >= 1
  {
  }

  /** A single permission name agrees with membership in the event permission set. */
  lemma EventPermissionByName(d: Device, org: int, event: int, p: string)
    requires p != ""
    ensures d.HasEventPermission(org, event, Perm(p)) <==> p in d.EventPermissionSet(org, event)
  {
  }

  /** An event in the device's list grants access even when the device is not on all events. */
  lemma LimitEventGrantsAccess(d: Device, org: int, event: int)
    requires event in d.limitEvents
    ensures d.EventPermissionSet(org, event) == Permissions
    ensures d.HasEventPermission(org, event, NoPerm)
  {
  }

  /** An empty list of permission names is granted nowhere. */
  lemma EmptyListNeverGranted(d: Device, org: int, event: int)
    ensures !d.HasEventPermission(org, event, PermList([]))
    ensures !d.HasOrganizerPermission(org, PermList([]))
  {
  }
}

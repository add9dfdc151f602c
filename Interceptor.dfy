/** The device-id tracker: the set of ids of keyboard touch surfaces, kept
    up to date by the input manager's device notifications, and the filter
    that forwards motion events from those devices.

    The OS device table is a parameter `devices` (an id absent from it is
    one for which `getInputDevice` returns null); `inputDeviceIds` is a
    parameter `ids`. */
module InputEventInterceptor {
  import opened Platform
  import opened KeyboardTouchService

  /** A notification from the registered `InputDeviceListener`. */
  datatype DeviceNotice = Added(id: int) | Removed(id: int) | Changed(id: int)

  /** The ids among `ids` whose device exists and is classified as a
      keyboard touch surface. */
  function AcceptedIds(ids: seq<int>, devices: map<int, InputDevice>): set<int> {
    set id | id in ids && AcceptedId(devices, id)
  }

  /** `checkAndAddDevice` on the tracked set. */
  function CheckAndAdd(tracked: set<int>, id: int, devices: map<int, InputDevice>): set<int> {
    if id in devices && IsKeyboardTouchDevice(devices[id]) then tracked + {id} else tracked
  }

  /** The tracked set after one notification, `devices` being the device
      table when it is delivered. */
  function Track(tracked: set<int>, n: DeviceNotice, devices: map<int, InputDevice>): (r: set<int>)
    // a removal drops exactly that id
    ensures n.Removed? ==> r == tracked - {n.id}
    // an addition or change never drops an id and adds at most the notified one, if it is accepted
    ensures !n.Removed? ==> tracked <= r && r <= tracked + {n.id}
    ensures !n.Removed? ==> (n.id in r <==> n.id in tracked || AcceptedId(devices, n.id))
  {
    match n
    case Added(id) => CheckAndAdd(tracked, id, devices)
    case Removed(id) => tracked - {id}
    case Changed(id) => CheckAndAdd(tracked, id, devices)
  }

  /** Notifications delivered in order, each with the device table of its moment. */
  function TrackAll(tracked: set<int>, ns: seq<(DeviceNotice, map<int, InputDevice>)>): set<int>
    decreases |ns|
  {
    if ns == [] then tracked
    else TrackAll(Track(tracked, ns[0].0, ns[0].1), ns[1..])
  }

  /** Every tracked id was tracked at the start or was accepted by the
      classifier when some addition or change notice for it arrived. */
  lemma {:induction false} TrackedIdsWereAccepted(tracked: set<int>, ns: seq<(DeviceNotice, map<int, InputDevice>)>, id: int)
    requires id in TrackAll(tracked, ns)
    ensures id in tracked ||
            exists i :: 0 <= i < |ns| && !ns[i].0.Removed? && ns[i].0.id == id && AcceptedId(ns[i].1, id)
    decreases |ns|
  {
    if ns != [] {
      var next := Track(tracked, ns[0].0, ns[0].1);
      TrackedIdsWereAccepted(next, ns[1..], id);
      if id !in next {
        var i :| 0 <= i < |ns[1..]| && !ns[1..][i].0.Removed? && ns[1..][i].0.id == id && AcceptedId(ns[1..][i].1, id);
        assert ns[i + 1] == ns[1..][i];
      } else if id !in tracked {
        assert !ns[0].0.Removed? && ns[0].0.id == id && AcceptedId(ns[0].1, id);
      }
    }
  }

  /** Only a removal notice for an id stops tracking it: a change after
      which the device no longer matches keeps it. */
  lemma {:induction false} TrackedUntilRemoved(tracked: set<int>, ns: seq<(DeviceNotice, map<int, InputDevice>)>, id: int)
    requires id in tracked
    requires forall i :: 0 <= i < |ns| ==> ns[i].0 != Removed(id)
    ensures id in TrackAll(tracked, ns)
    decreases |ns|
  {
    if ns != [] {
      assert ns[0].0 != Removed(id);
      assert forall i :: 0 <= i < |ns[1..]| ==> ns[1..][i].0 == ns[i + 1].0;
      TrackedUntilRemoved(Track(tracked, ns[0].0, ns[0].1), ns[1..], id);
    }
  }

  /** The ids the start-up scan accepts are exactly those of the devices
      `getKeyboardTouchDevices` lists, and there is one iff
      `hasKeyboardTouch` holds. */
  lemma AcceptedIdsAreListedDevices(ids: seq<int>, devices: map<int, InputDevice>)
    ensures forall id :: id in AcceptedIds(ids, devices) ==> devices[id] in KeyboardTouchDevices(ids, devices)
    ensures forall d :: d in KeyboardTouchDevices(ids, devices) ==>
      exists id :: id in AcceptedIds(ids, devices) && devices[id] == d
    ensures AcceptedIds(ids, devices) != {} <==> HasKeyboardTouch(ids, devices)
  {
    if HasKeyboardTouch(ids, devices) {
      var id :| id in ids && AcceptedId(devices, id);
      assert id in AcceptedIds(ids, devices);
    }
  }

  class InputEventInterceptor {
    /** `keyboardDeviceIds`. */
    var keyboardDeviceIds: set<int>
    /** Whether the device listener is registered with the input manager. */
    var listening: bool

    constructor ()
      ensures keyboardDeviceIds == {} && !listening
    {
      keyboardDeviceIds := {};
      listening := false;
    }

    /** `checkAndAddDevice`: a device that exists and is accepted is added. */
    method CheckAndAddDevice(id: int, devices: map<int, InputDevice>)
      modifies this`keyboardDeviceIds
      ensures keyboardDeviceIds == CheckAndAdd(old(keyboardDeviceIds), id, devices)
    {
      if id !in devices {
        return;
      }
      var device := devices[id];
      if IsKeyboardTouchDevice(device) {
        keyboardDeviceIds := keyboardDeviceIds + {id};
      }
    }

    /** The listener's `onInputDeviceAdded`. */
    method OnInputDeviceAdded(id: int, devices: map<int, InputDevice>)
      modifies this`keyboardDeviceIds
      ensures keyboardDeviceIds == Track(old(keyboardDeviceIds), Added(id), devices)
    {
      CheckAndAddDevice(id, devices);
    }

    /** The listener's `onInputDeviceRemoved`. */
    method OnInputDeviceRemoved(id: int)
      modifies this`keyboardDeviceIds
      ensures keyboardDeviceIds == Track(old(keyboardDeviceIds), Removed(id), map[])
    {
      keyboardDeviceIds := keyboardDeviceIds - {id};
    }

    /** The listener's `onInputDeviceChanged`. */
    method OnInputDeviceChanged(id: int, devices: map<int, InputDevice>)
      modifies this`keyboardDeviceIds
      ensures keyboardDeviceIds == Track(old(keyboardDeviceIds), Changed(id), devices)
    {
      CheckAndAddDevice(id, devices);
    }

    /** `start`: checks every present device id in turn, then registers the
        listener. */
    method Start(ids: seq<int>, devices: map<int, InputDevice>)
      modifies this`keyboardDeviceIds, this`listening
      ensures keyboardDeviceIds == old(keyboardDeviceIds) + AcceptedIds(ids, devices)
      ensures listening
    {
      for i := 0 to |ids|
        invariant keyboardDeviceIds == old(keyboardDeviceIds) + AcceptedIds(ids[..i], devices)
      {
        CheckAndAddDevice(ids[i], devices);
        assert ids[..i + 1] == ids[..i] + [ids[i]];
      }
      assert ids[..|ids|] == ids;
      listening := true;
    }

    /** `stop`: unregisters the listener and forgets every id. */
    method Stop()
      modifies this`keyboardDeviceIds, this`listening
      ensures keyboardDeviceIds == {} && !listening
    {
      listening := false;
      keyboardDeviceIds := {};
    }

    /** `isKeyboardTouchEvent`: a tracked device id, or an event the
        classifier accepts on its own. */
    function IsKeyboardTouchEvent(e: MotionEvent): (r: bool)
      reads this`keyboardDeviceIds
      ensures r ==> e.deviceId in keyboardDeviceIds || (e.device.Some? && HasTouchpadSource(e.device.value.sources))
      ensures e.deviceId in keyboardDeviceIds ==> r
    {
      e.deviceId in keyboardDeviceIds || KeyboardTouchService.IsKeyboardTouchEvent(e)
    }

    /** `processMotionEvent`: `forwarded` holds the events handed to the
        callback `onTouchEvent` (none or this one); the result is false
        without a call for other events, and the callback's answer otherwise. */
    method ProcessMotionEvent(e: MotionEvent, onTouchEvent: MotionEvent -> bool)
      returns (consumed: bool, forwarded: seq<MotionEvent>)
      ensures forwarded == [] || forwarded == [e]
      ensures forwarded == [e] <==> e.deviceId in keyboardDeviceIds || KeyboardTouchService.IsKeyboardTouchEvent(e)
      ensures consumed <==> forwarded == [e] && onTouchEvent(e)
      ensures e.deviceId !in keyboardDeviceIds && (e.device.None? || !HasTouchpadSource(e.device.value.sources))
              ==> !consumed && forwarded == []
    {
      if !IsKeyboardTouchEvent(e) {
        return false, [];
      }
      consumed := onTouchEvent(e);
      forwarded := [e];
    }
  }
}

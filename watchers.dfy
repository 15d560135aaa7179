/**
  The watcher-name registry of TestEngine. The engine keeps the names of the watchers it
  has registered with the device in a set, and keeps that set in step with the device:
  a name is removed from the device before it is registered again, and only a name the
  engine holds is removed. The device's watcher table is not visible to the engine; it is
  modelled by the ghost log of the calls the engine makes on it.
*/
module Watchers {

  /** A UiSelector; its query is opaque to this model. */
  datatype Selector = Selector(query: string)

  /** The two kinds of watcher the engine registers. */
  datatype Watcher =
    | ClickUiObjectWatcher(conditions: seq<Selector>, target: Selector)
    | PressKeysWatcher(conditions: seq<Selector>, keys: seq<string>)

  /** A call the engine makes on the device: UiDevice.registerWatcher / removeWatcher. */
  datatype DeviceCall =
    | RegisterWatcher(name: string, watcher: Watcher)
    | RemoveWatcher(name: string)

  /** The device's watcher table after `calls`, starting from an empty table. */
  function DeviceTable(calls: seq<DeviceCall>): map<string, Watcher>
  {
    if calls == [] then map[]
    else
      var before := DeviceTable(calls[..|calls| - 1]);
      match calls[|calls| - 1]
      case RegisterWatcher(name, watcher) => before[name := watcher]
      case RemoveWatcher(name) => before - {name}
  }

  /** Every registration is of a name the device does not hold, and every removal is of
      a name it holds. */
  predicate Disciplined(calls: seq<DeviceCall>)
  {
    calls == [] ||
    (Disciplined(calls[..|calls| - 1]) &&
     var before := DeviceTable(calls[..|calls| - 1]);
     match calls[|calls| - 1]
     case RegisterWatcher(name, _) => name !in before
     case RemoveWatcher(name) => name in before)
  }

  /** Registrations minus removals in `calls`. */
  function NetRegistrations(calls: seq<DeviceCall>): int
  {
    if calls == [] then 0
    else NetRegistrations(calls[..|calls| - 1]) + (if calls[|calls| - 1].RegisterWatcher? then 1 else -1)
  }

  /** Under the engine's discipline no registration overwrites another and no removal is
      a no-op, so the device holds exactly as many watchers as registrations minus removals. */
  lemma {:induction false} DisciplinedTableSize(calls: seq<DeviceCall>)
    requires Disciplined(calls)
    ensures |DeviceTable(calls)| == NetRegistrations(calls)
  {
    if calls != [] {
      var prefix := calls[..|calls| - 1];
      DisciplinedTableSize(prefix);
      var before := DeviceTable(prefix);
      var last := calls[|calls| - 1];
      if last.RegisterWatcher? {
        assert last.name !in before;
        assert DeviceTable(calls) == before[last.name := last.watcher];
        assert DeviceTable(calls).Keys == before.Keys + {last.name};
      } else {
        assert last.name in before;
        assert DeviceTable(calls) == before - {last.name};
        assert DeviceTable(calls).Keys + {last.name} == before.Keys;
      }
    }
  }

  /** The copy `new UiSelector[conditions.length]` filled element by element, so that the
      watcher does not share the caller's array. */
  method CopySelectors(conditions: array<Selector>) returns (selectors: array<Selector>)
    ensures fresh(selectors)
    ensures selectors[..] == conditions[..]
  {
    selectors := new Selector[conditions.Length];
    for i := 0 to conditions.Length
      invariant forall j :: 0 <= j < i ==> selectors[j] == conditions[j]
    {
      selectors[i] := conditions[i];
    }
  }

  /** The watcher state of a TestEngine. */
  class TestEngine {
    /** Names of the watchers this engine has registered. */
    var watchers: set<string>
    /** The calls this engine has made on the device's watcher table, oldest first. */
    ghost var deviceCalls: seq<DeviceCall>

    /** The engine's set is exactly the device's table, built by disciplined calls. */
    ghost predicate Valid()
      reads this
    {
      watchers == DeviceTable(deviceCalls).Keys && Disciplined(deviceCalls)
    }

    constructor ()
      ensures Valid()
      ensures watchers == {} && deviceCalls == []
    {
      watchers := {};
      deviceCalls := [];
    }

    /** Removes `name` from the device and the set if the set holds it. */
    method RemoveWatcher(name: string)
      requires Valid()
      modifies this
      ensures Valid()
      ensures watchers == old(watchers) - {name}
      ensures DeviceTable(deviceCalls) == old(DeviceTable(deviceCalls)) - {name}
      ensures deviceCalls == old(deviceCalls) + (if name in old(watchers) then [DeviceCall.RemoveWatcher(name)] else [])
    {
      if name in watchers {
        ghost var before := deviceCalls;
        deviceCalls := deviceCalls + [DeviceCall.RemoveWatcher(name)];
        assert deviceCalls[..|deviceCalls| - 1] == before;
        watchers := watchers - {name};
      } else {
        assert DeviceTable(deviceCalls) - {name} == DeviceTable(deviceCalls);
      }
    }

    /** UiDevice.registerWatcher(name, watcher) followed by watchers.add(name), for a name
        the engine does not hold. */
    method AddWatcher(name: string, watcher: Watcher)
      requires Valid() && name !in watchers
      modifies this
      ensures Valid()
      ensures watchers == old(watchers) + {name}
      ensures DeviceTable(deviceCalls) == old(DeviceTable(deviceCalls))[name := watcher]
      ensures deviceCalls == old(deviceCalls) + [RegisterWatcher(name, watcher)]
    {
      ghost var before := deviceCalls;
      deviceCalls := deviceCalls + [RegisterWatcher(name, watcher)];
      assert deviceCalls[..|deviceCalls| - 1] == before;
      watchers := watchers + {name};
    }

    /** registerClickUiObjectWatcher: a watcher that, when all `conditions` are on screen,
        clicks `target`; an earlier watcher of the same name is removed first. A null
        `conditions` array throws NullPointerException (`npe`) after that removal, so the
        name is then gone from the device and the set and nothing is registered. */
    method RegisterClickUiObjectWatcher(name: string, conditions: array?<Selector>, target: Selector)
      returns (npe: bool)
      requires Valid()
      modifies this
      ensures Valid()
      ensures npe <==> conditions == null
      ensures npe ==> watchers == old(watchers) - {name}
      ensures npe ==> DeviceTable(deviceCalls) == old(DeviceTable(deviceCalls)) - {name}
      ensures npe ==> deviceCalls == old(deviceCalls) + (if name in old(watchers) then [DeviceCall.RemoveWatcher(name)] else [])
      ensures !npe ==> watchers == old(watchers) + {name}
      ensures !npe ==> DeviceTable(deviceCalls) == old(DeviceTable(deviceCalls))[name := ClickUiObjectWatcher(conditions[..], target)]
      ensures !npe ==> (deviceCalls == old(deviceCalls)
        + (if name in old(watchers) then [DeviceCall.RemoveWatcher(name)] else [])
        + [RegisterWatcher(name, ClickUiObjectWatcher(conditions[..], target))])
    {
      RemoveWatcher(name);
      if conditions == null {
        return true;
      }
      var selectors := CopySelectors(conditions);
      AddWatcher(name, ClickUiObjectWatcher(selectors[..], target));
      assert DeviceTable(deviceCalls) == old(DeviceTable(deviceCalls))[name := ClickUiObjectWatcher(conditions[..], target)];
      return false;
    }

    /** registerPressKeyskWatcher: a watcher that, when all `conditions` are on screen,
        presses `keys`; an earlier watcher of the same name is removed first. A null
        `conditions` array throws NullPointerException (`npe`) after that removal. */
    method RegisterPressKeysWatcher(name: string, conditions: array?<Selector>, keys: seq<string>)
      returns (npe: bool)
      requires Valid()
      modifies this
      ensures Valid()
      ensures npe <==> conditions == null
      ensures npe ==> watchers == old(watchers) - {name}
      ensures npe ==> DeviceTable(deviceCalls) == old(DeviceTable(deviceCalls)) - {name}
      ensures npe ==> deviceCalls == old(deviceCalls) + (if name in old(watchers) then [DeviceCall.RemoveWatcher(name)] else [])
      ensures !npe ==> watchers == old(watchers) + {name}
      ensures !npe ==> DeviceTable(deviceCalls) == old(DeviceTable(deviceCalls))[name := PressKeysWatcher(conditions[..], keys)]
      ensures !npe ==> (deviceCalls == old(deviceCalls)
        + (if name in old(watchers) then [DeviceCall.RemoveWatcher(name)] else [])
        + [RegisterWatcher(name, PressKeysWatcher(conditions[..], keys))])
    {
      RemoveWatcher(name);
      if conditions == null {
        return true;
      }
      var selectors := CopySelectors(conditions);
      AddWatcher(name, PressKeysWatcher(selectors[..], keys));
      assert DeviceTable(deviceCalls) == old(DeviceTable(deviceCalls))[name := PressKeysWatcher(conditions[..], keys)];
      return false;
    }

    /** getWatchers: the set's names, each exactly once, in no particular order. */
    method GetWatchers() returns (names: seq<string>)
      ensures |names| == |watchers|
      ensures forall name :: name in names <==> name in watchers
    {
      names := [];
      var rest := watchers;
      while rest != {}
        invariant rest <= watchers
        invariant forall name :: name in names <==> name in watchers && name !in rest
        invariant |names| + |rest| == |watchers|
        decreases |rest|
      {
        var name :| name in rest;
        names := names + [name];
        rest := rest - {name};
      }
    }
  }
}

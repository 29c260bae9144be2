/**
 * The Zigbee manager's bookkeeping: the list of serial adapters the adapter
 * monitor reports, the table of networks keyed by uuid, and the ordered
 * validation each network operation performs before it touches the table.
 *
 * The networks themselves belong to the Zigbee library; here a network is the
 * record of what the manager sets on it and reads from it.
 */
module ZigbeeManagement {
  import opened Wrappers

  type Uuid = string
  type UInt16 = x: int | 0 <= x < 0x1_0000
  type UInt32 = x: int | 0 <= x < 0x1_0000_0000

  /** The backend types the Zigbee library knows; it may know more than the manager handles. */
  datatype LibraryBackend = LibraryDeconz | LibraryNxp | LibraryOther(code: nat)

  /** The backend types of the manager's own adapter description. */
  datatype BackendType = Deconz | Nxp

  /** A serial adapter as the adapter monitor reports it. */
  datatype UartAdapter = UartAdapter(
    name: string, systemLocation: string, description: string,
    hardwareRecognized: bool, baudRate: int, backend: LibraryBackend)

  /**
   * The manager's adapter description. `backendType` is None when the
   * library's backend has no counterpart and the field keeps its initial value.
   */
  datatype ZigbeeAdapter = ZigbeeAdapter(
    name: string, systemLocation: string, description: string,
    hardwareRecognized: bool, baudRate: int, backendType: Option<BackendType>)

  datatype NetworkState = StateRunning | StateNotRunning

  datatype PermitJoin = PermitJoin(duration: UInt32, shortAddress: UInt16)

  /** What the manager sets on and reads from one network object. */
  datatype ZigbeeNetwork = ZigbeeNetwork(
    backendType: Option<BackendType>, serialPortName: string, serialBaudrate: int,
    channelMask: UInt32, state: NetworkState, permitJoin: Option<PermitJoin>)

  datatype ZigbeeError =
    | NoError
    | AdapterNotAvailable
    | AdapterAlreadyInUse
    | NetworkUuidNotFound
    | DurationOutOfRange
    | NetworkOffline

  /** The monitor's adapter description turned into the manager's. */
  function ConvertUartAdapterToAdapter(uart: UartAdapter): (a: ZigbeeAdapter)
    ensures a.name == uart.name && a.systemLocation == uart.systemLocation
    ensures a.description == uart.description && a.hardwareRecognized == uart.hardwareRecognized
    ensures a.baudRate == uart.baudRate
    ensures a.backendType.None? <==> uart.backend.LibraryOther?
  {
    var backend := match uart.backend
      case LibraryDeconz => Some(Deconz)
      case LibraryNxp => Some(Nxp)
      case LibraryOther(_) => None;
    ZigbeeAdapter(uart.name, uart.systemLocation, uart.description, uart.hardwareRecognized, uart.baudRate, backend)
  }

  /** Every monitor adapter converted, in order. */
  function ConvertAll(uarts: seq<UartAdapter>): (r: seq<ZigbeeAdapter>)
    ensures |r| == |uarts|
    ensures forall i :: 0 <= i < |uarts| ==> r[i] == ConvertUartAdapterToAdapter(uarts[i])
  {
    if uarts == [] then [] else [ConvertUartAdapterToAdapter(uarts[0])] + ConvertAll(uarts[1..])
  }

  /** Some network already uses the serial port at `location`. */
  predicate AdapterInUse(networks: map<Uuid, ZigbeeNetwork>, location: string) {
    exists u :: u in networks && networks[u].serialPortName == location
  }

  /** No two networks share a serial port: what the in-use check protects. */
  predicate PortsDistinct(networks: map<Uuid, ZigbeeNetwork>) {
    forall u, v :: u in networks && v in networks && u != v ==> networks[u].serialPortName != networks[v].serialPortName
  }

  /** The outcome of a create request: the in-use check first, then availability. */
  function CreateNetworkError(networks: map<Uuid, ZigbeeNetwork>, adapters: seq<ZigbeeAdapter>, adapter: ZigbeeAdapter): (e: ZigbeeError)
    ensures e == AdapterAlreadyInUse <==> AdapterInUse(networks, adapter.systemLocation)
    ensures e == AdapterNotAvailable <==> !AdapterInUse(networks, adapter.systemLocation) && adapter !in adapters
    ensures e == NoError <==> !AdapterInUse(networks, adapter.systemLocation) && adapter in adapters
  {
    if AdapterInUse(networks, adapter.systemLocation) then AdapterAlreadyInUse
    else if adapter !in adapters then AdapterNotAvailable
    else NoError
  }

  /** The network a successful create adds: the adapter's port and baud rate, the requested channel mask. */
  function NewNetwork(adapter: ZigbeeAdapter, channelMask: UInt32): ZigbeeNetwork {
    ZigbeeNetwork(adapter.backendType, adapter.systemLocation, adapter.baudRate, channelMask, StateNotRunning, None)
  }

  /** A successful create under a fresh uuid keeps every serial port used at most once. */
  lemma {:induction false} CreateKeepsPortsDistinct(networks: map<Uuid, ZigbeeNetwork>, adapters: seq<ZigbeeAdapter>,
                                                   adapter: ZigbeeAdapter, channelMask: UInt32, newUuid: Uuid)
    requires PortsDistinct(networks) && newUuid !in networks
    requires CreateNetworkError(networks, adapters, adapter) == NoError
    ensures PortsDistinct(networks[newUuid := NewNetwork(adapter, channelMask)])
    ensures |networks[newUuid := NewNetwork(adapter, channelMask)]| == |networks| + 1
  {
    var n := networks[newUuid := NewNetwork(adapter, channelMask)];
    forall u, v | u in n && v in n && u != v
      ensures n[u].serialPortName != n[v].serialPortName
    {
      if u == newUuid {
        assert networks[v].serialPortName != adapter.systemLocation;
      } else if v == newUuid {
        assert networks[u].serialPortName != adapter.systemLocation;
      }
    }
  }

  /** Once an adapter's location is removed, a create request for any adapter there is refused. */
  lemma RemovedAdapterNotAvailable(networks: map<Uuid, ZigbeeNetwork>, adapters: seq<ZigbeeAdapter>, location: string, adapter: ZigbeeAdapter)
    requires adapter.systemLocation == location
    ensures CreateNetworkError(networks, WithoutLocation(adapters, location), adapter) != NoError
  {
  }

  /** Removing a network frees its serial port when ports were used at most once. */
  lemma RemoveFreesPort(networks: map<Uuid, ZigbeeNetwork>, networkUuid: Uuid)
    requires PortsDistinct(networks) && networkUuid in networks
    ensures !AdapterInUse(networks - {networkUuid}, networks[networkUuid].serialPortName)
    ensures PortsDistinct(networks - {networkUuid})
  {
    var rest := networks - {networkUuid};
    forall u | u in rest
      ensures rest[u].serialPortName != networks[networkUuid].serialPortName
    {
      assert u != networkUuid;
    }
  }

  /** The outcome of a permit-join request: uuid, then duration, then running state. */
  function PermitJoinError(networks: map<Uuid, ZigbeeNetwork>, networkUuid: Uuid, duration: UInt32): (e: ZigbeeError)
    ensures e == NetworkUuidNotFound <==> networkUuid !in networks
    ensures e == DurationOutOfRange <==> networkUuid in networks && duration > 255
    ensures e == NetworkOffline <==> networkUuid in networks && duration <= 255 && networks[networkUuid].state != StateRunning
    ensures e == NoError <==> networkUuid in networks && duration <= 255 && networks[networkUuid].state == StateRunning
  {
    if networkUuid !in networks then NetworkUuidNotFound
    else if duration > 255 then DurationOutOfRange
    else if networks[networkUuid].state != StateRunning then NetworkOffline
    else NoError
  }

  /** The adapters left once every adapter at `location` is gone, order kept. */
  function WithoutLocation(adapters: seq<ZigbeeAdapter>, location: string): (r: seq<ZigbeeAdapter>)
    ensures |r| <= |adapters|
    ensures forall a :: a in r <==> a in adapters && a.systemLocation != location
    ensures multiset(r) + multiset(AtLocation(adapters, location)) == multiset(adapters)
  {
    if adapters == [] then []
    else
      assert adapters == [adapters[0]] + adapters[1..];
      if adapters[0].systemLocation == location then WithoutLocation(adapters[1..], location)
      else [adapters[0]] + WithoutLocation(adapters[1..], location)
  }

  /** The adapters at `location`, in list order, repeats included. */
  function AtLocation(adapters: seq<ZigbeeAdapter>, location: string): (r: seq<ZigbeeAdapter>)
    ensures |r| <= |adapters|
    ensures forall a :: a in r <==> a in adapters && a.systemLocation == location
  {
    if adapters == [] then []
    else if adapters[0].systemLocation == location then [adapters[0]] + AtLocation(adapters[1..], location)
    else AtLocation(adapters[1..], location)
  }

  /** The list without the elements of `gone`, order kept. */
  function Without(adapters: seq<ZigbeeAdapter>, gone: set<ZigbeeAdapter>): (r: seq<ZigbeeAdapter>)
  {
    if adapters == [] then []
    else if adapters[0] in gone then Without(adapters[1..], gone)
    else [adapters[0]] + Without(adapters[1..], gone)
  }

  /** Removing every copy of `a` from what is left removes it together with the earlier ones. */
  lemma {:induction false} WithoutOneMore(adapters: seq<ZigbeeAdapter>, gone: set<ZigbeeAdapter>, a: ZigbeeAdapter)
    ensures Without(Without(adapters, gone), {a}) == Without(adapters, gone + {a})
  {
    if adapters != [] {
      WithoutOneMore(adapters[1..], gone, a);
      if adapters[0] !in gone {
        assert Without(adapters, gone) == [adapters[0]] + Without(adapters[1..], gone);
        assert ([adapters[0]] + Without(adapters[1..], gone))[1..] == Without(adapters[1..], gone);
      }
    }
  }

  /** Removing the set of adapters at `location` is removing by location. */
  lemma {:induction false} WithoutMatchingIsWithoutLocation(adapters: seq<ZigbeeAdapter>, gone: set<ZigbeeAdapter>, location: string)
    requires forall a :: a in adapters ==> (a in gone <==> a.systemLocation == location)
    ensures Without(adapters, gone) == WithoutLocation(adapters, location)
  {
    if adapters != [] {
      WithoutMatchingIsWithoutLocation(adapters[1..], gone, location);
    }
  }

  class ZigbeeManager {
    var adapters: seq<ZigbeeAdapter>
    var networks: map<Uuid, ZigbeeNetwork>

    /**
     * Starts with the monitor's adapters, converted and in order, and the
     * networks restored from the settings.
     */
    constructor (availableAdapters: seq<UartAdapter>, loadedNetworks: map<Uuid, ZigbeeNetwork>)
      ensures adapters == ConvertAll(availableAdapters)
      ensures networks == loadedNetworks
    {
      adapters := [];
      networks := loadedNetworks;
      new;
      var i := 0;
      while i < |availableAdapters|
        invariant 0 <= i <= |availableAdapters|
        invariant adapters == ConvertAll(availableAdapters[..i])
        invariant networks == loadedNetworks
      {
        ConvertAllAppend(availableAdapters[..i], availableAdapters[i]);
        assert availableAdapters[..i + 1] == availableAdapters[..i] + [availableAdapters[i]];
        adapters := adapters + [ConvertUartAdapterToAdapter(availableAdapters[i])];
        i := i + 1;
      }
      assert availableAdapters[..i] == availableAdapters;
    }

    /** Networks exist exactly when the manager is available. */
    function Available(): (b: bool)
      reads this
      ensures b <==> exists u :: u in networks
    {
      assert forall u :: u in networks ==> |networks| > 0;
      if |networks| > 0 then (var u :| u in networks; true) else false
    }

    /** `newUuid` is the freshly generated uuid of the new network, so it names none of the existing ones. */
    method CreateZigbeeNetwork(adapter: ZigbeeAdapter, channelMask: UInt32, newUuid: Uuid) returns (error: ZigbeeError)
      requires newUuid !in networks
      modifies this
      ensures error == CreateNetworkError(old(networks), old(adapters), adapter)
      ensures error != NoError ==> networks == old(networks)
      ensures error == NoError ==> networks == old(networks)[newUuid := NewNetwork(adapter, channelMask)]
      ensures adapters == old(adapters)
    {
      var unchecked := networks.Keys;
      while unchecked != {}
        invariant unchecked <= networks.Keys
        invariant forall u :: u in networks && u !in unchecked ==> networks[u].serialPortName != adapter.systemLocation
        decreases unchecked
      {
        var u :| u in unchecked;
        if networks[u].serialPortName == adapter.systemLocation {
          return AdapterAlreadyInUse;
        }
        unchecked := unchecked - {u};
      }
      if adapter !in adapters {
        return AdapterNotAvailable;
      }
      networks := networks[newUuid := NewNetwork(adapter, channelMask)];
      return NoError;
    }

    method RemoveZigbeeNetwork(networkUuid: Uuid) returns (error: ZigbeeError)
      modifies this
      ensures error == NoError <==> networkUuid in old(networks)
      ensures error != NoError ==> error == NetworkUuidNotFound && networks == old(networks)
      ensures error == NoError ==> networks == old(networks) - {networkUuid}
      ensures adapters == old(adapters)
    {
      if networkUuid !in networks {
        return NetworkUuidNotFound;
      }
      networks := networks - {networkUuid};
      return NoError;
    }

    method SetZigbeeNetworkPermitJoin(networkUuid: Uuid, shortAddress: UInt16, duration: UInt32) returns (error: ZigbeeError)
      modifies this
      ensures error == PermitJoinError(old(networks), networkUuid, duration)
      ensures error != NoError ==> networks == old(networks)
      ensures error == NoError ==>
        networks == old(networks)[networkUuid := old(networks)[networkUuid].(permitJoin := Some(PermitJoin(duration, shortAddress)))]
      ensures adapters == old(adapters)
    {
      if networkUuid !in networks {
        return NetworkUuidNotFound;
      }
      if duration > 255 {
        return DurationOutOfRange;
      }
      var network := networks[networkUuid];
      if network.state != StateRunning {
        return NetworkOffline;
      }
      networks := networks[networkUuid := network.(permitJoin := Some(PermitJoin(duration, shortAddress)))];
      return NoError;
    }

    /** The reset itself happens inside the network object; the table is not touched. */
    method FactoryResetNetwork(networkUuid: Uuid) returns (error: ZigbeeError)
      ensures error == NoError <==> networkUuid in networks
      ensures error != NoError ==> error == NetworkUuidNotFound
    {
      if networkUuid !in networks {
        return NetworkUuidNotFound;
      }
      return NoError;
    }

    /** The network object reports a new state (a library event). */
    method OnNetworkStateChanged(networkUuid: Uuid, state: NetworkState)
      requires networkUuid in networks
      modifies this
      ensures networks == old(networks)[networkUuid := old(networks)[networkUuid].(state := state)]
      ensures adapters == old(adapters)
    {
      networks := networks[networkUuid := networks[networkUuid].(state := state)];
    }

    /** The monitor reports a new adapter: it is appended and announced. */
    method OnAdapterAdded(uart: UartAdapter) returns (added: ZigbeeAdapter)
      modifies this
      ensures added == ConvertUartAdapterToAdapter(uart)
      ensures adapters == old(adapters) + [added]
      ensures networks == old(networks)
    {
      added := ConvertUartAdapterToAdapter(uart);
      adapters := adapters + [added];
    }

    /**
     * The monitor reports an adapter gone: every adapter at its location is
     * removed, and each one found at that location is announced.
     */
    method OnAdapterRemoved(uart: UartAdapter) returns (removed: seq<ZigbeeAdapter>)
      modifies this
      ensures adapters == WithoutLocation(old(adapters), uart.systemLocation)
      ensures removed == AtLocation(old(adapters), uart.systemLocation)
      ensures networks == old(networks)
    {
      var snapshot := adapters;
      var location := uart.systemLocation;
      ghost var gone: set<ZigbeeAdapter> := {};
      removed := [];
      WithoutNothing(snapshot);
      var i := 0;
      while i < |snapshot|
        invariant 0 <= i <= |snapshot|
        invariant forall a :: a in gone ==> a.systemLocation == location
        invariant forall j :: 0 <= j < i && snapshot[j].systemLocation == location ==> snapshot[j] in gone
        invariant adapters == Without(snapshot, gone)
        invariant removed == AtLocation(snapshot[..i], location)
        invariant networks == old(networks)
      {
        var adapter := snapshot[i];
        AtLocationStep(snapshot, i, location);
        if adapter.systemLocation == location {
          RemoveAllIsWithout(adapters, adapter);
          WithoutOneMore(snapshot, gone, adapter);
          adapters := RemoveAll(adapters, adapter);
          gone := gone + {adapter};
          removed := removed + [adapter];
        }
        i := i + 1;
      }
      assert snapshot[..i] == snapshot;
      WithoutMatchingIsWithoutLocation(snapshot, gone, uart.systemLocation);
    }
  }

  /** The list's removeAll: every element equal to `a` dropped. */
  function RemoveAll(adapters: seq<ZigbeeAdapter>, a: ZigbeeAdapter): (r: seq<ZigbeeAdapter>)
    ensures forall x :: x in r <==> x in adapters && x != a
    ensures multiset(r) == multiset(adapters)[a := 0]
  {
    if adapters == [] then []
    else
      assert adapters == [adapters[0]] + adapters[1..];
      if adapters[0] == a then RemoveAll(adapters[1..], a)
      else [adapters[0]] + RemoveAll(adapters[1..], a)
  }

  /** removeAll keeps the order of the others: an adapter added at the end stays at the end unless it is the one removed. */
  lemma {:induction false} RemoveAllAppend(adapters: seq<ZigbeeAdapter>, x: ZigbeeAdapter, a: ZigbeeAdapter)
    ensures RemoveAll(adapters + [x], a) == RemoveAll(adapters, a) + (if x == a then [] else [x])
  {
    if adapters == [] {
      assert [] + [x] == [x];
    } else {
      assert (adapters + [x])[1..] == adapters[1..] + [x];
      RemoveAllAppend(adapters[1..], x, a);
    }
  }

  lemma {:induction false} WithoutNothing(adapters: seq<ZigbeeAdapter>)
    ensures Without(adapters, {}) == adapters
  {
    if adapters != [] {
      WithoutNothing(adapters[1..]);
    }
  }

  lemma {:induction false} RemoveAllIsWithout(adapters: seq<ZigbeeAdapter>, a: ZigbeeAdapter)
    ensures RemoveAll(adapters, a) == Without(adapters, {a})
  {
    if adapters != [] {
      RemoveAllIsWithout(adapters[1..], a);
    }
  }

  lemma {:induction false} ConvertAllAppend(uarts: seq<UartAdapter>, u: UartAdapter)
    ensures ConvertAll(uarts + [u]) == ConvertAll(uarts) + [ConvertUartAdapterToAdapter(u)]
  {
    var r := ConvertAll(uarts + [u]);
    assert |r| == |uarts| + 1;
    assert forall i :: 0 <= i < |uarts| ==> (uarts + [u])[i] == uarts[i];
  }

  lemma AtLocationStep(adapters: seq<ZigbeeAdapter>, i: nat, location: string)
    requires i < |adapters|
    ensures AtLocation(adapters[..i + 1], location) ==
      AtLocation(adapters[..i], location) + (if adapters[i].systemLocation == location then [adapters[i]] else [])
  {
    assert adapters[..i + 1] == adapters[..i] + [adapters[i]];
    AtLocationAppend(adapters[..i], adapters[i], location);
  }

  /** Removal by location keeps the order of the others, as AtLocationAppend does for the removed ones. */
  lemma {:induction false} WithoutLocationAppend(adapters: seq<ZigbeeAdapter>, x: ZigbeeAdapter, location: string)
    ensures WithoutLocation(adapters + [x], location) ==
      WithoutLocation(adapters, location) + (if x.systemLocation == location then [] else [x])
  {
    if adapters == [] {
      assert [] + [x] == [x];
    } else {
      assert (adapters + [x])[1..] == adapters[1..] + [x];
      WithoutLocationAppend(adapters[1..], x, location);
    }
  }

  lemma {:induction false} AtLocationAppend(adapters: seq<ZigbeeAdapter>, a: ZigbeeAdapter, location: string)
    ensures AtLocation(adapters + [a], location) ==
      AtLocation(adapters, location) + (if a.systemLocation == location then [a] else [])
  {
    if adapters == [] {
      assert [] + [a] == [a];
    } else {
      assert (adapters + [a])[1..] == adapters[1..] + [a];
      AtLocationAppend(adapters[1..], a, location);
    }
  }
}

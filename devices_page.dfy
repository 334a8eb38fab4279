/**
 * The devices page (src/pages/Devices.tsx): the device-type filter, the maintenance toggle and
 * the two steps of starting a session through the start dialog. Each handler returns the request
 * it hands to the device hook, if any, together with the new dialog selection.
 */
module DevicesPage {
  import opened Wrappers
  import opened Seqs
  import opened Types
  import opened DevicesDB

  /** `DeviceTypeFilter`: the page offers no filter for the `other` type. */
  datatype TypeFilter = AllTypes | PcFilter | PlayStationFilter | BilliardFilter

  function FilterType(f: TypeFilter): DeviceType
    requires f != AllTypes
  {
    match f
    case PcFilter => Pc
    case PlayStationFilter => PlayStation
    case BilliardFilter => Billiard
  }

  /** `filteredDevices`. */
  function FilteredDevices(devices: seq<DeviceWithSession>, f: TypeFilter): seq<DeviceWithSession>
  {
    if f == AllTypes then devices
    else Filter(devices, OfType(FilterType(f)))
  }

  /** The filter predicate `d => d.type === filterType`. */
  function OfType(t: DeviceType): DeviceWithSession -> bool
  {
    (d: DeviceWithSession) => d.device.deviceType == t
  }

  /**
   * `all` shows every device as listed; a type filter shows exactly the devices of that type, in
   * their list order, so a device of type `other` is only ever shown under `all`.
   */
  lemma FilterShowsExactlyTheType(devices: seq<DeviceWithSession>, f: TypeFilter)
    ensures f == AllTypes ==> FilteredDevices(devices, f) == devices
    ensures f != AllTypes ==>
              var r := FilteredDevices(devices, f);
              (forall i :: 0 <= i < |r| ==> r[i] in devices && r[i].device.deviceType == FilterType(f))
              && (forall i :: 0 <= i < |devices| && devices[i].device.deviceType == FilterType(f) ==> devices[i] in r)
              && (forall i :: 0 <= i < |r| ==> r[i].device.deviceType != Other)
  {
  }

  /**
   * The filter keeps list order and multiplicity: filtering two lists one after the other is
   * filtering their concatenation, and a single device is kept exactly when it passes.
   */
  lemma {:induction false} FilterKeepsOrder(a: seq<DeviceWithSession>, b: seq<DeviceWithSession>, f: TypeFilter)
    ensures FilteredDevices(a + b, f) == FilteredDevices(a, f) + FilteredDevices(b, f)
    ensures forall d: DeviceWithSession :: FilteredDevices([d], f)
              == if f == AllTypes || d.device.deviceType == FilterType(f) then [d] else []
  {
    if f != AllTypes {
      FilterAppend(a, b, OfType(FilterType(f)));
      forall d: DeviceWithSession
        ensures FilteredDevices([d], f) == if d.device.deviceType == FilterType(f) then [d] else []
      {
        FilterSnoc([], d, OfType(FilterType(f)));
        assert [] + [d] == [d];
      }
    }
  }

  /** The status the maintenance button asks for: out of service back to free, anything else to service. */
  function ToggledMaintenance(status: DeviceStatus): (r: DeviceStatus)
    ensures r == Maintenance <==> status != Maintenance
    ensures r == Available <==> status == Maintenance
  {
    if status == Maintenance then Available else Maintenance
  }

  /**
   * Toggling twice restores a free or serviced device; an occupied device goes to service and
   * then comes back free, not occupied.
   */
  lemma ToggleTwice(status: DeviceStatus)
    ensures status != Occupied ==> ToggledMaintenance(ToggledMaintenance(status)) == status
    ensures status == Occupied ==> ToggledMaintenance(ToggledMaintenance(status)) == Available
  {
  }

  /** `handleSetMaintenance(id)`: the status update it requests, or none for an unknown id. */
  function SetMaintenanceRequest(devices: seq<DeviceWithSession>, id: string): (r: Option<(string, DeviceStatus)>)
    ensures r.None? <==> forall i :: 0 <= i < |devices| ==> devices[i].device.id != id
    ensures r.Some? ==> r.value.0 == id
    ensures r.Some? ==>
              exists i :: 0 <= i < |devices| && devices[i].device.id == id
                          && (forall j :: 0 <= j < i ==> devices[j].device.id != id)
                          && r.value.1 == ToggledMaintenance(devices[i].device.status)
  {
    match FindDevice(devices, id)
    case None => None
    case Some(d) => Some((id, ToggledMaintenance(d.device.status)))
  }

  /**
   * `handleStartClick(id)`: select the first listed device with the id for the start dialog; an
   * unknown id keeps the selection.
   */
  function StartClick(devices: seq<DeviceWithSession>, id: string, selected: Option<DeviceWithSession>): (r: Option<DeviceWithSession>)
    ensures r.Some? && r != selected ==> r.value in devices && r.value.device.id == id
    ensures (forall i :: 0 <= i < |devices| ==> devices[i].device.id != id) ==> r == selected
    ensures forall i :: (0 <= i < |devices| && devices[i].device.id == id
                          && forall j :: 0 <= j < i ==> devices[j].device.id != id) ==> r == Some(devices[i])
  {
    match FindDevice(devices, id)
    case None => selected
    case Some(d) => Some(d)
  }

  /** A start request: the device id and the customer name typed in the dialog. */
  datatype StartRequest = StartRequest(deviceId: string, customerName: Option<string>)

  /**
   * `handleStartConfirm(customerName)`: with a device selected, request its start and clear the
   * selection; with none, do nothing. (The hook's `startSession` takes the device id only.)
   */
  function StartConfirm(selected: Option<DeviceWithSession>, customerName: Option<string>): (r: (Option<StartRequest>, Option<DeviceWithSession>))
    ensures r.1.None?
    ensures r.0.Some? <==> selected.Some?
    ensures r.0.Some? ==> r.0.value == StartRequest(selected.value.device.id, customerName)
  {
    match selected
    case None => (None, None)
    case Some(d) => (Some(StartRequest(d.device.id, customerName)), None)
  }

  /** Clicking start on a listed device and confirming requests a start for that very device. */
  lemma ClickThenConfirm(devices: seq<DeviceWithSession>, i: int, selected: Option<DeviceWithSession>, name: Option<string>)
    requires 0 <= i < |devices|
    ensures var id := devices[i].device.id;
      StartConfirm(StartClick(devices, id, selected), name) == (Some(StartRequest(id, name)), None)
  {
    var id := devices[i].device.id;
    assert FindDevice(devices, id).Some?;
  }
}

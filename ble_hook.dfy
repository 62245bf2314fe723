/** The state kept by the `useBLE` hook: the device registry filled by scanning,
    the live value of every subscribed channel, the shower history list and the
    last completed shower, and the scan and loading flags. Every asynchronous
    BLE call is an outcome parameter; the hook's state updates are applied in
    the order the code issues them. */
module BleHook {
  import opened Wrappers
  import opened LittleEndian
  import opened Wire

  /** A device with this name stops the scan as soon as it is seen. */
  const TARGET_DEVICE_NAME := "KinetronSTFS"

  /** Notifications carrying one history record each. */
  const HISTORY_RECORD_CHANNEL := "e6221603-e12f-40f2-b0f5-aaa011c0aa8d"
  /** Notifications carrying the record of the shower just finished. */
  const COMPLETED_SHOWER_CHANNEL := "e622140a-e12f-40f2-b0f5-aaa011c0aa8d"

  /** Where a write asks the device to send its history. */
  const HISTORY_SERVICE := "e6221600-e12f-40f2-b0f5-aaa011c0aa8d"
  const HISTORY_DUMP_CHANNEL := "e6221601-e12f-40f2-b0f5-aaa011c0aa8d"
  /** `Buffer.from('1')`: the ASCII digit one. */
  const HISTORY_DUMP_PAYLOAD: seq<byte> := [0x31]

  /** Where the device's clock is set on connect. */
  const TIME_SERVICE := "e6221500-e12f-40f2-b0f5-aaa011c0aa8d"
  const TIME_CHANNEL := "e6221504-e12f-40f2-b0f5-aaa011c0aa8d"

  /** A device as a scan reports it, reduced to the fields the hook reads;
      `name` is None where the library gives null. */
  datatype Device = Device(id: string, name: Option<string>, rssi: int)

  /** PeripheralType (types.ts): a device with the two optional flags the hook
      adds; an absent flag reads as false. */
  datatype Peripheral = Peripheral(device: Device, connected: bool, connecting: bool)

  /** One call of the scan callback: an error, or a device (possibly null). */
  datatype ScanEvent = ScanFailed | Sighted(device: Option<Device>) {

    /** `device && device?.name !== null`: the sighting goes into the registry. */
    predicate Registers() {
      Sighted? && device.Some? && device.value.name.Some?
    }

    /** `device?.name === 'KinetronSTFS'`: the sighting stops the scan. */
    predicate IsTarget() {
      Sighted? && device.Some? && device.value.name == Some(TARGET_DEVICE_NAME)
    }
  }

  /** The characteristic a monitor callback receives: its uuid (the empty string
      stands for a missing one) and its value already converted from base64
      (None where the library gives null). */
  datatype Characteristic = Characteristic(uuid: string, payload: Option<seq<byte>>)

  /** A write-with-response the hook sends to the device. */
  datatype WriteRequest = WriteRequest(deviceId: string, service: string, channel: string, payload: seq<byte>)

  /** How far the awaited steps of a connect get: the link, then service
      discovery, then the clock write; `characteristicFound` says whether the
      discovered services expose any characteristic at all. */
  datatype ConnectOutcome =
    | LinkFails
    | DiscoveryFails
    | TimeWriteFails
    | Completes(characteristicFound: bool)

  /** An error thrown while a notification is handled: `Buffer.from` of a null
      value (a TypeError), or a read past the end of the payload (a RangeError). */
  datatype Fault = NullValue | PayloadTooShort

  /** What one notification does: nothing (the callback returns early), one of
      the three state updates, or an error thrown before any state changes. */
  datatype Effect =
    | Unchanged
    | AppendRecord(record: ShowerRecord)
    | SetCompleted(record: ShowerRecord)
    | SetValue(uuid: string, value: nat)
    | Thrown(fault: Fault)

  /** A decoded record or value fits the width it was read with. */
  predicate Fits(e: Effect) {
    match e
    case Unchanged => true
    case AppendRecord(r) => InRange(r)
    case SetCompleted(r) => InRange(r)
    case SetValue(_, v) => v < U32_LIMIT
    case Thrown(_) => true
  }

  /** `Map.prototype.set`: insert or overwrite one key. */
  function MapSet<K, V>(m: map<K, V>, k: K, v: V): map<K, V>
  {
    m[k := v]
  }

  /** An upsert adds at most the one key, maps it to the new value and leaves
      every other key as it was. */
  lemma MapSetUpserts<K, V>(m: map<K, V>, k: K, v: V)
    ensures MapSet(m, k, v).Keys == m.Keys + {k} && MapSet(m, k, v)[k] == v
    ensures forall j :: j in m && j != k ==> MapSet(m, k, v)[j] == m[j]
    ensures |MapSet(m, k, v)| == if k in m then |m| else |m| + 1
  {
  }

  /** The reader width for a channel that is neither the history nor the
      completed-shower channel: 16 bits exactly when the metadata table gives
      the channel 2 bytes, otherwise (a missing entry included) 32 bits. */
  function ValueWidth(channel: string, widths: map<string, nat>): nat
  {
    if channel in widths && widths[channel] == 2 then 2 else 4
  }

  /** The callback gets past its guard `!characteristic?.uuid`: the
      characteristic is not null and its uuid is not empty. */
  predicate PassesGuard(update: Option<Characteristic>) {
    update.Some? && update.value.uuid != ""
  }

  /** Past the guard with a non-null value, so `Buffer.from` converts it. */
  predicate Delivered(update: Option<Characteristic>) {
    PassesGuard(update) && update.value.payload.Some?
  }

  function Payload(update: Option<Characteristic>): seq<byte>
    requires Delivered(update)
  {
    update.value.payload.value
  }

  /** The number of payload bytes the handling of `channel` reads. */
  function NeededLength(channel: string, widths: map<string, nat>): nat
  {
    if channel == HISTORY_RECORD_CHANNEL || channel == COMPLETED_SHOWER_CHANNEL then RECORD_SIZE
    else ValueWidth(channel, widths)
  }

  /** The monitor callback registered on `channel`. A null characteristic or an
      empty uuid returns early. A null value makes `Buffer.from` throw. A history
      record is appended, a completed-shower record replaces the previous one,
      and any other channel's value is read at offset 0 with the width the
      metadata table gives and stored under the reported uuid. A payload shorter
      than the read throws a RangeError: for the two record channels inside the
      callback, for the value channels inside the state updater when it runs.
      Either way the error is not caught and no state changes. */
  function NotificationEffect(channel: string, update: Option<Characteristic>, widths: map<string, nat>): (e: Effect)
    ensures !PassesGuard(update) <==> e == Unchanged
    ensures e == Thrown(NullValue) <==> PassesGuard(update) && update.value.payload.None?
    ensures e == Thrown(PayloadTooShort) <==>
      Delivered(update) && |Payload(update)| < NeededLength(channel, widths)
    ensures e.AppendRecord? <==>
      Delivered(update) && channel == HISTORY_RECORD_CHANNEL && |Payload(update)| >= RECORD_SIZE
    ensures e.AppendRecord? ==> DecodeShowerRecordsArray(Payload(update)) == Success(e.record)
    ensures e.SetCompleted? <==>
      Delivered(update) && channel == COMPLETED_SHOWER_CHANNEL && |Payload(update)| >= RECORD_SIZE
    ensures e.SetCompleted? ==> DecodeShowerRecordsArray(Payload(update)) == Success(e.record)
    ensures e.SetValue? <==>
      && Delivered(update)
      && channel != HISTORY_RECORD_CHANNEL && channel != COMPLETED_SHOWER_CHANNEL
      && |Payload(update)| >= ValueWidth(channel, widths)
    ensures e.SetValue? ==>
      var w := ValueWidth(channel, widths);
      && e.uuid == update.value.uuid
      && e.value < Pow256(w)
      && ToLE(e.value, w) == Payload(update)[..w]
    ensures Fits(e)
  {
    Pow256Widths();
    if !PassesGuard(update) then Unchanged
    else if update.value.payload.None? then Thrown(NullValue)
    else
      var bytes := Payload(update);
      if channel == HISTORY_RECORD_CHANNEL then
        match DecodeShowerRecordsArray(bytes)
        case Success(r) => AppendRecord(r)
        case Failure(_) => Thrown(PayloadTooShort)
      else if channel == COMPLETED_SHOWER_CHANNEL then
        match DecodeShowerRecordsArray(bytes)
        case Success(r) => SetCompleted(r)
        case Failure(_) => Thrown(PayloadTooShort)
      else
        match ReadUIntLE(bytes, 0, ValueWidth(channel, widths))
        case Success(v) => SetValue(update.value.uuid, v)
        case Failure(_) => Thrown(PayloadTooShort)
  }

  /** The connect sequence gets to the clock write: the link and discovery
      succeed and the seconds fit in 32 bits. */
  predicate ClockWritten(outcome: ConnectOutcome, seconds: nat) {
    (outcome.TimeWriteFails? || outcome.Completes?) && seconds < U32_LIMIT
  }

  /** Nothing in the connect sequence throws. */
  predicate ConnectSucceeds(outcome: ConnectOutcome, seconds: nat) {
    outcome.Completes? && seconds < U32_LIMIT
  }

  /** The clock write the connect sequence sends for `item`, if it gets that far. */
  function ClockWrite(item: Peripheral, outcome: ConnectOutcome, seconds: nat): (w: Option<WriteRequest>)
    ensures w.Some? <==> ClockWritten(outcome, seconds)
    ensures w.Some? ==>
      && w.value.deviceId == item.device.id
      && w.value.service == TIME_SERVICE && w.value.channel == TIME_CHANNEL
      && DecodeU32(w.value.payload) == Success(seconds)
  {
    if ClockWritten(outcome, seconds)
    then Some(WriteRequest(item.device.id, TIME_SERVICE, TIME_CHANNEL, TimestampPayload(seconds).value))
    else None
  }

  class Hook {
    /** CHAR_DATA reduced to each channel's byte width. */
    const charData: map<string, nat>

    var scanActive: bool
    var peripherals: map<string, Peripheral>
    var peripheralsValues: map<string, nat>
    var showerRecords: seq<ShowerRecord>
    var completedShowerData: Option<ShowerRecord>
    var loading: bool
    var loadingShowerRecords: bool

    /** Every registry entry is stored under its own id, and every decoded
        number fits the width it was read with. */
    ghost predicate Valid()
      reads this
    {
      && (forall id :: id in peripherals ==> peripherals[id].device.id == id)
      && (forall i :: 0 <= i < |showerRecords| ==> InRange(showerRecords[i]))
      && (completedShowerData.Some? ==> InRange(completedShowerData.value))
      && (forall uuid :: uuid in peripheralsValues ==> peripheralsValues[uuid] < U32_LIMIT)
    }

    /** The hook's initial state. */
    constructor (charData: map<string, nat>)
      ensures Valid() && this.charData == charData
      ensures !scanActive && !loading && !loadingShowerRecords
      ensures peripherals == map[] && peripheralsValues == map[]
      ensures showerRecords == [] && completedShowerData == None
    {
      this.charData := charData;
      scanActive := false;
      peripherals := map[];
      peripheralsValues := map[];
      showerRecords := [];
      completedShowerData := None;
      loading := false;
      loadingShowerRecords := false;
    }

    /** scan: when the adapter reports `PoweredOff` the user is alerted and
        nothing changes; in every other adapter state (powered on, unknown,
        resetting, unauthorized, ...) scanning starts. */
    method Scan(adapterNotPoweredOff: bool)
      requires Valid()
      modifies this
      ensures Valid()
      ensures scanActive == (adapterNotPoweredOff || old(scanActive))
      ensures peripherals == old(peripherals) && peripheralsValues == old(peripheralsValues)
      ensures showerRecords == old(showerRecords) && completedShowerData == old(completedShowerData)
      ensures loading == old(loading) && loadingShowerRecords == old(loadingShowerRecords)
    {
      if adapterNotPoweredOff {
        scanActive := true;
      }
    }

    /** stopScan. */
    method StopScan()
      requires Valid()
      modifies this
      ensures Valid()
      ensures !scanActive
      ensures peripherals == old(peripherals) && peripheralsValues == old(peripheralsValues)
      ensures showerRecords == old(showerRecords) && completedShowerData == old(completedShowerData)
      ensures loading == old(loading) && loadingShowerRecords == old(loadingShowerRecords)
    {
      scanActive := false;
    }

    /** The scan callback: a named device is stored under its id as reported,
        which also drops any connection flags of an earlier entry; the target
        device stops the scan. */
    method OnScanEvent(event: ScanEvent)
      requires Valid()
      modifies this
      ensures Valid()
      ensures peripherals == if event.Registers()
        then MapSet(old(peripherals), event.device.value.id, Peripheral(event.device.value, false, false))
        else old(peripherals)
      ensures scanActive == if event.IsTarget() then false else old(scanActive)
      ensures peripheralsValues == old(peripheralsValues)
      ensures showerRecords == old(showerRecords) && completedShowerData == old(completedShowerData)
      ensures loading == old(loading) && loadingShowerRecords == old(loadingShowerRecords)
    {
      if event.ScanFailed? {
        return;
      }
      if event.Registers() {
        var d := event.device.value;
        peripherals := MapSet(peripherals, d.id, Peripheral(d, false, false));
      }
      if event.IsTarget() {
        StopScan();
      }
    }

    /** getShowersHistory: with no connected peripheral it returns at once and the
        loading flag stays set; otherwise it asks a connected device to send its
        history and clears the flag whether the write succeeds or not. */
    method GetShowersHistory() returns (request: Option<WriteRequest>)
      requires Valid()
      modifies this
      ensures Valid()
      ensures request.None? <==> forall id :: id in peripherals ==> !peripherals[id].connected
      ensures request.Some? ==>
        var id := request.value.deviceId;
        && id in peripherals && peripherals[id].connected
        && request.value == WriteRequest(id, HISTORY_SERVICE, HISTORY_DUMP_CHANNEL, HISTORY_DUMP_PAYLOAD)
      ensures loadingShowerRecords == request.None?
      ensures scanActive == old(scanActive) && peripherals == old(peripherals)
      ensures peripheralsValues == old(peripheralsValues)
      ensures showerRecords == old(showerRecords) && completedShowerData == old(completedShowerData)
      ensures loading == old(loading)
    {
      loadingShowerRecords := true;
      var devices := peripherals;
      if id :| id in devices && devices[id].connected {
        request := Some(WriteRequest(id, HISTORY_SERVICE, HISTORY_DUMP_CHANNEL, HISTORY_DUMP_PAYLOAD));
        loadingShowerRecords := false;
        // `id` is the witness that refutes "no peripheral is connected"
        assert peripherals[id].connected;
      } else {
        request := None;
        assert forall j :: j in devices ==> !devices[j].connected;
      }
    }

    /** The monitor callback of a subscription on `channel`; returns the error
        that escapes uncaught, if any. */
    method OnNotification(channel: string, update: Option<Characteristic>) returns (fault: Option<Fault>)
      requires Valid()
      modifies this
      ensures Valid()
      ensures var e := NotificationEffect(channel, update, charData);
        && fault == (if e.Thrown? then Some(e.fault) else None)
        && showerRecords == (if e.AppendRecord? then old(showerRecords) + [e.record] else old(showerRecords))
        && completedShowerData == (if e.SetCompleted? then Some(e.record) else old(completedShowerData))
        && peripheralsValues ==
             (if e.SetValue? then MapSet(old(peripheralsValues), e.uuid, e.value) else old(peripheralsValues))
      ensures scanActive == old(scanActive) && peripherals == old(peripherals)
      ensures loading == old(loading) && loadingShowerRecords == old(loadingShowerRecords)
    {
      var e := NotificationEffect(channel, update, charData);
      fault := if e.Thrown? then Some(e.fault) else None;
      Apply(e);
    }

    /** The state update a notification makes: `setShowerRecords` appends,
        `setCompletedShowerData` replaces, `setPeripheralsValues` upserts. */
    method Apply(e: Effect)
      requires Valid() && Fits(e)
      modifies this
      ensures Valid()
      ensures showerRecords == (if e.AppendRecord? then old(showerRecords) + [e.record] else old(showerRecords))
      ensures completedShowerData == (if e.SetCompleted? then Some(e.record) else old(completedShowerData))
      ensures peripheralsValues ==
        (if e.SetValue? then MapSet(old(peripheralsValues), e.uuid, e.value) else old(peripheralsValues))
      ensures scanActive == old(scanActive) && peripherals == old(peripherals)
      ensures loading == old(loading) && loadingShowerRecords == old(loadingShowerRecords)
    {
      match e
      case Unchanged =>
      case AppendRecord(r) =>
        showerRecords := showerRecords + [r];
      case SetCompleted(r) =>
        completedShowerData := Some(r);
      case SetValue(uuid, v) =>
        peripheralsValues := MapSet(peripheralsValues, uuid, v);
      case Thrown(_) =>
    }

    /** togglePeripheralConnection: a connected `item` is disconnected,
        any other is connected. Returns the clock write the connect sequence
        sends, if it gets that far. */
    method TogglePeripheralConnection(
      item: Peripheral, cancelSucceeds: bool, outcome: ConnectOutcome, seconds: nat, adapterNotPoweredOff: bool)
      returns (clockWrite: Option<WriteRequest>)
      requires Valid()
      modifies this
      ensures Valid()
      ensures item.connected ==> clockWrite == None && DisconnectedAs(item, cancelSucceeds, adapterNotPoweredOff)
      ensures !item.connected ==>
        && ConnectedAs(item, outcome, seconds, adapterNotPoweredOff)
        && clockWrite == ClockWrite(item, outcome, seconds)
      ensures loadingShowerRecords == old(loadingShowerRecords)
    {
      clockWrite := None;
      if item.connected {
        Disconnect(item, cancelSucceeds, adapterNotPoweredOff);
      } else {
        clockWrite := Connect(item, outcome, seconds, adapterNotPoweredOff);
      }
    }

    /** The state after disconnecting `item`: the session caches are cleared and
        scanning restarts whether the link cancellation succeeds or not; only a
        successful one marks the entry disconnected, only a failed one clears
        the loading flag. */
    twostate predicate DisconnectedAs(item: Peripheral, cancelSucceeds: bool, adapterNotPoweredOff: bool)
      reads this
    {
      && peripherals == (if cancelSucceeds
           then MapSet(old(peripherals), item.device.id, item.(connected := false))
           else old(peripherals))
      && peripheralsValues == map[] && completedShowerData == None && showerRecords == []
      && loading == (cancelSucceeds && old(loading))
      && scanActive == (adapterNotPoweredOff || old(scanActive))
    }

    /** The state after connecting `item`: the entry ends up connecting if the
        link fails and connected otherwise, even when a later step fails. Any
        failure clears only the live values and the loading flag and restarts
        scanning; the history list and the completed record are kept in every
        case. After a success the loading flag stays set until some
        characteristic has been seen. */
    twostate predicate ConnectedAs(item: Peripheral, outcome: ConnectOutcome, seconds: nat, adapterNotPoweredOff: bool)
      reads this
    {
      && peripherals == MapSet(old(peripherals), item.device.id,
           if outcome.LinkFails? then item.(connecting := true)
           else item.(connecting := false, connected := true))
      && showerRecords == old(showerRecords) && completedShowerData == old(completedShowerData)
      && (ConnectSucceeds(outcome, seconds) ==>
            && peripheralsValues == old(peripheralsValues)
            && loading == !outcome.characteristicFound
            && scanActive == old(scanActive))
      && (!ConnectSucceeds(outcome, seconds) ==>
            && peripheralsValues == map[]
            && !loading
            && scanActive == (adapterNotPoweredOff || old(scanActive)))
    }

    /** The disconnect branch of togglePeripheralConnection. */
    method Disconnect(item: Peripheral, cancelSucceeds: bool, adapterNotPoweredOff: bool)
      requires Valid()
      modifies this
      ensures Valid()
      ensures DisconnectedAs(item, cancelSucceeds, adapterNotPoweredOff)
      ensures loadingShowerRecords == old(loadingShowerRecords)
    {
      if cancelSucceeds {
        peripherals := MapSet(peripherals, item.device.id, item.(connected := false));
      } else {
        loading := false;
      }
      peripheralsValues := map[];
      completedShowerData := None;
      showerRecords := [];
      Scan(adapterNotPoweredOff);
    }

    /** The connect branch of togglePeripheralConnection. */
    method Connect(item: Peripheral, outcome: ConnectOutcome, seconds: nat, adapterNotPoweredOff: bool)
      returns (clockWrite: Option<WriteRequest>)
      requires Valid()
      modifies this
      ensures Valid()
      ensures ConnectedAs(item, outcome, seconds, adapterNotPoweredOff)
      ensures clockWrite == ClockWrite(item, outcome, seconds)
      ensures loadingShowerRecords == old(loadingShowerRecords)
    {
      var id := item.device.id;
      clockWrite := None;
      peripherals := MapSet(peripherals, id, item.(connecting := true));
      if outcome.LinkFails? {
        FailConnect(adapterNotPoweredOff);
        return;
      }
      peripherals := MapSet(peripherals, id, item.(connecting := false, connected := true));
      assert peripherals == MapSet(old(peripherals), id, item.(connecting := false, connected := true));
      loading := true;
      if outcome.DiscoveryFails? {
        FailConnect(adapterNotPoweredOff);
        return;
      }
      var payload := TimestampPayload(seconds);
      if payload.Failure? {
        FailConnect(adapterNotPoweredOff);
        return;
      }
      clockWrite := Some(WriteRequest(id, TIME_SERVICE, TIME_CHANNEL, payload.value));
      if outcome.TimeWriteFails? {
        FailConnect(adapterNotPoweredOff);
        return;
      }
      if outcome.characteristicFound {
        loading := false;
      }
    }

    /** The catch block of the connect branch: the loading flag and the live
        values are cleared and scanning restarts; nothing else changes. */
    method FailConnect(adapterNotPoweredOff: bool)
      requires Valid()
      modifies this
      ensures Valid()
      ensures !loading && peripheralsValues == map[]
      ensures scanActive == (adapterNotPoweredOff || old(scanActive))
      ensures peripherals == old(peripherals)
      ensures showerRecords == old(showerRecords) && completedShowerData == old(completedShowerData)
      ensures loadingShowerRecords == old(loadingShowerRecords)
    {
      loading := false;
      peripheralsValues := map[];
      Scan(adapterNotPoweredOff);
    }
  }

  /** Two history notifications delivered in the order a, b are listed in that
      order after everything already listed. */
  method HistoryInArrivalOrder(hook: Hook, a: seq<byte>, b: seq<byte>)
    requires hook.Valid() && |a| >= RECORD_SIZE && |b| >= RECORD_SIZE
    modifies hook
    ensures hook.Valid()
    ensures hook.showerRecords ==
      old(hook.showerRecords) + [DecodeShowerRecordsArray(a).value, DecodeShowerRecordsArray(b).value]
  {
    var first := hook.OnNotification(HISTORY_RECORD_CHANNEL, Some(Characteristic(HISTORY_RECORD_CHANNEL, Some(a))));
    var second := hook.OnNotification(HISTORY_RECORD_CHANNEL, Some(Characteristic(HISTORY_RECORD_CHANNEL, Some(b))));
  }

  /** Nothing refuses a second connect: two sighted devices can both be marked
      connected in the registry at once. */
  method SecondConnectNotRefused(charData: map<string, nat>, p: Device, q: Device, seconds: nat)
    returns (hook: Hook)
    requires p.id != q.id && p.name.Some? && q.name.Some?
    ensures fresh(hook) && hook.Valid()
    ensures p.id in hook.peripherals && hook.peripherals[p.id].connected
    ensures q.id in hook.peripherals && hook.peripherals[q.id].connected
  {
    hook := new Hook(charData);
    hook.OnScanEvent(Sighted(Some(p)));
    hook.OnScanEvent(Sighted(Some(q)));
    var first := hook.TogglePeripheralConnection(hook.peripherals[p.id], true, Completes(true), seconds, true);
    var second := hook.TogglePeripheralConnection(hook.peripherals[q.id], true, Completes(true), seconds, true);
  }
}

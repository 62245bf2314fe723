# KinetronBLE `useBLE` hook in Dafny

A model of the React Native hook `useBLE` (`src/useBLE.tsx`) that talks to the
Kinetron shower-monitoring unit over Bluetooth Low Energy, and proofs about it.

- `little_endian.dfy` (module `LittleEndian`): unsigned little-endian reads and
  writes on byte buffers as the `buffer` package does them, with its
  `RangeError` for a read past the end or a value that does not fit.
- `wire.dfy` (module `Wire`): the 18-byte shower record parsed by
  `decodeShowerRecordsArray` (u32 showerID at 0, u16 avgTemp at 4, u16 duration
  at 6, u32 waterConsumed at 8, u32 timestamp at 12, u16 initialTemp at 16), its
  encoding, and the 4-byte clock value built by `writeDateTimestamp`.
- `ble_hook.dfy` (module `BleHook`): the hook's state as class `Hook`, with the
  device registry `peripherals`, the live channel values `peripheralsValues`,
  the history list `showerRecords`, the last completed shower
  `completedShowerData`, and the flags `scanActive`, `loading` and
  `loadingShowerRecords`. Its methods are the scan callback, `scan`,
  `stopScan`, `getShowersHistory`, the notification (monitor) callback and
  `togglePeripheralConnection`. Every awaited BLE call is an outcome parameter
  (whether the link, the discovery and the clock write succeed; whether the
  adapter reports anything but `PoweredOff` when scanning restarts), and the writes the hook sends
  are returned as `WriteRequest` values.
- `wrappers.dfy`: `Option` (JavaScript `null`) and `Result` (a thrown error).

The channel metadata table `CHAR_DATA` is the constructor parameter `charData`,
reduced to each channel's byte width.

Behaviour of the code worth knowing before reading the model:
- A scan sighting replaces the registry entry with the device as reported, so
  it also drops the entry's `connected`/`connecting` flags. Any name other than
  null is registered, the empty name included.
- `scan` skips scanning only when the adapter state is `PoweredOff`; every other
  state starts a scan.
- A failed connect does not return the entry to a disconnected state: it stays
  `connecting` when the link fails and `connected` when a later step fails. It
  clears the live values but not the history list or the completed record.
- A failed disconnect clears the session caches but leaves the entry
  `connected`.
- Nothing refuses a second connect while one peripheral is connected
  (`SecondConnectNotRefused`).
- The history list is not cleared on connect, only on disconnect.
- The notification callback catches nothing: a null value, or a payload
  shorter than the bytes read, throws, and no state changes
  (`OnNotification` returns the escaping error as a `Fault`).
- The completed-shower bytes
  `01 00 00 00 4E 09 3C 00 E8 03 00 00 60 72 6A 66 64 00` decode to shower 1,
  average temperature 2382, duration 60, water 1000, timestamp 1718252128 and
  initial temperature 100 (`CompletedShowerSample`).

## Model

| member | source | states |
|---|---|---|
| `LittleEndian.ReadUIntLE` | src/useBLE.tsx:166-175 | A read of `width` bytes at `offset` succeeds exactly when they lie inside the buffer; the value fits in `width` bytes and its little-endian encoding is exactly those bytes. |
| `LittleEndian.WriteUIntLE` | src/useBLE.tsx:220-221 | A write succeeds exactly when the value fits in `width` bytes; it produces `width` bytes that read back as the value. |
| `LittleEndian.FromLEBound` | src/useBLE.tsx:238-269 | The value read from n bytes is below 256^n. |
| `LittleEndian.FromLEToLE` | src/useBLE.tsx:219-221 | Writing a value that fits in n bytes and reading it back gives the value. |
| `LittleEndian.ToLEFromLE` | src/useBLE.tsx:238-269 | Reading n bytes and writing the value back gives the same bytes. |
| `Wire.Slice` | src/useBLE.tsx:238 | `Uint8Array.slice` clamped to the length: inside the buffer it is the sub-sequence, past the end it is shorter than asked. |
| `Wire.Field` | src/useBLE.tsx:238-239 | One field read from a slice succeeds exactly when the field lies inside the buffer, and then gives the little-endian value of those bytes. |
| `Wire.DecodeShowerRecordsArray` | src/useBLE.tsx:232-273 | Decoding succeeds exactly when the buffer has at least 18 bytes; each field is in range and is the little-endian value of its bytes at the fixed offsets 0, 4, 6, 8, 12, 16. |
| `Wire.EncodeRecord` | src/useBLE.tsx:232-273 | The device-side encoding of a record is 18 bytes long. |
| `Wire.EncodeRecordLayout` | src/useBLE.tsx:235-270 | The encoding places each field's bytes at its offset in the layout. |
| `Wire.RecordRoundTrip` | src/useBLE.tsx:232-273 | Encoding six in-range fields and decoding gives the same record. |
| `Wire.DecodeEncode` | src/useBLE.tsx:232-273 | For any buffer of at least 18 bytes, re-encoding the decoded record gives back its first 18 bytes. |
| `Wire.DecodeIgnoresTrailingBytes` | src/useBLE.tsx:232-273 | Bytes after the first 18 do not affect the decoded record. |
| `Wire.TimestampPayload` | src/useBLE.tsx:217-221 | The clock value is encoded exactly when the seconds fit in 32 bits, as 4 bytes that the u32 reader turns back into the seconds. |
| `Wire.DecodeU32` | src/useBLE.tsx:175 | The 32-bit reader succeeds exactly on buffers of at least 4 bytes and gives a value below 2^32 whose little-endian encoding is the first 4 bytes. |
| `Wire.CompletedShowerSample` | src/useBLE.tsx:155-158 | A concrete completed-shower payload decodes to shower 1, 2382, 60 s, 1000, 1718252128, 100. |
| `BleHook.MapSetUpserts` | src/useBLE.tsx:48 | `Map.set` adds at most the one key, maps it to the new value and leaves every other key unchanged; the map grows by one exactly when the key was new. |
| `BleHook.NotificationEffect` | src/useBLE.tsx:143-179 | A null characteristic or an empty uuid changes nothing; past that guard a null value throws a TypeError, and a payload shorter than the read (18 bytes on the two record channels, the table's width otherwise) throws a RangeError; otherwise the history channel appends and the completed channel replaces with the decoded record, and any other channel stores, under the reported uuid, the u16 at offset 0 when the table says 2 bytes and the u32 otherwise. |
| `BleHook.ClockWrite` | src/useBLE.tsx:132 | The clock write is sent exactly when link and discovery succeed and the seconds fit in 32 bits, to the item's id on the time channel, with a payload that reads back as the seconds. |
| `BleHook.Hook.constructor` | src/useBLE.tsx:16-28 | The initial state: empty registry, values and history, no completed record, all flags false. |
| `BleHook.Hook.Scan` | src/useBLE.tsx:36-40 | When the adapter reports `PoweredOff` nothing changes; in any other state `scanActive` becomes true; nothing else changes. |
| `BleHook.Hook.StopScan` | src/useBLE.tsx:61-64 | `scanActive` becomes false; nothing else changes. |
| `BleHook.Hook.OnScanEvent` | src/useBLE.tsx:41-57 | A sighting with a non-null name upserts the device under its id with both flags false; a sighting named KinetronSTFS leaves `scanActive` false; an error changes nothing; the class invariant is kept. |
| `BleHook.Hook.GetShowersHistory` | src/useBLE.tsx:66-86 | With no connected peripheral no write is sent and `loadingShowerRecords` stays true; otherwise the dump trigger `'1'` is written to a connected device and the flag ends false; nothing else changes. |
| `BleHook.Hook.OnNotification` | src/useBLE.tsx:143-179 | Applies `NotificationEffect`: a history record is appended at the end with earlier entries unchanged, a completed record replaces the slot, a channel value is upserted under its uuid; everything else is unchanged and the invariant is kept; the thrown error, if any, is returned and leaves the state unchanged. |
| `BleHook.Hook.Apply` | src/useBLE.tsx:149-178 | The three state setters of the callback: an appended record goes at the end with earlier entries unchanged, a completed record replaces the slot, a value is upserted under its uuid; the other fields are unchanged and the invariant is kept for values that fit their width. |
| `BleHook.Hook.TogglePeripheralConnection` | src/useBLE.tsx:89-195 | A connected item is disconnected, any other connected, with the states `DisconnectedAs` and `ConnectedAs` describe; `loadingShowerRecords` is untouched. |
| `BleHook.Hook.Disconnect` | src/useBLE.tsx:90-112 | On both paths the live values are empty, the completed record null, the history empty and scanning restarted; only a successful cancellation marks the entry disconnected, only a failed one clears `loading`. |
| `BleHook.Hook.Connect` | src/useBLE.tsx:113-193 | The entry is marked connecting, then connected once the link is up; on success the caches are kept and `loading` ends false once a characteristic is found; on any failure only the live values and `loading` are cleared and scanning restarts, the entry's flags, history and completed record are left as they were. |
| `BleHook.Hook.FailConnect` | src/useBLE.tsx:184-188 | The connect catch block clears `loading` and the live values and restarts scanning, and changes nothing else. |
| `BleHook.HistoryInArrivalOrder` | src/useBLE.tsx:147-152 | Two history notifications delivered in the order a, b are appended in that order. |
| `BleHook.SecondConnectNotRefused` | src/useBLE.tsx:113-126 | Two sighted devices can both be marked connected at once. |

## Left out

- Base64 conversion of notification values and writes: the model takes and produces the bytes.
- The clock reading (`Date`, `Math.round` of milliseconds): the seconds are a parameter.
- The `BleManager` I/O (`state`, `startDeviceScan`, `stopDeviceScan`, `connectToDevice`, `discoverAllServicesAndCharacteristics`, `services`, `characteristicsForDevice`, `monitor`, `cancelTransaction`, `cancelDeviceConnection`, `writeCharacteristicWithResponseForDevice`): each is an outcome parameter or a returned `WriteRequest`; `cancelTransaction` has no effect on the modelled state.
- The unawaited per-service and per-characteristic callbacks of the connect sequence and their interleaving with notifications: `Connect` gives the state once they have all run (the `loading` flag is cleared when any characteristic exists), and which channels get monitored is not tracked.
- The contents of `CHAR_DATA` (names, units): only the byte width is kept, as an arbitrary map.
- `BleHook.Hook.GetShowersHistory`: the registry is a map without insertion order, so it writes to some connected device rather than the first in insertion order.
- `BleHook.NotificationEffect`: a thrown error is a returned `Fault` with the state unchanged; its propagation (an unhandled error in the BLE callback, or, for a value channel, a state updater that throws when React runs it) is not modelled.
- `connection.id` after `connectToDevice` is taken to be always present.
- A null `item` passed to `togglePeripheralConnection`, and errors thrown by the logging in catch blocks, are not modelled.
- Permission requests on mount (`handleAndroidPermissions`, `requestLocationPermission`) and the UI in `src/PLXexample.tsx` (floating-point unit scaling, date formatting) are not part of this model.

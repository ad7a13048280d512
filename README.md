# usb_addon in Dafny

A model of the Node.js USB printer addon `usb_addon`. It has two layers.

The native class `UsbDevice` does three things:

- It opens the first enumerated USB printer interface whose hardware id holds
  `VID_%04X` and `PID_%04X`, and writes buffers to it with one synchronous
  `WriteFile`.
- It keeps a connected flag and a device handle.
- It starts and stops a notification thread. For each device-change message
  the thread computes a boolean ("attached" or not) and passes it to the
  JavaScript callback's `BlockingCall`.

The JavaScript class `USB` (`index.js`) wraps one native device. It refuses to
connect twice and refuses to start monitoring twice. It answers `false` to
`disconnect` or `stopHotplugMonitor` when there is nothing to stop. It mirrors
the native state in `_isConnected`, `_isMonitoring` and `_hotplugCallback`.

Files:

- `wrappers.dfy`: `Option`.
- `js.dfy`: the JavaScript values, exceptions and call outcomes that cross the
  boundary. An outcome is returned, thrown, or `ProcessAborted` for
  `std::terminate`.
- `device_path.dfy` (module `DevicePath`): `GetDevicePath`. It covers upper-case
  hex formatting and its inverse, `strstr` over a NUL-terminated buffer, and
  the first-match walk over the enumeration. The walk is a method with a loop,
  proved against the function `FirstSelectedFrom`.
- `usb_device.dfy` (module `UsbAddon`): the class `UsbDevice`, its id
  conversions and the `WindowProc` classifier.
- `usb_wrapper.dfy` (module `UsbWrapper`): the class `Usb`, built over a real
  `UsbDevice`. It keeps a ghost log of every native call it makes.

Operating-system calls are parameters of the methods that make them:

- `enumeration`: the interface enumeration, in index order. `None` means the
  device-information set could not be obtained. For each interface it gives
  `DetailFailed`, `HardwareIdFailed(path)` or `Read(path, hardwareId)`.
- `createResult`: the handle `CreateFileA` returns.
- `write`: what `WriteFile` reports.
- `joinFailure`: the message of the exception `std::thread::join` throws, if it
  throws.

Class invariants:

- `UsbDevice.Valid()`: a disconnected device holds `InvalidHandle`, and
  `sendProgress` stays `0.0`.
- `Usb.Valid()`: `_isConnected` equals the native connected flag.
  `_isMonitoring` equals "the native thread is joinable", which equals "the
  call log has a start with no successful stop after it". Every start in the
  log was issued while no earlier start was outstanding. The callback is held
  exactly while monitoring.

Where this code differs from what a session API usually does, the model follows the code:

- `connect` does not close an already-open handle or reset progress.
- `sendData` accepts an empty buffer.
- There is no response transaction engine and no framing policy.
- Hotplug events carry only a boolean, not a vendor/product record.

## Model

| member | source | states |
|---|---|---|
| `DevicePath.HexPadded` | src/usb_addon.cc:114-117 | `%04X` of a 16-bit id is exactly four characters, each an upper-case hex digit |
| `DevicePath.ParseHex` | src/usb_addon.cc:114-117 | reading `width` hex digits gives a value below 16^width, so every 4-digit pattern names a 16-bit id |
| `DevicePath.HexRoundTrip` | src/usb_addon.cc:114-117 | parsing the formatted digits gives back the id |
| `DevicePath.ParseRoundTrip` | src/usb_addon.cc:114-117 | formatting the parsed value gives back the digits, so the format is a bijection onto 4-digit upper-case strings |
| `DevicePath.PatternFormat` | src/usb_addon.cc:114-117 | `VID_%04X`/`PID_%04X` is the 4-char prefix followed by four upper-case hex digits whose value is the id |
| `DevicePath.PatternsFitBuffers` | src/usb_addon.cc:114-117 | both patterns are 8 characters, so with their NUL they fit the `char[10]` buffers |
| `DevicePath.PatternInjective` | src/usb_addon.cc:116-117 | different ids give different patterns |
| `DevicePath.CString` | src/usb_addon.cc:96-120 | `strstr` sees the hardware-id buffer only up to its first NUL: a NUL-free prefix that ends at the first NUL or at the buffer's end |
| `DevicePath.Contains` | src/usb_addon.cc:120 | `strstr` succeeds iff the needle occurs at some position of the haystack, character for character (case-sensitive) |
| `DevicePath.FirstSelectedFrom` | src/usb_addon.cc:76-126 | the selection is the least index at which both lookups succeeded and either the ids are (0,0) or both patterns occur; `None` iff there is no such index |
| `DevicePath.GetDevicePath` | src/usb_addon.cc:65-130 | the loop returns the path of the first selected interface, or `""` when enumeration fails or nothing is selected |
| `DevicePath.FailedLookupsNeverSelected` | src/usb_addon.cc:86-101 | an interface whose detail or hardware-id lookup failed is never chosen |
| `DevicePath.WildcardSelectsFirstReadable` | src/usb_addon.cc:107-111 | for (0,0) the choice is exactly the first interface whose lookups both succeeded |
| `DevicePath.ZeroVendorIsNotWildcard` | src/usb_addon.cc:107-120 | only (0,0) is a wildcard: (0,pid) with pid != 0 chooses only hardware ids containing `VID_0000` |
| `DevicePath.SelectionIgnoresLaterEntries` | src/usb_addon.cc:108-125 | the walk returns at the first match: interfaces enumerated after it never change the choice |
| `UsbAddon.ToUint32` | src/usb_addon.cc:139 | `Uint32Value` of an integral number is that number modulo 2^32 |
| `UsbAddon.ToWord` | src/usb_addon.cc:139-140 | the `(WORD)` cast keeps the value modulo 2^16 |
| `UsbAddon.IdArgumentModulo16Bits` | src/usb_addon.cc:139-140 | an id argument reaches `GetDevicePath` as the argument modulo 2^16, negatives included |
| `UsbAddon.WindowProc` | src/usb_addon.cc:219-230 | the value `WindowProc` computes and passes to `BlockingCall`: there is one iff the message is `WM_DEVICECHANGE` and a callback is registered, and it is true iff `wParam == DBT_DEVICEARRIVAL` |
| `UsbAddon.RemovalReportedAsDetached` | src/usb_addon.cc:223 | a `DBT_DEVICEREMOVECOMPLETE` is classified as `false` |
| `UsbAddon.UsbDevice.constructor` | src/usb_addon.cc:29-36 | starts disconnected with an invalid handle, progress 0, no thread, no notification handle, no callback; establishes `Valid()` |
| `UsbAddon.UsbDevice.Connect` | src/usb_addon.cc:132-173 | fewer than two arguments throw a TypeError; ids are taken modulo 2^16; no path found means false with no field changed and `CreateFileA` not called; otherwise `CreateFileA` is given exactly the path `GetDevicePath` selects for the truncated ids (`openedPath`); a failed open means false with the handle INVALID and `isConnected` as before; otherwise true, connected, with the opened handle, because `InitializeDevice` accepts every valid handle and its failure branch (lines 165-169) is dead; keeps `Valid()` |
| `UsbAddon.UsbDevice.Disconnect` | src/usb_addon.cc:175-187 | always true; afterwards disconnected with an INVALID handle; on a disconnected device nothing changes |
| `UsbAddon.UsbDevice.SendData` | src/usb_addon.cc:189-212 | a disconnected device throws before the buffer check and issues no write; a missing or non-buffer argument throws a TypeError and issues no write; otherwise it writes exactly the buffer to the device handle and returns the reported bytes-written count, or throws on write failure |
| `UsbAddon.UsbDevice.GetSendProgress` | src/usb_addon.cc:214-217 | always 0, because nothing assigns `sendProgress` after construction |
| `UsbAddon.UsbDevice.StartHotplugMonitor` | src/usb_addon.cc:267-288 | a non-function argument throws a TypeError and changes nothing; otherwise it stores the callback and clears the stop flag; over a joinable thread the process aborts (`std::terminate`); otherwise true with a joinable thread |
| `UsbAddon.UsbDevice.StopHotplugMonitor` | src/usb_addon.cc:290-317 | with no joinable thread: true, nothing changed; otherwise the stop flag is set; a throwing join rethrows as "Error in StopHotplugMonitor: ..." with the thread still joinable; else true, thread joined, notification handle null |
| `UsbAddon.UsbDevice.Destroy` | src/usb_addon.cc:38-52 | afterwards disconnected, handle INVALID, thread joined (stop flag set if a thread was running) |
| `UsbAddon.FailedReconnectKeepsConnectedFlag` | src/usb_addon.cc:145-163 | connecting a connected device again with a failing open leaves `isConnected` true and the handle INVALID |
| `UsbWrapper.Usb.constructor` | index.js:4-9 | a fresh native device; not connected, not monitoring, callback null, no native calls made |
| `UsbWrapper.Usb.Connect` | index.js:11-19 | when connected, throws "Device already connected" with no native call; otherwise one native connect, logged with the path it opened (none when no path was found), `_isConnected` becomes its result, which is returned and is true iff a path was found and opened; the native handle becomes the one `CreateFileA` returned when a path was found, and is untouched otherwise |
| `UsbWrapper.Usb.Disconnect` | index.js:21-29 | when not connected, false with nothing changed (wrapper, native device and log); otherwise one native disconnect, `_isConnected = !result`, so true and disconnected |
| `UsbWrapper.Usb.SendData` | index.js:31-41 | "Device not connected" first, then the TypeError for a non-Buffer/Uint8Array, both with no native call; otherwise the data is forwarded unchanged and the native result returned |
| `UsbWrapper.Usb.GetSendProgress` | index.js:43-45 | forwards the native value (0) with one native call, changing no wrapper field |
| `UsbWrapper.Usb.StartHotplugMonitor` | index.js:47-59 | when monitoring, throws before the callback type check; a non-function throws a TypeError; both change nothing and make no native call; otherwise it stores the callback, sets `_isMonitoring`, and the native start returns true (never aborts) with the native stop flag cleared |
| `UsbWrapper.Usb.StopHotplugMonitor` | index.js:61-70 | when not monitoring, false with nothing changed; a throwing native stop propagates with `_isMonitoring`, the callback and the native notification handle kept and the native stop flag set; otherwise `_isMonitoring = !result` (false), the callback is cleared to null, the native stop flag is set and the notification handle is null |
| `UsbWrapper.BracketedAppend` | index.js:47-69 | logging a call keeps every start bracketed when a start is only logged while none is outstanding, and updates whether a start is outstanding |
| `UsbWrapper.StartedUntilSuccessfulStop` | index.js:61-69 | once a native start is outstanding it stays outstanding until a stop that returned true |
| `UsbWrapper.NoSecondStartWithoutStop` | index.js:47-69 | between any two native starts in the log there is a native stop that returned true |

## Left out

- The response transaction engine, framing policies, retry loop and send queue are left out. `SendDataWithResponse` is only declared and `ProcessSendQueue` is empty, so there is nothing to model.
- SetupDi enumeration, `CreateFileA`, `WriteFile`, `CloseHandle` and the registry lookup are foreign OS calls. They appear only as oracle parameters. `CloseHandle` has no modelled effect beyond the handle becoming INVALID.
- `NotificationThreadProc` and its hidden window, message loop and `RegisterDeviceNotification` are left out. So are the `ThreadSafeFunction` `BlockingCall` and the unsynchronised `shouldStopNotification` flag. These are threads and OS callbacks. The thread's own clearing of `deviceNotificationHandle` is therefore not modelled.
- UsbAddon.WindowProc: the callback receives the value through the address of a local. The queue has no size limit (max size 0), so `BlockingCall` returns before the JavaScript thread reads the value, and the boolean the callback sees is not guaranteed. The model states only the value computed.
- UsbAddon.UsbDevice.StopHotplugMonitor: a join either completes or throws. The model does not capture that `GetMessage` can keep the thread blocked, and so the join, until a message arrives.
- UsbAddon.UsbDevice.Destroy: the join always completes. A throwing join inside the destructor, which would terminate the process, is not modelled.
- UsbAddon.UsbDevice.StartHotplugMonitor: when the process aborts, the contract does not describe the state. Only the stored callback and the outcome are stated.
- UsbAddon.UsbDevice.Connect: arguments are integral numbers. Non-numeric, fractional, NaN or infinite arguments to `Uint32Value` are not modelled.
- UsbAddon.UsbDevice.SendData: the `size_t` to `DWORD` truncation of the buffer length is not modelled. It only matters for buffers of 4 GiB or more.
- `napi_is_buffer` accepts every `Uint8Array`, so the native buffer check and the wrapper's `instanceof` check agree on the values modelled. Other typed arrays and `DataView` are not distinguished.
- N-API class registration, module initialisation and all console logging are left out.
- `src/usb_addon.h` contributes only the list of fields.
- `test.js`, `test1.js` and `test-hwj.js` are hardware demo scripts built on timers and signals. They are not part of this model.

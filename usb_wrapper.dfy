/**
 * The JavaScript class `USB`: a guard layer over one native `UsbDevice`.
 * It mirrors the connection and monitoring state in `_isConnected`,
 * `_isMonitoring` and `_hotplugCallback`, refuses to connect or start
 * monitoring twice, and answers `false` to a disconnect or stop when idle.
 *
 * A ghost log records every call the wrapper makes on the native device,
 * so that "no native call" and "no second native start" can be stated.
 */
module UsbWrapper {
  import opened Wrappers
  import opened Js
  import opened DevicePath
  import opened UsbAddon

  /**
   * One call on the native device, with the path a connect opened (if it
   * reached `CreateFileA`) and whether a stop succeeded.
   */
  datatype NativeCall =
    | ConnectCall(vendorId: int, productId: int, openedPath: Option<string>)
    | DisconnectCall
    | SendDataCall(data: seq<byte>)
    | GetSendProgressCall
    | StartCall
    | StopCall(succeeded: bool)

  /** Whether, after these calls, a native start is outstanding (no successful stop since). */
  function MonitorStarted(calls: seq<NativeCall>): bool {
    if calls == [] then false
    else
      match calls[|calls| - 1]
      case StartCall => true
      case StopCall(succeeded) => !succeeded && MonitorStarted(calls[..|calls| - 1])
      case _ => MonitorStarted(calls[..|calls| - 1])
  }

  /** Every native start is issued while no earlier start is outstanding. */
  ghost predicate StartsBracketed(calls: seq<NativeCall>) {
    forall k :: 0 <= k < |calls| && calls[k].StartCall? ==> !MonitorStarted(calls[..k])
  }

  /** Appending a call keeps the log bracketed when a start is only appended while none is outstanding. */
  lemma BracketedAppend(calls: seq<NativeCall>, call: NativeCall)
    requires StartsBracketed(calls)
    requires call.StartCall? ==> !MonitorStarted(calls)
    ensures StartsBracketed(calls + [call])
    ensures MonitorStarted(calls + [call]) ==
      match call
      case StartCall => true
      case StopCall(succeeded) => !succeeded && MonitorStarted(calls)
      case _ => MonitorStarted(calls)
  {
    var all := calls + [call];
    assert all[..|calls|] == calls;
    forall k | 0 <= k < |calls|
      ensures all[..k] == calls[..k]
    {
    }
  }

  /** Once started, a monitor stays started until a stop succeeds. */
  lemma {:induction false} StartedUntilSuccessfulStop(calls: seq<NativeCall>, started: nat, upTo: nat)
    requires started <= upTo <= |calls|
    requires MonitorStarted(calls[..started])
    requires forall k :: started <= k < upTo ==> calls[k] != StopCall(true)
    ensures MonitorStarted(calls[..upTo])
    decreases upTo - started
  {
    if started < upTo {
      var prefix := calls[..started + 1];
      assert prefix[..started] == calls[..started];
      assert MonitorStarted(prefix);
      StartedUntilSuccessfulStop(calls, started + 1, upTo);
    }
  }

  /**
   * Between any two native starts there is a native stop that returned
   * true: the native start is never invoked twice without one.
   */
  lemma NoSecondStartWithoutStop(calls: seq<NativeCall>, i: nat, j: nat)
    requires StartsBracketed(calls)
    requires i < j < |calls| && calls[i] == StartCall && calls[j] == StartCall
    ensures exists k :: i < k < j && calls[k] == StopCall(true)
  {
    if forall k :: i < k < j ==> calls[k] != StopCall(true) {
      var prefix := calls[..i + 1];
      assert prefix[..i] == calls[..i];
      assert MonitorStarted(prefix);
      StartedUntilSuccessfulStop(calls, i + 1, j);
    }
  }

  /** `data instanceof Buffer || data instanceof Uint8Array`. */
  predicate IsBufferOrUint8Array(data: Value) {
    data.Buffer? || data.Uint8Array?
  }

  class Usb {
    const device: UsbDevice
    /** `_isConnected`. */
    var isConnected: bool
    /** `_isMonitoring`. */
    var isMonitoring: bool
    /** `_hotplugCallback`: the registered function, or `null`. */
    var hotplugCallback: Value
    /** Every call made on `device`, oldest first. */
    ghost var calls: seq<NativeCall>

    /**
     * The wrapper's flags agree with the native state: connected with the
     * native connected flag, monitoring with a joinable native thread and
     * with an outstanding native start; the callback is held exactly while
     * monitoring and is the one the native side wraps.
     */
    ghost predicate Valid()
      reads this, device
    {
      && device.Valid()
      && isConnected == device.isConnected
      && isMonitoring == device.notificationThreadJoinable
      && isMonitoring == MonitorStarted(calls)
      && StartsBracketed(calls)
      && (isMonitoring ==> hotplugCallback.Function? && device.tsfn == Some(hotplugCallback.id))
      && (!isMonitoring ==> hotplugCallback == Null)
    }

    constructor ()
      ensures Valid() && fresh(device)
      ensures !isConnected && !isMonitoring && hotplugCallback == Null && calls == []
    {
      device := new UsbDevice();
      isConnected := false;
      isMonitoring := false;
      hotplugCallback := Null;
      calls := [];
    }

    /** `connect(vendorId, productId)`. */
    method Connect(vendorId: int, productId: int, enumeration: Option<seq<Lookup>>, createResult: Handle)
      returns (r: Outcome<bool>)
      requires Valid()
      modifies this`isConnected, this`calls, device`deviceHandle, device`isConnected
      ensures Valid()
      ensures old(isConnected) ==>
        && r == Threw(Error("Device already connected"))
        && isConnected && calls == old(calls)
        && device.deviceHandle == old(device.deviceHandle)
      ensures !old(isConnected) ==>
        var path := SelectedPath(vendorId % 0x1_0000, productId % 0x1_0000, enumeration);
        && calls == old(calls) + [ConnectCall(vendorId, productId, if path == "" then None else Some(path))]
        && r.Returned? && isConnected == r.value
        && device.deviceHandle == (if path == "" then old(device.deviceHandle) else createResult)
        && (r.value <==>
              SelectedPath(vendorId % 0x1_0000, productId % 0x1_0000, enumeration) != "" &&
              createResult != InvalidHandle)
    {
      if isConnected {
        return Threw(Error("Device already connected"));
      }
      var args := [vendorId, productId];
      assert args[0] == vendorId && args[1] == productId;
      var result, openedPath := device.Connect(args, enumeration, createResult);
      BracketedAppend(calls, ConnectCall(vendorId, productId, openedPath));
      calls := calls + [ConnectCall(vendorId, productId, openedPath)];
      isConnected := result.value;
      return result;
    }

    /** `disconnect()`. */
    method Disconnect() returns (r: bool)
      requires Valid()
      modifies this`isConnected, this`calls, device`deviceHandle, device`isConnected
      ensures Valid()
      ensures !old(isConnected) ==>
        && !r && unchanged(this, device)
      ensures old(isConnected) ==>
        && r && !isConnected && device.deviceHandle == InvalidHandle
        && calls == old(calls) + [DisconnectCall]
    {
      if !isConnected {
        return false;
      }
      var result := device.Disconnect();
      BracketedAppend(calls, DisconnectCall);
      calls := calls + [DisconnectCall];
      isConnected := !result;
      return result;
    }

    /** `sendData(data)`; `write` is what the native write reports. */
    method SendData(data: Value, write: WriteResult) returns (r: Outcome<Dword>, call: Option<WriteCall>)
      requires Valid()
      modifies this`calls
      ensures Valid()
      ensures !isConnected ==>
        r == Threw(Error("Device not connected")) && call == None && calls == old(calls)
      ensures isConnected && !IsBufferOrUint8Array(data) ==>
        r == Threw(TypeError("Data must be Buffer or Uint8Array")) && call == None && calls == old(calls)
      ensures isConnected && IsBufferOrUint8Array(data) ==>
        && calls == old(calls) + [SendDataCall(data.bytes)]
        && call == Some(WriteCall(device.deviceHandle, data.bytes))
        && (write.Written? ==> r == Returned(write.bytesWritten))
        && (write.WriteFailed? ==> r == Threw(Error("Failed to write data to device")))
    {
      if !isConnected {
        return Threw(Error("Device not connected")), None;
      }
      if !IsBufferOrUint8Array(data) {
        return Threw(TypeError("Data must be Buffer or Uint8Array")), None;
      }
      r, call := device.SendData([data], write);
      BracketedAppend(calls, SendDataCall(data.bytes));
      calls := calls + [SendDataCall(data.bytes)];
    }

    /** `getSendProgress()`: forwards the native value. */
    method GetSendProgress() returns (progress: real)
      requires Valid()
      modifies this`calls
      ensures Valid()
      ensures progress == 0.0
      ensures calls == old(calls) + [GetSendProgressCall]
    {
      progress := device.GetSendProgress();
      BracketedAppend(calls, GetSendProgressCall);
      calls := calls + [GetSendProgressCall];
    }

    /** `startHotplugMonitor(callback)`. */
    method StartHotplugMonitor(callback: Value) returns (r: Outcome<bool>)
      requires Valid()
      modifies this`isMonitoring, this`hotplugCallback, this`calls
      modifies device`tsfn, device`shouldStopNotification, device`notificationThreadJoinable
      ensures Valid()
      ensures old(isMonitoring) ==>
        && r == Threw(Error("Hotplug monitoring already started"))
        && unchanged(this, device)
      ensures !old(isMonitoring) && !callback.Function? ==>
        && r == Threw(TypeError("Callback must be a function"))
        && unchanged(this, device)
      ensures !old(isMonitoring) && callback.Function? ==>
        && r == Returned(true)
        && isMonitoring && hotplugCallback == callback
        && !device.shouldStopNotification
        && calls == old(calls) + [StartCall]
    {
      if isMonitoring {
        return Threw(Error("Hotplug monitoring already started"));
      }
      if !callback.Function? {
        return Threw(TypeError("Callback must be a function"));
      }
      hotplugCallback := callback;
      isMonitoring := true;
      assert !device.notificationThreadJoinable && !MonitorStarted(calls);
      var args := [callback];
      assert |args| >= 1 && args[0] == callback;
      r := device.StartHotplugMonitor(args);
      assert r == Returned(true) && device.tsfn == Some(callback.id);
      BracketedAppend(calls, StartCall);
      calls := calls + [StartCall];
      assert MonitorStarted(calls) && StartsBracketed(calls);
    }

    /** `stopHotplugMonitor()`; `joinFailure` is the message if the native join throws. */
    method StopHotplugMonitor(joinFailure: Option<string>) returns (r: Outcome<bool>)
      requires Valid()
      modifies this`isMonitoring, this`hotplugCallback, this`calls
      modifies device`shouldStopNotification, device`notificationThreadJoinable, device`deviceNotificationHandle
      ensures Valid()
      ensures !old(isMonitoring) ==>
        && r == Returned(false)
        && unchanged(this, device)
      ensures old(isMonitoring) && joinFailure.Some? ==>
        && r == Threw(Error("Error in StopHotplugMonitor: " + joinFailure.value))
        && isMonitoring && hotplugCallback == old(hotplugCallback)
        && device.shouldStopNotification
        && device.deviceNotificationHandle == old(device.deviceNotificationHandle)
        && calls == old(calls) + [StopCall(false)]
      ensures old(isMonitoring) && joinFailure.None? ==>
        && r == Returned(true)
        && !isMonitoring && hotplugCallback == Null
        && device.shouldStopNotification
        && device.deviceNotificationHandle == None
        && calls == old(calls) + [StopCall(true)]
    {
      if !isMonitoring {
        return Returned(false);
      }
      var result := device.StopHotplugMonitor(joinFailure);
      var succeeded := result == Returned(true);
      BracketedAppend(calls, StopCall(succeeded));
      calls := calls + [StopCall(succeeded)];
      if result.Returned? {
        isMonitoring := !result.value;
        hotplugCallback := Null;
      }
      return result;
    }
  }
}

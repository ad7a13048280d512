/**
 * The native addon class `UsbDevice`: one printer handle with its
 * connected flag, the hotplug notification thread's bookkeeping, and the
 * device-change classification done by its window procedure.
 *
 * Operating-system calls are oracles: the SetupDi enumeration, the handle
 * `CreateFileA` returns, what `WriteFile` reports, and whether joining the
 * notification thread throws are parameters of the methods that make them.
 */
module UsbAddon {
  import opened Wrappers
  import opened Js
  import opened DevicePath

  /** A Windows `DWORD`. */
  type Dword = x: int | 0 <= x < 0x1_0000_0000

  const WM_DEVICECHANGE: nat := 0x0219
  const DBT_DEVICEARRIVAL: nat := 0x8000
  const DBT_DEVICEREMOVECOMPLETE: nat := 0x8004

  /** A Windows file handle: `INVALID_HANDLE_VALUE` or an open device. */
  datatype Handle = InvalidHandle | DeviceHandle(id: nat)

  /** What `WriteFile` reports: success with the bytes-written count, or failure. */
  datatype WriteResult = Written(bytesWritten: Dword) | WriteFailed(lastError: Dword)

  /** The handle and bytes one `WriteFile` call is given. */
  datatype WriteCall = WriteCall(handle: Handle, data: seq<byte>)

  /** `Napi::Number::Uint32Value` of an integral JavaScript number. */
  function ToUint32(x: int): (r: Dword)
    ensures (x - r) % 0x1_0000_0000 == 0
  {
    x % 0x1_0000_0000
  }

  /** The `(WORD)` cast. */
  function ToWord(x: Dword): (w: Word)
    ensures (x - w) % 0x1_0000 == 0
  {
    x % 0x1_0000
  }

  /** An id argument reaches `GetDevicePath` reduced modulo 2^16. */
  lemma IdArgumentModulo16Bits(x: int)
    ensures ToWord(ToUint32(x)) == x % 0x1_0000
  {
  }

  /** `UsbDevice::InitializeDevice`: accepts exactly the valid handles. */
  function InitializeDevice(handle: Handle): (ok: bool)
    ensures ok <==> handle != InvalidHandle
  {
    if handle == InvalidHandle then false else true
  }

  /** `napi_is_buffer`: true of a Node `Buffer` and of any `Uint8Array`. */
  predicate IsBuffer(v: Value) {
    v.Buffer? || v.Uint8Array?
  }

  /**
   * `UsbDevice::WindowProc`: the boolean it computes for one window message
   * and passes (by address) to the thread-safe callback's `BlockingCall`, or
   * `None` when no call is made. `callbackRegistered` says that the window
   * is bound to a device whose thread-safe callback has been created.
   */
  function WindowProc(uMsg: nat, wParam: nat, callbackRegistered: bool): (delivered: Option<bool>)
    ensures delivered.Some? <==> uMsg == WM_DEVICECHANGE && callbackRegistered
    ensures delivered == Some(true) <==> uMsg == WM_DEVICECHANGE && callbackRegistered && wParam == DBT_DEVICEARRIVAL
  {
    if uMsg == WM_DEVICECHANGE && callbackRegistered then
      var isAttached := wParam == DBT_DEVICEARRIVAL;
      Some(isAttached)
    else
      None
  }

  /** A removal is classified as "not attached". */
  lemma RemovalReportedAsDetached()
    ensures WindowProc(WM_DEVICECHANGE, DBT_DEVICEREMOVECOMPLETE, true) == Some(false)
  {
  }

  class UsbDevice {
    var deviceHandle: Handle
    var isConnected: bool
    var sendProgress: real
    /** `notificationThread.joinable()`. */
    var notificationThreadJoinable: bool
    var shouldStopNotification: bool
    /** `deviceNotificationHandle`; `None` is `NULL`. */
    var deviceNotificationHandle: Option<nat>
    /** The thread-safe function wrapping the hotplug callback, once created. */
    var tsfn: Option<nat>

    /** A disconnected device holds no handle; the progress is never updated. */
    ghost predicate Valid()
      reads this
    {
      && (!isConnected ==> deviceHandle == InvalidHandle)
      && sendProgress == 0.0
    }

    constructor ()
      ensures Valid()
      ensures deviceHandle == InvalidHandle && !isConnected && sendProgress == 0.0
      ensures !notificationThreadJoinable && !shouldStopNotification
      ensures deviceNotificationHandle == None && tsfn == None
    {
      deviceHandle := InvalidHandle;
      isConnected := false;
      shouldStopNotification := false;
      deviceNotificationHandle := None;
      sendProgress := 0.0;
      notificationThreadJoinable := false;
      tsfn := None;
    }

    /**
     * `connect(vendorId, productId)`. `enumeration` is what the interface
     * enumeration yields and `createResult` what `CreateFileA` returns;
     * `openedPath` is the path `CreateFileA` is given, if it is called.
     */
    method Connect(args: seq<int>, enumeration: Option<seq<Lookup>>, createResult: Handle)
      returns (r: Outcome<bool>, openedPath: Option<string>)
      requires Valid()
      modifies this`deviceHandle, this`isConnected
      ensures Valid()
      ensures |args| < 2 ==>
        && r == Threw(TypeError("Wrong number of arguments")) && openedPath == None
        && deviceHandle == old(deviceHandle) && isConnected == old(isConnected)
      ensures |args| >= 2 && SelectedPath(args[0] % 0x1_0000, args[1] % 0x1_0000, enumeration) == "" ==>
        && r == Returned(false) && openedPath == None
        && deviceHandle == old(deviceHandle) && isConnected == old(isConnected)
      ensures |args| >= 2 && SelectedPath(args[0] % 0x1_0000, args[1] % 0x1_0000, enumeration) != "" ==>
        && openedPath == Some(SelectedPath(args[0] % 0x1_0000, args[1] % 0x1_0000, enumeration))
        && deviceHandle == createResult
        && (createResult == InvalidHandle ==> r == Returned(false) && isConnected == old(isConnected))
        && (createResult != InvalidHandle ==> r == Returned(true) && isConnected)
    {
      if |args| < 2 {
        return Threw(TypeError("Wrong number of arguments")), None;
      }
      var vendorId := ToWord(ToUint32(args[0]));
      var productId := ToWord(ToUint32(args[1]));
      IdArgumentModulo16Bits(args[0]);
      IdArgumentModulo16Bits(args[1]);

      var devicePath := GetDevicePath(vendorId, productId, enumeration);
      if devicePath == "" {
        return Returned(false), None;
      }

      openedPath := Some(devicePath);
      deviceHandle := createResult;
      if deviceHandle == InvalidHandle {
        return Returned(false), openedPath;
      }
      // InitializeDevice accepts every valid handle, so its failure branch
      // (close the handle, report false) is never taken.
      assert InitializeDevice(deviceHandle);

      isConnected := true;
      return Returned(true), openedPath;
    }

    /** `disconnect()`: closes the handle if connected; always reports success. */
    method Disconnect() returns (r: bool)
      requires Valid()
      modifies this`deviceHandle, this`isConnected
      ensures Valid()
      ensures r
      ensures !isConnected && deviceHandle == InvalidHandle
      ensures !old(isConnected) ==> deviceHandle == old(deviceHandle)
    {
      if isConnected {
        if deviceHandle != InvalidHandle {
          deviceHandle := InvalidHandle;
        }
        isConnected := false;
      }
      return true;
    }

    /**
     * `sendData(buffer)`: one synchronous `WriteFile` of the whole buffer.
     * `write` is what `WriteFile` reports; `call` is the write issued, if any.
     */
    method SendData(args: seq<Value>, write: WriteResult) returns (r: Outcome<Dword>, call: Option<WriteCall>)
      requires Valid()
      ensures !isConnected ==> r == Threw(Error("Device not connected")) && call == None
      ensures isConnected && (|args| < 1 || !IsBuffer(args[0])) ==>
        r == Threw(TypeError("Buffer expected")) && call == None
      ensures isConnected && |args| >= 1 && IsBuffer(args[0]) ==>
        && call == Some(WriteCall(deviceHandle, args[0].bytes))
        && (write.Written? ==> r == Returned(write.bytesWritten))
        && (write.WriteFailed? ==> r == Threw(Error("Failed to write data to device")))
    {
      if !isConnected {
        return Threw(Error("Device not connected")), None;
      }
      if |args| < 1 || !IsBuffer(args[0]) {
        return Threw(TypeError("Buffer expected")), None;
      }
      var buffer := args[0].bytes;
      call := Some(WriteCall(deviceHandle, buffer));
      match write
      case WriteFailed(_) =>
        r := Threw(Error("Failed to write data to device"));
      case Written(bytesWritten) =>
        r := Returned(bytesWritten);
    }

    /** `getSendProgress()`: nothing ever updates the progress, so it is 0. */
    method GetSendProgress() returns (progress: real)
      requires Valid()
      ensures progress == 0.0
    {
      return sendProgress;
    }

    /**
     * `startHotplugMonitor(callback)`. Assigning a new `std::thread` over a
     * joinable one calls `std::terminate`.
     */
    method StartHotplugMonitor(args: seq<Value>) returns (r: Outcome<bool>)
      requires Valid()
      modifies this`tsfn, this`shouldStopNotification, this`notificationThreadJoinable
      ensures Valid()
      ensures (|args| < 1 || !args[0].Function?) ==>
        && r == Threw(TypeError("Expected callback function"))
        && tsfn == old(tsfn) && shouldStopNotification == old(shouldStopNotification)
        && notificationThreadJoinable == old(notificationThreadJoinable)
      ensures |args| >= 1 && args[0].Function? ==>
        && tsfn == Some(args[0].id)
        && (old(notificationThreadJoinable) ==> r == ProcessAborted)
        && (!old(notificationThreadJoinable) ==>
              r == Returned(true) && notificationThreadJoinable && !shouldStopNotification)
    {
      if |args| < 1 || !args[0].Function? {
        return Threw(TypeError("Expected callback function"));
      }
      tsfn := Some(args[0].id);
      shouldStopNotification := false;
      if notificationThreadJoinable {
        return ProcessAborted;
      }
      notificationThreadJoinable := true;
      return Returned(true);
    }

    /**
     * `stopHotplugMonitor()`: signals the thread, joins it and drops the
     * notification handle. `joinFailure` is the message of the exception
     * `join` throws, if it throws.
     */
    method StopHotplugMonitor(joinFailure: Option<string>) returns (r: Outcome<bool>)
      requires Valid()
      modifies this`shouldStopNotification, this`notificationThreadJoinable, this`deviceNotificationHandle
      ensures Valid()
      ensures !old(notificationThreadJoinable) ==>
        && r == Returned(true)
        && shouldStopNotification == old(shouldStopNotification)
        && !notificationThreadJoinable
        && deviceNotificationHandle == old(deviceNotificationHandle)
      ensures old(notificationThreadJoinable) ==> shouldStopNotification
      ensures old(notificationThreadJoinable) && joinFailure.Some? ==>
        && r == Threw(Error("Error in StopHotplugMonitor: " + joinFailure.value))
        && notificationThreadJoinable
        && deviceNotificationHandle == old(deviceNotificationHandle)
      ensures old(notificationThreadJoinable) && joinFailure.None? ==>
        && r == Returned(true)
        && !notificationThreadJoinable
        && deviceNotificationHandle == None
    {
      if !notificationThreadJoinable {
        return Returned(true);
      }
      shouldStopNotification := true;
      if joinFailure.Some? {
        return Threw(Error("Error in StopHotplugMonitor: " + joinFailure.value));
      }
      notificationThreadJoinable := false;
      if deviceNotificationHandle.Some? {
        deviceNotificationHandle := None;
      }
      return Returned(true);
    }

    /** `~UsbDevice()`: closes the handle if connected and joins a running thread. */
    method Destroy()
      requires Valid()
      modifies this`deviceHandle, this`isConnected, this`shouldStopNotification, this`notificationThreadJoinable
      ensures Valid()
      ensures !isConnected && deviceHandle == InvalidHandle && !notificationThreadJoinable
      ensures shouldStopNotification == (old(shouldStopNotification) || old(notificationThreadJoinable))
    {
      if isConnected {
        if deviceHandle != InvalidHandle {
          deviceHandle := InvalidHandle;
        }
        isConnected := false;
      }
      if notificationThreadJoinable {
        shouldStopNotification := true;
        notificationThreadJoinable := false;
      }
    }
  }

  /**
   * `Connect` does not close or reset anything before opening: on a device
   * that is already connected, a failed open drops the handle but leaves
   * `isConnected` true.
   */
  method FailedReconnectKeepsConnectedFlag() returns (connected: bool, handle: Handle)
    ensures connected && handle == InvalidHandle
  {
    var device := new UsbDevice();
    var entries := [Read("printer0", "USB\\VID_04B8&PID_0202")];
    assert FirstSelectedFrom(0, 0, entries, 0) == Some(0);
    var args := [0, 0];
    assert args[0] % 0x1_0000 == 0 && args[1] % 0x1_0000 == 0;
    var first, _ := device.Connect(args, Some(entries), DeviceHandle(1));
    assert first == Returned(true);
    var second, _ := device.Connect(args, Some(entries), InvalidHandle);
    return device.isConnected, device.deviceHandle;
  }
}

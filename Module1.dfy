/**
  The simulated device as an object whose methods update its fields in place,
  proved against the reference definitions of module DeviceSpec.
 */
module Module1 {
  import opened Wrappers
  import opened DeviceSpec

  class SimulatedDevice {
    var currentVersion: int
    var state: State
    var lastUpgradeStatus: Option<Status>
    var internetAvailable: bool
    var poweredOn: bool
    var memoryFree: int   // in MB
    var updateSize: int   // in MB
    var activePartition: Partition
    var inactivePartition: Partition
    var imageOnB: Option<int>   // version being written to the inactive partition

    /** All fields, as a value. */
    function Model(): Snapshot
      reads this
    {
      Snapshot(currentVersion, state, lastUpgradeStatus, internetAvailable, poweredOn,
               memoryFree, updateSize, activePartition, inactivePartition, imageOnB)
    }

    /** A new device, running `initialVersion`, idle, with no upgrade attempted yet. */
    constructor (initialVersion: int)
      ensures Model() == Initial(initialVersion)
      ensures currentVersion == initialVersion && state == Idle && lastUpgradeStatus == None
      ensures internetAvailable && poweredOn && memoryFree == 100 && updateSize == 30
      ensures activePartition == A && inactivePartition == B && imageOnB == None
    {
      currentVersion := initialVersion;
      state := Idle;
      lastUpgradeStatus := None;
      internetAvailable := true;
      poweredOn := true;
      memoryFree := 100;
      updateSize := 30;
      activePartition := A;
      inactivePartition := B;
      imageOnB := None;
    }

    function GetCurrentVersion(): (v: int)
      reads this
      ensures v == Model().currentVersion
    {
      currentVersion
    }

    function GetLastUpgradeResult(): (s: Option<Status>)
      reads this
      ensures s == Model().lastUpgradeStatus
    {
      lastUpgradeStatus
    }

    /** `is_upgrade_valid` on this device, agreeing with DeviceSpec.IsUpgradeValid, the reference definition. */
    function IsUpgradeValid(newVersion: int): (valid: bool)
      reads this
      ensures valid <==> DeviceSpec.IsUpgradeValid(Model(), newVersion)
    {
      newVersion != currentVersion
    }

    /** Sets the state when `newState` names one; any other name changes nothing. */
    method SetState(newState: string)
      modifies this
      ensures Model() == SetStateOf(old(Model()), newState)
      ensures newState in StateNames ==> StateName(state) == newState
      ensures newState !in StateNames ==> Model() == old(Model())
    {
      var parsed := ParseState(newState);
      if parsed.Some? {
        state := parsed.value;
      }
    }

    /**
      Attempts to install `newVersion`, checking the state, the version, the
      connection, the free memory, the timeout and the power in this order.
     */
    method RequestUpgrade(newVersion: int, simulateTimeout: bool := false) returns (ok: bool)
      modifies this
      ensures Model() == Upgrade(old(Model()), newVersion, simulateTimeout).device
      ensures ok == Upgrade(old(Model()), newVersion, simulateTimeout).ok
      ensures ok <==> lastUpgradeStatus == Some(Success)
      ensures !ok ==> Model() == old(Model()).(lastUpgradeStatus := Some(Failure))
    {
      if state != Idle {
        lastUpgradeStatus := Some(Failure);
        return false;
      }

      if !IsUpgradeValid(newVersion) {
        lastUpgradeStatus := Some(Failure);
        return false;
      }

      state := Downloading;

      if !internetAvailable {
        lastUpgradeStatus := Some(Failure);
        state := Idle;
        return false;
      }

      if memoryFree < updateSize {
        lastUpgradeStatus := Some(Failure);
        state := Idle;
        return false;
      }

      state := Upgrading;

      if simulateTimeout {
        lastUpgradeStatus := Some(Failure);
        state := Idle;
        return false;
      }

      if !poweredOn {
        lastUpgradeStatus := Some(Failure);
        state := Idle;
        return false;
      }

      // write the image to the inactive partition, then switch to it
      imageOnB := Some(newVersion);
      activePartition := inactivePartition;
      currentVersion := imageOnB.value;
      imageOnB := None;

      lastUpgradeStatus := Some(Success);
      state := Idle;
      return true;
    }
  }

  // Client scenarios: each drives a fresh device through the class's methods, and,
  // as the corresponding test of the repository does, writes an environment field
  // or reads the state field directly; each returns what that test observes.

  method UpgradeNotAllowedForSameVersion() returns (result: bool, status: Option<Status>)
    ensures !result && status == Some(Failure)
  {
    var device := new SimulatedDevice(1);
    device.SetState("Idle");
    result := device.RequestUpgrade(1);
    status := device.GetLastUpgradeResult();
  }

  method UpgradeSuccessful() returns (result: bool, version: int, status: Option<Status>)
    ensures result && version == 2 && status == Some(Success)
  {
    var device := new SimulatedDevice(1);
    device.SetState("Idle");
    result := device.RequestUpgrade(2);
    version := device.GetCurrentVersion();
    status := device.GetLastUpgradeResult();
  }

  method UpgradeFailsIfNotIdle() returns (result: bool, status: Option<Status>, state: State)
    ensures !result && status == Some(Failure) && state == Positioning
  {
    var device := new SimulatedDevice(1);
    device.SetState("Positioning");
    result := device.RequestUpgrade(2);
    status := device.GetLastUpgradeResult();
    state := device.state;
  }

  method UpgradeFailsIfNoInternet() returns (result: bool, status: Option<Status>, state: State)
    ensures !result && status == Some(Failure) && state == Idle
  {
    var device := new SimulatedDevice(1);
    device.SetState("Idle");
    device.internetAvailable := false;
    result := device.RequestUpgrade(2);
    status := device.GetLastUpgradeResult();
    state := device.state;
  }

  method UpgradeFailsIfPowerLost() returns (result: bool, status: Option<Status>, state: State)
    ensures !result && status == Some(Failure) && state == Idle
  {
    var device := new SimulatedDevice(1);
    device.SetState("Idle");
    device.poweredOn := false;
    result := device.RequestUpgrade(2);
    status := device.GetLastUpgradeResult();
    state := device.state;
  }

  method DowngradeIsAllowed() returns (result: bool, version: int, status: Option<Status>)
    ensures result && version == 2 && status == Some(Success)
  {
    var device := new SimulatedDevice(3);
    device.SetState("Idle");
    result := device.RequestUpgrade(2);
    version := device.GetCurrentVersion();
    status := device.GetLastUpgradeResult();
  }

  method UpgradeFailsDueToTimeout() returns (result: bool, status: Option<Status>, state: State)
    ensures !result && status == Some(Failure) && state == Idle
  {
    var device := new SimulatedDevice(1);
    device.SetState("Idle");
    result := device.RequestUpgrade(2, true);
    status := device.GetLastUpgradeResult();
    state := device.state;
  }

  method UpgradeFailsIfAlreadyDownloading() returns (result: bool, status: Option<Status>, state: State)
    ensures !result && status == Some(Failure) && state == Downloading
  {
    var device := new SimulatedDevice(1);
    device.SetState("Downloading");
    result := device.RequestUpgrade(2);
    status := device.GetLastUpgradeResult();
    state := device.state;
  }

  method UpgradeFailsIfNotEnoughMemory() returns (result: bool, status: Option<Status>, state: State)
    ensures !result && status == Some(Failure) && state == Idle
  {
    var device := new SimulatedDevice(1);
    device.SetState("Idle");
    device.memoryFree := 10;
    result := device.RequestUpgrade(2);
    status := device.GetLastUpgradeResult();
    state := device.state;
  }

  /** An invalid name passed to SetState is ignored, and the device can still upgrade. */
  method InvalidStateNameIgnored() returns (state: State, result: bool)
    ensures state == Idle && result
  {
    var device := new SimulatedDevice(1);
    device.SetState("Rebooting");
    state := device.state;
    result := device.RequestUpgrade(2);
  }

  /** After one success from a new device, the active and the inactive label both read B. */
  method SuccessDoesNotSwapLabels() returns (ok: bool, active: Partition, inactive: Partition)
    ensures ok && active == B && inactive == B
  {
    var device := new SimulatedDevice(1);
    ok := device.RequestUpgrade(2);
    active := device.activePartition;
    inactive := device.inactivePartition;
  }
}

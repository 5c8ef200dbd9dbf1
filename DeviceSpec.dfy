/**
  Value-level model of the simulated over-the-air update device: the four device
  states, the upgrade status, the A/B partition labels, a snapshot of every field
  of the device, and pure reference definitions of what each operation does to a
  snapshot. The class in module Module1 is proved against these definitions.
 */
module DeviceSpec {
  import opened Wrappers

  /** The four device states; any other name is not a state. */
  datatype State = Positioning | Idle | Downloading | Upgrading

  /** Outcome recorded by the last upgrade attempt ("success" / "failure"). */
  datatype Status = Success | Failure

  /** Labels of the two storage partitions. */
  datatype Partition = A | B

  /** The names accepted by `set_state`, in the order the class lists them. */
  const StateNames: seq<string> := ["Positioning", "Idle", "Downloading", "Upgrading"]

  function StateName(s: State): (n: string)
    ensures n in StateNames
  {
    match s
    case Positioning => "Positioning"
    case Idle => "Idle"
    case Downloading => "Downloading"
    case Upgrading => "Upgrading"
  }

  /** The state a name denotes, or None for a name that is not in StateNames. */
  function ParseState(name: string): (r: Option<State>)
    ensures r.Some? <==> name in StateNames
    ensures r.Some? ==> StateName(r.value) == name
    ensures forall s :: StateName(s) == name ==> r == Some(s)
  {
    if name == "Positioning" then Some(Positioning)
    else if name == "Idle" then Some(Idle)
    else if name == "Downloading" then Some(Downloading)
    else if name == "Upgrading" then Some(Upgrading)
    else None
  }

  /** Every field of a device, as a value. */
  datatype Snapshot = Snapshot(
    currentVersion: int,
    state: State,
    lastUpgradeStatus: Option<Status>,
    internetAvailable: bool,
    poweredOn: bool,
    memoryFree: int,
    updateSize: int,
    activePartition: Partition,
    inactivePartition: Partition,
    imageOnB: Option<int>)

  /** The fields a freshly constructed device holds. */
  function Initial(version: int): (d: Snapshot)
    ensures d.currentVersion == version && d.state == Idle && d.lastUpgradeStatus == None
    ensures d.internetAvailable && d.poweredOn && d.memoryFree >= d.updateSize
    ensures d.activePartition != d.inactivePartition && d.imageOnB == None
  {
    Snapshot(version, Idle, None, true, true, 100, 30, A, B, None)
  }

  /**
    The reference definition of `is_upgrade_valid`: a request is valid when it asks
    for a version other than the current one. The class function of the same name
    is proved to agree with it.
   */
  predicate IsUpgradeValid(d: Snapshot, newVersion: int)
    // both an upgrade to a higher and a downgrade to a lower version are valid
    ensures IsUpgradeValid(d, newVersion) <==>
      newVersion > d.currentVersion || newVersion < d.currentVersion
  {
    newVersion != d.currentVersion
  }

  /** `set_state`: a valid name replaces the state, anything else is silently ignored. */
  function SetStateOf(d: Snapshot, name: string): (r: Snapshot)
    ensures name in StateNames ==> StateName(r.state) == name && r == d.(state := r.state)
    ensures name !in StateNames ==> r == d
  {
    match ParseState(name)
    case Some(s) => d.(state := s)
    case None => d
  }

  /** The snapshot after an upgrade attempt, and the value the attempt returns. */
  datatype Outcome = Outcome(device: Snapshot, ok: bool)

  /**
    `request_upgrade`: the guards in the order the source checks them. The first two
    failures keep the state; the later ones put the state back to Idle.
   */
  function Upgrade(d: Snapshot, newVersion: int, simulateTimeout: bool): (r: Outcome)
    // the exact condition under which the attempt succeeds
    ensures r.ok <==>
      d.state == Idle && newVersion != d.currentVersion && d.internetAvailable &&
      d.memoryFree >= d.updateSize && !simulateTimeout && d.poweredOn
    // a failed attempt records the failure and changes nothing else
    ensures !r.ok ==> r.device == d.(lastUpgradeStatus := Some(Failure))
    // a successful attempt installs the version and points the active label at the old inactive one
    ensures r.ok ==> r.device == d.(currentVersion := newVersion, state := Idle,
                                    lastUpgradeStatus := Some(Success),
                                    activePartition := d.inactivePartition, imageOnB := None)
    // every attempt records a status, and the return value is whether it is success
    ensures r.device.lastUpgradeStatus.Some?
    ensures r.ok <==> r.device.lastUpgradeStatus == Some(Success)
    // after a success both labels read the same partition: the labels are not swapped
    ensures r.ok ==> r.device.activePartition == r.device.inactivePartition
  {
    var failed := d.(lastUpgradeStatus := Some(Failure));
    if d.state != Idle then Outcome(failed, false)
    else if !IsUpgradeValid(d, newVersion) then Outcome(failed, false)
    else if !d.internetAvailable then Outcome(failed.(state := Idle), false)
    else if d.memoryFree < d.updateSize then Outcome(failed.(state := Idle), false)
    else if simulateTimeout then Outcome(failed.(state := Idle), false)
    else if !d.poweredOn then Outcome(failed.(state := Idle), false)
    else
      var staged := d.(imageOnB := Some(newVersion));
      var switched := staged.(activePartition := staged.inactivePartition);
      var installed := switched.(currentVersion := switched.imageOnB.value, imageOnB := None);
      Outcome(installed.(lastUpgradeStatus := Some(Success), state := Idle), true)
  }

  /** A call a client makes through the device's state-changing interface. */
  datatype Call = SetStateCall(name: string) | UpgradeCall(version: int, simulateTimeout: bool)

  /** Whether a snapshot agrees with another on everything no call writes. */
  predicate SameEnvironment(d: Snapshot, e: Snapshot)
  {
    d.internetAvailable == e.internetAvailable && d.poweredOn == e.poweredOn &&
    d.memoryFree == e.memoryFree && d.updateSize == e.updateSize &&
    d.inactivePartition == e.inactivePartition
  }

  /** One call: it never writes the flags, the capacities or the inactive label, and never fills the staging slot. */
  function Step(d: Snapshot, c: Call): (r: Snapshot)
    ensures SameEnvironment(r, d)
    ensures r.imageOnB == d.imageOnB || r.imageOnB == None
  {
    match c
    case SetStateCall(name) => SetStateOf(d, name)
    case UpgradeCall(v, t) => Upgrade(d, v, t).device
  }

  /** The snapshot after a sequence of calls, made one after another. */
  function Run(d: Snapshot, calls: seq<Call>): (r: Snapshot)
    // the staging slot ends either as it was or empty, so an empty slot stays empty
    ensures r.imageOnB == d.imageOnB || r.imageOnB == None
    decreases |calls|
  {
    if calls == [] then d else Run(Step(d, calls[0]), calls[1..])
  }

  /** No sequence of calls changes the flags, the capacities or the inactive label. */
  lemma {:induction false} RunPreservesEnvironment(d: Snapshot, calls: seq<Call>)
    ensures SameEnvironment(Run(d, calls), d)
    decreases |calls|
  {
    if calls != [] {
      RunPreservesEnvironment(Step(d, calls[0]), calls[1..]);
    }
  }

  /** Once a status has been recorded, no later call clears it. */
  lemma {:induction false} RunKeepsStatus(d: Snapshot, calls: seq<Call>)
    requires d.lastUpgradeStatus.Some?
    ensures Run(d, calls).lastUpgradeStatus.Some?
    decreases |calls|
  {
    if calls != [] {
      RunKeepsStatus(Step(d, calls[0]), calls[1..]);
    }
  }

  /** The active label only ever takes the value it had or the inactive label's. */
  lemma {:induction false} RunActiveIsKnownLabel(d: Snapshot, calls: seq<Call>)
    ensures Run(d, calls).activePartition in {d.activePartition, d.inactivePartition}
    decreases |calls|
  {
    if calls != [] {
      var d' := Step(d, calls[0]);
      RunActiveIsKnownLabel(d', calls[1..]);
      assert d'.inactivePartition == d.inactivePartition;
    }
  }

  /** Once both labels coincide, every later call keeps them equal. */
  lemma {:induction false} RunKeepsLabelsEqual(d: Snapshot, calls: seq<Call>)
    requires d.activePartition == d.inactivePartition
    ensures Run(d, calls).activePartition == Run(d, calls).inactivePartition
    decreases |calls|
  {
    if calls != [] {
      RunKeepsLabelsEqual(Step(d, calls[0]), calls[1..]);
    }
  }

  /**
    A sequence of calls that ends on a different version went through a successful
    upgrade, and from then on the active label is the inactive one: the two labels
    never become distinct again.
   */
  lemma {:induction false} RunVersionChangeCollapsesLabels(d: Snapshot, calls: seq<Call>)
    ensures Run(d, calls).currentVersion != d.currentVersion ==>
      Run(d, calls).activePartition == d.inactivePartition == Run(d, calls).inactivePartition
    decreases |calls|
  {
    RunPreservesEnvironment(d, calls);
    if calls != [] {
      var d' := Step(d, calls[0]);
      var rest := calls[1..];
      RunVersionChangeCollapsesLabels(d', rest);
      RunActiveIsKnownLabel(d', rest);
      if d'.currentVersion != d.currentVersion {
        assert d'.activePartition == d.inactivePartition;
      }
    }
  }

  /** From a new device, a successful upgrade leaves both labels reading B. */
  lemma InitialSuccessLeavesBothLabelsB(version: int, newVersion: int)
    requires newVersion != version
    ensures var r := Upgrade(Initial(version), newVersion, false);
      r.ok && r.device.activePartition == B && r.device.inactivePartition == B
  {
  }

  // The swap that the "A/B switch" of the source describes, beside the model of the
  // code as written: a success also moves the old active label to the inactive side.

  /** `request_upgrade` with the labels exchanged on success. */
  function UpgradeSwapping(d: Snapshot, newVersion: int, simulateTimeout: bool): (r: Outcome)
    ensures r.ok == Upgrade(d, newVersion, simulateTimeout).ok
    ensures !r.ok ==> r.device == Upgrade(d, newVersion, simulateTimeout).device
    ensures r.ok ==> r.device == Upgrade(d, newVersion, simulateTimeout).device.(inactivePartition := d.activePartition)
    ensures r.ok ==> r.device.activePartition == d.inactivePartition && r.device.inactivePartition == d.activePartition
    ensures d.activePartition != d.inactivePartition ==> r.device.activePartition != r.device.inactivePartition
  {
    var written := Upgrade(d, newVersion, simulateTimeout);
    if written.ok then Outcome(written.device.(inactivePartition := d.activePartition), true)
    else written
  }

  function SwappingStep(d: Snapshot, c: Call): Snapshot
  {
    match c
    case SetStateCall(name) => SetStateOf(d, name)
    case UpgradeCall(v, t) => UpgradeSwapping(d, v, t).device
  }

  /** A sequence of calls with the swapping upgrade: distinct labels stay distinct. */
  function SwappingRun(d: Snapshot, calls: seq<Call>): (r: Snapshot)
    ensures d.activePartition != d.inactivePartition ==> r.activePartition != r.inactivePartition
    ensures {r.activePartition, r.inactivePartition} <= {d.activePartition, d.inactivePartition}
    decreases |calls|
  {
    if calls == [] then d else SwappingRun(SwappingStep(d, calls[0]), calls[1..])
  }

  /** From a new device, the swapping model keeps one label A and the other B forever. */
  lemma SwappingRunFromInitialKeepsAB(version: int, calls: seq<Call>)
    ensures var r := SwappingRun(Initial(version), calls);
      {r.activePartition, r.inactivePartition} == {A, B}
  {
  }
}

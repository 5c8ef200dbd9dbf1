# Simulated OTA device, modelled in Dafny

This project models `SimulatedDevice`, a toy simulation of one device's over-the-air
firmware update. The device holds its firmware version, a state (`Positioning`, `Idle`,
`Downloading`, `Upgrading`), the status of the last upgrade attempt (none, success or
failure), two environment flags (internet, power), two capacities (free memory, update
size), the labels of the active and the inactive partition, and a staging slot for the
image being written. Its one real operation, `request_upgrade`, runs a fixed chain of
guards and either installs the new version or records a failure.

- `Wrappers.dfy`: the `Option` type used for Python's `None`.
- `DeviceSpec.dfy`: the value model. `Snapshot` holds every field of a device;
  `Initial`, `SetStateOf` and `Upgrade` say what construction, `set_state` and
  `request_upgrade` do to a snapshot; `Run` applies a sequence of calls, and the
  `Run…` lemmas state what no sequence of calls can change.
- `Module1.dfy`: the class `SimulatedDevice`, whose fields are the source's attributes and
  whose methods update them in place, step by step and with early returns as the source
  does; each method is proved against the value model. The repository's test scenarios
  appear as client methods driving a fresh device through the class.

The initial version, which the source reads from the environment variable
`INITIAL_VERSION` (default 1), is a constructor parameter here. `set_state` takes a string,
so that names outside the four states can be passed and shown to be ignored.

What the model establishes about `request_upgrade`:

- it succeeds exactly when the device is `Idle`, the new version differs from the current
  one (a lower version is accepted), the internet is available, `memory_free >= update_size`
  (equality passes), no timeout is simulated, and power is on;
- every failing exit changes nothing but the status, which becomes failure: the first two
  guards leave the state as it was, and the later ones reset it to `Idle`, which is what it
  was on entry;
- a success sets the version, the success status, state `Idle`, empties the staging slot
  and makes the active label equal to the old inactive label;
- the flags, the capacities and the inactive label are never written, over any sequence
  of calls.

Latent bug, reproduced as written: the docstring of `request_upgrade` promises
"dual-partition logic with A/B switch" (`module1.py` line 47), but on success the code sets
the active label to the inactive one (line 85) and never sets the inactive label to the old
active one. After the first success from a new device both labels read `B`, and from then on
they stay equal whatever is called (`InitialSuccessLeavesBothLabelsB`, `RunKeepsLabelsEqual`,
`RunVersionChangeCollapsesLabels`, `SuccessDoesNotSwapLabels`). The class and `Upgrade`
follow the code. Beside them, `UpgradeSwapping` and `SwappingRun` define the swap the
docstring describes and prove that it keeps the two labels distinct. Likewise, `set_state`
ignores invalid names without any error, and the model keeps that.

## Model

| member | source | states |
|---|---|---|
| `Module1.SimulatedDevice.constructor` | my_package/python/my_package/module1.py:11-24 | a new device holds the given version, state Idle, no status, both flags true, 100 MB free, a 30 MB update, active A, inactive B, an empty staging slot |
| `Module1.SimulatedDevice.GetCurrentVersion` | my_package/python/my_package/module1.py:26-28 | returns the device's current version |
| `Module1.SimulatedDevice.GetLastUpgradeResult` | my_package/python/my_package/module1.py:30-32 | returns the status of the last attempt, none before any attempt |
| `Module1.SimulatedDevice.IsUpgradeValid` | my_package/python/my_package/module1.py:34-36 | an upgrade is valid exactly when the version differs from the current one |
| `Module1.SimulatedDevice.SetState` | my_package/python/my_package/module1.py:38-41 | a name among the four states becomes the state; any other name leaves every field unchanged |
| `Module1.SimulatedDevice.RequestUpgrade` | my_package/python/my_package/module1.py:43-91 | the new fields and the return value are those of `Upgrade` on the old fields; the return value is whether the status is success; a failure changes only the status |
| `DeviceSpec.Initial` | my_package/python/my_package/module1.py:11-24 | a new device runs the given version, is Idle with no status, has both flags on, room for the update, two distinct labels and an empty staging slot |
| `DeviceSpec.IsUpgradeValid` | my_package/python/my_package/module1.py:34-36 | a request is valid exactly when it asks for a higher or a lower version than the current one |
| `DeviceSpec.Step` | my_package/python/my_package/module1.py:38-91 | one `set_state` or `request_upgrade` call never writes the flags, the capacities or the inactive label, and never leaves a new image in the staging slot |
| `DeviceSpec.Run` | my_package/python/my_package/module1.py:38-91 | after any sequence of calls the staging slot is as it was or empty, so an empty slot stays empty |
| `DeviceSpec.StateName` | my_package/python/my_package/module1.py:9 | every state's name is one of the four listed names |
| `DeviceSpec.ParseState` | my_package/python/my_package/module1.py:9-41 | a name denotes a state exactly when it is one of the listed names, and then denotes the state of that name, and only that one |
| `DeviceSpec.SetStateOf` | my_package/python/my_package/module1.py:38-41 | a listed name replaces only the state, with the state of that name; any other name leaves the device as it was |
| `DeviceSpec.Upgrade` | my_package/python/my_package/module1.py:49-91 | success iff Idle, different version, internet, enough memory, no timeout and power; a failure records failure and changes nothing else; a success installs the version, sets success and Idle, empties the slot and sets active to the old inactive label, leaving both labels equal |
| `DeviceSpec.RunPreservesEnvironment` | my_package/python/my_package/module1.py:38-91 | no sequence of calls changes the internet and power flags, the free memory, the update size or the inactive label |
| `DeviceSpec.RunKeepsStatus` | my_package/python/my_package/module1.py:43-91 | once a status is recorded, no sequence of calls clears it |
| `DeviceSpec.RunActiveIsKnownLabel` | my_package/python/my_package/module1.py:85 | the active label is always the original active or the original inactive label |
| `DeviceSpec.RunKeepsLabelsEqual` | my_package/python/my_package/module1.py:85 | once the two labels are equal, they stay equal through any sequence of calls |
| `DeviceSpec.RunVersionChangeCollapsesLabels` | my_package/python/my_package/module1.py:82-90 | a sequence of calls that changes the version leaves the active label equal to the inactive label, which is the original inactive one |
| `DeviceSpec.InitialSuccessLeavesBothLabelsB` | my_package/python/my_package/module1.py:22-23 | from a new device, an upgrade to a different version succeeds and leaves both labels reading B |
| `DeviceSpec.UpgradeSwapping` | my_package/python/my_package/module1.py:43-91 | the swap the docstring promises: same outcome as `Upgrade`, but a success also moves the old active label to the inactive side, so distinct labels stay distinct |
| `DeviceSpec.SwappingRun` | my_package/python/my_package/module1.py:43-91 | with the swapping upgrade, any sequence of calls keeps distinct labels distinct and draws both labels from the original two |
| `DeviceSpec.SwappingRunFromInitialKeepsAB` | my_package/python/my_package/module1.py:22-23 | with the swapping upgrade, a new device keeps one label A and the other B after any sequence of calls |
| `Module1.UpgradeNotAllowedForSameVersion` | my_package/tests/test_module1.py:9-15 | version 1 asked for version 1 fails with status failure |
| `Module1.UpgradeSuccessful` | my_package/tests/test_module1.py:17-24 | version 1 asked for version 2 succeeds, version 2, status success |
| `Module1.UpgradeFailsIfNotIdle` | my_package/tests/test_module1.py:26-32 | a Positioning device fails with status failure and stays Positioning |
| `Module1.UpgradeFailsIfNoInternet` | my_package/tests/test_module1.py:34-42 | without internet the attempt fails, status failure, state Idle |
| `Module1.UpgradeFailsIfPowerLost` | my_package/tests/test_module1.py:44-52 | without power the attempt fails, status failure, state Idle |
| `Module1.DowngradeIsAllowed` | my_package/tests/test_module1.py:54-62 | version 3 asked for version 2 succeeds, version 2, status success |
| `Module1.UpgradeFailsDueToTimeout` | my_package/tests/test_module1.py:64-71 | a simulated timeout fails, status failure, state Idle |
| `Module1.UpgradeFailsIfAlreadyDownloading` | my_package/tests/test_module1.py:73-79 | a Downloading device fails with status failure and stays Downloading |
| `Module1.UpgradeFailsIfNotEnoughMemory` | my_package/tests/test_module1.py:81-89 | 10 MB free against a 30 MB update fails, status failure, state Idle |
| `Module1.InvalidStateNameIgnored` | my_package/python/my_package/module1.py:38-41 | a name that is not a state leaves the device Idle, and it can still upgrade |
| `Module1.SuccessDoesNotSwapLabels` | my_package/python/my_package/module1.py:82-87 | after one success from a new device the upgrade has succeeded and active and inactive both read B |

## Findings

| source | as written | input that shows it | evidently intended | confidence | as-written member | corrected member |
|---|---|---|---|---|---|---|
| my_package/python/my_package/module1.py:85 | a success sets the active label to the inactive one and leaves the inactive label as it was | a new device (active A, inactive B) upgraded from version 1 to 2: both labels then read B | the labels are exchanged, as the "A/B switch" of line 47 says: active B, inactive A | high (not executed) | `DeviceSpec.InitialSuccessLeavesBothLabelsB` | `DeviceSpec.SwappingRun` |

The class `Module1.SimulatedDevice` and `DeviceSpec.Upgrade` keep the behaviour as written;
the corrected definitions stand beside them and are not used by the class.

## Left out

- Reading `INITIAL_VERSION` from the process environment and parsing it with `int(...)`,
  including the parse failure: environment I/O; the version is a constructor argument.
- Python's dynamic typing: `set_state` accepts any object in the source; here it accepts any
  string, which covers "a valid name or anything else".
- The transient `Downloading` and `Upgrading` states inside one `request_upgrade` call are
  assigned in `Module1.SimulatedDevice.RequestUpgrade` as the source does, but no caller can
  observe them (there are no suspension points), so no contract speaks of them.
- Status values are a datatype (`Success`, `Failure`) in place of the strings `"success"` and
  `"failure"`, and partition labels a datatype (`A`, `B`) in place of the strings `"A"`, `"B"`.
- `Run` covers the calls that change state through the class's methods; the tests also
  assign flags and capacities directly, which the scenario methods do on the object.
- The test harness itself (pytest, `setup_function`, environment mutation) is not part of
  this model; its scenarios appear as the client methods above.

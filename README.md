# ReferenceHead motion coordinator, modelled in Dafny

This project models the head motion coordinator of OpenPnP's `ReferenceHead`.
A head carries nozzles, cameras and actuators ("head mountables"). Each one has
fixed head offsets, measured from the head's own reference point; the default
camera has head offsets of its own. The model covers:

- `moveTo(hm, location, speed)`. With soft limits enabled, it projects the target
  onto the default camera: the mountable's head offsets are subtracted and the
  camera's head offsets are added. A camera X or Y outside the inclusive min/max
  box rejects the move before the driver is touched. Otherwise the caller's own
  `location` goes to the driver, and one head-activity notification is fired.
- `home()`. It homes through the driver and then fires the notification.
- The late-bound machine and driver. They exist only after the configuration
  listener has run.

The driver and the machine's activity listeners are collaborators. The model
records them as an event log (`ReferenceHead.log`). What the driver answers to
one command is a parameter of the call: `Completed` or `Fault(message)`.

Files, one module each:

- `locations.dfy`, module `Locations`: the four-axis pose and its addition and subtraction.
- `soft_limits.dfy`, module `SoftLimits`: the camera projection, the rejection test as
  the code writes it, and the inclusive box used to state it.
- `reference_head.dfy`, module `ReferenceHeads`:
  - the errors, the events and the configuration;
  - the pure specifications of one `moveTo` and one `home` (`MoveToStep`, `HomeStep`);
  - sessions of calls, with their log invariants;
  - the class `ReferenceHead`, whose methods are proved against those specifications.
- `double_limits.dfy`, module `DoubleLimits`: the rejection test on doubles that may be
  NaN, for the finding below.
- `head_scenarios.dfy`, module `HeadScenarios`: two client methods that drive a head
  through its contracts alone.

The class keeps one invariant (`Valid`). While soft limits are enabled, every
move the driver has received puts the default camera inside the box. Every
activity notification comes right after the driver command it reports. The
head's name, limit policy and default camera are `const`, so the invariant
carries across all calls, including a configuration-listener call between two
moves. The pure `Session` function fixes whether the machine is loaded for a
whole run, so `SessionKeepsInvariant` covers runs without such a listener call;
the class invariant covers the rest.

Two facts about the code that the model records:

- With a head offset of X = +10, a target of X = 95 puts the camera at X = 85
  (lines 103-104 subtract the mountable's offsets). The client `RefusedScenario`
  therefore uses a nozzle offset of -10, which puts the camera at X = 105, outside a
  box of [0, 100].
- `fireMachineHeadActivity` (lines 58 and 114) has no handler around it, so a
  listener failure would fail the call after the driver has already moved. The model
  has listeners that never fail (see below).

## Model

| member | source | states |
|---|---|---|
| `SoftLimits.CameraLocation` | src/main/java/org/openpnp/machine/reference/ReferenceHead.java:103-104 | The checked camera pose is `location - hmOffsets + cameraOffsets` on each of the four axes, and mapping it back gives the original target. |
| `SoftLimits.ProjectionRoundTrip` | src/main/java/org/openpnp/machine/reference/ReferenceHead.java:103-104 | The second round trip: mapping a camera pose back to the mountable and projecting it again gives the camera pose, for any offsets. |
| `SoftLimits.OutsideIffNotInBox` | src/main/java/org/openpnp/machine/reference/ReferenceHead.java:107-108 | The code's four-way disjunction rejects exactly the poses outside the closed X/Y box, so the bounds are inclusive. |
| `SoftLimits.MalformedBoxIsEmpty` | src/main/java/org/openpnp/machine/reference/ReferenceHead.java:107-108 | When min > max on X or on Y, the rejection test refuses every pose. |
| `ReferenceHeads.CheckSoftLimits` | src/main/java/org/openpnp/machine/reference/ReferenceHead.java:98-111 | Disabled limits always pass. With limits on, a missing default camera is an error, and otherwise the move passes iff the camera projection is in the inclusive box. A pose outside the box is always refused with `OutOfSoftLimits(mountable, requested target, head)`. |
| `ReferenceHeads.MoveToStep` | src/main/java/org/openpnp/machine/reference/ReferenceHead.java:97-115 | Success iff the check passes, the machine is loaded and the driver completes. The driver is reached iff the check passes and the machine is loaded. On success the log gains exactly the original `(hm, location, speed)` command and then one notification. On failure there is no notification. Check errors and driver faults are passed on unchanged, and an unloaded machine gives `MachineNotLoaded`. |
| `ReferenceHeads.HomeStep` | src/main/java/org/openpnp/machine/reference/ReferenceHead.java:55-59 | The driver home comes first, and only with a loaded machine. A notification is present iff homing succeeded, and then the log is exactly home followed by the notification. After a driver fault the log is exactly the one home command and the fault is passed on unchanged. An unloaded machine gives `MachineNotLoaded`. |
| `ReferenceHeads.DisabledLimitsAlwaysDispatch` | src/main/java/org/openpnp/machine/reference/ReferenceHead.java:98-113 | With limits off and a loaded machine, any target goes to the driver as given. The only possible failure is the driver's own fault. |
| `ReferenceHeads.ZAndRotationIgnored` | src/main/java/org/openpnp/machine/reference/ReferenceHead.java:107-108 | Two targets that agree on X and Y get the same verdict, whatever their Z and rotation. |
| `ReferenceHeads.MalformedBoxRejectsAll` | src/main/java/org/openpnp/machine/reference/ReferenceHead.java:107-110 | With limits on and a box that is empty on X or Y, every move is refused (fails closed). |
| `ReferenceHeads.CornersAccepted` | src/main/java/org/openpnp/machine/reference/ReferenceHead.java:107-108 | A target whose camera pose is exactly on a corner of a well-formed box is accepted. |
| `ReferenceHeads.PerformPreserves` | src/main/java/org/openpnp/machine/reference/ReferenceHead.java:97-115 | One more `home` or `moveTo` keeps the log invariants: every driver move lies in the box when limits are on, and every notification directly follows a driver command. |
| `ReferenceHeads.SessionKeepsInvariant` | src/main/java/org/openpnp/machine/reference/ReferenceHead.java:97-115 | For any sequence of `home`/`moveTo` calls and driver replies, the resulting log satisfies both invariants. |
| `ReferenceHeads.ReferenceHead.constructor` | src/main/java/org/openpnp/machine/reference/ReferenceHead.java:44-52 | A new head has no machine yet and an empty log, and it satisfies the invariant. |
| `ReferenceHeads.ReferenceHead.ConfigurationLoaded` | src/main/java/org/openpnp/machine/reference/ReferenceHead.java:47-50 | The configuration listener makes the machine and driver available and sends nothing. |
| `ReferenceHeads.ReferenceHead.Home` | src/main/java/org/openpnp/machine/reference/ReferenceHead.java:55-59 | Returns the status and appends the events of `HomeStep`, and keeps the invariant. |
| `DoubleLimits.NaNPassesAsWritten` | src/main/java/org/openpnp/machine/reference/ReferenceHead.java:107-108 | On doubles, a camera X of NaN with Y in range passes the strict comparisons as written, so the move is not refused. |
| `DoubleLimits.RejectFailClosed` | src/main/java/org/openpnp/machine/reference/ReferenceHead.java:107-108 | The fail-closed test rejects whenever a checked coordinate or bound is NaN, and agrees with the test as written on finite values. |
| `ReferenceHeads.ReferenceHead.MoveTo` | src/main/java/org/openpnp/machine/reference/ReferenceHead.java:97-115 | Returns the status and appends the events of `MoveToStep`, and keeps the invariant. |

## Left out

- Unit conversion (`convertToUnits`, lines 105-106): every pose is in one common unit, because `Location` is not part of this model.
- Floating point: coordinates and speed are `real`, so there is no IEEE rounding and no NaN or infinity outside `DoubleLimits`.
- ReferenceHeads.SessionKeepsInvariant: the safety half holds for real-valued (finite) coordinates only. On doubles, a NaN in a target or a head offset, or from inf - inf, makes every comparison at lines 107-108 false, so such a move reaches the driver (see Findings).
- `moveToSafeZ` (lines 91-95): it only logs and delegates to `AbstractHead`, which is not part of this model.
- `getDefaultCamera`: it lives in `AbstractHead`, which is not part of this model. The default camera is an optional configuration value, and its absence is the error `NoDefaultCamera` while limits are enabled.
- Late binding: `home` uses the fields set by the listener, and `moveTo` resolves `getMachine()`/`getDriver()` again on each call. Both are modelled by the one flag `machineLoaded`. An unset machine is the error `MachineNotLoaded` instead of a null dereference.
- Changing the soft-limit policy or the head's mountables at run time: these setters are in `AbstractHead`, outside this model. The policy is fixed when a head is built.
- Activity-listener failures: `fireMachineHeadActivity` is ReferenceMachine code and is not part of this model. Notification is a recorded event that always succeeds.
- What the driver does physically, and the casts to `ReferenceCamera`/`ReferenceMachine`: these are foreign calls, recorded only as events and replies.
- Logging (lines 56, 93), the property-sheet and wizard methods (lines 61-89) and `toString`: these are user-interface plumbing and a side channel.
- Concurrency: calls are sequential, as the head assumes.

## Findings

| source | as written | input that shows it | evidently intended | confidence | as-written member | corrected member |
|---|---|---|---|---|---|---|
| src/main/java/org/openpnp/machine/reference/ReferenceHead.java:107-108 | rejects only when a strict `<` or `>` against a bound holds | a target with X = NaN (or head offsets that produce inf - inf) and Y inside the box: no comparison holds, and the move goes to the driver | reject unless the camera pose is provably inside the closed box, so a malformed value fails closed | not executed; medium | `DoubleLimits.NaNPassesAsWritten` | `DoubleLimits.RejectFailClosed` |

On finite values the corrected test and the test as written agree (`RejectFailClosed`'s
second ensures). On the model's `real` coordinates, every contract is stated through
the closed box `InBox`, which is the corrected test.

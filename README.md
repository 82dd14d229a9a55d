# BLE command source and player size controller

This project models the two Unity scripts of a small game prototype:

- `PlayerController` holds a target scale that shrink/restore requests set to
  the configured small or normal size. It also keeps the player's horizontal
  position locked to an anchor captured at start-up.
- `BLEController` is a placeholder Bluetooth-Low-Energy controller. Its
  connection state machine is two flags, `isConnected` and `isScanning`. Once
  connected, a simulation loop emits the commands 0, 1, 0, 1, …, and a
  dispatcher turns each command into a call on the player (0 shrinks, 1
  restores, anything else is ignored). A notification from a real device is
  dispatched through its first byte.

Both scripts mutate fields in place. Each is a Dafny class (`players.dfy`, module
`Players`; `ble.dfy`, module `Ble`) holding the fields the modelled operations
read or write. `PlayerController` also holds the transform's `localScale` and
`position`. `BLEController` calls `playerController` simply `player`, and stands
for the simulation coroutine with three fields: `simulating` (a loop is
waiting), `currentCommand` (the loop's local toggle,
Assets/Scripts/BLEController.cs:77) and a ghost log `emitted`. The logging-only
strings, `commandInterval`, `scaleSpeed`, the key codes and the animator are
not fields of the model.
`BLEController.Valid()` is the object invariant. It says that connected and
scanning never hold together. It also says that the simulation loop's toggle
`currentCommand` and a ghost log `emitted` of its emissions agree with the
alternating sequence `Emitted(n)`, whose contract states that element `i` is
`i mod 2`. Every operation preserves the invariant, starting from the
constructor's idle state.

Unity coroutines are resumed by explicit calls. `ScanComplete` is the scan
coroutine waking after its delay; it may only be called while `isScanning`
holds, since that flag is true exactly while a scan is pending.
`SimulationStep` is the simulation loop waking after one command interval;
it may only be called while a loop is waiting (`simulating`). The engine's
inputs are parameters:

- key presses are booleans;
- the scene lookup of the player is the `found` argument of `BLEController.Start`;
- the `Vector3.Lerp` result of the smoothing step is the `smoothedScale`
  argument of `PlayerController.Update`.

`Vector3` is a triple of exact reals, and only whole-vector and
single-component assignments are modelled.

`scenarios.dfy` (module `Scenarios`) wires the two classes together. It
proves end-to-end runs: connect, scan, three wakes (target small, normal,
small), disconnect, one more wake (nothing emitted), and the loop ends. It
also proves what real notifications do, and that requests made out of turn
change nothing.

The connection state is the code's two booleans, and `Valid()` rules out
both being true. A scan in flight always completes into the connected state,
because a disconnect request while scanning is a no-op: `Disconnect` acts only
when connected (Assets/Scripts/BLEController.cs:137).

## Model

| member | source | states |
|---|---|---|
| Players.Uniform | Assets/Scripts/PlayerController.cs:26 | `Vector3.one * s`: the vector with every component equal to `s` |
| Players.PlayerController.constructor | Assets/Scripts/PlayerController.cs:5-20 | before `Start`, the sizes and transform are as given; the private target scale and lock anchor hold C#'s default zero vector |
| Players.PlayerController.Start | Assets/Scripts/PlayerController.cs:22-29 | the target scale becomes the uniform normal size, the current scale equals the target, the lock anchor equals the position; the frame leaves the position and sizes untouched |
| Players.PlayerController.Shrink | Assets/Scripts/PlayerController.cs:49-53 | the target becomes the uniform small size; only the target may change, and a target already small is left as it was (idempotent) |
| Players.PlayerController.Grow | Assets/Scripts/PlayerController.cs:55-59 | the target becomes the uniform normal size; only the target may change, and a target already normal is left as it was (idempotent) |
| Players.PlayerController.ShrinkPlayer | Assets/Scripts/PlayerController.cs:78-81 | same effect and same frame as `Shrink`: target small, nothing else changed |
| Players.PlayerController.RestorePlayer | Assets/Scripts/PlayerController.cs:83-86 | same effect and same frame as `Grow`: target normal, nothing else changed |
| Players.PlayerController.SetPlayerSize | Assets/Scripts/PlayerController.cs:88-92 | `true` gives target small, `false` gives target normal |
| Players.PlayerController.ReadInput | Assets/Scripts/PlayerController.cs:38-41 | the shrink key gives small, the normal key gives normal, both keys in one frame end at normal, no key keeps the target |
| Players.PlayerController.LockXZPosition | Assets/Scripts/PlayerController.cs:69-75 | x and z of the position equal the anchor's, y is unchanged, a position already on the anchor is unchanged (idempotent); the anchor itself is outside every method's frame except `Start`'s |
| Players.PlayerController.Update | Assets/Scripts/PlayerController.cs:31-36 | one frame: the key effect on the target, the supplied smoothed scale, then x/z locked to the anchor with y kept |
| Ble.CommandAt | Assets/Scripts/BLEController.cs:77-85 | the loop's command after `k` toggles from 0 is `k mod 2` |
| Ble.Emitted | Assets/Scripts/BLEController.cs:77-86 | the first `n` emissions of one loop have length `n` and element `i` equal to `i mod 2`: 0, 1, 0, 1, … |
| Ble.Toggle | Assets/Scripts/BLEController.cs:85 | the result is 0 or 1, and it is 1 exactly when the command was 0 |
| Ble.TargetAfter | Assets/Scripts/BLEController.cs:101-116 | 0 gives the uniform small size, 1 the uniform normal size; any other command keeps the target, so the result is always the target or one of the two sizes |
| Ble.BLEController.constructor | Assets/Scripts/BLEController.cs:11-19 | the initial state is neither connected nor scanning, with no loop, and satisfies the invariant |
| Ble.BLEController.Start | Assets/Scripts/BLEController.cs:21-29 | a missing player reference is replaced by the lookup's result; a present one is kept; the invariant is kept |
| Ble.BLEController.IsConnected | Assets/Scripts/BLEController.cs:126 | returns the connected flag |
| Ble.BLEController.IsScanning | Assets/Scripts/BLEController.cs:127 | returns the scanning flag |
| Ble.BLEController.Update | Assets/Scripts/BLEController.cs:31-42 | connect key from idle starts scanning (not connected); otherwise scanning is unchanged and the disconnect key clears connected; invariant kept |
| Ble.BLEController.StartBLEConnection | Assets/Scripts/BLEController.cs:44-49 | from idle, scanning becomes true and connected stays false; invariant kept |
| Ble.BLEController.ScanComplete | Assets/Scripts/BLEController.cs:51-56 | a pending scan completes: connected and not scanning; a fresh loop with command 0 and empty log exactly when simulation is enabled |
| Ble.BLEController.OnDeviceConnected | Assets/Scripts/BLEController.cs:58-70 | connected becomes true and scanning false; when simulation is enabled a new loop starts at command 0 and replaces any loop still waiting, otherwise loop state is unchanged |
| Ble.BLEController.SimulationStep | Assets/Scripts/BLEController.cs:79-86 | a wake while not connected emits nothing, leaves the player alone and ends the loop; a wake while connected appends the current command (the `k`-th emission is `k mod 2`) and dispatches it to the player, and the loop keeps running |
| Ble.BLEController.OnBLECommandReceived | Assets/Scripts/BLEController.cs:91-117 | with a player, 0 sets its target small, 1 sets it normal, any other value leaves it unchanged; only the player's target may change, and with no player nothing changes; invariant kept |
| Ble.BLEController.DisconnectBLE | Assets/Scripts/BLEController.cs:119-124 | connected becomes false and nothing else changes; invariant kept |
| Ble.BLEController.ConnectToDevice | Assets/Scripts/BLEController.cs:129-133 | from idle a scan starts; when connected or scanning the request changes nothing; invariant kept |
| Ble.BLEController.Disconnect | Assets/Scripts/BLEController.cs:135-139 | afterwards not connected; scanning and everything else are unchanged, so a request while not connected is a no-op |
| Ble.BLEController.ProcessRealBLENotification | Assets/Scripts/BLEController.cs:141-148 | a missing or empty payload changes nothing; otherwise exactly the dispatch of the first byte (0..255); invariant kept |
| Scenarios.ConnectSimulateDisconnect | Assets/Scripts/BLEController.cs:58-89 | connect, scan, three wakes give targets small, normal, small after the initial normal; after a disconnect the next wake emits nothing, the target stays small and the loop has ended |
| Scenarios.RealNotifications | Assets/Scripts/BLEController.cs:141-148 | a missing payload, an empty payload and `[5]` leave the target normal; `[0, 1]` only shrinks |
| Scenarios.RequestsOutOfTurn | Assets/Scripts/BLEController.cs:129-139 | a second connect request while scanning and a disconnect while scanning change nothing; the scan still completes into connected, and a connect request while connected starts no scan |

## Left out

- The per-frame smoothing `SmoothScale` (`Vector3.Lerp` with `scaleSpeed * Time.deltaTime`) is floating-point interpolation. `PlayerController.Update` takes its result as a parameter, and no convergence or overshoot property is claimed.
- The scan delay and the command interval (`WaitForSeconds`, `commandInterval`) are engine scheduling. The coroutines are resumed by explicit `ScanComplete` and `SimulationStep` calls, without durations.
- Ble.BLEController.OnDeviceConnected: when simulation is enabled, the source's `StartCoroutine` (Assets/Scripts/BLEController.cs:66-69) starts a second loop beside any loop still waiting, and that older loop keeps its own `currentCommand`. The model keeps one loop, replacing the older one with a new loop at command 0, so it does not capture the older loop's toggle or its extra emissions.
- Ble.BLEController.ScanComplete: it completes through `OnDeviceConnected`, so it shares the one-loop simplification above.
- `Debug.Log`, `LogWarning` and `LogError` output, and the device name and UUID strings, are logging only. The unknown-command warning and the missing-player error are therefore not modelled, only their lack of effect.
- `Input.GetKeyDown`/`GetKeyUp` polling is replaced by booleans.
- The animator triggers for jump and crouch (Assets/Scripts/PlayerController.cs:43-46) are fire-and-forget engine calls with no state here.
- The `GetComponent<Animator>()` lookup in `PlayerController.Start` is left out, because the animator only receives fire-and-forget triggers. `FindFirstObjectByType` is replaced by an explicit argument.
- Players.PlayerController.Update: assumes an Animator is attached, or that no jump or crouch key goes down and no crouch key is released. Without an Animator, the trigger calls (Assets/Scripts/PlayerController.cs:43-46) throw, the frame ends before the smoothing and the axis lock (lines 34-35), and x/z are not locked on that frame. The model locks x/z on every frame.
- Unity's 32-bit floats are exact reals. This is harmless here, because sizes and positions are only copied, never computed.
- Inspector edits of the public settings while the game runs are not modelled. No model method writes `normalSize`, `smallSize` or `enableSimulation`.

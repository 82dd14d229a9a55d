// The BLE controller: a connect/scan state machine held in two flags, a
// simulation loop that, once connected, emits the commands 0, 1, 0, 1, ...,
// and the dispatcher that turns a command into a call on the player.
//
// The engine's coroutines are resumed by explicit calls: `ScanComplete` is
// the scan coroutine waking after its delay, `SimulationStep` is the
// simulation loop waking after one command interval.  No durations are
// modelled.
module Ble {
  import opened Players

  /** One byte of a BLE notification. */
  newtype byte = b: int | 0 <= b < 256

  /** The toggle of the simulation loop: 0 becomes 1, anything else becomes 0. */
  function Toggle(command: int): (r: int)
    ensures 0 <= r <= 1
    ensures r == 1 <==> command == 0
  {
    if command == 0 then 1 else 0
  }

  /** The value of the loop's `currentCommand` after `k` emissions. */
  function CommandAt(k: nat): (r: int)
    ensures r == k % 2
  {
    if k == 0 then 0 else Toggle(CommandAt(k - 1))
  }

  /** The commands one simulation loop emits in its first `n` iterations. */
  function Emitted(n: nat): (r: seq<int>)
    ensures |r| == n
    ensures forall i :: 0 <= i < n ==> r[i] == i % 2
  {
    if n == 0 then [] else Emitted(n - 1) + [CommandAt(n - 1)]
  }

  /** The player's target scale after `command` is dispatched to it. */
  function TargetAfter(command: int, target: Vec3, smallSize: real, normalSize: real): (r: Vec3)
    ensures command == 0 ==> r == Uniform(smallSize)
    ensures command == 1 ==> r == Uniform(normalSize)
    ensures r != target ==> command == 0 || command == 1
    ensures r == target || r == Uniform(smallSize) || r == Uniform(normalSize)
  {
    if command == 0 then Uniform(smallSize)
    else if command == 1 then Uniform(normalSize)
    else target
  }

  class BLEController {
    // Inspector settings and wiring.
    var player: PlayerController?
    var enableSimulation: bool

    // The connection state machine.
    var isConnected: bool
    var isScanning: bool

    // The simulation loop: whether one is waiting to wake, and its local
    // `currentCommand`.
    var simulating: bool
    var currentCommand: int

    /** The commands the current simulation loop has emitted so far. */
    ghost var emitted: seq<int>

    /** Connected and scanning never hold together, and the loop's toggle
        and log agree with 0, 1, 0, 1, .... */
    ghost predicate Valid()
      reads this
    {
      !(isConnected && isScanning) &&
      emitted == Emitted(|emitted|) &&
      currentCommand == CommandAt(|emitted|)
    }

    /** The player object, when there is one: what the dispatcher may change. */
    function PlayerFrame(): set<PlayerController>
      reads this
    {
      if player == null then {} else {player}
    }

    /** The initial state: neither connected nor scanning, no loop. */
    constructor (player: PlayerController?, enableSimulation: bool)
      ensures Valid()
      ensures this.player == player && this.enableSimulation == enableSimulation
      ensures !isConnected && !isScanning && !simulating
      ensures currentCommand == 0 && emitted == []
    {
      this.player := player;
      this.enableSimulation := enableSimulation;
      isConnected, isScanning := false, false;
      simulating := false;
      currentCommand := 0;
      emitted := [];
    }

    /** A missing player reference is filled in with the one the scene
        lookup found, `found`; a reference already set is kept. */
    method Start(found: PlayerController?)
      requires Valid()
      modifies this`player
      ensures Valid()
      ensures player == if old(player) == null then found else old(player)
    {
      if player == null {
        player := found;
      }
    }

    method IsConnected() returns (r: bool)
      ensures r == isConnected
    {
      r := isConnected;
    }

    method IsScanning() returns (r: bool)
      ensures r == isScanning
    {
      r := isScanning;
    }

    /** The key guards of one frame: connect only from the idle state, then
        disconnect only when connected. */
    method Update(connectKeyDown: bool, disconnectKeyDown: bool)
      requires Valid()
      modifies this`isConnected, this`isScanning
      ensures Valid()
      ensures connectKeyDown && !old(isConnected) && !old(isScanning) ==> !isConnected && isScanning
      ensures !(connectKeyDown && !old(isConnected) && !old(isScanning)) ==>
        isScanning == old(isScanning) &&
        isConnected == (old(isConnected) && !disconnectKeyDown)
    {
      if connectKeyDown && !isConnected && !isScanning {
        StartBLEConnection();
      }
      if disconnectKeyDown && isConnected {
        DisconnectBLE();
      }
    }

    /** Starts a scan; its completion is a later call of `ScanComplete`. */
    method StartBLEConnection()
      requires Valid() && !isConnected && !isScanning
      modifies this`isScanning
      ensures Valid()
      ensures isScanning
    {
      isScanning := true;
    }

    /** The scan coroutine wakes after its delay.  It only exists while
        `isScanning` holds: nothing but its own completion clears the flag. */
    method ScanComplete()
      requires Valid() && isScanning
      modifies this`isConnected, this`isScanning, this`simulating, this`currentCommand, this`emitted
      ensures Valid()
      ensures isConnected && !isScanning
      ensures enableSimulation ==> simulating && currentCommand == 0 && emitted == []
      ensures !enableSimulation ==>
        simulating == old(simulating) && currentCommand == old(currentCommand) && emitted == old(emitted)
    {
      OnDeviceConnected();
    }

    /** Connected, no longer scanning, and a fresh simulation loop when
        simulation is enabled. */
    method OnDeviceConnected()
      requires Valid()
      modifies this`isConnected, this`isScanning, this`simulating, this`currentCommand, this`emitted
      ensures Valid()
      ensures isConnected && !isScanning
      ensures enableSimulation ==> simulating && currentCommand == 0 && emitted == []
      ensures !enableSimulation ==>
        simulating == old(simulating) && currentCommand == old(currentCommand) && emitted == old(emitted)
    {
      isConnected := true;
      isScanning := false;
      if enableSimulation {
        simulating := true;
        currentCommand := 0;
        emitted := [];
      }
    }

    /** The simulation loop wakes after one interval.  When no longer
        connected it emits nothing and ends; otherwise it dispatches its
        current command and toggles it. */
    method SimulationStep()
      requires Valid() && simulating
      modifies this`simulating, this`currentCommand, this`emitted, PlayerFrame()`targetScale
      ensures Valid()
      ensures simulating == old(isConnected)
      ensures old(isConnected) ==> emitted == old(emitted) + [old(currentCommand)]
      ensures old(isConnected) ==> emitted[|emitted| - 1] == (|emitted| - 1) % 2
      ensures !old(isConnected) ==> emitted == old(emitted) && currentCommand == old(currentCommand)
      ensures player != null ==>
        player.targetScale ==
          if old(isConnected)
          then TargetAfter(old(currentCommand), old(player.targetScale), player.smallSize, player.normalSize)
          else old(player.targetScale)
    {
      if !isConnected {
        simulating := false;
        return;
      }
      OnBLECommandReceived(currentCommand);
      emitted := emitted + [currentCommand];
      currentCommand := Toggle(currentCommand);
    }

    /** The dispatcher: 0 shrinks the player, 1 restores it, any other
        command and a missing player change nothing. */
    method OnBLECommandReceived(command: int)
      requires Valid()
      modifies PlayerFrame()`targetScale
      ensures Valid()
      ensures player != null ==>
        player.targetScale == TargetAfter(command, old(player.targetScale), player.smallSize, player.normalSize)
    {
      if player == null {
        return;
      }
      if command == 0 {
        player.ShrinkPlayer();
      } else if command == 1 {
        player.RestorePlayer();
      }
    }

    /** Disconnecting clears the connected flag and nothing else. */
    method DisconnectBLE()
      requires Valid()
      modifies this`isConnected
      ensures Valid()
      ensures !isConnected
    {
      isConnected := false;
    }

    /** A connect request: a scan starts from the idle state, otherwise
        nothing changes. */
    method ConnectToDevice()
      requires Valid()
      modifies this`isScanning
      ensures Valid()
      ensures !old(isConnected) && !old(isScanning) ==> isScanning
      ensures old(isConnected) || old(isScanning) ==> isScanning == old(isScanning)
    {
      if !isConnected && !isScanning {
        StartBLEConnection();
      }
    }

    /** A disconnect request: it takes effect only when connected. */
    method Disconnect()
      requires Valid()
      modifies this`isConnected
      ensures Valid()
      ensures !isConnected
    {
      if isConnected {
        DisconnectBLE();
      }
    }

    /** A notification from a real device: a missing or empty payload is
        ignored, otherwise its first byte alone is dispatched. */
    method ProcessRealBLENotification(data: array?<byte>)
      requires Valid()
      modifies PlayerFrame()`targetScale
      ensures Valid()
      ensures player != null ==>
        player.targetScale ==
          if data == null || data.Length == 0 then old(player.targetScale)
          else TargetAfter(data[0] as int, old(player.targetScale), player.smallSize, player.normalSize)
    {
      if data != null && data.Length > 0 {
        var command := data[0] as int;
        OnBLECommandReceived(command);
      }
    }
  }
}

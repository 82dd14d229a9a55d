// Whole-system runs of the two controllers wired together, observed
// through the player's target scale.
module Scenarios {
  import opened Players
  import opened Ble

  /** Connect, let the scan complete, let the simulation loop wake three
      times, then disconnect and let it wake once more: the target goes
      normal, small, normal, small and stays small, and the loop ends. */
  method ConnectSimulateDisconnect(normalSize: real, smallSize: real, position: Vec3)
    returns (targets: seq<Vec3>, connected: bool, loopRunning: bool)
    ensures targets == [Uniform(normalSize), Uniform(smallSize), Uniform(normalSize),
                        Uniform(smallSize), Uniform(smallSize)]
    ensures !connected && !loopRunning
  {
    var player := new PlayerController(normalSize, smallSize, position, Vec3(1.0, 1.0, 1.0));
    player.Start();
    var ble := new BLEController(player, true);
    ble.ConnectToDevice();
    ble.ScanComplete();
    targets := [player.targetScale];
    ble.SimulationStep();
    targets := targets + [player.targetScale];
    ble.SimulationStep();
    targets := targets + [player.targetScale];
    ble.SimulationStep();
    targets := targets + [player.targetScale];
    ble.Disconnect();
    ble.SimulationStep();
    targets := targets + [player.targetScale];
    connected := ble.IsConnected();
    loopRunning := ble.simulating;
  }

  /** Notifications from a real device: a missing or empty payload and the
      unknown command 5 leave the target alone, and of the payload [0, 1]
      only the first byte, a shrink, takes effect. */
  method RealNotifications(normalSize: real, smallSize: real, position: Vec3)
    returns (afterMissing: Vec3, afterEmpty: Vec3, afterFive: Vec3, afterZeroOne: Vec3)
    ensures afterMissing == afterEmpty == afterFive == Uniform(normalSize)
    ensures afterZeroOne == Uniform(smallSize)
  {
    var player := new PlayerController(normalSize, smallSize, position, Vec3(1.0, 1.0, 1.0));
    player.Start();
    var ble := new BLEController(player, false);
    ble.ProcessRealBLENotification(null);
    afterMissing := player.targetScale;
    var empty := new byte[0];
    ble.ProcessRealBLENotification(empty);
    afterEmpty := player.targetScale;
    var five := new byte[1];
    five[0] := 5;
    ble.ProcessRealBLENotification(five);
    afterFive := player.targetScale;
    var zeroOne := new byte[2];
    zeroOne[0], zeroOne[1] := 0, 1;
    ble.ProcessRealBLENotification(zeroOne);
    afterZeroOne := player.targetScale;
  }

  /** A connect request while scanning or connected, and a disconnect
      request while scanning, change nothing; a scan always completes into
      the connected state. */
  method RequestsOutOfTurn() returns (scanningAfterReconnect: bool, scanningAfterDisconnect: bool,
                                      connectedAfterScan: bool, scanningAfterRepeat: bool)
    ensures scanningAfterReconnect && scanningAfterDisconnect
    ensures connectedAfterScan && !scanningAfterRepeat
  {
    var ble := new BLEController(null, true);
    ble.ConnectToDevice();
    ble.ConnectToDevice();
    scanningAfterReconnect := ble.IsScanning();
    ble.Disconnect();
    scanningAfterDisconnect := ble.IsScanning();
    ble.ScanComplete();
    connectedAfterScan := ble.IsConnected();
    ble.ConnectToDevice();
    scanningAfterRepeat := ble.IsScanning();
  }
}

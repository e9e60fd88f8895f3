/**
 * The scan controls of gui.py's TouchOMaticApp: converting the chosen scan
 * interval to a timer period, starting and stopping the repeating scan timer,
 * opening the serial connection, and what each timer tick sends. The serial
 * handle's traffic is kept as an abstract log of writes and line reads.
 */
module Gui {
  import opened Options

  /** Seconds per unit of the interval-units selector. */
  const UnitSeconds: map<string, nat> := map["Seconds" := 1, "Minutes" := 60, "Hours" := 3600]

  /** The multiplier looked up for a unit label; None where the lookup raises KeyError. */
  function UnitMultiplier(unit: string): (m: Option<nat>)
    ensures m.Some? <==> unit == "Seconds" || unit == "Minutes" || unit == "Hours"
    ensures unit == "Seconds" ==> m == Some(1)
    ensures unit == "Minutes" ==> m == Some(60)
    ensures unit == "Hours" ==> m == Some(3600)
  {
    if unit in UnitSeconds then Some(UnitSeconds[unit]) else None
  }

  /** The timer period, in milliseconds, for a scan every `value` of `unit`; None for an unknown unit. */
  function ScanPeriodMs(value: int, unit: string): (ms: Option<int>)
    ensures ms.Some? <==> UnitMultiplier(unit).Some?
    ensures ms.Some? ==> ms.value == value * UnitMultiplier(unit).value * 1000
  {
    match UnitMultiplier(unit)
    case None => None
    case Some(multiplier) =>
      var seconds := value * multiplier;
      Some(seconds * 1000)
  }

  /** The units agree with each other: n minutes is 60n seconds, n hours is 60n minutes. */
  lemma ScanPeriodUnitsAgree(n: int)
    ensures ScanPeriodMs(n, "Minutes") == ScanPeriodMs(60 * n, "Seconds")
    ensures ScanPeriodMs(n, "Hours") == ScanPeriodMs(60 * n, "Minutes")
  {
  }

  /** The period is whole seconds, and converting it back gives the value chosen. */
  lemma ScanPeriodRoundTrip(value: int, unit: string)
    requires ScanPeriodMs(value, unit).Some?
    ensures var ms := ScanPeriodMs(value, unit).value;
      var m := UnitMultiplier(unit).value;
      m > 0 && ms % 1000 == 0 && (ms / 1000) % m == 0 && ms / 1000 / m == value
  {
  }

  /** The line the scan sends on each tick. */
  const ScanCommand: string := "Scan."

  /** A serial handle opened on a port at a baud rate. */
  datatype Serial = Serial(port: string, baudRate: int)

  /** One operation on the serial handle. */
  datatype SerialOp = Write(handle: Serial, text: string) | ReadLine(handle: Serial)

  class TouchOMaticApp {
    var ser: Option<Serial>
    /** Everything written to or read from a serial handle, oldest first. */
    var serialLog: seq<SerialOp>
    var scanTimerActive: bool
    var scanTimerInterval: int
    var scanTimerSingleShot: bool

    /** No connection yet; the scan timer is stopped and repeating. */
    constructor ()
      ensures ser == None && serialLog == []
      ensures !scanTimerActive && scanTimerInterval == 0 && !scanTimerSingleShot
    {
      ser := None;
      serialLog := [];
      scanTimerActive := false;
      scanTimerInterval := 0;
      scanTimerSingleShot := false;
    }

    /** Opens a serial handle on the chosen port at the chosen baud rate, replacing any earlier one. */
    method Connect(port: string, baudRate: int)
      modifies this
      ensures ser == Some(Serial(port, baudRate))
      ensures serialLog == old(serialLog)
      ensures scanTimerActive == old(scanTimerActive) && scanTimerInterval == old(scanTimerInterval)
      ensures scanTimerSingleShot == old(scanTimerSingleShot)
    {
      ser := Some(Serial(port, baudRate));
    }

    /**
     * (Re)starts the scan timer with the period for `value` `unit`s. An unknown
     * unit fails the lookup (`ok` false) before the timer is touched.
     */
    method StartScanning(value: int, unit: string) returns (ok: bool)
      modifies this
      ensures ok <==> UnitMultiplier(unit).Some?
      ensures ok ==> scanTimerActive && scanTimerInterval == ScanPeriodMs(value, unit).value
      ensures !ok ==> scanTimerActive == old(scanTimerActive) && scanTimerInterval == old(scanTimerInterval)
      ensures ser == old(ser) && serialLog == old(serialLog)
      ensures scanTimerSingleShot == old(scanTimerSingleShot)
    {
      var multiplier := UnitMultiplier(unit);
      if multiplier.None? {
        return false;
      }
      var interval := value * multiplier.value;
      scanTimerInterval := interval * 1000;
      scanTimerActive := true;
      ok := true;
    }

    /** Stops the scan timer. */
    method StopScanning()
      modifies this
      ensures !scanTimerActive
      ensures scanTimerInterval == old(scanTimerInterval) && scanTimerSingleShot == old(scanTimerSingleShot)
      ensures ser == old(ser) && serialLog == old(serialLog)
    {
      scanTimerActive := false;
    }

    /**
     * Writes the scan command and reads one reply line. With no connection the
     * write fails (`ok` false) and nothing is logged.
     */
    method SendScanCommand() returns (ok: bool)
      modifies this
      ensures ok <==> ser.Some?
      ensures ok ==> serialLog == old(serialLog) + [Write(ser.value, ScanCommand), ReadLine(ser.value)]
      ensures !ok ==> serialLog == old(serialLog)
      ensures ser == old(ser) && scanTimerActive == old(scanTimerActive)
      ensures scanTimerInterval == old(scanTimerInterval) && scanTimerSingleShot == old(scanTimerSingleShot)
    {
      if ser.None? {
        return false;
      }
      serialLog := serialLog + [Write(ser.value, ScanCommand)];
      serialLog := serialLog + [ReadLine(ser.value)];
      ok := true;
    }

    /**
     * A timeout of the running scan timer: a single-shot timer would stop, this
     * repeating one stays active; then the scan command is sent.
     */
    method ScanTimerTimeout() returns (ok: bool)
      requires scanTimerActive
      modifies this
      ensures scanTimerActive == !old(scanTimerSingleShot)
      ensures ok <==> ser.Some?
      ensures ok ==> serialLog == old(serialLog) + [Write(ser.value, ScanCommand), ReadLine(ser.value)]
      ensures !ok ==> serialLog == old(serialLog)
      ensures ser == old(ser) && scanTimerInterval == old(scanTimerInterval)
      ensures scanTimerSingleShot == old(scanTimerSingleShot)
    {
      if scanTimerSingleShot {
        scanTimerActive := false;
      }
      ok := SendScanCommand();
    }
  }

  /**
   * A started scan fires on every tick: once connected and started with a
   * known unit, the repeating timer survives every timeout, and each timeout logs one write of
   * the scan command followed by one line read. With an unknown unit the timer
   * never starts, so no timeout comes and nothing is sent.
   */
  method ScanFiresEveryTick(port: string, baudRate: int, value: int, unit: string, ticks: nat)
    returns (app: TouchOMaticApp, started: bool)
    ensures started <==> UnitMultiplier(unit).Some?
    ensures started ==> app.scanTimerActive && app.scanTimerInterval == ScanPeriodMs(value, unit).value
    ensures !started ==> !app.scanTimerActive && app.serialLog == []
    ensures started ==> |app.serialLog| == 2 * ticks
    ensures started ==> forall k :: 0 <= k < ticks ==>
      app.serialLog[2 * k] == Write(Serial(port, baudRate), ScanCommand)
      && app.serialLog[2 * k + 1] == ReadLine(Serial(port, baudRate))
  {
    app := new TouchOMaticApp();
    app.Connect(port, baudRate);
    started := app.StartScanning(value, unit);
    if !started {
      return;
    }
    var t := 0;
    while t < ticks
      invariant 0 <= t <= ticks
      invariant app.scanTimerActive && !app.scanTimerSingleShot
      invariant app.ser == Some(Serial(port, baudRate))
      invariant app.scanTimerInterval == ScanPeriodMs(value, unit).value
      invariant |app.serialLog| == 2 * t
      invariant forall k :: 0 <= k < t ==>
        app.serialLog[2 * k] == Write(Serial(port, baudRate), ScanCommand)
        && app.serialLog[2 * k + 1] == ReadLine(Serial(port, baudRate))
    {
      var sent := app.ScanTimerTimeout();
      t := t + 1;
    }
  }
}

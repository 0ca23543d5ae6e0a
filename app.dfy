/**
 * What `main()` does with the driver: classify each reading into a band,
 * and the sensor's life from construction to teardown.
 */
module App {
  import opened Bytes
  import opened Wrappers
  import opened Transport
  import opened Sensor

  /** The five brightness bands `main()` reports. */
  datatype Band = TooDark | Dark | Medium | Bright | TooBright

  /** The `if`/`elif` chain: each band's upper bound is inclusive. */
  function Classify(v: real): (b: Band)
    ensures b == TooDark <==> v <= 10.0
    ensures b == Dark <==> 10.0 < v <= 25.0
    ensures b == Medium <==> 25.0 < v <= 45.0
    ensures b == Bright <==> 45.0 < v <= 60.0
    ensures b == TooBright <==> 60.0 < v
  {
    if v <= 10.0 then TooDark
    else if v <= 25.0 then Dark
    else if v <= 45.0 then Medium
    else if v <= 60.0 then Bright
    else TooBright
  }

  /** The line printed for a band. */
  function Label(b: Band): string
  {
    match b
    case TooDark => "too dark"
    case Dark => "dark"
    case Medium => "medium"
    case Bright => "bright"
    case TooBright => "too bright"
  }

  /** Position of a band from darkest to brightest. */
  function Rank(b: Band): nat
  {
    match b
    case TooDark => 0
    case Dark => 1
    case Medium => 2
    case Bright => 3
    case TooBright => 4
  }

  /** Brighter light never gets a darker band. */
  lemma ClassifyMonotone(v: real, w: real)
    requires v <= w
    ensures Rank(Classify(v)) <= Rank(Classify(w))
  {
  }

  /** The five labels are pairwise distinct, so the printed line identifies the band. */
  lemma LabelsDistinct(b: Band, c: Band)
    ensures Label(b) == Label(c) ==> b == c
  {
  }

  /** The band boundaries at their edges. */
  lemma ClassifyBoundaries()
    ensures Classify(10.0) == TooDark && Classify(10.0001) == Dark
    ensures Classify(25.0) == Dark && Classify(45.0) == Medium
    ensures Classify(60.0) == Bright && Classify(60.0001) == TooBright
  {
  }

  /** In raw register units the bands end at 12, 30, 54 and 72 (lux times 1.2). */
  lemma ClassifyRaw(raw: int)
    ensures Classify(Lux(raw)) == TooDark <==> raw <= 12
    ensures Classify(Lux(raw)) == Dark <==> 12 < raw <= 30
    ensures Classify(Lux(raw)) == Medium <==> 30 < raw <= 54
    ensures Classify(Lux(raw)) == Bright <==> 54 < raw <= 72
    ensures Classify(Lux(raw)) == TooBright <==> 72 < raw
  {
    var x := Lux(raw);
    assert x * 1.2 == raw as real;
  }

  /**
   * One pass of the polling loop: read the brightness and the line `main()`
   * prints. A failed read gives 0 lux, so it prints "too dark".
   */
  method PollOnce(sensor: BH1750) returns (line: string)
    modifies sensor.pi`trace, sensor.pi`rx
    ensures sensor.pi.trace == old(sensor.pi.trace) + [ReadBlock(sensor.handle, 2)]
    ensures sensor.handle in sensor.pi.open && |old(sensor.pi.rx)| >= 2 ==>
      line == Label(Classify(Lux(BigEndian(old(sensor.pi.rx)[..2]))))
    ensures !(sensor.handle in sensor.pi.open && |old(sensor.pi.rx)| >= 2) ==> line == "too dark"
    ensures sensor.handle in sensor.pi.open && |old(sensor.pi.rx)| >= 2 ==> sensor.pi.rx == old(sensor.pi.rx)[2..]
    ensures !(sensor.handle in sensor.pi.open && |old(sensor.pi.rx)| >= 2) ==> sensor.pi.rx == old(sensor.pi.rx)
  {
    ghost var rx := sensor.pi.rx;
    ghost var ok := sensor.handle in sensor.pi.open && |rx| >= 2;
    var brightness := sensor.GetBrightness();
    if ok {
      assert rx[..2] == [rx[0], rx[1]];
      TwoBytes(rx[0], rx[1]);
    }
    line := Label(Classify(brightness));
  }

  /**
   * `main()` builds the sensor on pin 17 with the pin low; on the first
   * connection of a fresh transport its handle is 0, and the truthiness test
   * of `__del__` then leaves the channel open.
   */
  method MainTeardownLeaks() returns (handle: nat, leaked: bool)
    ensures handle == 0 && leaked
  {
    var pi := new Pi([]);
    var sensor := new BH1750(pi, 17, false);
    sensor.Teardown();
    handle := sensor.handle;
    leaked := sensor.handle in pi.open;
  }

  /** The same life with the corrected teardown: nothing stays open. */
  method MainReleaseCloses() returns (handle: nat, openCount: nat)
    ensures handle == 0 && openCount == 0
  {
    var pi := new Pi([]);
    var sensor := new BH1750(pi, 17, false);
    sensor.Release();
    handle := sensor.handle;
    openCount := |pi.open.Keys|;
  }

  /**
   * Construction followed by a change of address on a fresh transport: the
   * sensor holds exactly one open channel, at the new address.
   */
  method ReconfigureKeepsOneChannel() returns (keys: set<nat>, handle: nat, addr: int)
    ensures keys == {handle} && handle == 1 && addr == HighAddr
  {
    var pi := new Pi([]);
    var sensor := new BH1750(pi, 17, false);
    var ok := sensor.SetAddress(true);
    keys := pi.open.Keys;
    handle := sensor.handle;
    addr := pi.open[handle].addr;
  }
}

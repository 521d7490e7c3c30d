/** The web application's process-wide session state and the operations
    that change it: the registry refresh, a scan with its device marked busy,
    the back-side pass with its merge, and the "done" action.  Each method is
    proved to leave the state, and return the result, that module AppSpec
    prescribes, and to keep the session invariant. */
module App {
  import opened Outcomes
  import opened ScannerModels
  import opened TargetNames
  import opened Scanner
  import opened Duplex
  import opened AppSpec

  class Session {
    var scanners: map<string, SaneScanner>
    var scanListUpdate: bool
    var isBusy: set<string>
    var hasFront: set<string>
    var lastScanOptions: map<string, ScanOptions>
    var lastScanFilenames: map<string, string>
    const dir: ScanDirectory

    /** The whole session state, scan directory included. */
    function State(): AppState
      reads this, dir
    {
      AppState(scanners, scanListUpdate, isBusy, hasFront, lastScanOptions, lastScanFilenames, dir.files)
    }

    ghost predicate Valid()
      reads this, dir
    {
      Consistent(State())
    }

    /** Start-up: the globals begin empty (nothing busy, nothing recorded,
        the flag clear) and the registry is then read once from the devices
        `probes` describe, before any request is served. */
    constructor (dir: ScanDirectory, probes: seq<DeviceProbe>)
      ensures this.dir == dir
      ensures State() == UpdateScannersSpec(Initial(dir.files), probes)
      ensures Valid()
    {
      scanners := map[];
      scanListUpdate := false;
      isBusy := {};
      hasFront := {};
      lastScanOptions := map[];
      lastScanFilenames := map[];
      this.dir := dir;
      new;
      UpdateScanners(probes);
    }

    /** Enumerates the devices and replaces the registry. */
    method UpdateScanners(probes: seq<DeviceProbe>)
      requires Valid()
      modifies this
      ensures Valid()
      ensures State() == UpdateScannersSpec(old(State()), probes)
    {
      UpdateScannersKeepsConsistent(State(), probes);
      scanners := ListScanners(probes);
    }

    /** The refresh with its progress flag; `None` is an enumeration that
        raised, which leaves the flag set. */
    method UpdateScanList(enumeration: Option<seq<DeviceProbe>>) returns (r: Result<(), AppError>)
      requires Valid()
      modifies this
      ensures Valid()
      ensures Step(State(), r) == UpdateScanListSpec(old(State()), enumeration)
    {
      scanListUpdate := true;
      match enumeration {
        case None =>
          return Err(EnumerationFailed);
        case Some(probes) =>
          UpdateScanners(probes);
      }
      scanListUpdate := false;
      r := Ok(());
    }

    /** Runs one scan with the device marked busy for its duration; the
        mark is removed whatever the scan ends with. */
    method BusyScan(data: ScanOptions, now: Timestamp, dev: Device)
      returns (r: Result<Option<string>, ScanError>)
      requires ValidTimestamp(now) && Valid()
      modifies this, dir
      ensures Valid()
      ensures Step(State(), r) == BusyScanStep(old(State()), data, Execute(data, now, dev))
    {
      isBusy := isBusy + {data.scanner};
      r := Scan(data, now, dev, dir);
      isBusy := isBusy - {data.scanner};
    }

    /** A scan that records the request, the file and a pending front side
        when it returns a file. */
    method PerformScan(data: ScanOptions, now: Timestamp, dev: Device)
      returns (r: Result<Option<string>, AppError>)
      requires ValidTimestamp(now) && Valid()
      modifies this, dir
      ensures Valid()
      ensures Step(State(), r) == PerformScanStep(old(State()), data, Execute(data, now, dev))
    {
      ExecuteNamed(data, now, dev);
      var target := BusyScan(data, now, dev);
      match target {
        case Err(e) =>
          r := Err(ScanFailure(e));
        case Ok(None) =>
          r := Ok(None);
        case Ok(Some(t)) =>
          RecordFrontKeepsConsistent(State(), data, t);
          lastScanOptions := lastScanOptions[data.scanner := data];
          lastScanFilenames := lastScanFilenames[data.scanner := t];
          hasFront := hasFront + {data.scanner};
          r := Ok(Some(t));
      }
    }

    /** The back-side request for registry entry `name`; `out` is what its
        scan ended with. */
    method AddBackside(name: string, now: Timestamp, dev: Device)
      returns (r: Result<BacksideOutcome, AppError>, ghost out: Result<Output, ScanError>)
      requires ValidTimestamp(now) && Valid()
      modifies this, dir
      ensures Valid()
      ensures BacksideJobOf(old(State()), name).Ok? ==>
                out == Execute(BacksideJobOf(old(State()), name).value.request, now, dev)
      ensures Step(State(), r) == AddBacksideStep(old(State()), name, out)
    {
      out := Ok(NoPages);
      if name !in scanners {
        return Err(UnknownScanner), out;
      }
      var device := scanners[name].deviceName;
      if device !in lastScanOptions {
        return Err(NoStoredOptions), out;
      }
      var data := lastScanOptions[device];
      if data.scanner !in lastScanFilenames {
        return Err(NoFrontSide), out;
      }
      var front := lastScanFilenames[data.scanner];
      data := data.(filename := BacksideName(front));
      ghost var job := BacksideJobOf(State(), name).value;
      assert data == job.request && device == job.device && front == job.front;
      out := Execute(data, now, dev);
      StoreRequestKeepsConsistent(State(), device, data);
      // the stored options object is the one whose file name changed
      lastScanOptions := lastScanOptions[device := data];
      assert State() == old(State()).(lastScanOptions := old(State()).lastScanOptions[device := data]);
      var scanned := PerformScan(data, now, dev);
      match scanned {
        case Err(e) =>
          return Err(e), out;
        case Ok(None) =>
          return Ok(NoBackside), out;
        case Ok(Some(back)) =>
          r := MergeSides(data.scanner, front, back);
      }
    }

    /** Merges the back side into the front-side file when the page counts
        agree, then deletes the back-side file and clears the device's
        pending state. */
    method MergeSides(scanner: string, front: string, back: string)
      returns (r: Result<BacksideOutcome, AppError>)
      requires Valid()
      modifies this, dir
      ensures Valid()
      ensures Step(State(), r) == FinishBacksideStep(old(State()), scanner, front, back)
    {
      FinishKeepsConsistent(State(), scanner, front, back);
      if front !in dir.files {
        return Err(FileNotFound(front));
      }
      if back !in dir.files {
        return Err(FileNotFound(back));
      }
      var frontDoc, backDoc := dir.files[front], dir.files[back];
      if |frontDoc| == |backDoc| {
        var merged := MergeDuplex(frontDoc, backDoc);
        dir.Save(front, merged);
        r := Ok(Merged);
      } else {
        r := Ok(PageCountMismatch);
      }
      var deleted := dir.Unlink(back);
      assert deleted;
      hasFront := hasFront - {scanner};
      lastScanFilenames := lastScanFilenames - {scanner};
    }

    /** The "done" action for registry entry `name`. */
    method ResetFront(name: string) returns (r: Result<(), AppError>)
      requires Valid()
      modifies this
      ensures Valid()
      ensures Step(State(), r) == ResetFrontSpec(old(State()), name)
    {
      if name !in scanners {
        return Err(UnknownScanner);
      }
      hasFront := hasFront - {scanners[name].deviceName};
      r := Ok(());
    }
  }
}

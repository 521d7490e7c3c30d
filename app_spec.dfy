/** The session state of the web application and, for each operation that
    changes it, the state and result it produces.  The process-wide state is
    the device registry, the "refresh in progress" flag, the busy set, the
    set of devices with a pending front side, the options and output name of
    each device's last successful scan, and the files in the scan directory.
    The class in module App holds this state in fields and is proved to do
    what these functions say. */
module AppSpec {
  import opened Outcomes
  import opened ScannerModels
  import opened TargetNames
  import opened Scanner
  import opened Duplex

  datatype AppState = AppState(
    scanners: map<string, SaneScanner>,
    scanListUpdate: bool,
    isBusy: set<string>,
    hasFront: set<string>,
    lastScanOptions: map<string, ScanOptions>,
    lastScanFilenames: map<string, string>,
    files: map<string, Document>)

  datatype AppError =
    | UnknownScanner        // the registry has no device of that name
    | NoStoredOptions       // no options were stored for the device
    | NoFrontSide           // a back side was asked for without a front side
    | ScanFailure(cause: ScanError)
    | FileNotFound(name: string)
    | EnumerationFailed     // the driver could not enumerate devices at all

  /** The state an operation leaves behind, with what it returns. */
  datatype Step<R> = Step(post: AppState, result: R)

  /** The page the device view shows. */
  datatype View = ScanningView | BacksideView | OptionsView

  /** How a back-side request ended when no error was raised. */
  datatype BacksideOutcome = NoBackside | Merged | PageCountMismatch

  /** A back-side request that passed its lookups: the scan request to run,
      the device its options are stored under, and the front-side file. */
  datatype BacksideJob = BacksideJob(request: ScanOptions, device: string, front: string)

  /** The invariant every reachable state keeps: registry entries and stored
      options sit under their own device name, every recorded output name is
      a valid target name, and a pending front side always has a recorded
      output name, which always has stored options. */
  predicate Consistent(st: AppState)
  {
    && (forall k :: k in st.scanners ==> st.scanners[k].deviceName == k)
    && (forall k :: k in st.lastScanOptions ==> st.lastScanOptions[k].scanner == k)
    && (forall k :: k in st.lastScanFilenames ==> IsTargetName(st.lastScanFilenames[k]))
    && st.hasFront <= st.lastScanFilenames.Keys
    && st.lastScanFilenames.Keys <= st.lastScanOptions.Keys
  }

  function Initial(files: map<string, Document>): AppState
  {
    AppState(map[], false, {}, {}, map[], map[], files)
  }


  // ---------------------------------------------------------------------
  // The operations.  The scan itself is `Execute` of module Scanner; the
  // steps below take what it ended with as the parameter `out`.

  /** Refreshing the registry replaces it wholesale. */
  function UpdateScannersSpec(st: AppState, probes: seq<DeviceProbe>): AppState
  {
    st.(scanners := Registry(probes))
  }

  /** The refresh with its progress flag: set before, cleared after; an
      enumeration that fails as a whole (`None`) leaves the flag set and the
      registry as it was. */
  function UpdateScanListSpec(st: AppState, enumeration: Option<seq<DeviceProbe>>): Step<Result<(), AppError>>
  {
    match enumeration
    case None => Step(st.(scanListUpdate := true), Err(EnumerationFailed))
    case Some(probes) =>
      Step(UpdateScannersSpec(st.(scanListUpdate := true), probes).(scanListUpdate := false), Ok(()))
  }

  /** A scan run with its device marked busy, which ended with `out`: the
      mark is removed on every exit path, and a saved document lands in the
      scan directory. */
  function BusyScanStep(st: AppState, data: ScanOptions, out: Result<Output, ScanError>)
    : Step<Result<Option<string>, ScanError>>
  {
    Step(st.(isBusy := st.isBusy - {data.scanner}, files := FilesAfter(st.files, out)), Returned(out))
  }

  /** A scan that, when it returns a file, records the request, the file and
      a pending front side for the device. */
  function PerformScanStep(st: AppState, data: ScanOptions, out: Result<Output, ScanError>)
    : Step<Result<Option<string>, AppError>>
  {
    var post := BusyScanStep(st, data, out).post;
    match out
    case Err(e) => Step(post, Err(ScanFailure(e)))
    case Ok(NoPages) => Step(post, Ok(None))
    case Ok(Saved(target, _)) =>
      Step(post.(lastScanOptions := post.lastScanOptions[data.scanner := data],
                 lastScanFilenames := post.lastScanFilenames[data.scanner := target],
                 hasFront := post.hasFront + {data.scanner}),
           Ok(Some(target)))
  }

  /** The file name a back-side pass is requested under. */
  function BacksideName(front: string): string
  {
    BaseName(front) + "_backside.pdf"
  }

  /** The lookups of a back-side request for the registry entry `name`: the
      device's stored options, and the front-side file recorded for the
      device those options name.  The request is those options with the
      back-side file name. */
  function BacksideJobOf(st: AppState, name: string): (r: Result<BacksideJob, AppError>)
    ensures r == Err(UnknownScanner) <==> name !in st.scanners
    ensures r == Err(NoStoredOptions) <==>
              name in st.scanners && st.scanners[name].deviceName !in st.lastScanOptions
    ensures r.Ok? <==>
              && name in st.scanners
              && st.scanners[name].deviceName in st.lastScanOptions
              && st.lastScanOptions[st.scanners[name].deviceName].scanner in st.lastScanFilenames
    ensures r.Ok? ==>
              && r.value.device == st.scanners[name].deviceName
              && r.value.front == st.lastScanFilenames[st.lastScanOptions[r.value.device].scanner]
              && r.value.request == st.lastScanOptions[r.value.device].(filename := BacksideName(r.value.front))
  {
    if name !in st.scanners then Err(UnknownScanner)
    else
      var device := st.scanners[name].deviceName;
      if device !in st.lastScanOptions then Err(NoStoredOptions)
      else
        var data := st.lastScanOptions[device];
        if data.scanner !in st.lastScanFilenames then Err(NoFrontSide)
        else
          var front := st.lastScanFilenames[data.scanner];
          Ok(BacksideJob(data.(filename := BacksideName(front)), device, front))
  }

  /** A back-side request for the registry entry `name` whose scan ended with
      `out` (no scan runs when the lookups fail): the stored options of the
      device get the back-side file name (the stored object itself is
      changed), the scan runs with them, and when it produced a file the two
      passes are merged. */
  function AddBacksideStep(st: AppState, name: string, out: Result<Output, ScanError>)
    : Step<Result<BacksideOutcome, AppError>>
  {
    match BacksideJobOf(st, name)
    case Err(e) => Step(st, Err(e))
    case Ok(job) =>
      var scanned := PerformScanStep(st.(lastScanOptions := st.lastScanOptions[job.device := job.request]),
                                     job.request, out);
      match scanned.result
      case Err(e) => Step(scanned.post, Err(e))
      case Ok(None) => Step(scanned.post, Ok(NoBackside))
      case Ok(Some(back)) => FinishBacksideStep(scanned.post, job.request.scanner, job.front, back)
  }

  /** The merge after a back side was saved: with equal page counts the
      merged document replaces the front-side file, otherwise the front side
      stays as it is; either way the back-side file is deleted and the
      pending state of the device is cleared. */
  function FinishBacksideStep(st: AppState, scanner: string, front: string, back: string)
    : Step<Result<BacksideOutcome, AppError>>
  {
    if front !in st.files then Step(st, Err(FileNotFound(front)))
    else if back !in st.files then Step(st, Err(FileNotFound(back)))
    else
      var frontDoc, backDoc := st.files[front], st.files[back];
      var matched := |frontDoc| == |backDoc|;
      var files := if matched then st.files[front := Interleave(frontDoc, backDoc)] else st.files;
      Step(st.(files := files - {back},
               hasFront := st.hasFront - {scanner},
               lastScanFilenames := st.lastScanFilenames - {scanner}),
           Ok(if matched then Merged else PageCountMismatch))
  }

  /** The "done" action: the device no longer has a pending front side. */
  function ResetFrontSpec(st: AppState, name: string): Step<Result<(), AppError>>
  {
    if name !in st.scanners then Step(st, Err(UnknownScanner))
    else Step(st.(hasFront := st.hasFront - {st.scanners[name].deviceName}), Ok(()))
  }

  /** The view for a registry entry: scanning while it is busy, else the
      back-side page while a front side is pending, else the options form. */
  function IsBusyView(st: AppState, name: string): Result<View, AppError>
  {
    if name !in st.scanners then Err(UnknownScanner)
    else if name in st.isBusy then Ok(ScanningView)
    else if st.scanners[name].deviceName in st.hasFront then Ok(BacksideView)
    else Ok(OptionsView)
  }

  // ---------------------------------------------------------------------
  // The scan outcome

  /** What every scan outcome satisfies: a saved document has a valid target
      name. */
  predicate Named(out: Result<Output, ScanError>)
  {
    out.Ok? && out.value.Saved? ==> IsTargetName(out.value.target)
  }

  lemma ExecuteNamed(data: ScanOptions, now: Timestamp, dev: Device)
    requires ValidTimestamp(now)
    ensures Named(Execute(data, now, dev))
  {
    var out := Execute(data, now, dev);
    if out.Ok? && out.value.Saved? {
      ExecuteSaves(data, now, dev);
    }
  }

  // ---------------------------------------------------------------------
  // The busy marker and the front side

  /** After a scan the device is not busy, whatever the outcome, and no
      other device's mark changed. */
  lemma BusyClearedOnEveryPath(st: AppState, data: ScanOptions, out: Result<Output, ScanError>)
    ensures var post := PerformScanStep(st, data, out).post;
            && data.scanner !in post.isBusy
            && forall d :: d != data.scanner ==> (d in post.isBusy <==> d in st.isBusy)
  {
  }

  /** A scan that returns a file records the request, the file and a pending
      front side; one that returns none or fails changes none of the three
      and writes no file. */
  lemma PerformScanRecordsFront(st: AppState, data: ScanOptions, out: Result<Output, ScanError>)
    ensures var s := PerformScanStep(st, data, out);
            && (out.Ok? && out.value.Saved? ==>
                  && s.result == Ok(Some(out.value.target))
                  && s.post.lastScanOptions == st.lastScanOptions[data.scanner := data]
                  && s.post.lastScanFilenames == st.lastScanFilenames[data.scanner := out.value.target]
                  && s.post.hasFront == st.hasFront + {data.scanner}
                  && s.post.files == st.files[out.value.target := out.value.doc])
            && (out == Ok(NoPages) ==> s.result == Ok(None))
            && (out.Err? ==> s.result == Err(ScanFailure(out.error)))
            && (!(out.Ok? && out.value.Saved?) ==>
                  && s.post.lastScanOptions == st.lastScanOptions
                  && s.post.lastScanFilenames == st.lastScanFilenames
                  && s.post.hasFront == st.hasFront
                  && s.post.files == st.files)
            && s.post.scanners == st.scanners && s.post.scanListUpdate == st.scanListUpdate
  {
  }

  lemma PerformScanKeepsConsistent(st: AppState, data: ScanOptions, out: Result<Output, ScanError>)
    requires Consistent(st) && Named(out)
    ensures Consistent(PerformScanStep(st, data, out).post)
  {
  }

  /** Recording a front side saved under a valid name keeps the invariant. */
  lemma RecordFrontKeepsConsistent(st: AppState, data: ScanOptions, target: string)
    requires Consistent(st) && IsTargetName(target)
    ensures Consistent(st.(lastScanOptions := st.lastScanOptions[data.scanner := data],
                           lastScanFilenames := st.lastScanFilenames[data.scanner := target],
                           hasFront := st.hasFront + {data.scanner}))
  {
  }

  // ---------------------------------------------------------------------
  // The back side

  /** Without a recorded front side the request fails and nothing changes:
      no scan runs and no file is touched. */
  lemma BacksideWithoutFront(st: AppState, name: string, out: Result<Output, ScanError>)
    requires Consistent(st)
    requires name in st.scanners && name !in st.lastScanFilenames
    ensures var s := AddBacksideStep(st, name, out);
            && s.result.Err? && (s.result.error == NoStoredOptions || s.result.error == NoFrontSide)
            && s.post == st
  {
  }

  lemma BacksideNameOfTarget(front: string, now: Timestamp)
    requires ValidTimestamp(now) && IsTargetName(front)
    ensures BacksideName(front) == front + "_backside.pdf"
    ensures IsTargetName(front + "_backside.pdf")
    ensures TargetName(front + "_backside.pdf", now) == Ok(front + "_backside.pdf")
  {
    BaseNameOfPlain(front);
    var tail := "_backside.pdf";
    assert '/' !in tail;
    var b := front + tail;
    assert b[|b| - 4..] == tail[|tail| - 4..] == ".pdf";
    TargetNameFixedPoint(b, now);
  }

  /** In a consistent state, a back-side request for a device with a front
      side runs that device's stored options under the name of the front
      side followed by `_backside.pdf` (`Scan_x.pdf` gives
      `Scan_x.pdf_backside.pdf`), and a back side it saves is saved under
      exactly that name. */
  lemma BacksideNaming(st: AppState, name: string, now: Timestamp, dev: Device)
    requires ValidTimestamp(now) && Consistent(st)
    requires name in st.scanners && name in st.lastScanFilenames
    ensures var job := BacksideJobOf(st, name);
            var back := st.lastScanFilenames[name] + "_backside.pdf";
            && job.Ok?
            && job.value.device == name && job.value.front == st.lastScanFilenames[name]
            && job.value.request == st.lastScanOptions[name].(filename := back)
            && (Execute(job.value.request, now, dev).Ok? && Execute(job.value.request, now, dev).value.Saved? ==>
                  Execute(job.value.request, now, dev).value.target == back)
  {
    var front := st.lastScanFilenames[name];
    BacksideNameOfTarget(front, now);
    var job := BacksideJobOf(st, name).value;
    if Execute(job.request, now, dev).Ok? && Execute(job.request, now, dev).value.Saved? {
      ExecuteSaves(job.request, now, dev);
    }
  }

  /** A device with a recorded front side, as the invariant leaves it: its
      registry entry, stored options and recorded file sit under its own
      name, and the file name is a valid output name. */
  predicate FrontRecorded(st: AppState, name: string)
  {
    && name in st.scanners && st.scanners[name].deviceName == name
    && name in st.lastScanOptions && st.lastScanOptions[name].scanner == name
    && name in st.lastScanFilenames && IsTargetName(st.lastScanFilenames[name])
  }

  lemma ConsistentFrontRecorded(st: AppState, name: string)
    requires Consistent(st) && name in st.scanners && name in st.lastScanFilenames
    ensures FrontRecorded(st, name)
  {
  }

  /** The state after the back-side pass saved `backDoc` under its name,
      before the merge. */
  lemma BacksideScanned(st: AppState, name: string, backDoc: Document) returns (post: AppState)
    requires FrontRecorded(st, name)
    ensures var front := st.lastScanFilenames[name];
            var back := front + "_backside.pdf";
            && front != back
            && post == st.(isBusy := st.isBusy - {name},
                           files := st.files[back := backDoc],
                           lastScanOptions := st.lastScanOptions[name := st.lastScanOptions[name].(filename := back)],
                           lastScanFilenames := st.lastScanFilenames[name := back],
                           hasFront := st.hasFront + {name})
            && AddBacksideStep(st, name, Ok(Saved(back, backDoc))) == FinishBacksideStep(post, name, front, back)
  {
    var front := st.lastScanFilenames[name];
    var back := front + "_backside.pdf";
    assert |back| > |front|;
    BaseNameOfPlain(front);
    var request := st.lastScanOptions[name].(filename := back);
    assert BacksideJobOf(st, name) == Ok(BacksideJob(request, name, front));
    var st1 := st.(lastScanOptions := st.lastScanOptions[name := request]);
    post := PerformScanStep(st1, request, Ok(Saved(back, backDoc))).post;
    assert st1.lastScanOptions[name := request] == st.lastScanOptions[name := request];
  }

  /** The merge step on its own: when both files exist, the back-side file
      is deleted and the front-side file holds the merged document exactly
      when the page counts agree. */
  lemma FinishBacksideFiles(st: AppState, scanner: string, front: string, back: string)
    requires front in st.files && back in st.files && front != back
    ensures var s := FinishBacksideStep(st, scanner, front, back);
            var frontDoc, backDoc := st.files[front], st.files[back];
            && s.result.Ok?
            && (s.result == Ok(Merged) <==> |frontDoc| == |backDoc|)
            && (|frontDoc| == |backDoc| ==> s.post.files == st.files[front := Interleave(frontDoc, backDoc)] - {back})
            && (|frontDoc| != |backDoc| ==> s.post.files == st.files - {back})
            && s.post == st.(files := s.post.files,
                             hasFront := st.hasFront - {scanner},
                             lastScanFilenames := st.lastScanFilenames - {scanner})
  {
  }

  /** A back side saved under its name with the same page count as the front
      side: the front-side file now holds the two passes merged, the
      back-side file is gone, the stored options carry the back-side name,
      the device is no longer busy, and it has no front side or recorded
      file any more; nothing else changes. */
  lemma BacksideMerged(st: AppState, name: string, backDoc: Document)
    requires FrontRecorded(st, name)
    requires st.lastScanFilenames[name] in st.files
    requires |st.files[st.lastScanFilenames[name]]| == |backDoc|
    ensures var front := st.lastScanFilenames[name];
            var back := front + "_backside.pdf";
            AddBacksideStep(st, name, Ok(Saved(back, backDoc)))
              == Step(Cleared(st, name, back, st.files[front := Interleave(st.files[front], backDoc)] - {back}),
                      Ok(Merged))
  {
    var front := st.lastScanFilenames[name];
    var back := front + "_backside.pdf";
    var post := BacksideScanned(st, name, backDoc);
    FinishAfterScan(st, name, front, back, backDoc, post);
  }

  /** A back side saved with a different page count: the front-side file is
      left exactly as it was and everything else is as after a merge. */
  lemma BacksideMismatch(st: AppState, name: string, backDoc: Document)
    requires FrontRecorded(st, name)
    requires st.lastScanFilenames[name] in st.files
    requires |st.files[st.lastScanFilenames[name]]| != |backDoc|
    ensures var front := st.lastScanFilenames[name];
            var back := front + "_backside.pdf";
            AddBacksideStep(st, name, Ok(Saved(back, backDoc)))
              == Step(Cleared(st, name, back, st.files - {back}), Ok(PageCountMismatch))
  {
    var front := st.lastScanFilenames[name];
    var back := front + "_backside.pdf";
    var post := BacksideScanned(st, name, backDoc);
    FinishAfterScanMismatch(st, name, front, back, backDoc, post);
  }

  /** The state a saved back side leaves, given the scan directory after the
      merge: the device is neither busy nor pending, has no recorded file,
      and its stored options carry the back-side name. */
  function Cleared(st: AppState, name: string, back: string, files: map<string, Document>): AppState
    requires name in st.lastScanOptions
  {
    st.(isBusy := st.isBusy - {name},
        files := files,
        lastScanOptions := st.lastScanOptions[name := st.lastScanOptions[name].(filename := back)],
        lastScanFilenames := st.lastScanFilenames - {name},
        hasFront := st.hasFront - {name})
  }

  /** The merge step applied to the state after the back-side scan, for
      equal page counts. */
  lemma FinishAfterScan(st: AppState, name: string, front: string, back: string, backDoc: Document,
                        post: AppState)
    requires name in st.lastScanOptions && front in st.files && front != back
    requires |st.files[front]| == |backDoc|
    requires post == st.(isBusy := st.isBusy - {name},
                         files := st.files[back := backDoc],
                         lastScanOptions := st.lastScanOptions[name := st.lastScanOptions[name].(filename := back)],
                         lastScanFilenames := st.lastScanFilenames[name := back],
                         hasFront := st.hasFront + {name})
    ensures FinishBacksideStep(post, name, front, back)
              == Step(Cleared(st, name, back, st.files[front := Interleave(st.files[front], backDoc)] - {back}),
                      Ok(Merged))
  {
    FinishBacksideFiles(post, name, front, back);
    ClearedMaps(st, name, back);
    var merged := Interleave(st.files[front], backDoc);
    assert post.files[front := merged] - {back} == st.files[front := merged] - {back};
  }

  /** The merge step applied to the state after the back-side scan, for
      different page counts. */
  lemma FinishAfterScanMismatch(st: AppState, name: string, front: string, back: string, backDoc: Document,
                                post: AppState)
    requires name in st.lastScanOptions && front in st.files && front != back
    requires |st.files[front]| != |backDoc|
    requires post == st.(isBusy := st.isBusy - {name},
                         files := st.files[back := backDoc],
                         lastScanOptions := st.lastScanOptions[name := st.lastScanOptions[name].(filename := back)],
                         lastScanFilenames := st.lastScanFilenames[name := back],
                         hasFront := st.hasFront + {name})
    ensures FinishBacksideStep(post, name, front, back)
              == Step(Cleared(st, name, back, st.files - {back}), Ok(PageCountMismatch))
  {
    FinishBacksideFiles(post, name, front, back);
    ClearedMaps(st, name, back);
    assert post.files - {back} == st.files - {back};
  }

  lemma ClearedMaps(st: AppState, name: string, back: string)
    ensures st.lastScanFilenames[name := back] - {name} == st.lastScanFilenames - {name}
    ensures st.hasFront + {name} - {name} == st.hasFront - {name}
  {
  }

  /** A back side saved while the front-side file is missing: the request
      fails naming that file, and the back side stays on disk and becomes the
      device's recorded front side. */
  lemma BacksideFrontMissing(st: AppState, name: string, backDoc: Document)
    requires FrontRecorded(st, name)
    requires st.lastScanFilenames[name] !in st.files
    ensures var front := st.lastScanFilenames[name];
            var back := front + "_backside.pdf";
            var s := AddBacksideStep(st, name, Ok(Saved(back, backDoc)));
            && s.result == Err(FileNotFound(front))
            && s.post.files == st.files[back := backDoc]
            && s.post.lastScanFilenames == st.lastScanFilenames[name := back]
            && name in s.post.hasFront
  {
    var post := BacksideScanned(st, name, backDoc);
  }

  /** A back-side pass that yields no pages, or fails, merges nothing and
      deletes nothing: the pending front side and its file name stay; only
      the stored options carry the back-side name. */
  lemma BacksideWithoutPages(st: AppState, name: string, out: Result<Output, ScanError>)
    requires FrontRecorded(st, name)
    requires !(out.Ok? && out.value.Saved?)
    ensures var s := AddBacksideStep(st, name, out);
            var back := st.lastScanFilenames[name] + "_backside.pdf";
            && (out == Ok(NoPages) ==> s.result == Ok(NoBackside))
            && (out.Err? ==> s.result == Err(ScanFailure(out.error)))
            && s.post.files == st.files
            && s.post.hasFront == st.hasFront
            && s.post.lastScanFilenames == st.lastScanFilenames
            && s.post.lastScanOptions == st.lastScanOptions[name := st.lastScanOptions[name].(filename := back)]
  {
    BaseNameOfPlain(st.lastScanFilenames[name]);
  }

  lemma AddBacksideKeepsConsistent(st: AppState, name: string, out: Result<Output, ScanError>)
    requires Consistent(st) && Named(out)
    ensures Consistent(AddBacksideStep(st, name, out).post)
  {
    var job := BacksideJobOf(st, name);
    if job.Ok? {
      var request := job.value.request;
      var st1 := st.(lastScanOptions := st.lastScanOptions[job.value.device := request]);
      StoreRequestKeepsConsistent(st, job.value.device, request);
      PerformScanKeepsConsistent(st1, request, out);
      if out.Ok? && out.value.Saved? {
        var post := PerformScanStep(st1, request, out).post;
        FinishKeepsConsistent(post, request.scanner, job.value.front, out.value.target);
      }
    }
  }

  /** Replacing a device's stored options by a request for that device
      keeps the invariant. */
  lemma StoreRequestKeepsConsistent(st: AppState, device: string, request: ScanOptions)
    requires Consistent(st) && device in st.lastScanOptions
    requires request.scanner == st.lastScanOptions[device].scanner
    ensures Consistent(st.(lastScanOptions := st.lastScanOptions[device := request]))
  {
  }

  /** The merge step keeps the invariant. */
  lemma FinishKeepsConsistent(st: AppState, scanner: string, front: string, back: string)
    requires Consistent(st)
    ensures Consistent(FinishBacksideStep(st, scanner, front, back).post)
  {
  }

  /** The whole duplex session: a front side of k pages saved under `front`,
      then a back side of k pages saved under its back-side name, leave the
      two passes merged under `front`, no back-side file, and the device
      back at the options form. */
  lemma DuplexSession(st: AppState, data: ScanOptions, front: string, frontDoc: Document, backDoc: Document)
    requires data.scanner in st.scanners && st.scanners[data.scanner].deviceName == data.scanner
    requires IsTargetName(front) && |frontDoc| == |backDoc|
    ensures var s1 := PerformScanStep(st, data, Ok(Saved(front, frontDoc)));
            var s2 := AddBacksideStep(s1.post, data.scanner, Ok(Saved(front + "_backside.pdf", backDoc)));
            && s1.result == Ok(Some(front))
            && IsBusyView(s1.post, data.scanner) == Ok(BacksideView)
            && s2.result == Ok(Merged)
            && s2.post.files == st.files[front := Interleave(frontDoc, backDoc)] - {front + "_backside.pdf"}
            && IsBusyView(s2.post, data.scanner) == Ok(OptionsView)
  {
    var d := data.scanner;
    var p1 := PerformScanStep(st, data, Ok(Saved(front, frontDoc))).post;
    FrontSideRecorded(st, data, front, frontDoc);
    assert p1.lastScanFilenames[d] == front && p1.files[front] == frontDoc;
    BacksideSession(p1, d, backDoc);
    Overwritten(st.files, front, frontDoc, Interleave(frontDoc, backDoc));
  }

  /** Writing a file twice leaves the second content. */
  lemma Overwritten(files: map<string, Document>, name: string, first: Document, second: Document)
    ensures files[name := first][name := second] == files[name := second]
  {
  }

  /** The second half of the session: the back side of a recorded front
      side is merged into it and the device shows the options form again. */
  lemma BacksideSession(st: AppState, name: string, backDoc: Document)
    requires FrontRecorded(st, name)
    requires st.lastScanFilenames[name] in st.files
    requires |st.files[st.lastScanFilenames[name]]| == |backDoc|
    ensures var front := st.lastScanFilenames[name];
            var back := front + "_backside.pdf";
            var s2 := AddBacksideStep(st, name, Ok(Saved(back, backDoc)));
            && s2.result == Ok(Merged)
            && s2.post.files == st.files[front := Interleave(st.files[front], backDoc)] - {back}
            && IsBusyView(s2.post, name) == Ok(OptionsView)
  {
    var front := st.lastScanFilenames[name];
    var back := front + "_backside.pdf";
    BacksideMerged(st, name, backDoc);
    ClearedShowsOptions(st, name, back, st.files[front := Interleave(st.files[front], backDoc)] - {back});
  }

  /** A device whose pending state was cleared shows the options form. */
  lemma ClearedShowsOptions(st: AppState, name: string, back: string, files: map<string, Document>)
    requires FrontRecorded(st, name)
    ensures IsBusyView(Cleared(st, name, back, files), name) == Ok(OptionsView)
  {
  }

  /** The first half of the session: a saved front side leaves the device
      with a recorded front side and shows the back-side view. */
  lemma FrontSideRecorded(st: AppState, data: ScanOptions, front: string, frontDoc: Document)
    requires data.scanner in st.scanners && st.scanners[data.scanner].deviceName == data.scanner
    requires IsTargetName(front)
    ensures var s1 := PerformScanStep(st, data, Ok(Saved(front, frontDoc)));
            && s1.result == Ok(Some(front))
            && FrontRecorded(s1.post, data.scanner)
            && s1.post.lastScanFilenames[data.scanner] == front
            && s1.post.files == st.files[front := frontDoc]
            && data.scanner !in s1.post.isBusy
            && IsBusyView(s1.post, data.scanner) == Ok(BacksideView)
  {
  }

  // ---------------------------------------------------------------------
  // The "done" action, the view and the refresh

  /** "Done" clears only the pending front side; the stored options and the
      recorded file name stay. */
  lemma ResetFrontOnlyClearsFront(st: AppState, name: string)
    ensures var s := ResetFrontSpec(st, name);
            && (s.result.Ok? <==> name in st.scanners)
            && (name in st.scanners ==> s.post.hasFront == st.hasFront - {st.scanners[name].deviceName})
            && s.post == st.(hasFront := s.post.hasFront)
  {
  }

  /** Applying "done" twice is the same as applying it once. */
  lemma ResetFrontIdempotent(st: AppState, name: string)
    ensures ResetFrontSpec(ResetFrontSpec(st, name).post, name) == ResetFrontSpec(st, name)
  {
    if name in st.scanners {
      var d := st.scanners[name].deviceName;
      assert st.hasFront - {d} - {d} == st.hasFront - {d};
    }
  }

  /** Because "done" keeps the stored options and the recorded file name, a
      later back-side request finds exactly what it found before. */
  lemma ResetFrontKeepsBacksideJob(st: AppState, name: string)
    ensures BacksideJobOf(ResetFrontSpec(st, name).post, name) == BacksideJobOf(st, name)
  {
  }

  lemma ResetFrontKeepsConsistent(st: AppState, name: string)
    requires Consistent(st)
    ensures Consistent(ResetFrontSpec(st, name).post)
  {
  }

  /** The view precedence: busy first, then a pending front side, then the
      options form; an unknown name is an error. */
  lemma IsBusyPrecedence(st: AppState, name: string)
    requires Consistent(st)
    ensures IsBusyView(st, name).Err? <==> name !in st.scanners
    ensures IsBusyView(st, name) == Ok(ScanningView) <==> name in st.scanners && name in st.isBusy
    ensures IsBusyView(st, name) == Ok(BacksideView) <==>
              name in st.scanners && name !in st.isBusy && name in st.hasFront
    ensures IsBusyView(st, name) == Ok(OptionsView) <==>
              name in st.scanners && name !in st.isBusy && name !in st.hasFront
  {
  }

  /** Every registry entry sits under its own device name, so a refresh
      keeps the invariant. */
  lemma UpdateScannersKeepsConsistent(st: AppState, probes: seq<DeviceProbe>)
    requires Consistent(st)
    ensures Consistent(UpdateScannersSpec(st, probes))
    ensures UpdateScannersSpec(st, probes) == st.(scanners := UpdateScannersSpec(st, probes).scanners)
  {
    forall k | k in Registry(probes)
      ensures Registry(probes)[k].deviceName == k
    {
      RegistryKeys(probes, k);
    }
  }

  /** The registry refresh keeps the invariant, and the flag is clear after
      a refresh that enumerated. */
  lemma UpdateScanListKeepsConsistent(st: AppState, enumeration: Option<seq<DeviceProbe>>)
    requires Consistent(st)
    ensures Consistent(UpdateScanListSpec(st, enumeration).post)
    ensures UpdateScanListSpec(st, enumeration).result.Ok? <==> enumeration.Some?
    ensures UpdateScanListSpec(st, enumeration).post.scanListUpdate <==> enumeration.None?
  {
    if enumeration.Some? {
      UpdateScannersKeepsConsistent(st.(scanListUpdate := true), enumeration.value);
    }
  }
}

/** The scan executor and device enumeration: driving one device through a
    single- or multi-page acquisition and writing the pages as one PDF into
    the scan directory, and building the registry of attached devices. */
module Scanner {
  import opened Outcomes
  import opened ScannerModels
  import opened TargetNames

  /** A raster image as the driver delivers it; its pixels are not modelled. */
  type Image(==)

  /** A PDF page showing one scanned image at the image's own size. */
  datatype Page = PdfPage(image: Image)

  /** A PDF document: its pages in order. */
  type Document = seq<Page>

  /** Encoding one image as a single-page PDF and placing that page. */
  function ProcessPage(image: Image): Page
  {
    PdfPage(image)
  }

  /** The scan output directory: the PDF documents in it, by file name. */
  class ScanDirectory {
    var files: map<string, Document>

    constructor (files: map<string, Document>)
      ensures this.files == files
    {
      this.files := files;
    }

    /** Writes a document, replacing any file of that name. */
    method Save(name: string, doc: Document)
      modifies this
      ensures files == old(files)[name := doc]
    {
      files := files[name := doc];
    }

    /** Deletes a file; `ok` is false (the file-not-found error) when there
        is none. */
    method Unlink(name: string) returns (ok: bool)
      modifies this
      ensures ok == (name in old(files))
      ensures files == old(files) - {name}
    {
      ok := name in files;
      files := files - {name};
    }
  }

  /** What the driver does for one scan: the device cannot be opened (or
      rejects a setting), or it opens and then delivers from the feeder a
      finite run of images that possibly ends in an error, and from the
      flatbed one image or an error. */
  datatype Device =
    | Unavailable
    | Opened(feed: seq<Image>, feedFails: bool, flatbed: Option<Image>)

  datatype ScanError = DeviceUnavailable | InvalidFilename | ScanFailed

  // ---------------------------------------------------------------------
  // Acquisition

  /** The pages made from a run of images, one page per image, in order. */
  function Rendered(images: seq<Image>): (doc: Document)
    ensures |doc| == |images|
    ensures forall i :: 0 <= i < |images| ==> doc[i] == ProcessPage(images[i])
  {
    if images == [] then []
    else Rendered(images[..|images| - 1]) + [ProcessPage(images[|images| - 1])]
  }

  /** The pages an opened device yields for a source: from the feeder when
      the source is exactly "ADF", otherwise one flatbed image.  A driver
      error discards whatever was acquired. */
  function Acquired(source: string, dev: Device): Result<Document, ScanError>
  {
    match dev
    case Unavailable => Err(DeviceUnavailable)
    case Opened(feed, feedFails, flatbed) =>
      if source == "ADF" then
        if feedFails then Err(ScanFailed) else Ok(Rendered(feed))
      else
        match flatbed
        case None => Err(ScanFailed)
        case Some(image) => Ok([ProcessPage(image)])
  }

  /** Feeder acquisition keeps every image in feed order (page n is the n-th
      image pulled); any other source gives exactly one page. */
  lemma AcquisitionOrder(source: string, dev: Device)
    requires dev.Opened?
    ensures source == "ADF" && !dev.feedFails ==>
              && Acquired(source, dev).Ok?
              && |Acquired(source, dev).value| == |dev.feed|
              && forall n :: 0 <= n < |dev.feed| ==>
                   Acquired(source, dev).value[n] == PdfPage(dev.feed[n])
    ensures source != "ADF" && Acquired(source, dev).Ok? ==>
              Acquired(source, dev).value == [PdfPage(dev.flatbed.value)]
    ensures Acquired(source, dev).Err? <==>
              (if source == "ADF" then dev.feedFails else dev.flatbed.None?)
  {
  }

  /** Pulls the pages from an opened device, appending each to the output
      document as it arrives. */
  method AcquirePages(source: string, dev: Device) returns (r: Result<Document, ScanError>)
    requires dev.Opened?
    ensures r == Acquired(source, dev)
  {
    if source == "ADF" {
      var output: Document := [];
      var n := 0;
      while n < |dev.feed|
        invariant 0 <= n <= |dev.feed|
        invariant output == Rendered(dev.feed[..n])
      {
        assert dev.feed[..n + 1][..n] == dev.feed[..n];
        output := output + [ProcessPage(dev.feed[n])];
        n := n + 1;
      }
      assert dev.feed[..n] == dev.feed;
      if dev.feedFails {
        r := Err(ScanFailed);
      } else {
        r := Ok(output);
      }
    } else {
      match dev.flatbed {
        case None => r := Err(ScanFailed);
        case Some(image) => r := Ok([ProcessPage(image)]);
      }
    }
  }

  // ---------------------------------------------------------------------
  // One scan

  /** What a scan ends with when it does not fail: no pages (nothing is
      written), or a document saved under a target name. */
  datatype Output = NoPages | Saved(target: string, doc: Document)

  /** The scan of one request at clock reading `now`: open the device, derive
      the target name, acquire, and save unless there are no pages. */
  function Execute(options: ScanOptions, now: Timestamp, dev: Device): Result<Output, ScanError>
    requires ValidTimestamp(now)
  {
    if dev.Unavailable? then Err(DeviceUnavailable)
    else
      match TargetName(options.filename, now)
      case Err(_) => Err(InvalidFilename)
      case Ok(target) =>
        match Acquired(options.source, dev)
        case Err(e) => Err(e)
        case Ok(pages) => if |pages| == 0 then Ok(NoPages) else Ok(Saved(target, pages))
  }

  /** The value the scan returns: the relative target name, or none. */
  function Returned(out: Result<Output, ScanError>): Result<Option<string>, ScanError>
  {
    match out
    case Err(e) => Err(e)
    case Ok(NoPages) => Ok(None)
    case Ok(Saved(target, _)) => Ok(Some(target))
  }

  /** The scan directory after the scan: only a saved document changes it. */
  function FilesAfter(files: map<string, Document>, out: Result<Output, ScanError>): map<string, Document>
  {
    if out.Ok? && out.value.Saved? then files[out.value.target := out.value.doc] else files
  }

  /** A saved scan is a non-empty document, saved under a valid target name
      derived from the request, holding exactly the acquired pages. */
  lemma ExecuteSaves(options: ScanOptions, now: Timestamp, dev: Device)
    requires ValidTimestamp(now)
    requires Execute(options, now, dev).Ok? && Execute(options, now, dev).value.Saved?
    ensures var out := Execute(options, now, dev).value;
            && IsTargetName(out.target)
            && TargetName(options.filename, now) == Ok(out.target)
            && out.doc != []
            && Acquired(options.source, dev) == Ok(out.doc)
  {
    TargetNameShape(options.filename, now);
  }

  /** Zero pages happen exactly when the feeder is empty and ends without an
      error; the result is then none and the directory is untouched. */
  lemma ZeroPages(options: ScanOptions, now: Timestamp, dev: Device, files: map<string, Document>)
    requires ValidTimestamp(now)
    ensures Execute(options, now, dev) == Ok(NoPages) <==>
              && dev.Opened? && TargetName(options.filename, now).Ok?
              && options.source == "ADF" && dev.feed == [] && !dev.feedFails
    ensures Execute(options, now, dev) == Ok(NoPages) ==>
              Returned(Execute(options, now, dev)) == Ok(None)
              && FilesAfter(files, Execute(options, now, dev)) == files
  {
  }

  /** Failures: an unopenable device, a name without a final component, or a
      driver error during acquisition; none of them writes a file. */
  lemma ExecuteFails(options: ScanOptions, now: Timestamp, dev: Device, files: map<string, Document>)
    requires ValidTimestamp(now)
    ensures Execute(options, now, dev) == Err(DeviceUnavailable) <==> dev.Unavailable?
    ensures Execute(options, now, dev) == Err(InvalidFilename) <==>
              dev.Opened? && BaseName(RequestedName(options.filename, now)) == []
    ensures Execute(options, now, dev).Err? ==> FilesAfter(files, Execute(options, now, dev)) == files
  {
    TargetNameShape(options.filename, now);
  }

  /** Runs one scan and writes its document into the scan directory. */
  method Scan(options: ScanOptions, now: Timestamp, dev: Device, dir: ScanDirectory)
    returns (r: Result<Option<string>, ScanError>)
    requires ValidTimestamp(now)
    modifies dir
    ensures r == Returned(Execute(options, now, dev))
    ensures dir.files == FilesAfter(old(dir.files), Execute(options, now, dev))
  {
    if dev.Unavailable? {
      return Err(DeviceUnavailable);
    }
    var target := TargetName(options.filename, now);
    if target.Err? {
      return Err(InvalidFilename);
    }
    var output := AcquirePages(options.source, dev);
    if output.Err? {
      return Err(output.error);
    }
    if |output.value| > 0 {
      dir.Save(target.value, output.value);
      r := Ok(Some(target.value));
    } else {
      r := Ok(None);
    }
  }

  // ---------------------------------------------------------------------
  // Device enumeration

  /** What enumeration learns of one attached device: its identity, and the
      options it reports, or `None` when opening it or reading its options
      raised. */
  datatype DeviceProbe = DeviceProbe(
    deviceName: string,
    vendor: string,
    model: string,
    typeInfo: string,
    options: Option<seq<RawOption>>)

  /** Validation of a device's options, in reported order; one invalid
      option fails the whole list. */
  function ValidateOptions(raws: seq<RawOption>): (r: Option<seq<SaneScannerOption>>)
    ensures r.Some? <==> forall i :: 0 <= i < |raws| ==> NonNegativeFields(raws[i])
    ensures r.Some? ==> |r.value| == |raws|
    ensures r.Some? ==> forall i :: 0 <= i < |raws| ==> ValidateOption(raws[i]) == Some(r.value[i])
  {
    if raws == [] then Some([])
    else
      var init := raws[..|raws| - 1];
      assert forall i :: 0 <= i < |init| ==> init[i] == raws[i];
      match ValidateOptions(init)
      case None => None
      case Some(options) =>
        match ValidateOption(raws[|raws| - 1])
        case None => None
        case Some(o) => Some(options + [o])
  }

  /** The registry entry for one probe, if the device survives enumeration. */
  function ProbeDevice(p: DeviceProbe): Option<SaneScanner>
  {
    match p.options
    case None => None
    case Some(raws) =>
      match ValidateOptions(raws)
      case None => None
      case Some(options) => Some(SaneScanner(p.deviceName, p.vendor, p.model, p.typeInfo, options))
  }

  /** The registry enumeration builds: every surviving device under its
      device name; a later device of the same name replaces an earlier one. */
  function Registry(probes: seq<DeviceProbe>): map<string, SaneScanner>
  {
    if probes == [] then map[]
    else
      var reg := Registry(probes[..|probes| - 1]);
      var last := probes[|probes| - 1];
      match ProbeDevice(last)
      case None => reg
      case Some(s) => reg[last.deviceName := s]
  }

  predicate Survives(p: DeviceProbe)
  {
    p.options.Some? && forall i :: 0 <= i < |p.options.value| ==> NonNegativeFields(p.options.value[i])
  }

  /** A name is in the registry exactly when some device of that name could
      be opened and all its options validated; every entry is keyed by its
      own device name. */
  lemma {:induction false} RegistryKeys(probes: seq<DeviceProbe>, name: string)
    ensures name in Registry(probes) <==>
              exists i :: 0 <= i < |probes| && probes[i].deviceName == name && Survives(probes[i])
    ensures name in Registry(probes) ==> Registry(probes)[name].deviceName == name
  {
    if probes != [] {
      var init := probes[..|probes| - 1];
      var last := probes[|probes| - 1];
      RegistryKeys(init, name);
      if exists i :: 0 <= i < |init| && init[i].deviceName == name && Survives(init[i]) {
        var i :| 0 <= i < |init| && init[i].deviceName == name && Survives(init[i]);
        assert probes[i] == init[i];
      }
      if exists i :: 0 <= i < |probes| && probes[i].deviceName == name && Survives(probes[i]) {
        var i :| 0 <= i < |probes| && probes[i].deviceName == name && Survives(probes[i]);
        if i < |init| {
          assert init[i] == probes[i];
        }
      }
    }
  }

  /** The entry for a device that survives and is not followed by another
      surviving device of the same name is that device, with its validated
      options in reported order. */
  lemma {:induction false} RegistryEntry(probes: seq<DeviceProbe>, i: nat)
    requires i < |probes| && Survives(probes[i])
    requires forall j :: i < j < |probes| && probes[j].deviceName == probes[i].deviceName ==>
               !Survives(probes[j])
    ensures var p := probes[i];
            && p.deviceName in Registry(probes)
            && Registry(probes)[p.deviceName] == SaneScanner(p.deviceName, p.vendor, p.model,
                                                              p.typeInfo, ValidateOptions(p.options.value).value)
            && |Registry(probes)[p.deviceName].options| == |p.options.value|
  {
    if i < |probes| - 1 {
      var init := probes[..|probes| - 1];
      assert init[i] == probes[i];
      forall j | i < j < |init| && init[j].deviceName == init[i].deviceName
        ensures !Survives(init[j])
      {
        assert init[j] == probes[j];
      }
      RegistryEntry(init, i);
    }
  }

  /** Three devices, the middle one failing to open: the other two are
      listed. */
  lemma EnumerationExample(a: DeviceProbe, b: DeviceProbe, c: DeviceProbe)
    requires a.deviceName == "a" && b.deviceName == "b" && c.deviceName == "c"
    requires a.options == Some([]) && b.options == None && c.options == Some([])
    ensures Registry([a, b, c]).Keys == {"a", "c"}
  {
    assert [a][..0] == [];
    assert Registry([a]).Keys == {"a"};
    assert [a, b][..1] == [a];
    assert Registry([a, b]) == Registry([a]);
    assert [a, b, c][..2] == [a, b];
    assert ProbeDevice(c).Some?;
  }

  /** Reads a device's options one by one; the first option that fails
      validation abandons the device. */
  method ReadOptions(raws: seq<RawOption>) returns (r: Option<seq<SaneScannerOption>>)
    ensures r == ValidateOptions(raws)
  {
    var options: seq<SaneScannerOption> := [];
    var j := 0;
    while j < |raws|
      invariant 0 <= j <= |raws|
      invariant ValidateOptions(raws[..j]) == Some(options)
    {
      assert raws[..j + 1][..j] == raws[..j];
      match ValidateOption(raws[j]) {
        case None =>
          assert ValidateOptions(raws).None? by {
            assert !NonNegativeFields(raws[j]);
          }
          return None;
        case Some(o) => options := options + [o];
      }
      j := j + 1;
    }
    assert raws[..j] == raws;
    r := Some(options);
  }

  /** Enumerates the attached devices; a device whose opening or option
      reading raises is logged and left out. */
  method ListScanners(probes: seq<DeviceProbe>) returns (devices: map<string, SaneScanner>)
    ensures devices == Registry(probes)
  {
    devices := map[];
    var i := 0;
    while i < |probes|
      invariant 0 <= i <= |probes|
      invariant devices == Registry(probes[..i])
    {
      var p := probes[i];
      assert probes[..i + 1][..i] == probes[..i];
      match p.options {
        case None =>
        case Some(raws) =>
          var options := ReadOptions(raws);
          if options.Some? {
            devices := devices[p.deviceName := SaneScanner(p.deviceName, p.vendor, p.model,
                                                           p.typeInfo, options.value)];
          }
      }
      i := i + 1;
    }
    assert probes[..i] == probes;
  }
}

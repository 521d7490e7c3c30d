# simple-webscan: duplex session and scan executor, in Dafny

This project models the core of simple-webscan, a small web front end for
SANE document scanners. The model has two parts.

- **The scan executor** (`simple_webscan/scanner.py`). It derives an output
  file name from the requested name or from the clock. It then acquires
  pages, either every page from the automatic document feeder (ADF) in feed
  order or a single flatbed page, and writes them as one PDF into the scan
  directory. Zero pages means nothing is written.
  - Device enumeration builds the registry of attached devices. A device
    whose opening or option reading raises is left out.
  - The validated records (option kinds, options, devices, scan requests)
    carry the validity rules of their model classes.
- **The duplex session** (`src/app.py`). This is the process-wide state: the
  registry, the "refresh in progress" flag, the busy set, the set of devices
  with a pending front side, and each device's last scan request and output
  file. The operations on it are:
  - a scan with its device marked busy;
  - recording a successful front side;
  - the back-side pass, with its naming, its merge of the two passes into
    sheet order, and its clean-up;
  - the "done" action;
  - the registry refresh;
  - the three-way choice of the device view.

Files and modules:

- `outcomes.dfy` (`Outcomes`): `Option` and `Result`.
- `scanner_models.dfy` (`ScannerModels`): the records and their validation.
  A range triple that does not fit the non-negative integer alternative is
  coerced into the first list alternative that takes its members, as lax
  validation of the union type does: an integer triple with a negative
  member becomes an integer list, and a real triple (as a fixed-point
  option reports it) becomes a range, an integer list or a real list.
- `target_name.dfy` (`TargetNames`): the output-name derivation. It covers
  zero-padded timestamp fields, the final path component, and the suffix
  rule of the path library: the suffix runs from the last dot, provided that
  dot is neither the first nor the last character.
- `scanner.dfy` (`Scanner`):
  - the scan directory as a class over a map from file name to document;
  - acquisition as a loop over the feeder;
  - the whole scan as the function `Execute` and the method `Scan`;
  - enumeration as the function `Registry` and the loop `ListScanners`.
- `duplex.dfy` (`Duplex`): the merge order `Interleave` and the page-by-page
  merge loop `MergeDuplex`.
- `app_spec.dfy` (`AppSpec`): the session state as a value. Each operation
  is a function from the old state to a new state and a result. Every step
  that runs a scan takes the scan's outcome `out` as a parameter, and
  `Execute` supplies that outcome. The invariant `Consistent` is preserved
  by every operation.
- `app.dfy` (`App`): the class `Session`, which holds the globals as
  fields. Each method is proved to produce exactly the state and result that
  `AppSpec` prescribes, and to keep `Consistent`.

The clock, the driver and the image library are parameters:

- a `Timestamp` value stands for the clock;
- a `Device` value stands for what the driver does in one scan: it cannot
  be opened, or it opens and then delivers a finite run of feeder images
  (possibly ending in an error) and a flatbed image or an error;
- an abstract `Image` and `Page` stand for the image library's data, with
  documents as `seq<Page>`.

Behaviour of the code a reader may not expect; the model follows the
code:

- The refresh flag is set and cleared without `try`/`finally`
  (src/app.py:110-118). An enumeration that raises therefore leaves the
  flag set.
- The "done" action clears only the pending-front-side mark
  (src/app.py:255-260). The recorded front-side file name and the stored
  options stay, so a later back-side request still finds and merges the
  old front side (`ResetFrontKeepsBacksideJob`).
- A back-side pass always writes the back-side file name into the stored
  options object before scanning, because the route passes the stored
  object itself (src/app.py:197, 245). A failed or empty back-side pass
  therefore still changes the stored request (`BacksideWithoutPages`).
- When the front-side file has gone missing, opening it raises after the
  back side was saved. The back-side file then stays on disk and becomes
  the device's recorded front side (`BacksideFrontMissing`).
- The rule that a constraint's shape must match the option kind is not
  enforced by the model classes, so the model does not enforce it either.

## Model

| member | source | states |
|---|---|---|
| ScannerModels.Code | simple_webscan/scanner.py:17-23 | every option kind has a code below 6 |
| ScannerModels.FromCode | simple_webscan/scanner.py:17-23 | a kind exists exactly for the codes 0 to 5, and its code is the given one |
| ScannerModels.CodeRoundTrip | simple_webscan/scanner.py:17-23 | decoding the code of a kind gives the kind back |
| ScannerModels.ValidateConstraint | simple_webscan/scanner.py:34 | a non-negative integer triple and every list form are kept as reported; an integer triple with a negative member becomes the integer list of its three members; a real triple keeps its three values and becomes a range iff they are whole and non-negative, an integer list iff they are whole and one is negative, and a real list iff one is not whole |
| ScannerModels.RealRangeExamples | simple_webscan/scanner.py:34 | `(0.0, 215.9, 0.0)` stays a real list, `(0.0, 300.0, 1.0)` becomes the range (0, 300, 1), and `(-1.0, 1.0, 0.0)` becomes the integer list [-1, 1, 0] |
| ScannerModels.ValidateOption | simple_webscan/scanner.py:25-34 | an option validates exactly when index, type, unit, size and cap are non-negative; all fields carry over; a non-triple constraint is kept as reported |
| ScannerModels.ValidateOptionRoundTrip | simple_webscan/scanner.py:25-34 | every valid option passes validation again unchanged |
| ScannerModels.MakeScanOptions | simple_webscan/scanner.py:44-49 | a scan request validates exactly when its resolution is positive; fields carry over and a missing file name becomes "" |
| TargetNames.Padded | simple_webscan/scanner.py:107 | a timestamp field is written as exactly `width` decimal digits whose value is the field |
| TargetNames.LastComponent | simple_webscan/scanner.py:107-108 | the text after the last separator: no separator in it, a tail of the path, preceded by a separator when shorter than the path |
| TargetNames.BaseName | simple_webscan/scanner.py:107-108 | the kept name never contains a directory separator |
| TargetNames.Suffix | simple_webscan/scanner.py:109 | a non-empty suffix is a proper tail of the name, starts with a dot and has at least two characters |
| TargetNames.BaseNameOfPlain | simple_webscan/scanner.py:108 | a name without separators is kept whole |
| TargetNames.BaseNameDropsDirectory | simple_webscan/scanner.py:107-108 | any directories in front of a name are dropped |
| TargetNames.BaseNameIgnoresTrailingSeparator | simple_webscan/scanner.py:107-108 | a trailing separator does not change the kept name |
| TargetNames.BaseNameEmpty | simple_webscan/scanner.py:107-108 | the kept name is empty exactly when the path consists of separators only |
| TargetNames.SuffixIsPdf | simple_webscan/scanner.py:109 | the suffix is exactly `.pdf` iff the name ends in `.pdf` with at least one character before it (case-sensitive) |
| TargetNames.PdfAppendedIsTarget | simple_webscan/scanner.py:110 | appending `.pdf` to a non-empty plain name gives a valid output name |
| TargetNames.TargetNameShape | simple_webscan/scanner.py:107-110 | derivation fails iff the final component is empty; a result is one component ending in `.pdf`; it is the component itself iff that already has suffix `.pdf`, and otherwise the component with `.pdf` appended, never replacing a suffix |
| TargetNames.TargetNameFixedPoint | simple_webscan/scanner.py:107-110 | a valid output name is derived to itself |
| TargetNames.TargetNameIdempotent | simple_webscan/scanner.py:107-110 | deriving a derived name again changes nothing |
| TargetNames.DefaultNameFields | simple_webscan/scanner.py:107 | the default name has 28 characters: `Scan_`, year, month, day, hour, minute and second as zero-padded numbers equal to the clock fields, the separators at fixed places, and `.pdf` |
| TargetNames.DefaultTargetName | simple_webscan/scanner.py:107-110 | an empty request is saved under the default name unchanged |
| TargetNames.PlainNameGainsPdf | simple_webscan/scanner.py:107-110 | a single component that does not end in `.pdf` is saved under that component with `.pdf` appended |
| TargetNames.BareNameExample | simple_webscan/scanner.py:109-110 | `report` gives `report.pdf` |
| TargetNames.UpperCaseSuffixExample | simple_webscan/scanner.py:109-110 | `report.PDF` keeps its suffix and gives `report.PDF.pdf` |
| TargetNames.DirectoryExample | simple_webscan/scanner.py:107-110 | `../etc/report.pdf` gives `report.pdf` |
| TargetNames.SeparatorsOnlyExample | simple_webscan/scanner.py:107-110 | `//` has no name and fails |
| TargetNames.DefaultNameExample | simple_webscan/scanner.py:107 | at 2024-01-02 03:04:05 the default name is `Scan_2024-01-02_03_04_05.pdf` |
| Scanner.ScanDirectory.Save | simple_webscan/scanner.py:121 | writing a document replaces the file of that name and nothing else |
| Scanner.ScanDirectory.Unlink | src/app.py:213 | deleting removes exactly that file and reports whether it existed |
| Scanner.Rendered | simple_webscan/scanner.py:113-115 | one page per image, page n made from image n |
| Scanner.AcquisitionOrder | simple_webscan/scanner.py:113-118 | from the ADF every fed image becomes a page in feed order; any other source gives exactly the one flatbed page; acquisition fails exactly on a driver error |
| Scanner.AcquirePages | simple_webscan/scanner.py:113-118 | the page-by-page acquisition loop yields exactly the acquisition function's result |
| Scanner.ExecuteSaves | simple_webscan/scanner.py:99-125 | a saved scan is a non-empty document holding exactly the acquired pages, saved under the derived valid name |
| Scanner.ZeroPages | simple_webscan/scanner.py:120-125 | no pages happen exactly for an empty, error-free feeder; the result is then none and the directory is unchanged |
| Scanner.ExecuteFails | simple_webscan/scanner.py:101-110 | the device-unavailable error happens iff the device cannot be opened; the name error iff the final component is empty; a failed scan writes nothing |
| Scanner.Scan | simple_webscan/scanner.py:99-125 | the scan returns the relative output name or none, and the directory gains exactly the saved document |
| Scanner.ValidateOptions | simple_webscan/scanner.py:61-73 | a device's options validate iff every one does, giving the validated options in reported order |
| Scanner.ReadOptions | simple_webscan/scanner.py:61-73 | the option-by-option reading loop, abandoned at the first option that fails, yields exactly the validated options or none |
| Scanner.RegistryKeys | simple_webscan/scanner.py:54-84 | a name is listed iff some device of that name opened and all its options validated; every entry sits under its own device name |
| Scanner.RegistryEntry | simple_webscan/scanner.py:54-84 | a surviving device's entry carries its identity and its validated options in reported order |
| Scanner.EnumerationExample | simple_webscan/scanner.py:54-84 | of three devices, one that raises is left out and the other two are listed |
| Scanner.ListScanners | simple_webscan/scanner.py:54-84 | the enumeration loop with its per-device exception handling builds exactly the registry |
| Duplex.InterleaveLength | src/app.py:204-212 | merging k front and k back pages gives 2k pages |
| Duplex.InterleavePair | src/app.py:207-211 | sheet n of the merge: position 2n holds front page n and position 2n+1 holds back page k-1-n |
| Duplex.InterleaveAt | src/app.py:204-212 | the merge of k front and k back pages has 2k pages; position 2n holds front page n and position 2n+1 holds back page k-1-n |
| Duplex.InterleavePermutes | src/app.py:207-211 | the merge is a permutation of the two passes together: no page lost or duplicated |
| Duplex.SplitRecoversPasses | src/app.py:207-211 | the even positions give back the front pass, and the odd positions read from the end give back the back pass |
| Duplex.ThreeSheets | src/app.py:207-211 | `[F0,F1,F2]` and `[B0,B1,B2]` merge to `[F0,B2,F1,B1,F2,B0]` |
| Duplex.MergeDuplex | src/app.py:207-212 | the page-by-page merge loop builds exactly the merge order |
| AppSpec.BacksideJobOf | src/app.py:193-197 | a back-side request fails as unknown iff the registry lacks the name, as having no stored options iff the device has none, and otherwise proceeds iff a front side is recorded; the request is the stored options with the back-side name |
| AppSpec.ExecuteNamed | simple_webscan/scanner.py:107-110 | every saved scan has a valid output name |
| AppSpec.BusyClearedOnEveryPath | src/app.py:53-68 | after a scan, whatever its outcome, the device is not busy and no other device's busy mark changed |
| AppSpec.PerformScanRecordsFront | src/app.py:175-191 | a scan that returns a file records the request, the file and a pending front side, and the file is written; no pages or an error change none of the three and write nothing |
| AppSpec.PerformScanKeepsConsistent | src/app.py:175-191 | a scan keeps the session invariant |
| AppSpec.BacksideWithoutFront | src/app.py:195-196 | without a recorded front side the back-side request fails and nothing changes: no scan, no file |
| AppSpec.BacksideNameOfTarget | src/app.py:197 | the back-side name is the front-side name followed by `_backside.pdf`, is itself a valid output name, and is derived to itself |
| AppSpec.BacksideNaming | src/app.py:197 | a back-side request runs the stored options of the device under the front-side name plus `_backside.pdf`, and a saved back side is saved under exactly that name |
| AppSpec.BacksideScanned | src/app.py:193-198 | for a recorded front side, the back-side name differs from the front-side name, and a saved back side leaves the device not busy, the back side written and recorded as pending, and the stored options carrying the back-side name, before the merge step |
| AppSpec.BacksideMerged | src/app.py:193-216 | equal page counts: the whole new state is given; the front-side file holds the merge, the back-side file is gone, the device is not busy, its pending mark and recorded file are cleared, its stored options carry the back-side name, and nothing else changes |
| AppSpec.BacksideMismatch | src/app.py:193-216 | unequal page counts: the whole new state is given; the front-side file is unchanged, the back-side file is gone, the device is not busy, its pending mark and recorded file are cleared, and nothing else changes |
| AppSpec.BacksideFrontMissing | src/app.py:199-203 | a missing front-side file fails the request after the back side was saved, which stays and becomes the recorded front side |
| AppSpec.BacksideWithoutPages | src/app.py:198 | a back-side pass with no pages or an error neither merges nor deletes; the pending mark and recorded file stay; only the stored options carry the back-side name |
| AppSpec.StoreRequestKeepsConsistent | src/app.py:197 | replacing a device's stored options by a request for the same device keeps the session invariant |
| AppSpec.FinishKeepsConsistent | src/app.py:204-216 | the merge and clean-up keep the session invariant |
| AppSpec.AddBacksideKeepsConsistent | src/app.py:193-216 | a back-side request keeps the session invariant |
| AppSpec.FrontSideRecorded | src/app.py:175-191 | a saved front side is returned, recorded as the device's pending front side with its request, written, the device is not busy, and it shows the back-side view |
| AppSpec.BacksideSession | src/app.py:193-216 | the back side of a recorded front side with as many pages is merged into it, the back-side file is gone, and the device shows the options view again |
| AppSpec.DuplexSession | src/app.py:175-216 | a front side of k pages then a back side of k pages leave the merge under the front-side name, no back-side file, and the device back at the options view |
| AppSpec.ResetFrontOnlyClearsFront | src/app.py:255-260 | "done" fails only for an unknown name and otherwise removes the device from the pending set and changes nothing else |
| AppSpec.ResetFrontIdempotent | src/app.py:255-260 | "done" twice is the same as "done" once |
| AppSpec.ResetFrontKeepsBacksideJob | src/app.py:255-260 | after "done" a back-side request finds exactly what it found before |
| AppSpec.ResetFrontKeepsConsistent | src/app.py:255-260 | "done" keeps the session invariant |
| AppSpec.IsBusyPrecedence | src/app.py:136-156 | an unknown name is an error; a busy device shows the scanning view; otherwise a pending front side shows the back-side view; otherwise the options view, each as an iff |
| AppSpec.UpdateScannersKeepsConsistent | src/app.py:121-133 | the registry is replaced wholesale, nothing else changes, and the invariant holds |
| AppSpec.UpdateScanListKeepsConsistent | src/app.py:110-118 | the refresh succeeds iff enumeration did; the flag is left set exactly when it failed; the invariant holds |
| App.Session.constructor | src/app.py:270 | the globals start empty (registry and busy set declared at simple_webscan/scanner.py:51-52, the rest at src/app.py:34-37) and the registry is then read once from the devices before any request; the invariant holds |
| App.Session.UpdateScanners | src/app.py:121-133 | the registry becomes exactly the enumeration's result |
| App.Session.UpdateScanList | src/app.py:110-118 | the flag is set, the registry refreshed, then the flag cleared; an enumeration error leaves it set |
| App.Session.BusyScan | src/app.py:53-68 | the scan runs and its device's busy mark is removed afterwards on every outcome, with the whole new state given; the invariant is kept |
| App.Session.PerformScan | src/app.py:175-191 | the device is busy only during the scan; a returned file is written and recorded with its request as the device's pending front side; no pages or an error record nothing; the invariant is kept |
| App.Session.AddBackside | src/app.py:193-216 | failed lookups change nothing; otherwise the stored options get the back-side name, the back side is scanned with them, and a saved back side is merged and cleaned up; the invariant is kept |
| App.Session.MergeSides | src/app.py:199-216 | a missing file fails naming it and changes nothing; otherwise the front-side file gets the merge iff the page counts agree, the back-side file is deleted, and the pending mark and recorded file are cleared |
| App.Session.ResetFront | src/app.py:255-260 | an unknown name fails; otherwise only the device's pending mark is removed; the invariant is kept |

## Left out

- The SANE driver session (`sane.init`/`sane.exit`), device handles, and
  setting source, resolution and mode. These are foreign calls. They are
  represented by the `Device` parameter, whose `Unavailable` case covers an
  open or a setting that fails.
- JPEG encoding, temporary files and PDF page geometry (`process_page`).
  These are foreign calls with floating-point rectangles. A page is an
  opaque value made from one image.
- The hardware and shared-state locks and the background tasks. These
  exist for concurrency. The operations are modelled one at a time, and the
  busy mark keeps only its set-before and cleared-after behaviour.
- `datetime.now()` is a parameter. Years outside 1000 to 9999 are excluded,
  because their formatting depends on the platform.
- `Path.resolve()` is modelled as taking the final `/`-separated component.
  The working directory, symbolic links, `.` and `..` as final components,
  and NUL characters are not modelled.
- App.Session.BusyScan: the busy mark during the scan cannot be seen in a
  postcondition, which speaks only of the state after the call; the
  contract states that the mark is gone afterwards on every outcome.
- The HTTP routes, templates and the view rendering. `is_busy` is modelled
  as the view choice it makes.
- Logging and console output.
- Configuration loading, the command-line entry point and the second
  `app.py`/`state.py`/`ScannerModels.py` copies. These do not hold the core;
  `ScannerModels.py` repeats the records of `scanner.py`.

/** The validated records that the scanner module exchanges with the web
    layer: option kinds, device options, devices and scan requests.  A value
    of one of the validated types below is one that the record validation
    accepted; the `Raw…` types hold what the driver reports before that
    validation. */
module ScannerModels {
  import opened Outcomes

  /** The SANE option kinds, an integer enumeration with codes 0 to 5. */
  datatype SaneType = Bool | Int | Fixed | String | Button | Group

  function Code(t: SaneType): (c: nat)
    ensures c < 6
  {
    match t
    case Bool => 0
    case Int => 1
    case Fixed => 2
    case String => 3
    case Button => 4
    case Group => 5
  }

  /** The kind with the given code, if there is one. */
  function FromCode(c: int): (r: Option<SaneType>)
    ensures r.Some? <==> 0 <= c < 6
    ensures r.Some? ==> Code(r.value) == c
  {
    if c == 0 then Some(Bool)
    else if c == 1 then Some(Int)
    else if c == 2 then Some(Fixed)
    else if c == 3 then Some(String)
    else if c == 4 then Some(Button)
    else if c == 5 then Some(Group)
    else None
  }

  lemma CodeRoundTrip(t: SaneType)
    ensures FromCode(Code(t)) == Some(t)
  {
  }

  /** An option constraint as the validated record holds it: none, a
      non-negative (min, max, quant) triple, or a list of integers, reals or
      strings. */
  datatype Constraint =
    | NoConstraint
    | Range(min: nat, max: nat, quant: nat)
    | IntList(ints: seq<int>)
    | RealList(reals: seq<real>)
    | StringList(strings: seq<string>)

  /** An option constraint as the driver reports it: a range is an integer
      triple for an integer option and a real triple for a fixed-point
      one. */
  datatype RawConstraint =
    | RawNone
    | RawTriple(a: int, b: int, c: int)
    | RawRealTriple(x: real, y: real, z: real)
    | RawInts(ints: seq<int>)
    | RawReals(reals: seq<real>)
    | RawStrings(strings: seq<string>)

  /** One option of a device (index, name, title, description, kind, unit,
      storage size, capability mask, constraint). */
  datatype SaneScannerOption = SaneScannerOption(
    index: nat,
    name: Option<string>,
    title: string,
    desc: Option<string>,
    kind: nat,
    unit: nat,
    size: nat,
    cap: nat,
    constraint: Constraint)

  /** The nine-field option tuple the driver reports. */
  datatype RawOption = RawOption(
    index: int,
    name: Option<string>,
    title: string,
    desc: Option<string>,
    kind: int,
    unit: int,
    size: int,
    cap: int,
    constraint: RawConstraint)

  datatype SaneScanner = SaneScanner(
    deviceName: string,
    vendor: string,
    model: string,
    typeInfo: string,
    options: seq<SaneScannerOption>)

  type Positive = x: int | x > 0 witness 1

  /** A scan request; `filename` empty means "derive a name from the clock". */
  datatype ScanOptions = ScanOptions(
    scanner: string,
    resolution: Positive,
    source: string,
    mode: string,
    filename: string)

  datatype ValidationError = ValidationError(field: string)

  /** The driver view of a validated constraint. */
  function RawOfConstraint(c: Constraint): RawConstraint
  {
    match c
    case NoConstraint => RawNone
    case Range(min, max, quant) => RawTriple(min, max, quant)
    case IntList(xs) => RawInts(xs)
    case RealList(xs) => RawReals(xs)
    case StringList(xs) => RawStrings(xs)
  }

  /** The driver view of a validated option. */
  function RawOfOption(o: SaneScannerOption): RawOption
  {
    RawOption(o.index, o.name, o.title, o.desc, o.kind, o.unit, o.size, o.cap,
              RawOfConstraint(o.constraint))
  }

  predicate IsWhole(x: real)
  {
    x.Floor as real == x
  }

  /** The numbers a constraint holds, as reals (none for a string list or
      no constraint). */
  function Numbers(c: Constraint): seq<real>
  {
    match c
    case Range(min, max, quant) => [min as real, max as real, quant as real]
    case IntList(xs) => seq(|xs|, i requires 0 <= i < |xs| => xs[i] as real)
    case RealList(xs) => xs
    case _ => []
  }

  /** Validation of the constraint field.  The field's type is the union
      "non-negative int triple | list of int | list of float | list of str",
      and a triple that does not fit the first alternative is coerced, in
      lax mode, into the first list alternative that takes its members.  A
      real number converts to an integer only when it is whole.  So an
      integer triple with a negative member becomes an integer list, and a
      real triple becomes a range when its members are whole and
      non-negative, an integer list when they are whole and one is negative,
      and a real list otherwise.  No number changes its value. */
  function ValidateConstraint(raw: RawConstraint): (c: Constraint)
    ensures raw.RawTriple? && raw.a >= 0 && raw.b >= 0 && raw.c >= 0 ==> RawOfConstraint(c) == raw
    ensures !raw.RawTriple? && !raw.RawRealTriple? ==> RawOfConstraint(c) == raw
    ensures raw.RawTriple? && (raw.a < 0 || raw.b < 0 || raw.c < 0) ==> c == IntList([raw.a, raw.b, raw.c])
    ensures raw.RawRealTriple? ==> Numbers(c) == [raw.x, raw.y, raw.z]
    ensures raw.RawRealTriple? ==>
              (c.Range? <==> IsWhole(raw.x) && IsWhole(raw.y) && IsWhole(raw.z)
                             && raw.x >= 0.0 && raw.y >= 0.0 && raw.z >= 0.0)
    ensures raw.RawRealTriple? ==>
              (c.IntList? <==> IsWhole(raw.x) && IsWhole(raw.y) && IsWhole(raw.z)
                               && (raw.x < 0.0 || raw.y < 0.0 || raw.z < 0.0))
    ensures raw.RawRealTriple? ==>
              (c.RealList? <==> !(IsWhole(raw.x) && IsWhole(raw.y) && IsWhole(raw.z)))
  {
    match raw
    case RawNone => NoConstraint
    case RawTriple(a, b, c) =>
      if a >= 0 && b >= 0 && c >= 0 then Range(a, b, c) else IntList([a, b, c])
    case RawRealTriple(x, y, z) =>
      if IsWhole(x) && IsWhole(y) && IsWhole(z) then
        if x >= 0.0 && y >= 0.0 && z >= 0.0 then Range(x.Floor, y.Floor, z.Floor)
        else IntList([x.Floor, y.Floor, z.Floor])
      else
        RealList([x, y, z])
    case RawInts(xs) => IntList(xs)
    case RawReals(xs) => RealList(xs)
    case RawStrings(xs) => StringList(xs)
  }

  predicate NonNegativeFields(raw: RawOption)
  {
    raw.index >= 0 && raw.kind >= 0 && raw.unit >= 0 && raw.size >= 0 && raw.cap >= 0
  }

  /** Validation of one reported option: `None` is the validation error that
      the model class raises for a negative index, kind, unit, size or cap. */
  function ValidateOption(raw: RawOption): (r: Option<SaneScannerOption>)
    ensures r.Some? <==> NonNegativeFields(raw)
    ensures r.Some? ==>
              && r.value.index == raw.index && r.value.name == raw.name
              && r.value.title == raw.title && r.value.desc == raw.desc
              && r.value.kind == raw.kind && r.value.unit == raw.unit
              && r.value.size == raw.size && r.value.cap == raw.cap
    ensures r.Some? && !raw.constraint.RawTriple? && !raw.constraint.RawRealTriple? ==>
              RawOfOption(r.value) == raw
  {
    if NonNegativeFields(raw) then
      Some(SaneScannerOption(raw.index, raw.name, raw.title, raw.desc, raw.kind, raw.unit,
                             raw.size, raw.cap, ValidateConstraint(raw.constraint)))
    else
      None
  }

  /** A fixed-point scan-area range such as (0.0, 215.9, 0.0) is kept as a
      real list; a whole one such as (0.0, 300.0, 1.0) becomes a range. */
  lemma RealRangeExamples()
    ensures ValidateConstraint(RawRealTriple(0.0, 215.9, 0.0)) == RealList([0.0, 215.9, 0.0])
    ensures ValidateConstraint(RawRealTriple(0.0, 300.0, 1.0)) == Range(0, 300, 1)
    ensures ValidateConstraint(RawRealTriple(-1.0, 1.0, 0.0)) == IntList([-1, 1, 0])
  {
    assert !IsWhole(215.9) by {
      assert 215 as real <= 215.9 < 216 as real;
    }
  }

  /** Every validated option passes validation again unchanged. */
  lemma ValidateOptionRoundTrip(o: SaneScannerOption)
    ensures ValidateOption(RawOfOption(o)) == Some(o)
  {
    match o.constraint
    case NoConstraint =>
    case Range(_, _, _) =>
    case IntList(_) =>
    case RealList(_) =>
    case StringList(_) =>
  }

  /** Validation of a scan request: the resolution must be positive and a
      missing filename defaults to the empty string. */
  function MakeScanOptions(scanner: string, resolution: int, source: string, mode: string,
                           filename: Option<string>): (r: Result<ScanOptions, ValidationError>)
    ensures r.Ok? <==> resolution > 0
    ensures r.Ok? ==>
              && r.value.scanner == scanner && r.value.resolution == resolution
              && r.value.source == source && r.value.mode == mode
    ensures r.Ok? && filename.None? ==> r.value.filename == ""
    ensures r.Ok? && filename.Some? ==> r.value.filename == filename.value
  {
    if resolution > 0 then
      Ok(ScanOptions(scanner, resolution, source, mode,
                     match filename case Some(f) => f case None => ""))
    else
      Err(ValidationError("resolution"))
  }
}

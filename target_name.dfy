/** The output file name a scan writes to: the requested name, or a
    timestamped default; reduced to its final path component; with `.pdf`
    appended unless its suffix already is `.pdf`.  Paths are POSIX paths with
    `/` as the only separator. */
module TargetNames {
  import opened Outcomes

  /** A wall-clock reading, as the clock of the host reports it. */
  datatype Timestamp = Timestamp(year: int, month: int, day: int,
                                 hour: int, minute: int, second: int)

  predicate ValidTimestamp(t: Timestamp)
  {
    && 1000 <= t.year <= 9999 && 1 <= t.month <= 12 && 1 <= t.day <= 31
    && 0 <= t.hour < 24 && 0 <= t.minute < 60 && 0 <= t.second < 60
  }

  function Pow10(n: nat): (p: nat)
    ensures p >= 1
  {
    if n == 0 then 1 else 10 * Pow10(n - 1)
  }

  predicate IsDigit(c: char)
  {
    '0' <= c <= '9'
  }

  /** The number a string of decimal digits spells. */
  function DigitsValue(s: string): nat
    requires forall i :: 0 <= i < |s| ==> IsDigit(s[i])
  {
    if s == [] then 0
    else
      assert IsDigit(s[|s| - 1]);
      10 * DigitsValue(s[..|s| - 1]) + (s[|s| - 1] as int - '0' as int)
  }

  /** `n` written in decimal with leading zeros to exactly `width` digits. */
  function Padded(n: nat, width: nat): (s: string)
    requires n < Pow10(width)
    ensures |s| == width
    ensures forall i :: 0 <= i < |s| ==> IsDigit(s[i])
    ensures DigitsValue(s) == n
  {
    if width == 0 then ""
    else
      var s := Padded(n / 10, width - 1) + [('0' as int + n % 10) as char];
      assert s[..|s| - 1] == Padded(n / 10, width - 1);
      s
  }

  /** The default name `Scan_<YYYY>-<MM>-<DD>_<HH>_<MM>_<SS>.pdf`. */
  function DefaultName(t: Timestamp): string
    requires ValidTimestamp(t)
  {
    "Scan_" + Padded(t.year, 4) + "-" + Padded(t.month, 2) + "-" + Padded(t.day, 2)
    + "_" + Padded(t.hour, 2) + "_" + Padded(t.minute, 2) + "_" + Padded(t.second, 2) + ".pdf"
  }

  /** The name the caller asked for, or the default name when it is empty. */
  function RequestedName(filename: string, now: Timestamp): string
    requires ValidTimestamp(now)
  {
    if filename != "" then filename else DefaultName(now)
  }

  /** The text after the last `/` (all of `p` when it has none). */
  function LastComponent(p: string): (r: string)
    ensures '/' !in r
    ensures |r| <= |p| && r == p[|p| - |r|..]
    ensures |r| < |p| ==> p[|p| - |r| - 1] == '/'
  {
    if p == [] || p[|p| - 1] == '/' then []
    else LastComponent(p[..|p| - 1]) + [p[|p| - 1]]
  }

  /** The final path component: trailing separators are ignored, and the
      result is empty only for a path made of separators alone. */
  function BaseName(p: string): (r: string)
    ensures '/' !in r
  {
    if p == [] then []
    else if p[|p| - 1] == '/' then BaseName(p[..|p| - 1])
    else LastComponent(p)
  }

  /** Index of the last `.` in `s`, or -1. */
  function LastDot(s: string): (i: int)
    ensures -1 <= i < |s|
    ensures i >= 0 ==> s[i] == '.'
    ensures forall k :: i < k < |s| ==> s[k] != '.'
  {
    if s == [] then -1
    else if s[|s| - 1] == '.' then |s| - 1
    else LastDot(s[..|s| - 1])
  }

  /** The file-name suffix: from the last `.` on, provided that dot is neither
      the first nor the last character; otherwise empty. */
  function Suffix(name: string): (r: string)
    ensures r != [] ==> 2 <= |r| < |name| && r == name[|name| - |r|..] && r[0] == '.'
  {
    var i := LastDot(name);
    if 0 < i < |name| - 1 then name[i..] else ""
  }

  predicate EndsWithPdf(s: string)
  {
    |s| >= 4 && s[|s| - 4..] == ".pdf"
  }

  /** A name a scan can write to: a single path component ending in `.pdf`
      with something before it, which is the same as a component whose
      suffix is `.pdf` (lemma SuffixIsPdf). */
  predicate IsTargetName(s: string)
  {
    '/' !in s && |s| > 4 && EndsWithPdf(s)
  }

  datatype NameError = EmptyName

  /** The output name for a requested file name at clock reading `now`.  A
      name whose final component is empty cannot take a suffix and is an
      error. */
  function TargetName(filename: string, now: Timestamp): Result<string, NameError>
    requires ValidTimestamp(now)
  {
    var base := BaseName(RequestedName(filename, now));
    if Suffix(base) == ".pdf" then Ok(base)
    else if base == "" then Err(EmptyName)
    else Ok(base + ".pdf")
  }

  // ---------------------------------------------------------------------
  // The final path component

  /** A prefix of a name without separators has none either. */
  lemma PlainPrefix(p: string, n: nat)
    requires n <= |p| && '/' !in p
    ensures '/' !in p[..n]
  {
  }

  lemma {:induction false} LastComponentOfPlain(p: string)
    requires '/' !in p
    ensures LastComponent(p) == p
  {
    if p != [] {
      var q := p[..|p| - 1];
      PlainPrefix(p, |p| - 1);
      LastComponentOfPlain(q);
      assert p == q + [p[|p| - 1]];
    }
  }

  /** A name without separators is kept whole. */
  lemma BaseNameOfPlain(p: string)
    requires '/' !in p
    ensures BaseName(p) == p
  {
    if p != [] {
      LastComponentOfPlain(p);
    }
  }

  lemma {:induction false} LastComponentAfterSeparator(dir: string, name: string)
    requires '/' !in name
    ensures LastComponent(dir + "/" + name) == name
  {
    var p := dir + "/" + name;
    if name == [] {
      assert p[|p| - 1] == '/';
    } else {
      var name' := name[..|name| - 1];
      PlainPrefix(name, |name| - 1);
      assert p[..|p| - 1] == dir + "/" + name';
      LastComponentAfterSeparator(dir, name');
      assert name == name' + [name[|name| - 1]];
    }
  }

  /** Only the final component survives, whatever directories precede it. */
  lemma BaseNameDropsDirectory(dir: string, name: string)
    requires name != [] && '/' !in name
    ensures BaseName(dir + "/" + name) == name
  {
    var p := dir + "/" + name;
    assert p[|p| - 1] == name[|name| - 1];
    LastComponentAfterSeparator(dir, name);
  }

  /** A trailing separator does not change the final component. */
  lemma BaseNameIgnoresTrailingSeparator(p: string)
    ensures BaseName(p + "/") == BaseName(p)
  {
    assert (p + "/")[..|p|] == p;
  }

  /** The final component is empty exactly for paths made of separators. */
  lemma {:induction false} BaseNameEmpty(p: string)
    ensures BaseName(p) == [] <==> forall i :: 0 <= i < |p| ==> p[i] == '/'
  {
    if p != [] {
      if p[|p| - 1] == '/' {
        var q := p[..|p| - 1];
        BaseNameEmpty(q);
        if forall i :: 0 <= i < |q| ==> q[i] == '/' {
          forall i | 0 <= i < |p| ensures p[i] == '/' {
            if i < |q| { assert q[i] == p[i]; }
          }
        } else {
          var i :| 0 <= i < |q| && q[i] != '/';
          assert p[i] != '/';
        }
      } else {
        assert LastComponent(p) != [];
      }
    }
  }

  // ---------------------------------------------------------------------
  // Suffixes

  /** The suffix is `.pdf` exactly when the name ends in `.pdf` and has at
      least one character before it. */
  lemma SuffixIsPdf(name: string)
    ensures Suffix(name) == ".pdf" <==> |name| > 4 && EndsWithPdf(name)
  {
    if |name| > 4 && EndsWithPdf(name) {
      var n := |name|;
      assert name[n - 4] == '.';
      assert name[n - 3] == 'p' && name[n - 2] == 'd' && name[n - 1] == 'f';
      var i := LastDot(name);
      assert i == n - 4;
    }
    if Suffix(name) == ".pdf" {
      assert EndsWithPdf(name);
    }
  }

  lemma PdfAppendedIsTarget(base: string)
    requires base != [] && '/' !in base
    ensures IsTargetName(base + ".pdf")
  {
    var s := base + ".pdf";
    assert s[|s| - 4..] == ".pdf";
  }

  // ---------------------------------------------------------------------
  // The target name

  /** The target is a single component ending in `.pdf`; it is the base
      name itself exactly when that already ends in `.pdf` (with something
      before it), and the base name with `.pdf` appended otherwise; it fails
      only when the base name is empty. */
  lemma TargetNameShape(filename: string, now: Timestamp)
    requires ValidTimestamp(now)
    ensures var base := BaseName(RequestedName(filename, now));
            var r := TargetName(filename, now);
            && (r.Err? <==> base == [])
            && (r.Ok? ==> IsTargetName(r.value) && EndsWithPdf(r.value))
            && (r.Ok? ==> (r.value == base <==> |base| > 4 && EndsWithPdf(base)))
            && (r.Ok? && r.value != base ==> r.value == base + ".pdf")
  {
    var base := BaseName(RequestedName(filename, now));
    SuffixIsPdf(base);
    if Suffix(base) != ".pdf" && base != [] {
      PdfAppendedIsTarget(base);
      SuffixIsPdf(base + ".pdf");
    }
  }

  /** A valid target name is its own target: deriving the name twice is the
      same as deriving it once. */
  lemma TargetNameFixedPoint(name: string, now: Timestamp)
    requires ValidTimestamp(now) && IsTargetName(name)
    ensures TargetName(name, now) == Ok(name)
  {
    BaseNameOfPlain(name);
    SuffixIsPdf(name);
  }

  lemma TargetNameIdempotent(filename: string, now: Timestamp)
    requires ValidTimestamp(now) && TargetName(filename, now).Ok?
    ensures TargetName(TargetName(filename, now).value, now) == TargetName(filename, now)
  {
    TargetNameShape(filename, now);
    TargetNameFixedPoint(TargetName(filename, now).value, now);
  }

  /** The default name: 28 characters, `Scan_`, the six clock fields as
      zero-padded decimal numbers at fixed places, and `.pdf`. */
  lemma DefaultNameFields(t: Timestamp)
    requires ValidTimestamp(t)
    ensures var s := DefaultName(t);
            && |s| == 28 && s[..5] == "Scan_" && s[24..] == ".pdf"
            && s[9] == '-' && s[12] == '-' && s[15] == '_' && s[18] == '_' && s[21] == '_'
            && s[5..9] == Padded(t.year, 4) && DigitsValue(s[5..9]) == t.year
            && s[10..12] == Padded(t.month, 2) && DigitsValue(s[10..12]) == t.month
            && s[13..15] == Padded(t.day, 2) && DigitsValue(s[13..15]) == t.day
            && s[16..18] == Padded(t.hour, 2) && DigitsValue(s[16..18]) == t.hour
            && s[19..21] == Padded(t.minute, 2) && DigitsValue(s[19..21]) == t.minute
            && s[22..24] == Padded(t.second, 2) && DigitsValue(s[22..24]) == t.second
  {
    NameLayout(Padded(t.year, 4), Padded(t.month, 2), Padded(t.day, 2),
               Padded(t.hour, 2), Padded(t.minute, 2), Padded(t.second, 2));
  }

  /** Where each field of a default name with fields of these widths
      lies. */
  lemma NameLayout(year: string, month: string, day: string, hour: string, minute: string, second: string)
    requires |year| == 4 && |month| == 2 && |day| == 2 && |hour| == 2 && |minute| == 2 && |second| == 2
    ensures var s := "Scan_" + year + "-" + month + "-" + day + "_" + hour + "_" + minute + "_" + second + ".pdf";
            && |s| == 28 && s[..5] == "Scan_" && s[24..] == ".pdf"
            && s[9] == '-' && s[12] == '-' && s[15] == '_' && s[18] == '_' && s[21] == '_'
            && s[5..9] == year && s[10..12] == month && s[13..15] == day
            && s[16..18] == hour && s[19..21] == minute && s[22..24] == second
  {
    var p1 := "Scan_" + year;
    var p2 := p1 + "-" + month;
    var p3 := p2 + "-" + day;
    var p4 := p3 + "_" + hour;
    var p5 := p4 + "_" + minute;
    var p6 := p5 + "_" + second;
    var s := p6 + ".pdf";
    assert p1[..5] == "Scan_" && p1[5..9] == year;
    assert p2[..9] == p1 && p2[10..12] == month;
    assert p3[..12] == p2 && p3[13..15] == day;
    assert p4[..15] == p3 && p4[16..18] == hour;
    assert p5[..18] == p4 && p5[19..21] == minute;
    assert p6[..21] == p5 && p6[22..24] == second;
    assert s[..24] == p6 && s[24..] == ".pdf";
  }

  /** A string of digits has no separator in it. */
  lemma DigitsHaveNoSeparator(s: string)
    requires forall i :: 0 <= i < |s| ==> IsDigit(s[i])
    ensures '/' !in s
  {
  }

  /** An empty request takes the default name unchanged. */
  lemma DefaultTargetName(now: Timestamp)
    requires ValidTimestamp(now)
    ensures TargetName("", now) == Ok(DefaultName(now))
  {
    var s := DefaultName(now);
    DigitsHaveNoSeparator(Padded(now.year, 4));
    DigitsHaveNoSeparator(Padded(now.month, 2));
    DigitsHaveNoSeparator(Padded(now.day, 2));
    DigitsHaveNoSeparator(Padded(now.hour, 2));
    DigitsHaveNoSeparator(Padded(now.minute, 2));
    DigitsHaveNoSeparator(Padded(now.second, 2));
    assert '/' !in s;
    DefaultNameFields(now);
    assert EndsWithPdf(s);
    TargetNameFixedPoint(s, now);
  }

  /** A single component that does not end in `.pdf` gains `.pdf`. */
  lemma PlainNameGainsPdf(name: string, now: Timestamp)
    requires ValidTimestamp(now) && name != [] && '/' !in name && !EndsWithPdf(name)
    ensures TargetName(name, now) == Ok(name + ".pdf")
  {
    BaseNameOfPlain(name);
    SuffixIsPdf(name);
  }

  /** A bare name gains `.pdf`. */
  lemma BareNameExample(now: Timestamp)
    requires ValidTimestamp(now)
    ensures TargetName("report", now) == Ok("report.pdf")
  {
    PlainLiteral("report");
    PlainNameGainsPdf("report", now);
  }

  /** A different suffix, such as `.PDF`, is kept and `.pdf` appended
      after it. */
  lemma UpperCaseSuffixExample(now: Timestamp)
    requires ValidTimestamp(now)
    ensures TargetName("report.PDF", now) == Ok("report.PDF.pdf")
  {
    PlainLiteral("report.PDF");
    PlainNameGainsPdf("report.PDF", now);
  }

  /** The facts about a literal name the two examples above need. */
  lemma PlainLiteral(name: string)
    requires name == "report" || name == "report.PDF"
    ensures name != [] && '/' !in name && !EndsWithPdf(name)
    ensures name == "report" ==> name + ".pdf" == "report.pdf"
    ensures name == "report.PDF" ==> name + ".pdf" == "report.PDF.pdf"
  {
    assert name[|name| - 3] != 'p';
  }

  /** Directories in front of the name are dropped. */
  lemma DirectoryExample(now: Timestamp)
    requires ValidTimestamp(now)
    ensures TargetName("../etc/report.pdf", now) == Ok("report.pdf")
  {
    DirectoryLiteral();
    BaseNameDropsDirectory("../etc", "report.pdf");
    SuffixIsPdf("report.pdf");
  }

  /** The facts about the literal path the example above needs. */
  lemma DirectoryLiteral()
    ensures "../etc/report.pdf" == "../etc" + "/" + "report.pdf"
    ensures '/' !in "report.pdf" && |"report.pdf"| > 4 && EndsWithPdf("report.pdf")
  {
    assert "report.pdf"[6..] == ".pdf";
  }

  /** A path of separators alone has no name. */
  lemma SeparatorsOnlyExample(now: Timestamp)
    requires ValidTimestamp(now)
    ensures TargetName("//", now).Err?
  {
    BaseNameEmpty("//");
  }

  /** The empty name at 2024-01-02 03:04:05 is
      `Scan_2024-01-02_03_04_05.pdf`. */
  lemma DefaultNameExample(t: Timestamp)
    requires t == Timestamp(2024, 1, 2, 3, 4, 5)
    ensures TargetName("", t) == Ok("Scan_2024-01-02_03_04_05.pdf")
  {
    DefaultNameAt();
    LiteralName();
    DefaultTargetName(t);
  }

  lemma DefaultNameAt()
    ensures DefaultName(Timestamp(2024, 1, 2, 3, 4, 5)) == "Scan_" + "2024" + "-" + "01" + "-" + "02"
                              + "_" + "03" + "_" + "04" + "_" + "05" + ".pdf"
  {
    assert Padded(2, 1) == "2";
    assert Padded(20, 2) == "20";
    assert Padded(202, 3) == "202";
    assert Padded(2024, 4) == "2024";
    PaddedSingleDigit(1);
    PaddedSingleDigit(2);
    PaddedSingleDigit(3);
    PaddedSingleDigit(4);
    PaddedSingleDigit(5);
  }

  lemma LiteralName()
    ensures "Scan_" + "2024" + "-" + "01" + "-" + "02" + "_" + "03" + "_" + "04" + "_" + "05" + ".pdf"
            == "Scan_2024-01-02_03_04_05.pdf"
  {
    assert "Scan_" + "2024" == "Scan_2024";
    assert "Scan_2024" + "-" + "01" == "Scan_2024-01";
    assert "Scan_2024-01" + "-" + "02" == "Scan_2024-01-02";
    assert "Scan_2024-01-02" + "_" + "03" == "Scan_2024-01-02_03";
    assert "Scan_2024-01-02_03" + "_" + "04" == "Scan_2024-01-02_03_04";
    assert "Scan_2024-01-02_03_04" + "_" + "05" == "Scan_2024-01-02_03_04_05";
  }

  lemma PaddedSingleDigit(n: nat)
    requires n < 10
    ensures Padded(n, 2) == ['0', ('0' as int + n) as char]
  {
    assert n / 10 == 0 && n % 10 == n;
    assert Padded(0, 0) == "";
    assert Padded(0, 1) == "0";
    assert Padded(n, 2) == Padded(0, 1) + [('0' as int + n) as char];
  }
}

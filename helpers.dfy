/**
 * The pure helpers of main.py: the hexadecimal test that decides whether a credential is
 * decrypted, birthdate reformatting, the web-path join, and the names of the two uploaded
 * artifacts (with `os.path.splitext` of Windows paths, where the program runs).
 */
module Helpers {
  import opened Text
  import opened Calendar

  predicate IsHexChar(c: char) {
    IsDigit(c) || 'a' <= c <= 'f' || 'A' <= c <= 'F'
  }

  /** `re.fullmatch(r'[0-9a-fA-F]+', s)`: one hex character, then the rest matching again or nothing. */
  predicate IsHex(s: string): (b: bool)
    ensures b ==> s != [] && forall i :: 0 <= i < |s| ==> IsHexChar(s[i])
  {
    |s| >= 1 && IsHexChar(s[0]) && (|s| == 1 || IsHex(s[1..]))
  }

  /** is_hex holds exactly of the non-empty strings made of hexadecimal characters only. */
  lemma {:induction false} IsHexIff(s: string)
    ensures IsHex(s) <==> |s| > 0 && forall i :: 0 <= i < |s| ==> IsHexChar(s[i])
  {
    if |s| > 1 {
      IsHexIff(s[1..]);
      assert forall i :: 1 <= i < |s| ==> s[i] == s[1..][i - 1];
    }
  }

  /** Every non-empty digit string passes is_hex, a plaintext `YYMMDD` birthdate included. */
  lemma DigitStringIsHex(s: string)
    requires |s| > 0 && AllDigits(s)
    ensures IsHex(s)
  {
    IsHexIff(s);
  }

  /**
   * format_birthdate: a date `strptime` reads as `%Y-%m-%d` becomes its `%y%m%d` text; on
   * the ValueError path the argument is returned unchanged.
   */
  function FormatBirthdate(s: string): (r: string)
    ensures r == s || (|r| == 6 && AllDigits(r))
    ensures r == s <==> ParseIsoDate(s).Failure?
  {
    match ParseIsoDate(s)
    case Success(d) => Yymmdd(d)
    case Failure(_) => s
  }

  /** An ISO date is turned into two digits of year, month and day. */
  lemma FormatBirthdateOfIso(d: Date)
    requires ValidDate(d)
    ensures FormatBirthdate(IsoText(d)) == Yymmdd(d)
    ensures Yymmdd(d) == IsoText(d)[2..4] + IsoText(d)[5..7] + IsoText(d)[8..10]
  {
    IsoTextRoundTrip(d);
    var hi, lo := PadDecimal(d.year / 100, 2), PadDecimal(d.year % 100, 2);
    var m2, d2 := PadDecimal(d.month, 2), PadDecimal(d.day, 2);
    FourDigitField(d.year);
    var s := IsoText(d);
    assert s == hi + lo + "-" + m2 + "-" + d2;
    assert s[2..4] == lo;
    assert s[5..7] == m2;
    assert s[8..10] == d2;
  }

  lemma FourDigitField(n: nat)
    requires n < 10000
    ensures PadDecimal(n, 4) == PadDecimal(n / 100, 2) + PadDecimal(n % 100, 2)
  {
    var a, b := n / 100, n % 100;
    assert n == 10 * (10 * a + b / 10) + b % 10;
    assert n / 10 == 10 * a + b / 10 && n % 10 == b % 10;
    assert (n / 10) / 10 == a && (n / 10) % 10 == b / 10;
    assert PadDecimal(n, 4) == PadDecimal(n / 10, 3) + [DigitChar(b % 10)];
    assert PadDecimal(n / 10, 3) == PadDecimal(a, 2) + [DigitChar(b / 10)];
    TwoDigitField(b);
  }

  lemma FormatBirthdateExample()
    ensures FormatBirthdate("1990-01-15") == "900115"
    ensures FormatBirthdate("900115") == "900115"
  {
    hide FormatBirthdate, ParseIsoDate, IsoText, Yymmdd;
    var d := Date(1990, 1, 15);
    ExampleIsoText();
    ExampleYymmdd();
    FormatBirthdateOfIso(d);
    FormatBirthdateShortUnchanged("900115");
  }

  lemma ExampleIsoText()
    ensures IsoText(Date(1990, 1, 15)) == "1990-01-15"
  {
    FourDigitField(1990);
    ExampleFields();
    hide PadDecimal;
  }

  lemma ExampleYymmdd()
    ensures Yymmdd(Date(1990, 1, 15)) == "900115"
  {
    ExampleFields();
    hide PadDecimal;
  }

  lemma ExampleFields()
    ensures PadDecimal(19, 2) == "19" && PadDecimal(90, 2) == "90"
    ensures PadDecimal(1, 2) == "01" && PadDecimal(15, 2) == "15"
  {
    hide PadDecimal;
    TwoDigitField(19);
    TwoDigitField(90);
    TwoDigitField(1);
    TwoDigitField(15);
    assert DigitChar(0) == '0' && DigitChar(1) == '1' && DigitChar(9) == '9' && DigitChar(5) == '5';
  }

  /** Strings too short to be a `%Y-%m-%d` date (the six-character `YYMMDD` form among them) pass through. */
  lemma FormatBirthdateShortUnchanged(s: string)
    requires |s| < 8
    ensures FormatBirthdate(s) == s
  {
  }

  /** Texts `strptime` rejects: an impossible day, no dashes, month 13, trailing data. */
  lemma FormatBirthdateRejectedUnchanged()
    ensures FormatBirthdate("1990-02-30") == "1990-02-30"
    ensures FormatBirthdate("19900115") == "19900115"
    ensures FormatBirthdate("1990-13-01") == "1990-13-01"
    ensures FormatBirthdate("1990-01-15x") == "1990-01-15x"
  {
  }

  /** Reformatting a reformatted birthdate changes nothing. */
  lemma FormatBirthdateIdempotent(s: string)
    ensures FormatBirthdate(FormatBirthdate(s)) == FormatBirthdate(s)
  {
    var r := FormatBirthdate(s);
    if r != s {
      FormatBirthdateShortUnchanged(r);
    }
  }

  /** `s.replace('\\', '/')` */
  function ForwardSlashes(s: string): string {
    seq(|s|, i requires 0 <= i < |s| => if s[i] == '\\' then '/' else s[i])
  }

  /** The web path of move_and_return_web_path: `'/'.join([dest_dir.replace('\\', '/'), new_filename])`. */
  function WebPath(destDir: string, fileName: string): (w: string)
    ensures |w| == |destDir| + 1 + |fileName|
    ensures w[|destDir|] == '/' && w[|destDir| + 1..] == fileName
  {
    ForwardSlashes(destDir) + "/" + fileName
  }

  /**
   * The web path is the directory, of the same length and with every backslash turned into
   * a slash and nothing else changed, then one slash, then the file name unchanged.
   */
  lemma WebPathShape(destDir: string, fileName: string)
    ensures |WebPath(destDir, fileName)| == |destDir| + 1 + |fileName|
    ensures '\\' !in WebPath(destDir, fileName)[..|destDir| + 1]
    ensures forall i :: 0 <= i < |destDir| && destDir[i] != '\\' ==> WebPath(destDir, fileName)[i] == destDir[i]
    ensures forall i :: 0 <= i < |destDir| && destDir[i] == '\\' ==> WebPath(destDir, fileName)[i] == '/'
    ensures WebPath(destDir, fileName)[|destDir|] == '/'
    ensures WebPath(destDir, fileName)[|destDir| + 1..] == fileName
    ensures '\\' !in destDir ==> WebPath(destDir, fileName) == destDir + "/" + fileName
  {
    var w := WebPath(destDir, fileName);
    assert w[..|destDir| + 1] == ForwardSlashes(destDir) + "/";
    if '\\' !in destDir {
      assert ForwardSlashes(destDir) == destDir;
    }
  }

  /** Index of the last occurrence of `c` in `s`, or -1 (`str.rfind`). */
  function LastIndexOf(s: string, c: char): (i: int)
    ensures -1 <= i < |s|
    ensures 0 <= i ==> s[i] == c
    ensures forall k :: i < k < |s| ==> s[k] != c
  {
    if s == [] then -1
    else if s[|s| - 1] == c then |s| - 1
    else LastIndexOf(s[..|s| - 1], c)
  }

  predicate IsPathSeparator(c: char) {
    c == '\\' || c == '/'
  }

  /**
   * `ntpath.splitext(p)`: the extension starts at the last dot, provided that dot lies in
   * the last path component and is preceded there by something other than dots.
   */
  function Splitext(p: string): (parts: (string, string))
    ensures parts.0 + parts.1 == p
    ensures parts.1 == [] || (parts.1[0] == '.' && forall k :: 0 <= k < |parts.1| ==> !IsPathSeparator(parts.1[k]))
    ensures parts.1 == [] || forall k :: 1 <= k < |parts.1| ==> parts.1[k] != '.'
  {
    var sep := if LastIndexOf(p, '\\') < LastIndexOf(p, '/') then LastIndexOf(p, '/') else LastIndexOf(p, '\\');
    var dot := LastIndexOf(p, '.');
    if sep < dot && exists k :: sep < k < dot && p[k] != '.' then
      assert forall k :: dot <= k < |p| ==> !IsPathSeparator(p[k]);
      (p[..dot], p[dot..])
    else (p, [])
  }

  function Ext(p: string): string {
    Splitext(p).1
  }

  /** The two names of lines 215-216: the raw statement and the upload-ready statement. */
  function ArtifactNames(reqSeq: string, timestamp: string, originalExcel: string, uploadExcel: string): (names: (string, string))
    ensures |reqSeq| <= |names.0| && names.0[..|reqSeq|] == reqSeq
    ensures |reqSeq| <= |names.1| && names.1[..|reqSeq|] == reqSeq
  {
    (reqSeq + "_API_" + timestamp + Ext(originalExcel), reqSeq + "_" + timestamp + Ext(uploadExcel))
  }

  /**
   * With the digit timestamp the program writes (`%Y%m%d%H%M%S`), the two names never
   * coincide, and each keeps the extension of the file it was built from.
   */
  lemma ArtifactNamesProperties(reqSeq: string, timestamp: string, originalExcel: string, uploadExcel: string)
    requires |timestamp| > 0 && AllDigits(timestamp)
    ensures ArtifactNames(reqSeq, timestamp, originalExcel, uploadExcel).0 != ArtifactNames(reqSeq, timestamp, originalExcel, uploadExcel).1
    ensures Ext(originalExcel) != [] ==> Ext(ArtifactNames(reqSeq, timestamp, originalExcel, uploadExcel).0) == Ext(originalExcel)
    ensures Ext(uploadExcel) != [] ==> Ext(ArtifactNames(reqSeq, timestamp, originalExcel, uploadExcel).1) == Ext(uploadExcel)
  {
    var names := ArtifactNames(reqSeq, timestamp, originalExcel, uploadExcel);
    assert names.0[|reqSeq| + 1] == 'A' && names.1[|reqSeq| + 1] == timestamp[0];
    if Ext(originalExcel) != [] {
      ExtAfterStem(reqSeq + "_API_" + timestamp, Ext(originalExcel));
    }
    if Ext(uploadExcel) != [] {
      ExtAfterStem(reqSeq + "_" + timestamp, Ext(uploadExcel));
    }
  }

  /** An extension appended to a stem ending in a non-dot, non-separator character is split off again. */
  lemma ExtAfterStem(stem: string, ext: string)
    requires |stem| > 0 && stem[|stem| - 1] != '.' && !IsPathSeparator(stem[|stem| - 1])
    requires |ext| > 0 && ext[0] == '.'
    requires forall k :: 0 <= k < |ext| ==> !IsPathSeparator(ext[k])
    requires forall k :: 1 <= k < |ext| ==> ext[k] != '.'
    ensures Ext(stem + ext) == ext
  {
    var p := stem + ext;
    var dot := LastIndexOf(p, '.');
    assert p[|stem|] == '.';
    assert dot == |stem|;
    var sep := if LastIndexOf(p, '\\') < LastIndexOf(p, '/') then LastIndexOf(p, '/') else LastIndexOf(p, '\\');
    assert sep < |stem| - 1;
    assert p[|stem| - 1] != '.';
    assert p[dot..] == ext;
  }
}

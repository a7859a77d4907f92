/**
 * `generate_report` (app.py:115-121), with its console output returned as
 * the list of lines it prints.
 */
module Report {
  import opened Checks

  const NoVulnerabilitiesLine := "No vulnerabilities found!"
  const ReportHeading := "Vulnerability Report:"

  predicate AllDigits(s: string)
  {
    forall i :: 0 <= i < |s| ==> '0' <= s[i] <= '9'
  }

  function DigitChar(d: nat): char
    requires d < 10
  {
    ('0' as int + d) as char
  }

  /** Python's `str(n)` for a natural number: its decimal digits, no leading zero. */
  function Decimal(n: nat): (s: string)
    ensures |s| >= 1 && AllDigits(s)
    ensures s[0] == '0' <==> n == 0
    decreases n
  {
    if n < 10 then [DigitChar(n)] else Decimal(n / 10) + [DigitChar(n % 10)]
  }

  /** The number a string of decimal digits denotes. */
  function DecimalValue(s: string): nat
    requires AllDigits(s)
  {
    if s == [] then 0 else DecimalValue(s[..|s| - 1]) * 10 + (s[|s| - 1] as int - '0' as int)
  }

  /** Reading back the digits `Decimal` writes gives the number. */
  lemma {:induction false} DecimalRoundTrip(n: nat)
    ensures DecimalValue(Decimal(n)) == n
    decreases n
  {
    var s := Decimal(n);
    if n >= 10 {
      DecimalRoundTrip(n / 10);
      assert s[..|s| - 1] == Decimal(n / 10);
    }
  }

  /** The digits at the start of `s`. */
  function LeadingDigits(s: string): (d: string)
    ensures d <= s && AllDigits(d)
  {
    if s != [] && '0' <= s[0] <= '9' then [s[0]] + LeadingDigits(s[1..]) else []
  }

  lemma {:induction false} LeadingDigitsOf(d: string, rest: string)
    requires AllDigits(d)
    requires rest != [] && !('0' <= rest[0] <= '9')
    ensures LeadingDigits(d + rest) == d
    decreases |d|
  {
    if d == [] {
      assert d + rest == rest;
    } else {
      assert (d + rest)[0] == d[0] && (d + rest)[1..] == d[1..] + rest;
      LeadingDigitsOf(d[1..], rest);
    }
  }

  /** `f"{i}. {vuln} (URL: {url})"`: the number, then the rest of the line. */
  function ReportLine(i: nat, f: Finding): string
  {
    Decimal(i) + LineTail(f)
  }

  function LineTail(f: Finding): string
  {
    ". " + f.message + " (URL: " + f.url + ")"
  }

  /** The report lines of `fs`, numbered from `first`. */
  function NumberedLines(fs: seq<Finding>, first: nat): (lines: seq<string>)
    ensures |lines| == |fs|
    ensures forall k :: 0 <= k < |fs| ==> lines[k] == ReportLine(first + k, fs[k])
    decreases |fs|
  {
    if fs == [] then [] else [ReportLine(first, fs[0])] + NumberedLines(fs[1..], first + 1)
  }

  /**
   * `generate_report`: the single "no vulnerabilities" line for an empty
   * list, otherwise the heading and one line per finding, numbered from 1
   * in list order.
   */
  function GenerateReport(fs: seq<Finding>): (lines: seq<string>)
    ensures fs == [] ==> lines == [NoVulnerabilitiesLine]
    ensures fs != [] ==> |lines| == |fs| + 1 && lines[0] == ReportHeading
    ensures fs != [] ==> forall k :: 0 <= k < |fs| ==> lines[k + 1] == ReportLine(k + 1, fs[k])
  {
    if fs == [] then [NoVulnerabilitiesLine] else [ReportHeading] + NumberedLines(fs, 1)
  }

  /** The number that opens line `k + 1` of a non-empty report reads back as `k + 1`. */
  lemma ReportNumbering(fs: seq<Finding>, k: nat)
    requires k < |fs|
    ensures AllDigits(LeadingDigits(GenerateReport(fs)[k + 1]))
    ensures DecimalValue(LeadingDigits(GenerateReport(fs)[k + 1])) == k + 1
  {
    assert GenerateReport(fs)[k + 1] == Decimal(k + 1) + LineTail(fs[k]);
    LeadingDigitsOf(Decimal(k + 1), LineTail(fs[k]));
    DecimalRoundTrip(k + 1);
  }
}

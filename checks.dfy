/**
 * The page checks of app.py:8-33.  Each is a total function from one part of
 * a fetched page (header names, forms, body text) and the page's URL to the
 * list of findings it reports, in the order the source appends them.
 */
module Checks {
  import opened Util
  import opened Patterns

  /** A reported issue: the `(message, url)` tuple of the source. */
  datatype Finding = Finding(message: string, url: string)

  /** An HTML `<form>`: its `action` and `method` attributes, when present. */
  datatype Form = Form(action: Option<string>, httpMethod: Option<string>)

  const XContentTypeOptions := "X-Content-Type-Options"
  const StrictTransportSecurity := "Strict-Transport-Security"

  const MissingXContentTypeOptions := "Missing X-Content-Type-Options header"
  const MissingStrictTransportSecurity := "Missing Strict-Transport-Security header"
  const FormMissingAction := "Form with missing action attribute"
  const FormNotPost := "Form using method other than POST"
  const OutdatedSoftware := "Possible outdated software detected"

  /**
   * `check_http_headers`: one finding per missing security header,
   * X-Content-Type-Options first.  `headers` holds the names the response
   * carries; membership is taken as given.
   */
  function CheckHttpHeaders(headers: set<string>, url: string): (r: seq<Finding>)
    ensures |r| == (if XContentTypeOptions in headers then 0 else 1)
                 + (if StrictTransportSecurity in headers then 0 else 1)
    ensures r == [] <==> XContentTypeOptions in headers && StrictTransportSecurity in headers
    ensures XContentTypeOptions !in headers ==> r[0] == Finding(MissingXContentTypeOptions, url)
    ensures StrictTransportSecurity !in headers ==> r[|r| - 1] == Finding(MissingStrictTransportSecurity, url)
    ensures forall f :: f in r ==> f.url == url
  {
    (if XContentTypeOptions !in headers then [Finding(MissingXContentTypeOptions, url)] else [])
    + (if StrictTransportSecurity !in headers then [Finding(MissingStrictTransportSecurity, url)] else [])
  }

  /** Python's `str.lower()` on the ASCII letters. */
  function Lower(s: string): (r: string)
    ensures |r| == |s|
    ensures forall i :: 0 <= i < |s| ==> r[i] == if 'A' <= s[i] <= 'Z' then (s[i] as int + 32) as char else s[i]
  {
    if s == [] then [] else [if 'A' <= s[0] <= 'Z' then (s[0] as int + 32) as char else s[0]] + Lower(s[1..])
  }

  /** `form.get('action')` is truthy: present and not the empty string. */
  predicate HasAction(f: Form)
  {
    f.action.Some? && f.action.value != ""
  }

  /** `form.get('method', '').lower() == 'post'`. */
  predicate IsPost(f: Form)
  {
    Lower(if f.httpMethod.Some? then f.httpMethod.value else "") == "post"
  }

  /** A form neither check flags. */
  predicate SafeForm(f: Form)
  {
    HasAction(f) && IsPost(f)
  }

  /** How many of the two form tests `f` fails. */
  function Flaws(f: Form): nat
  {
    (if HasAction(f) then 0 else 1) + (if IsPost(f) then 0 else 1)
  }

  /** How many form tests the forms fail, all together. */
  function TotalFlaws(forms: seq<Form>): nat
  {
    if forms == [] then 0 else Flaws(forms[0]) + TotalFlaws(forms[1..])
  }

  /** The findings for one form: missing action, then method other than POST. */
  function FormFindings(f: Form, url: string): (r: seq<Finding>)
    ensures |r| == Flaws(f) <= 2
    ensures r == [] <==> SafeForm(f)
    ensures !HasAction(f) ==> r[0] == Finding(FormMissingAction, url)
    ensures !IsPost(f) ==> r[|r| - 1] == Finding(FormNotPost, url)
    ensures forall x :: x in r ==> x.url == url
  {
    (if !HasAction(f) then [Finding(FormMissingAction, url)] else [])
    + (if !IsPost(f) then [Finding(FormNotPost, url)] else [])
  }

  /** `check_forms`: the findings of every form, form after form. */
  function CheckForms(forms: seq<Form>, url: string): (r: seq<Finding>)
    ensures |r| == TotalFlaws(forms) <= 2 * |forms|
    ensures r == [] <==> forall i :: 0 <= i < |forms| ==> SafeForm(forms[i])
    ensures forall x :: x in r ==> x.url == url
  {
    if forms == [] then []
    else
      var rest := CheckForms(forms[1..], url);
      assert forall i :: 1 <= i < |forms| ==> forms[i] == forms[1..][i - 1];
      FormFindings(forms[0], url) + rest
  }

  /** Checking a page's forms in two parts gives the findings of the first part first. */
  lemma {:induction false} CheckFormsConcat(a: seq<Form>, b: seq<Form>, url: string)
    ensures CheckForms(a + b, url) == CheckForms(a, url) + CheckForms(b, url)
    decreases |a|
  {
    if a == [] {
      assert a + b == b;
    } else {
      assert (a + b)[0] == a[0] && (a + b)[1..] == a[1..] + b;
      CheckFormsConcat(a[1..], b, url);
    }
  }

  /** The method test: POST in any case passes, a missing method or GET is flagged. */
  lemma IsPostExamples()
    ensures IsPost(Form(None, Some("POST"))) && IsPost(Form(None, Some("pOsT")))
    ensures !IsPost(Form(None, None)) && !IsPost(Form(None, Some("GET")))
  {
    assert Lower("POST") == "post";
    assert Lower("pOsT") == "post";
    assert Lower("") == "";
    assert Lower("GET")[0] == 'g';
  }

  /** An empty action with GET gives two findings; a real action with POST gives none. */
  lemma CheckFormsExamples(url: string)
    ensures CheckForms([Form(Some(""), Some("GET"))], url)
            == [Finding(FormMissingAction, url), Finding(FormNotPost, url)]
    ensures CheckForms([Form(Some("/login"), Some("Post"))], url) == []
  {
    assert Lower("GET")[0] == 'g';
    assert Lower("Post") == "post";
    var f1 := [Form(Some(""), Some("GET"))];
    assert CheckForms(f1, url) == FormFindings(f1[0], url) + CheckForms(f1[1..], url);
  }

  /**
   * `is_outdated_version`: a single generic finding as soon as one of the
   * patterns is found, whichever it is.
   */
  function IsOutdatedVersion(text: string, url: string): (r: seq<Finding>)
    ensures |r| <= 1
    ensures r != [] <==> Matches(WordPress, text) || Matches(Apache, text)
    ensures r != [] ==> r[0] == Finding(OutdatedSoftware, url)
  {
    var found := AnySearch(OutdatedPatterns, text);
    assert found <==> Matches(OutdatedPatterns[0], text) || Matches(OutdatedPatterns[1], text);
    if found then [Finding(OutdatedSoftware, url)] else []
  }

  /** "WordPress 3.9" is reported; "WordPress 6.2" is not. */
  lemma OutdatedExamples(url: string)
    ensures IsOutdatedVersion("WordPress 3.9", url) == [Finding(OutdatedSoftware, url)]
    ensures IsOutdatedVersion("WordPress 6.2", url) == []
  {
    assert MatchesWith(WordPress, "WordPress 3.9", 0, 1);
    assert !Matches(WordPress, "WordPress 6.2");
    assert !Matches(Apache, "WordPress 6.2");
  }

  /**
   * Case and `v` are free, and the Apache pattern takes in the 2.x line;
   * the `Apache/2.2` form of a Server banner has no whitespace after the
   * keyword and is not reported.
   */
  lemma OutdatedBannerForms(url: string)
    ensures IsOutdatedVersion("wordpress\tV4.0", url) != []
    ensures IsOutdatedVersion("Apache 2.4.58", url) != []
    ensures IsOutdatedVersion("Apache/2.2", url) == []
  {
    assert MatchesWith(WordPress, "wordpress\tV4.0", 0, 1);
    assert MatchesWith(Apache, "Apache 2.4.58", 0, 1);
    var t := "Apache/2.2";
    assert !Matches(WordPress, t);
    assert SkipSpaces(t, 6) == 6;
    forall i | 1 <= i <= |t|
      ensures !KeywordAt(Apache, t, i)
    {
      if i + |Apache.keyword| <= |t| {
        var k := if i == 2 then 1 else 0;
        assert !CaselessEq(t[i + k], Apache.keyword[k]);
      }
    }
    assert !Search(Apache, t);
    SearchIsMatches(Apache, t);
  }
}

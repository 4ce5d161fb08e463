/** The Codewars result printer: test-framework lifecycle callbacks turned into the
    tagged line protocol (`<DESCRIBE::>`, `<IT::>`, `<PASSED::>`, `<FAILED::>`,
    `<ERROR::>`, `<LOG::…>`, `<COMPLETEDIN::>`). */
module Printer {
  import opened Wrappers
  import opened Php
  import opened Framework
  import opened Formatting

  const PassedLine := "\n<PASSED::>Test Passed\n"
  const IncompleteLine := "\n<LOG::>Test Incomplete\n"
  const IgnoredLine := "\n<LOG::>Test Ignored\n"
  const SuiteCompletedLine := "\n<COMPLETEDIN::>\n"

  const ErrorTag := "\n<ERROR::>"
  const StackTraceTag := "\n<LOG::-Stacktrace>"
  const FailedTag := "\n<FAILED::>"

  function DescribeLine(name: string): string {
    "\n<DESCRIBE::>" + name + "\n"
  }

  function ItLine(title: string): string {
    "\n<IT::>" + title + "\n"
  }

  /** The line closing a test, carrying its duration as formatted by the host. */
  function TestCompletedLine(ms: string): string {
    "\n<COMPLETEDIN::>" + ms + "\n"
  }

  /** The title `startTest` announces: the prettified name for a TestCase, the raw name
      otherwise. */
  function TestTitle(h: Host, test: Test): string {
    if test.isTestCase then h.prettifyTestCase(test) else test.name
  }

  /** The buffered `<ERROR::>` entry; its message is not escaped. */
  function ErrorEntry(t: Exc): string {
    TaggedLine(ErrorTag, GetMessage(t))
  }

  /** A protocol line: a leading newline and tag, the payload, a closing newline. The
      payload can be read back from between the tag and the closing newline. */
  function TaggedLine(tag: string, payload: string): (r: string)
    ensures |r| == |tag| + |payload| + 1
    ensures r[..|tag|] == tag && r[|tag|..|r| - 1] == payload && r[|r| - 1] == '\n'
  {
    var r := tag + payload + "\n";
    assert r[..|tag|] == tag;
    assert r[|tag|..|r| - 1] == payload;
    r
  }

  /** The buffered `<LOG::-Stacktrace>` entry: between its tag and its closing newline
      it carries the escaped details, and no raw newline. */
  function StackTraceEntry(h: Host, t: Exc): (r: string)
    ensures StartsWith(r, StackTraceTag) && r[|r| - 1] == '\n'
    ensures r[|StackTraceTag|..|r| - 1] == EscapeLF(Indent(DetailsText(h, t)))
    ensures '\n' !in r[|StackTraceTag|..|r| - 1]
  {
    TaggedLine(StackTraceTag, EscapeLF(Indent(DetailsText(h, t))))
  }

  /** The message `addFailure` escapes: the Expected/Actual block is added only for an
      ExpectationFailedException. */
  function FailureMessage(h: Host, e: Exc, kind: FailureKind): string {
    match kind
    case AssertionFailed => GetMessage(e)
    case ExpectationFailed(cf) => GetMessage(e) + GetAssertionDetails(h, cf)
  }

  /** The buffered `<FAILED::>` entry: one line whose payload has no raw newline; for a
      plain assertion failure the payload is the escaped message alone, for an
      expectation failure the escaped message followed by the escaped Expected/Actual
      block. */
  function FailedEntry(h: Host, e: Exc, kind: FailureKind): (r: string)
    ensures StartsWith(r, FailedTag) && r[|r| - 1] == '\n'
    ensures '\n' !in r[|FailedTag|..|r| - 1]
    ensures kind.AssertionFailed? ==> r[|FailedTag|..|r| - 1] == EscapeLF(GetMessage(e))
    ensures kind.ExpectationFailed? ==>
      r[|FailedTag|..|r| - 1] == EscapeLF(GetMessage(e)) + EscapeLF(GetAssertionDetails(h, kind.comparisonFailure))
  {
    var block := if kind.ExpectationFailed? then GetAssertionDetails(h, kind.comparisonFailure) else "";
    EscapeLFConcat(GetMessage(e), block);
    TaggedLine(FailedTag, EscapeLF(FailureMessage(h, e, kind)))
  }

  /** `s` begins with `prefix`. */
  predicate StartsWith(s: string, prefix: string) {
    |prefix| <= |s| && s[..|prefix|] == prefix
  }

  /** The shape of every entry the failure buffer holds: an `<ERROR::>`, a
      `<LOG::-Stacktrace>` or a `<FAILED::>` line. */
  predicate IsFailureEntry(s: string) {
    StartsWith(s, ErrorTag) || StartsWith(s, StackTraceTag) || StartsWith(s, FailedTag)
  }

  /** Each kind of buffered entry begins with its own tag, so each is a failure entry. */
  lemma EntriesAreFailureEntries(h: Host, t: Exc, kind: FailureKind)
    ensures StartsWith(ErrorEntry(t), ErrorTag) && IsFailureEntry(ErrorEntry(t))
    ensures StartsWith(StackTraceEntry(h, t), StackTraceTag) && IsFailureEntry(StackTraceEntry(h, t))
    ensures StartsWith(FailedEntry(h, t, kind), FailedTag) && IsFailureEntry(FailedEntry(h, t, kind))
  {
  }

  /** The writes `endTest` makes first: the test's captured output, if it has any. */
  function OutputWrites(test: Test): seq<string> {
    match test.output
    case None => []
    case Some(o) => [o]
  }

  /** The write `endTest` makes for the buffered failures. */
  function ResultWrite(failures: seq<string>): string {
    if failures == [] then PassedLine else Join("\n", failures)
  }

  class CodewarsResultPrinter {
    /** The prettifier and the other foreign services. */
    const host: Host
    /** The first suite seen: the framework's wrapper around the real suites. */
    var wrapperSuite: Option<SuiteId>
    /** Entries for the current test, written out at its end. */
    var failures: seq<string>
    /** Everything passed to `write`, in order. */
    ghost var out: seq<string>

    /** Every buffered entry is a failure entry. */
    ghost predicate Valid()
      reads this
    {
      forall i :: 0 <= i < |failures| ==> IsFailureEntry(failures[i])
    }

    constructor (host: Host)
      ensures Valid()
      ensures this.host == host
      ensures wrapperSuite == None && failures == [] && out == []
    {
      this.host := host;
      wrapperSuite := None;
      failures := [];
      out := [];
    }

    /** `addError`: buffers an `<ERROR::>` entry and then a `<LOG::-Stacktrace>` entry. */
    method AddError(t: Exc)
      requires Valid()
      modifies this`failures
      ensures Valid()
      ensures failures == old(failures) + [ErrorEntry(t), StackTraceEntry(host, t)]
      ensures out == old(out) && wrapperSuite == old(wrapperSuite)
    {
      failures := failures + ["\n<ERROR::>" + GetMessage(t) + "\n"];
      var details := GetDetails(host, t);
      failures := failures + ["\n<LOG::-Stacktrace>" + EscapeLF(details) + "\n"];
    }

    /** `addWarning`: formatted and buffered exactly as an error. */
    method AddWarning(e: Exc)
      requires Valid()
      modifies this`failures
      ensures Valid()
      ensures failures == old(failures) + [ErrorEntry(e), StackTraceEntry(host, e)]
      ensures out == old(out) && wrapperSuite == old(wrapperSuite)
    {
      failures := failures + ["\n<ERROR::>" + GetMessage(e) + "\n"];
      var details := GetDetails(host, e);
      failures := failures + ["\n<LOG::-Stacktrace>" + EscapeLF(details) + "\n"];
    }

    /** `addFailure`: buffers one `<FAILED::>` entry. */
    method AddFailure(e: Exc, kind: FailureKind)
      requires Valid()
      modifies this`failures
      ensures Valid()
      ensures failures == old(failures) + [FailedEntry(host, e, kind)]
      ensures out == old(out) && wrapperSuite == old(wrapperSuite)
    {
      var msg := GetMessage(e);
      if kind.ExpectationFailed? {
        msg := msg + GetAssertionDetails(host, kind.comparisonFailure);
      }
      EntriesAreFailureEntries(host, e, kind);
      failures := failures + ["\n<FAILED::>" + EscapeLF(msg) + "\n"];
    }

    /** `addIncompleteTest`: writes its line at once. */
    method AddIncompleteTest()
      requires Valid()
      modifies this`out
      ensures Valid()
      ensures out == old(out) + [IncompleteLine]
      ensures failures == old(failures) && wrapperSuite == old(wrapperSuite)
    {
      out := out + ["\n<LOG::>Test Incomplete\n"];
    }

    /** `addRiskyTest`: handled as an error. */
    method AddRiskyTest(t: Exc)
      requires Valid()
      modifies this`failures
      ensures Valid()
      ensures failures == old(failures) + [ErrorEntry(t), StackTraceEntry(host, t)]
      ensures out == old(out) && wrapperSuite == old(wrapperSuite)
    {
      AddError(t);
    }

    /** `addSkippedTest`: writes its line at once. */
    method AddSkippedTest()
      requires Valid()
      modifies this`out
      ensures Valid()
      ensures out == old(out) + [IgnoredLine]
      ensures failures == old(failures) && wrapperSuite == old(wrapperSuite)
    {
      out := out + ["\n<LOG::>Test Ignored\n"];
    }

    /** `startTestSuite`: the first suite is recorded as the wrapper and announces
        nothing; later suites announce themselves unless their name is PHP-empty. */
    method StartTestSuite(suite: Suite)
      requires Valid()
      modifies this`wrapperSuite, this`out
      ensures Valid()
      ensures old(wrapperSuite).None? ==> wrapperSuite == Some(suite.id) && out == old(out)
      ensures old(wrapperSuite).Some? ==> wrapperSuite == old(wrapperSuite)
      ensures old(wrapperSuite).Some? && IsEmptyPHP(suite.name) ==> out == old(out)
      ensures old(wrapperSuite).Some? && !IsEmptyPHP(suite.name) ==>
        out == old(out) + [DescribeLine(host.prettifyTestClass(suite.name))]
      ensures failures == old(failures)
    {
      if wrapperSuite.None? {
        wrapperSuite := Some(suite.id);
        return;
      }
      var suiteName := suite.name;
      if IsEmptyPHP(suiteName) {
        return;
      }
      suiteName := host.prettifyTestClass(suiteName);
      out := out + ["\n<DESCRIBE::>" + suiteName + "\n"];
    }

    /** `endTestSuite`: ending the wrapper clears it silently; other suites close with
        a bare `<COMPLETEDIN::>` line unless their name is PHP-empty. */
    method EndTestSuite(suite: Suite)
      requires Valid()
      modifies this`wrapperSuite, this`out
      ensures Valid()
      ensures old(wrapperSuite) == Some(suite.id) ==> wrapperSuite == None && out == old(out)
      ensures old(wrapperSuite) != Some(suite.id) ==> wrapperSuite == old(wrapperSuite)
      ensures old(wrapperSuite) != Some(suite.id) && IsEmptyPHP(suite.name) ==> out == old(out)
      ensures old(wrapperSuite) != Some(suite.id) && !IsEmptyPHP(suite.name) ==>
        out == old(out) + [SuiteCompletedLine]
      ensures failures == old(failures)
    {
      if wrapperSuite == Some(suite.id) {
        wrapperSuite := None;
        return;
      }
      if IsEmptyPHP(suite.name) {
        return;
      }
      out := out + ["\n<COMPLETEDIN::>\n"];
    }

    /** `startTest`: announces the test and empties the failure buffer. */
    method StartTest(test: Test)
      requires Valid()
      modifies this`failures, this`out
      ensures Valid()
      ensures out == old(out) + [ItLine(TestTitle(host, test))]
      ensures failures == []
      ensures wrapperSuite == old(wrapperSuite)
    {
      var title := test.name;
      if test.isTestCase {
        title := host.prettifyTestCase(test);
      }
      out := out + ["\n<IT::>" + title + "\n"];
      failures := [];
    }

    /** `endTest`: the captured output, then PASSED or the buffered entries, then the
        test's `<COMPLETEDIN::>` line with `time` in milliseconds. */
    method EndTest(test: Test, time: real)
      requires Valid()
      modifies this`out
      ensures Valid()
      ensures out == old(out) + OutputWrites(test) + [ResultWrite(failures), TestCompletedLine(host.formatFixed4(time * 1000.0))]
      ensures out[|old(out)| + |OutputWrites(test)|] == PassedLine <==> failures == []
      ensures failures == old(failures) && wrapperSuite == old(wrapperSuite)
    {
      PassedIffNothingBuffered(failures);
      if test.output.Some? {
        out := out + [test.output.value];
      }
      if failures == [] {
        out := out + ["\n<PASSED::>Test Passed\n"];
      } else {
        out := out + [Join("\n", failures)];
      }
      out := out + ["\n<COMPLETEDIN::>" + host.formatFixed4(time * 1000.0) + "\n"];
    }
  }

  /** Over a buffer of failure entries, `endTest` writes PASSED exactly when nothing
      was buffered. */
  lemma PassedIffNothingBuffered(failures: seq<string>)
    requires forall i :: 0 <= i < |failures| ==> IsFailureEntry(failures[i])
    ensures ResultWrite(failures) == PassedLine <==> failures == []
  {
    if failures != [] {
      JoinStartsWithFirst("\n", failures);
      var f := failures[0];
      assert IsFailureEntry(f);
      assert f[2] != 'P';
      assert ResultWrite(failures)[2] == f[2];
    }
  }

  /** What `endTest` writes for a non-empty buffer holds every entry, in the order
      they were buffered. */
  lemma ResultWriteOrder(failures: seq<string>, entry: string)
    ensures ResultWrite([entry]) == entry
    ensures failures != [] ==> ResultWrite(failures + [entry]) == ResultWrite(failures) + "\n" + entry
  {
    if failures != [] {
      JoinSnoc("\n", failures, entry);
    }
  }

  /** A run of one failing test in one real suite inside the wrapper suite: the wrapper
      is silent whatever its name, the failure is held back until the test ends, and
      the suite's end is a bare COMPLETEDIN. */
  method FailingTestScenario(host: Host, wrapperName: string, suiteName: string, testName: string, message: string)
    requires !IsEmptyPHP(suiteName)
  {
    var p := new CodewarsResultPrinter(host);
    var wrapper := Suite(0, wrapperName);
    var suite := Suite(1, suiteName);
    var test := Test(testName, true, None);
    var failure := Exc(false, "", message, None);
    p.StartTestSuite(wrapper);
    p.StartTestSuite(suite);
    p.StartTest(test);
    p.AddFailure(failure, AssertionFailed);
    assert p.failures == [TaggedLine(FailedTag, EscapeLF(message))];
    assert p.out == [DescribeLine(host.prettifyTestClass(suiteName)), ItLine(host.prettifyTestCase(test))];
    p.EndTest(test, 0.01);
    p.EndTestSuite(suite);
    p.EndTestSuite(wrapper);
    assert p.out == [
      DescribeLine(host.prettifyTestClass(suiteName)),
      ItLine(host.prettifyTestCase(test)),
      TaggedLine(FailedTag, EscapeLF(message)),
      TestCompletedLine(host.formatFixed4(10.0)),
      SuiteCompletedLine];
    assert p.wrapperSuite == None;
  }

  /** A passing test with captured output in a suite named "0", which PHP's `empty()`
      treats as empty: the suite writes nothing, the output comes before PASSED. */
  method PassingTestScenario(host: Host, wrapperName: string, testName: string, output: string)
  {
    var p := new CodewarsResultPrinter(host);
    var wrapper := Suite(0, wrapperName);
    var suite := Suite(1, "0");
    var test := Test(testName, false, Some(output));
    p.StartTestSuite(wrapper);
    p.StartTestSuite(suite);
    p.StartTest(test);
    p.EndTest(test, 0.5);
    p.EndTestSuite(suite);
    p.EndTestSuite(wrapper);
    assert p.out == [ItLine(testName), output, PassedLine, TestCompletedLine(host.formatFixed4(500.0))];
    assert p.wrapperSuite == None;
  }
}

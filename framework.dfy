/** What the host test framework (PHPUnit) hands to the printer: throwables, suites,
    tests, comparison failures, and the host's own formatting services. */
module Framework {
  import opened Wrappers
  import opened Php

  /** A throwable. `isWrapper` marks PHPUnit's ExceptionWrapper, whose `className` is the
      wrapped exception's class; `previous` is the next cause (`getPreviousWrapped()` on a
      wrapper, `getPrevious()` otherwise). */
  datatype Exc = Exc(isWrapper: bool, className: string, message: string, previous: Option<Exc>)

  /** The cause chain starting at `p`, outermost first. */
  function Causes(p: Option<Exc>): seq<Exc>
    decreases p
  {
    match p
    case None => []
    case Some(e) => [e] + Causes(e.previous)
  }

  /** `Causes(p)` is exactly the chain of `previous` links from `p`, in order, ending
      with a throwable that has no cause. */
  lemma {:induction false} CausesIsChain(p: Option<Exc>)
    ensures p.None? <==> Causes(p) == []
    ensures p.Some? ==> Causes(p)[0] == p.value
    ensures forall i :: 0 <= i < |Causes(p)| - 1 ==> Causes(p)[i].previous == Some(Causes(p)[i + 1])
    ensures Causes(p) != [] ==> Causes(p)[|Causes(p)| - 1].previous.None?
    decreases p
  {
    match p
    case None =>
    case Some(e) =>
      CausesIsChain(e.previous);
      var cs := Causes(p);
      assert cs == [e] + Causes(e.previous);
      forall i | 0 <= i < |cs| - 1
        ensures cs[i].previous == Some(cs[i + 1])
      {
        if i > 0 {
          assert cs[i] == Causes(e.previous)[i - 1];
          assert cs[i + 1] == Causes(e.previous)[i];
        }
      }
  }

  /** Suites are told apart by identity, not by name. */
  type SuiteId = nat

  datatype Suite = Suite(id: SuiteId, name: string)

  /** A test; `isTestCase` is `$test instanceof TestCase`, and `output` is the captured
      output when the test has `hasOutput()`/`getActualOutput()` and reports output. */
  datatype Test = Test(name: string, isTestCase: bool, output: Option<string>)

  /** A comparator's ComparisonFailure: both operands and their optional string forms. */
  datatype Comparison = Comparison(
    expected: PhpValue,
    actual: PhpValue,
    expectedAsString: Option<string>,
    actualAsString: Option<string>)

  /** The kind of assertion failure: a plain AssertionFailedError, or an
      ExpectationFailedException carrying an optional ComparisonFailure. */
  datatype FailureKind = AssertionFailed | ExpectationFailed(comparisonFailure: Option<Comparison>)

  /** Services of foreign code the printer calls but does not define: the TestDox name
      prettifier, `Filter::getFilteredStacktrace`, `TestFailure::exceptionToString`,
      `print_r($v, true)` on scalars, and `sprintf("%.4f", x)`. */
  datatype Host = Host(
    prettifyTestClass: string -> string,
    prettifyTestCase: Test -> string,
    filteredStacktrace: Exc -> string,
    exceptionToString: Exc -> string,
    printR: Scalar -> string,
    formatFixed4: real -> string)
}

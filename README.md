# Codewars result printer for PHPUnit, modelled in Dafny

`CodewarsResultPrinter` is a PHPUnit result printer that turns the test framework's
lifecycle callbacks into the line-tagged text protocol Codewars reads: `<DESCRIBE::>`
when a suite starts, `<IT::>` when a test starts, `<PASSED::>`, `<FAILED::>`,
`<ERROR::>` and `<LOG::…>` for outcomes, and `<COMPLETEDIN::>` when a test or suite
ends. The printer holds back failure and error entries for the running test in a
buffer so that the test's own output is written before them, and it keeps quiet
about the wrapper suite PHPUnit puts around the real suites and about suites with
an empty name.

The model has five modules:

- `Wrappers` (wrappers.dfy): `Option`.
- `Php` (php.dfy): the PHP runtime behaviour the printer relies on. `IsEmptyPHP` is
  `empty()` on a string, which is also true for `"0"`. `ReplaceChar` is `str_replace`
  with a one-character needle. `Join` is `join`. `PhpValue` and `Scalar` are PHP's
  value kinds.
- `Framework` (framework.dfy): what PHPUnit hands over. `Exc` is a throwable: whether
  it is an `ExceptionWrapper`, its class name, its message and its previous cause.
  `Causes` is its cause chain. There are also `Suite`, `Test`, the comparator's
  `Comparison` and the assertion `FailureKind`. `Host` bundles the foreign services
  as function values.
- `Formatting` (formatting.dfy): the private static helpers `escapeLF`, `getMessage`,
  `getPrimitiveValueAsString`, `getAssertionDetails` and `getDetails`.
  `getDetails` walks the cause chain in a loop, so it is a method proved against
  the specification function `Indent(DetailsText(h, t))`.
- `Printer` (printer.dfy): the protocol lines and the class `CodewarsResultPrinter`.
  Its fields are `wrapperSuite`, `failures`, and a ghost log `out` of every string
  passed to `write`. The class invariant `Valid()` says every buffered entry is an
  `<ERROR::>`, `<LOG::-Stacktrace>` or `<FAILED::>` line. From it `EndTest` proves
  that PASSED is written if and only if nothing was buffered.
  `FailingTestScenario` and `PassingTestScenario` are clients. The first drives one
  failing test through a wrapper suite and one real suite. The second drives one
  passing test with captured output through a suite named `"0"`. Each proves the
  exact sequence of writes.

The foreign services are parameters of the model. They are fields of `Host`:

- `prettifyTestClass` and `prettifyTestCase`: PHPUnit's TestDox `NamePrettifier`.
- `filteredStacktrace`: `Filter::getFilteredStacktrace`.
- `exceptionToString`: `TestFailure::exceptionToString`.
- `printR`: `print_r($v, true)` on scalars.
- `formatFixed4`: `sprintf("%.4f", …)`.

Suites are compared by an identifier (`SuiteId`), not by PHP's loose `==`.

## Model

| member | source | states |
|---|---|---|
| `Formatting.EscapeLF` | src/CodewarsResultPrinter.php:218-221 | the escaped text contains no raw newline |
| `Formatting.EscapeLFConcat` | src/CodewarsResultPrinter.php:218-221 | the escape of a concatenation is the concatenation of the escapes |
| `Formatting.EscapeLFSingle` | src/CodewarsResultPrinter.php:218-221 | a single newline becomes `<:LF:>` and any other single character is kept; with `EscapeLFConcat` this fixes the escape of every text |
| `Formatting.EscapeLFIdentity` | src/CodewarsResultPrinter.php:218-221 | a newline-free text is returned unchanged |
| `Formatting.EscapeLFLength` | src/CodewarsResultPrinter.php:218-221 | the escaped text is five characters longer per newline of the input |
| `Formatting.GetMessage` | src/CodewarsResultPrinter.php:164-179 | class name + `" : "` + message for a wrapper whose class name and message are both non-empty; the class name alone for a wrapper with a class name and an empty message; the bare message in every other case |
| `Formatting.GetPrimitiveValueAsString` | src/CodewarsResultPrinter.php:201-216 | null renders as `"null"`, booleans as `"true"`/`"false"`, other scalars through `print_r`; there is no rendering exactly for an array, object or resource (`CompoundValue`) |
| `Formatting.RenderSide` | src/CodewarsResultPrinter.php:230-238 | the comparator's string form is kept unless it is null, `""` or `"0"`, in which case the value is rendered; a side is unrenderable exactly when that string form is null or PHP-empty and the value is an array, object or resource (`CompoundValue`) |
| `Formatting.GetAssertionDetails` | src/CodewarsResultPrinter.php:223-245 | the result is `""` if and only if there is no ComparisonFailure or one side is unrenderable; otherwise it is `"\nExpected: "`, the expected side, `"\nActual  : "`, the actual side |
| `Formatting.CauseSection` | src/CodewarsResultPrinter.php:190-192 | definition, no contract: the text added for one cause, `"\nCaused by\n"`, its `exceptionToString`, a newline and its filtered stack trace |
| `Formatting.CauseSections` | src/CodewarsResultPrinter.php:189-196 | definition, no contract: the sections of a sequence of causes, one per cause, in order |
| `Formatting.DetailsText` | src/CodewarsResultPrinter.php:186-196 | definition, no contract: the text `getDetails` builds before indenting, the throwable's filtered stack trace followed by the sections of `Causes(t.previous)` |
| `Formatting.Indent` | src/CodewarsResultPrinter.php:198 | the indented text starts with a space and every newline in it is followed by a space |
| `Formatting.GetDetails` | src/CodewarsResultPrinter.php:184-199 | the loop's result is the indented text made of the throwable's filtered trace followed by one "Caused by" section per element of the cause chain, in chain order; it starts with a space and every newline in it is followed by a space |
| `Framework.Causes` | src/CodewarsResultPrinter.php:187-196 | definition, no contract: the causes the `$previous` walk visits, outermost first; `CausesIsChain` states what it is |
| `Framework.CausesIsChain` | src/CodewarsResultPrinter.php:187-196 | the causes the loop visits are exactly the chain of previous links: empty iff there is no previous cause, starting with the first previous cause, each element's previous being the next one, and the last having none |
| `Php.IsEmptyPHP` | src/CodewarsResultPrinter.php:104 | definition, no contract: PHP's `empty()` on a string, true for `""` and for `"0"`; used for the suite names at :104 and :121 and the comparator strings at :231 and :236 |
| `Php.ReplaceChar` | src/CodewarsResultPrinter.php:220 | definition, no contract: `str_replace` with a one-character search string, used at :198 and :220; the `ReplaceChar…` lemmas state its behaviour |
| `Php.ReplaceCharConcat` | src/CodewarsResultPrinter.php:198 | `str_replace` of one character distributes over concatenation |
| `Php.ReplaceCharSingle` | src/CodewarsResultPrinter.php:220 | on a single character, `str_replace` gives the replacement for the needle and the character itself otherwise |
| `Php.ReplaceCharAbsent` | src/CodewarsResultPrinter.php:220 | a text without the needle is unchanged |
| `Php.ReplaceCharRemoves` | src/CodewarsResultPrinter.php:220 | when the replacement does not contain the needle, no needle is left |
| `Php.ReplaceCharLength` | src/CodewarsResultPrinter.php:220 | each occurrence of the needle changes the length by the replacement's length minus one |
| `Php.ReplaceCharFollowed` | src/CodewarsResultPrinter.php:198 | replacing `c` by `c d` leaves every `c` followed by `d` |
| `Php.Join` | src/CodewarsResultPrinter.php:155 | definition, no contract: PHP's `join`, the elements in order with the separator between neighbours; `JoinSnoc` and `JoinStartsWithFirst` state its behaviour |
| `Php.JoinSnoc` | src/CodewarsResultPrinter.php:155 | joining a buffer with one more entry appends a separator and that entry at the end |
| `Php.JoinStartsWithFirst` | src/CodewarsResultPrinter.php:155 | the join of a non-empty buffer starts with its first entry |
| `Printer.DescribeLine` | src/CodewarsResultPrinter.php:108 | definition, no contract: `"\n<DESCRIBE::>"`, the name, `"\n"` |
| `Printer.ItLine` | src/CodewarsResultPrinter.php:137 | definition, no contract: `"\n<IT::>"`, the title, `"\n"` |
| `Printer.TestCompletedLine` | src/CodewarsResultPrinter.php:157 | definition, no contract: `"\n<COMPLETEDIN::>"`, the formatted milliseconds, `"\n"` |
| `Printer.TestTitle` | src/CodewarsResultPrinter.php:133-136 | definition, no contract: the prettified name for a TestCase, the raw name otherwise |
| `Printer.ErrorEntry` | src/CodewarsResultPrinter.php:42 | definition, no contract: the `<ERROR::>` tag, the message from `GetMessage` unescaped, a closing newline |
| `Printer.FailureMessage` | src/CodewarsResultPrinter.php:60-63 | definition, no contract: the message of `GetMessage`, followed by the Expected/Actual block only for an ExpectationFailedException |
| `Printer.OutputWrites` | src/CodewarsResultPrinter.php:146-150 | definition, no contract: the captured output, written only when the test has some |
| `Printer.ResultWrite` | src/CodewarsResultPrinter.php:152-156 | definition, no contract: the PASSED line for an empty buffer, otherwise the entries joined by newlines; `PassedIffNothingBuffered` and `ResultWriteOrder` state its behaviour |
| `Printer.TaggedLine` | src/CodewarsResultPrinter.php:42-43 | a protocol line is the tag, the payload and a closing newline, and the payload can be read back between them |
| `Printer.StackTraceEntry` | src/CodewarsResultPrinter.php:43 | the entry starts with the `<LOG::-Stacktrace>` tag and ends with a newline; between them it carries the escaped details and no raw newline |
| `Printer.FailedEntry` | src/CodewarsResultPrinter.php:58-65 | the entry starts with the `<FAILED::>` tag and ends with a newline; its payload has no raw newline and is the escaped message alone for a plain assertion failure, and the escaped message followed by the escaped Expected/Actual block for an ExpectationFailedException |
| `Printer.EntriesAreFailureEntries` | src/CodewarsResultPrinter.php:42-64 | the ERROR entry begins with the `<ERROR::>` tag, the stack-trace entry with `<LOG::-Stacktrace>` and the failed entry with `<FAILED::>`, so each is a failure entry as `Valid()` requires; `AddFailure` uses it to keep `Valid()` |
| `Printer.PassedIffNothingBuffered` | src/CodewarsResultPrinter.php:152-156 | over a buffer of failure entries, the result write is the PASSED line if and only if the buffer is empty |
| `Printer.ResultWriteOrder` | src/CodewarsResultPrinter.php:155 | a single entry is written as it is, and an entry added to a non-empty buffer comes out last, after a newline |
| `Printer.CodewarsResultPrinter.constructor` | src/CodewarsResultPrinter.php:28-35 | no wrapper is recorded, the buffer and the output are empty, and the invariant holds |
| `Printer.CodewarsResultPrinter.AddError` | src/CodewarsResultPrinter.php:40-44 | appends exactly an `<ERROR::>` entry and then a `<LOG::-Stacktrace>` entry to the buffer; writes nothing; keeps the wrapper |
| `Printer.CodewarsResultPrinter.AddWarning` | src/CodewarsResultPrinter.php:49-53 | the same effect as `AddError` |
| `Printer.CodewarsResultPrinter.AddFailure` | src/CodewarsResultPrinter.php:58-65 | appends exactly one `<FAILED::>` entry; writes nothing; keeps the wrapper |
| `Printer.CodewarsResultPrinter.AddIncompleteTest` | src/CodewarsResultPrinter.php:70-73 | writes `\n<LOG::>Test Incomplete\n` at once; buffer and wrapper unchanged |
| `Printer.CodewarsResultPrinter.AddRiskyTest` | src/CodewarsResultPrinter.php:78-81 | exactly the effect of `AddError` |
| `Printer.CodewarsResultPrinter.AddSkippedTest` | src/CodewarsResultPrinter.php:86-89 | writes `\n<LOG::>Test Ignored\n` at once; buffer and wrapper unchanged |
| `Printer.CodewarsResultPrinter.StartTestSuite` | src/CodewarsResultPrinter.php:94-109 | with no wrapper recorded, records the suite and writes nothing; otherwise keeps the wrapper and writes nothing for a PHP-empty name, else one DESCRIBE line with the prettified name |
| `Printer.CodewarsResultPrinter.EndTestSuite` | src/CodewarsResultPrinter.php:114-126 | on the recorded wrapper, clears it and writes nothing; otherwise keeps the wrapper and writes nothing for a PHP-empty name, else one bare `\n<COMPLETEDIN::>\n` |
| `Printer.CodewarsResultPrinter.StartTest` | src/CodewarsResultPrinter.php:131-139 | writes exactly one IT line with the title, and empties the buffer whatever it held |
| `Printer.CodewarsResultPrinter.EndTest` | src/CodewarsResultPrinter.php:144-158 | writes, in order, the captured output if any, then PASSED if and only if the buffer is empty (else the entries joined by newlines), then the COMPLETEDIN line with the time in milliseconds; buffer and wrapper unchanged |

## Left out

- The PHPUnit host: the inheritance from `DefaultResultPrinter` and the `TestListener` wiring. The callbacks are plain methods.
- The arguments a callback receives but does not use are dropped: the `Test $test` and `float $time` of the `add…` methods, and the `\Throwable $t` of `addIncompleteTest` and `addSkippedTest`.
- `getDetails` is declared to throw `\InvalidArgumentException`, from the foreign stack-trace code. The `Host` functions are total, so the model has no such failure. If the throw happened inside `addError`, `addWarning` or `addRiskyTest`, PHP would leave the `<ERROR::>` entry buffered with no stack-trace entry after it. The model buffers the ERROR entry before it computes the details, in the source's order, but it does not model the throw.
- PHP strings are byte strings, while Dafny's `string` is a sequence of Unicode characters. Lengths here, as in `EscapeLFLength` and `ReplaceCharLength`, count characters, not the bytes `strlen` would count.
- `Scalar.FloatScalar` holds a `real`. It cannot represent `NAN` or `INF`, and it does not tell `-0.0` apart from `0.0`, which `print_r` renders as `"-0"` and `"0"`.
- `printResult` is left out. Its body is empty, so it writes nothing and changes nothing.
- `write` is not real I/O here. It is an append to the ghost log `out`.
- The TestDox prettifier, `Filter::getFilteredStacktrace`, `TestFailure::exceptionToString`, `print_r` and `sprintf("%.4f", …)` are foreign code. They are uninterpreted function values in `Host`, so nothing is proved about their output. In particular, the model does not prove the millisecond formatting or that a foreign stack trace is free of newlines.
- The time is a `real`. PHP's floating-point multiplication `$time * 1000` is modelled as exact.
- The `method_exists`/`hasOutput()`/`getActualOutput()` reflection in `endTest` is an input: the test's `output` is `Some` exactly when the test has those methods and reports output.
- `getPrevious()` and `getPreviousWrapped()` are both the one field `Exc.previous`.
- The wrapper-suite test uses PHP's loose `==`. That comparison could also match a different suite object with equal properties; the model uses equality of suite identifiers instead.
- `$comparisonFailure instanceof ComparisonFailure` is the `Some` case of the optional comparison.
- An `ExceptionWrapper` that reports an empty class name is treated like any other throwable, as the source treats it.

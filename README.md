# sequence: a verified model of a fluent Selenium test chain

`sequence.go` is a Go helper for browser tests. A test builds a chain of calls
on a `Sequence` (navigate, match the title or the URL, run page tests) or on an
`Elements` selection made by `Find`/`FindChildren` (state checks, element
commands, string matchers, `Count`, `Filter`). Each chain carries one error.
The navigation, matching, test, selection and filter steps first look at that
error. The first failure is recorded with its stage, its element, its cause and
the call site it blames, and those steps do nothing after it. `Debug` and
`Screenshot` do not look at it, and `Any`, `All` and `OnError` only set a flag.
Most testing steps (navigation, title and URL matches, `Count`, the element
checks, and `Find` on a clean chain) also record themselves as the chain's redo
step (`last`). `Eventually` clears the error and replays that step,
re-selecting the elements first for a selection, until an attempt passes or the
timeout is reached.

This project models that core in Dafny:

- `strings.dfy` (module `Strings`): the four string comparators (`Equals`,
  `Contains`, `StartsWith`, `EndsWith`). Each is proved to mean its textbook
  relation.
- `failures.dfy` (module `Failures`): the chain error, `Error{Stage, Element,
  Err, Caller}`. Causes keep their structure instead of their formatted text.
- `browser.dfy` (module `Browser`): the WebDriver as a `Page` value that holds
  every answer the driver would give at one moment, plus the element summary
  used in error messages.
- `steps.dfy` (module `Steps`): what each step does on a clean chain, as
  functions, together with the two loops that compute a selection's outcome
  (`Quantify`, the quantifier pass, and `SelectChildren`, the child lookup),
  each proved equal to its function:
  - the per-element checks;
  - the quantifier engine of `Elements.test` (count dispatch, All fails fast,
    Any succeeds first);
  - child-selection pooling;
  - the filter's keep rule;
  - the retry's choice of attempt;
  - the page-level steps.
- `chain.dfy` (module `Chain`): the classes `Sequence` and `Elements`. Their
  fields are the ones the source updates in place: `err`, `last` and `onErr`;
  and `elems`, `last`, `any` and `all`. Their methods are proved against the
  functions of `Steps`. The filter and both retries are methods with loop
  invariants; element tests and child lookups call the loops of `Steps`.

How the model treats the source's runtime:

- **Driver.** The driver is foreign I/O. A step receives the `Page` it runs
  on. A retry receives `pages: nat -> Page` (one page per attempt) and a
  `deadline`: attempts `0..deadline` stand for the polls that fit before
  `EventualTimeout`.
- **Call sites.** `runtime.Caller` becomes an opaque `site` string passed by
  the caller.
- **Redo closures.** The closures stored in `last` become the tagged values
  `Step` and `ElemStep`. Each tagged value records the site of the step that
  installed it, and a replay blames that site.
- **Filter predicates.** The source's `Filter` calls a user function on a fresh
  chain holding a fresh one-element selection, and keeps the element iff that
  function returns no error. The model takes as that function a sequence of
  element checks run on the isolated selection, followed by `End`.

Quirks of the source that the model keeps:

- `Hidden` fails with "Element was not visible".
- `Unselected` records its errors under the stage "Selected Test".
- `FindChildren` on a failed chain returns the receiver itself.
- `FindChildren` over zero parents fails with a nil cause and no element.
- `Find` on a failed chain installs no redo step.
- `Title`, `URL`, `Get`/`Back`/`Forward`/`Refresh`, `Count` and the element
  checks install their redo step even on a failed chain. The public `Test`
  methods return before installing theirs.
- `Debug` and `Screenshot` ignore an earlier error.
- A failed screenshot write blames no call site.
- A failed selection leaves no elements.

## Model

| member | source | states |
|---|---|---|
| `Strings.IndexFrom` | sequence.go:293 | the result is -1 or an occurrence of the target at or after the start, and no occurrence lies between the start and the result |
| `Strings.Index` | sequence.go:293 | `strings.Contains`' search: -1 exactly when the target occurs nowhere, otherwise its first occurrence |
| `Strings.Matches` | sequence.go:281-318 | a comparator only accepts a subject at least as long as its target, and Contains accepts iff the target occurs somewhere in the subject |
| `Strings.MatchesMeaning` | sequence.go:281-318 | Equals, StartsWith and EndsWith each pass iff equality, an occurrence at 0, an occurrence at the end |
| `Strings.MatchesItself` | sequence.go:281-318 | every comparator accepts a subject equal to its target |
| `Strings.StartsWithIgnoresTail` | sequence.go:301-309 | a prefix match is unaffected by editing a byte past the prefix |
| `Strings.EndsWithIgnoresHead` | sequence.go:311-319 | a suffix match is unaffected by editing a byte before the suffix |
| `Strings.ContainsIgnoresOutside` | sequence.go:291-299 | an occurrence keeps Contains true under any edit outside its bytes |
| `Failures.StampLaw` | sequence.go:173-175 | a timed-out retry keeps its last error's stage, element and cause and changes only the blamed call site; stamping again leaves only the last site |
| `Browser.Clip` | sequence.go:93-95 | the summary text is at most 25 bytes, a prefix of the text, and the whole text when it is short enough |
| `Browser.ElementString` | sequence.go:77-98 | no element gives ""; a non-empty id gives "#id"; a failed tag or text read gives the handle's own rendering; otherwise `<tag>text</tag>` with the text cut to 25 bytes |
| `Browser.ElementSummaryLaw` | sequence.go:85-98 | the summary of an element without an id opens with its tag, is at most 25 text bytes longer than its two tags, and shows a short text whole |
| `Steps.StateIs` | sequence.go:834-918 | a state check passes iff the driver answers with the wanted state |
| `Steps.RunCheck` | sequence.go:834-1064 | each state check passes iff its state is as wanted, a command passes iff the driver accepts it, a string matcher passes iff the property reads and the comparison holds, a user test passes iff it returns no error |
| `Steps.StateChecksLaw` | sequence.go:834-918 | each of the six state checks passes on a failed driver read the driver's own error; a wrong state gives "Element was not visible" (Visible, and also Hidden), "Element was not enabled", "Element was not disabled", "Element was not selected" or "Element was selected"; Unselected records its errors under the Selected stage |
| `Steps.CompareMeaning` | sequence.go:925-978 | a string matcher that cannot read its property reports the driver's error; one that rejects it reports the property name, kind, expected and actual value |
| `Steps.FirstFail` | sequence.go:798-809 | the position of the first element the check rejects: every earlier element passed |
| `Steps.FirstPass` | sequence.go:798-818 | the position of the first element the check accepts: every earlier element failed |
| `Steps.SubErrorsWhenAllFail` | sequence.go:810-825 | when every element fails there is one sub-error per element, in selection order, naming that element and its cause |
| `Steps.Quantified` | sequence.go:758-831 | the check only ever runs on a prefix of the selection; a pass needs a non-empty selection and a tried element that passed, and under All or with one element every element passing; every error carries the test's stage and site and blames only a tried element |
| `Steps.Quantify` | sequence.go:758-831 | the engine's loop returns the error of the quantifier semantics, and calls the check on exactly the elements it specifies, in order |
| `Steps.NoElementsLaw` | sequence.go:765-772 | an empty selection fails with "no elements" without running the check |
| `Steps.SingleLaw` | sequence.go:773-784 | one element: the quantifier does not matter, the check runs once, and its failure is attached to the element unwrapped |
| `Steps.AmbiguousLaw` | sequence.go:786-794 | several elements and neither Any nor All: an ambiguity error, and the check never runs |
| `Steps.AllModeLaw` | sequence.go:798-828 | All passes iff every element passes; otherwise it stops at the first failure, which it blames with a "Not All" cause |
| `Steps.AnyModeLaw` | sequence.go:798-828 | Any passes iff some element passes and stops right after the first; otherwise one error wraps one sub-error per element |
| `Steps.PooledAppend` | sequence.go:707-717 | pooled children distribute over splitting the parents, so they come in parent order |
| `Steps.PooledMembers` | sequence.go:707-717 | a child is pooled iff some parent's lookup succeeded and returned it |
| `Steps.ChildrenResult` | sequence.go:699-730 | a child selection succeeds iff some parent lookup succeeds; otherwise it fails with a nested "Find Children" error naming the last parent and its failure, or no element and a nil cause when there are no parents |
| `Steps.SelectChildren` | sequence.go:703-729 | the per-parent lookup loop computes exactly the pooled children, or the "Find Children" error |
| `Steps.KeptAppend` | sequence.go:1073-1090 | filtering distributes over concatenation, so kept elements keep their relative order |
| `Steps.KeptMembers` | sequence.go:1073-1090 | an element is kept iff it is selected and passes; filtering never grows the selection; it keeps everything iff everything passes |
| `Steps.SettleFrom` | sequence.go:164-174 | scanning attempts from i stops at the first passing attempt or at the deadline |
| `Steps.Settle` | sequence.go:164-174 | a retry stops at the first attempt that passes, or at the last one, and every earlier attempt failed |
| `Steps.SettleUnique` | sequence.go:164-174 | the stopping attempt is the only one with those properties |
| `Steps.SettleRecovers` | sequence.go:164-178 | if some attempt within the deadline passes, the retry stops on a passing attempt no later than it |
| `Steps.FindValue` | sequence.go:415-422 | the search over a key's values succeeds iff some value equals the target |
| `Steps.QueryValueCause` | sequence.go:411-432 | QueryValue fails for a missing key, and otherwise passes iff the value is among the key's values |
| `Steps.UrlCheckCause` | sequence.go:401-442 | Path and Fragment pass iff equal to the parsed URL's path and fragment; QueryValue as above |
| `Steps.TitleOutcome` | sequence.go:252-318 | a title match passes iff the title can be read and the comparison holds; its errors carry stage "Title <kind>" and no element |
| `Steps.UrlOutcome` | sequence.go:363-442 | a URL match passes iff the URL can be read and parsed and the check passes; its errors carry stage "URL <check>" |
| `Steps.StepOutcome` | sequence.go:215-510 | a page-level redo step never blames an element and always blames the site recorded with it; a page test or navigation fails iff the test or the driver command does, under its own name |
| `Chain.Replay` | sequence.go:526-831 | only a re-selection changes the elements, and a failed one empties them; every error blames the site recorded with the step; Count fails iff the number differs; an element test's error carries its stage |
| `Chain.Sequence.Start` | sequence.go:113-119 | a new chain has no error, no redo step and no callback |
| `Chain.Sequence.OnError` | sequence.go:148-151 | stores whether a callback is registered; a nil callback removes an earlier one |
| `Chain.Sequence.End` | sequence.go:122-130 | returns the chain's error, and hands it to the callback iff a callback is registered and there is an error |
| `Chain.Sequence.Redo` | sequence.go:227-510 | replaying the recorded step on a clean chain records exactly that step's outcome, as `StepOutcome` describes it |
| `Chain.Sequence.Test` | sequence.go:215-224 | on a failed chain nothing changes; otherwise the test becomes the redo step and its failure is recorded under its name |
| `Chain.Sequence.Title` | sequence.go:252-318 | the title match always becomes the redo step; a prior error is kept; otherwise the error is the title match's outcome |
| `Chain.Sequence.Url` | sequence.go:363-442 | the URL match always becomes the redo step; a prior error is kept; otherwise the error is the URL match's outcome |
| `Chain.Sequence.Navigate` | sequence.go:339-510 | Get/Back/Forward/Refresh always become the redo step; a prior error is kept; otherwise a driver failure is recorded under the command's name |
| `Chain.Sequence.Find` | sequence.go:514-541 | a new CSS selection on this chain: on a failed chain it is empty with no redo step; otherwise its redo step re-selects and a failed lookup records stage "Elements" |
| `Chain.Sequence.Eventually` | sequence.go:160-179 | no-op on a clean chain; otherwise the error is that of the first passing attempt or of the last, blamed on the retry; a passing attempt within the deadline leaves the chain clean |
| `Chain.Sequence.Debug` | sequence.go:555-608 | a failed source, title or URL read overwrites the error with stage "Debug Source", "Debug Title" or "Debug URL"; otherwise the error is unchanged |
| `Chain.Sequence.Screenshot` | sequence.go:611-631 | a failed screenshot records stage "Screenshot", a failed write records stage "Screenshot Writing File" with no call site, otherwise unchanged |
| `Chain.Elements.constructor` | sequence.go:514-520 | a new selection has the given chain, elements, selector and selection function, no redo step and no quantifier |
| `Chain.Elements.Any` | sequence.go:653-657 | later tests pass if any element passes, and All is cleared |
| `Chain.Elements.All` | sequence.go:660-664 | later tests pass only if all elements pass, and Any is cleared |
| `Chain.Elements.SelectNow` | sequence.go:517-519 | calling the selection function gives the CSS query's answer or the pooled child selection |
| `Chain.Elements.Redo` | sequence.go:526-538 | replaying the redo step on a clean chain records exactly the re-selection, count or element test outcome |
| `Chain.Elements.Count` | sequence.go:667-686 | Count always becomes the redo step; a prior error is kept; otherwise it fails iff the number of elements differs |
| `Chain.Elements.Check` | sequence.go:758-1065 | each element check always becomes the redo step and, on a clean chain, records the quantifier engine's outcome over the selection |
| `Chain.Elements.Test` | sequence.go:747-756 | on a failed chain nothing changes; otherwise the test runs through the quantifier engine under stage "<name> Test" |
| `Chain.Elements.Find` | sequence.go:694-696 | a new selection on the same chain, as the page-level Find |
| `Chain.Elements.FindChildren` | sequence.go:699-743 | on a failed chain it returns the receiver; otherwise a new child selection with no redo step holding the pooled children, or no elements and the "Find Children" error |
| `Chain.Elements.Filter` | sequence.go:1068-1093 | on a clean chain the selection becomes exactly the elements whose predicate passes, in order; the chain's error is untouched |
| `Chain.Elements.Poll` | sequence.go:190-206 | one retry attempt: clear the error, re-select, and replay the redo step only if the selection succeeded |
| `Chain.Elements.Eventually` | sequence.go:181-212 | no-op on a clean chain or without a selection function or selector; otherwise elements and error are those of the first passing attempt or of the last, blamed on the retry |
| `Chain.Elements.End` | sequence.go:634-636 | ends the chain the selection belongs to |
| `Chain.Isolated` | sequence.go:1078-1087 | a predicate run on a fresh one-element chain ends without error iff every check passes on that element |
| `Chain.KeepPassing` | sequence.go:1073-1090 | the filter loop keeps exactly the elements whose isolated predicate run passes, in order |

## Left out

- `Wait` on both chains: it only sleeps (or returns at once); time is not modelled.
- `Ok` on both chains: printing and `testing.TB.FailNow` are test-harness I/O. Its callback call is the same as in `End`.
- `Debug`: printing the source, title and URL is left out; only its error handling is modelled.
- `Screenshot`: the file write is a parameter (`written`), the outcome of `ioutil.WriteFile`.
- The `Regexp` matchers on the title and on element strings: Go's regular expressions are not part of this model.
- `url.Parse`: the current URL arrives already parsed (`Location.At`) or with a parse failure (`Location.Unparsable`).
- `caller`: `runtime.Caller` becomes an opaque `site` string chosen by the calling code. Every error the model builds for one step carries that step's site. In the source, the per-element errors inside a "none of" error (sequence.go:810-815) and the "Find Children" error (sequence.go:721-726) take the site of the closure's own frame, so after a replay they name the retry's call stack rather than the step's; only the outer error's site is reset by `Eventually`.
- `Chain.Sequence.End`: the `OnError` callback is modelled as having no effect on the chain, so `End` returns the error that triggered it. The source re-reads `err` after the callback (sequence.go:125-127), so a callback that runs further steps on the chain (`Debug`, `Screenshot`) could replace the returned error with one of its own when its driver call or file write fails.
- `Error.Error` and `Errors.Error`: the exact fmt texts of errors are not modelled. Causes keep their structure (stage, element, selector, expected and actual values) instead. `ElementString` models the element part of that text.
- `Driver`, `And`, `Title()`, `URL()`, `TagName()`, `Text()`, `Attribute()` and `CSSProperty()`: these only hand out the driver, the chain or a matcher object. The matcher they build appears as the `kind`, `check` or `property` argument of the modelled step.
- Strings: Dafny strings are sequences of characters while Go's are sequences of bytes. The model assumes one byte per character, so `Clip` cuts at the 25th character, which is the 25th byte only for single-byte text.
- The WebDriver itself: every driver call is an answer read from a `Page` value, and each retry attempt sees its own `Page`.
- `WaitWithTimeoutAndInterval`: polling and the timeout clock become a number of attempts (`deadline`). The model assumes the first attempt runs at once.
- `Chain.Elements.Filter`: predicates are limited to chains of element checks on the isolated selection, ended with `End`. Arbitrary Go functions over the isolated `*Elements` are not modelled.
- `Chain.Sequence.Eventually`: requires a redo step when the chain is in error. The source would call a nil closure and panic.
- `Chain.Elements.Eventually`: requires that a selection without a redo step never re-selects successfully within the deadline. The source would call a nil closure and panic; a bare `FindChildren` installs no redo step.
- Aliasing between closures: each redo step replays against the selection it was recorded on, as the source's closures do. Copying or sharing closures between objects is not modelled.

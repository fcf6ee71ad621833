/** What each step of a chain does when it runs on a clean chain, stated as
    functions over the driver's answers: the per-element checks, the
    quantifier engine that applies a check to a selection, the pooling of child
    selections, the filter's keep rule, the retry's choice of attempt, and the
    page-level steps a chain can replay. The classes in module Chain are proved
    against these definitions. */
module Steps {
  import opened Strings
  import opened Failures
  import opened Browser

  // ---------------------------------------------------------------------------
  // Per-element checks

  /** A test applied to each selected element: the state tests, the element
      commands, the string matchers on a property, and user-supplied tests. */
  datatype ElemCheck =
    | Visible | Hidden | Enabled | Disabled | Selected | Unselected
    | Act(action: Action)
    | Compare(property: Property, kind: MatchKind, target: string)
    | Custom(name: string, fn: (Page, ElemId) -> Option<Cause>)

  /** The subject a string matcher names: "TagName", "Text", "<name> Attribute", "<name> CSS Property". */
  function PropertyName(p: Property): string
  {
    match p
    case TagName => "TagName"
    case Text => "Text"
    case Attribute(name) => name + " Attribute"
    case CssProperty(name) => name + " CSS Property"
  }

  function ActionName(a: Action): string
  {
    match a
    case Click => "Click"
    case SendKeys(_) => "SendKeys"
    case Submit => "Submit"
    case Clear => "Clear"
  }

  /** The test name each check passes to the quantifier engine. Unselected
      reuses the name "Selected", as the source does. */
  function CheckName(c: ElemCheck): string
  {
    match c
    case Visible => "Visible"
    case Hidden => "Hidden"
    case Enabled => "Enabled"
    case Disabled => "Disabled"
    case Selected => "Selected"
    case Unselected => "Selected"
    case Act(a) => ActionName(a)
    case Compare(p, kind, _) => PropertyName(p) + " " + KindName(kind)
    case Custom(name, _) => name
  }

  /** The stage recorded by every error of a check: its name followed by " Test". */
  function Stage(c: ElemCheck): string
  {
    CheckName(c) + " Test"
  }

  /** A boolean element state that must equal `want`, with the message used when it does not. */
  function StateIs(state: Result<bool>, want: bool, message: string): (r: Option<Cause>)
    ensures r.None? <==> state == Ok(want)
  {
    match state
    case Fail(c) => Some(c)
    case Ok(b) => if b != want then Some(Msg(message)) else None
  }

  /** The error one check reports for one element, or None when it passes.
      Hidden reports "Element was not visible", as the source does. */
  function RunCheck(c: ElemCheck, page: Page, id: ElemId): (r: Option<Cause>)
    ensures c.Visible? ==> (r.None? <==> page.displayed(id) == Ok(true))
    ensures c.Hidden? ==> (r.None? <==> page.displayed(id) == Ok(false))
    ensures c.Enabled? ==> (r.None? <==> page.enabled(id) == Ok(true))
    ensures c.Disabled? ==> (r.None? <==> page.enabled(id) == Ok(false))
    ensures c.Selected? ==> (r.None? <==> page.selected(id) == Ok(true))
    ensures c.Unselected? ==> (r.None? <==> page.selected(id) == Ok(false))
    ensures c.Act? ==> (r.None? <==> page.act(id, c.action).None?)
    ensures c.Compare? ==>
              (r.None? <==> page.property(id, c.property).Ok? && Matches(c.kind, page.property(id, c.property).value, c.target))
    ensures c.Custom? ==> (r.None? <==> c.fn(page, id).None?)
  {
    match c
    case Visible => StateIs(page.displayed(id), true, "Element was not visible")
    case Hidden => StateIs(page.displayed(id), false, "Element was not visible")
    case Enabled => StateIs(page.enabled(id), true, "Element was not enabled")
    case Disabled => StateIs(page.enabled(id), false, "Element was not disabled")
    case Selected => StateIs(page.selected(id), true, "Element was not selected")
    case Unselected => StateIs(page.selected(id), false, "Element was selected")
    case Act(a) => page.act(id, a)
    case Compare(p, kind, target) =>
      (match page.property(id, p)
       case Fail(e) => Some(e)
       case Ok(v) => if Matches(kind, v, target) then None else Some(Mismatch(PropertyName(p), kind, target, v)))
    case Custom(_, fn) => fn(page, id)
  }

  /** A string matcher that reads the property but rejects it reports the
      property's name, the comparison, the expected and the actual value; one
      that cannot read the property reports the driver's error. */
  lemma CompareMeaning(p: Property, kind: MatchKind, target: string, page: Page, id: ElemId)
    ensures page.property(id, p).Fail? ==>
            RunCheck(Compare(p, kind, target), page, id) == Some(page.property(id, p).cause)
    ensures page.property(id, p).Ok? && !Matches(kind, page.property(id, p).value, target) ==>
            RunCheck(Compare(p, kind, target), page, id) == Some(Mismatch(PropertyName(p), kind, target, page.property(id, p).value))
  {
  }

  /** The messages of the state checks. A failed driver read reports the
      driver's own error. Hidden blames an element that is shown with "Element
      was not visible", and Unselected records its errors under the Selected
      stage. */
  lemma StateChecksLaw(page: Page, id: ElemId)
    ensures page.displayed(id).Fail? ==>
              RunCheck(Visible, page, id) == Some(page.displayed(id).cause)
              && RunCheck(Hidden, page, id) == Some(page.displayed(id).cause)
    ensures page.enabled(id).Fail? ==>
              RunCheck(Enabled, page, id) == Some(page.enabled(id).cause)
              && RunCheck(Disabled, page, id) == Some(page.enabled(id).cause)
    ensures page.selected(id).Fail? ==>
              RunCheck(Selected, page, id) == Some(page.selected(id).cause)
              && RunCheck(Unselected, page, id) == Some(page.selected(id).cause)
    ensures page.displayed(id) == Ok(false) ==> RunCheck(Visible, page, id) == Some(Msg("Element was not visible"))
    ensures page.displayed(id) == Ok(true) ==> RunCheck(Hidden, page, id) == Some(Msg("Element was not visible"))
    ensures page.enabled(id) == Ok(false) ==> RunCheck(Enabled, page, id) == Some(Msg("Element was not enabled"))
    ensures page.enabled(id) == Ok(true) ==> RunCheck(Disabled, page, id) == Some(Msg("Element was not disabled"))
    ensures page.selected(id) == Ok(false) ==> RunCheck(Selected, page, id) == Some(Msg("Element was not selected"))
    ensures page.selected(id) == Ok(true) ==> RunCheck(Unselected, page, id) == Some(Msg("Element was selected"))
    ensures Stage(Unselected) == Stage(Selected) == "Selected Test"
  {
  }

  function CheckFn(c: ElemCheck, page: Page): ElemId -> Option<Cause>
  {
    (id: ElemId) => RunCheck(c, page, id)
  }

  // ---------------------------------------------------------------------------
  // The quantifier engine

  /** How a test treats a selection of more than one element. */
  datatype Mode = Single | AnyOf | AllOf

  /** A test's outcome: the error it records and the elements it passed to the check, in order. */
  datatype Verdict = Verdict(err: Option<ChainError>, tried: seq<ElemId>)

  /** The position of the first element the check rejects, or |elems| when none is rejected. */
  function FirstFail(elems: seq<ElemId>, fn: ElemId -> Option<Cause>): (k: nat)
    ensures k <= |elems|
    ensures forall j :: 0 <= j < k ==> fn(elems[j]).None?
    ensures k < |elems| ==> fn(elems[k]).Some?
  {
    if elems == [] then 0
    else if fn(elems[0]).Some? then 0
    else 1 + FirstFail(elems[1..], fn)
  }

  /** The position of the first element the check accepts, or |elems| when none is accepted. */
  function FirstPass(elems: seq<ElemId>, fn: ElemId -> Option<Cause>): (k: nat)
    ensures k <= |elems|
    ensures forall j :: 0 <= j < k ==> fn(elems[j]).Some?
    ensures k < |elems| ==> fn(elems[k]).None?
  {
    if elems == [] then 0
    else if fn(elems[0]).None? then 0
    else 1 + FirstPass(elems[1..], fn)
  }

  /** The per-element errors of the elements the check rejects, in selection order. */
  function SubErrors(elems: seq<ElemId>, fn: ElemId -> Option<Cause>, stage: string, site: string): seq<ChainError>
  {
    if elems == [] then []
    else
      var rest := SubErrors(elems[..|elems| - 1], fn, stage, site);
      var last := elems[|elems| - 1];
      match fn(last)
      case None => rest
      case Some(c) => rest + [ChainError(stage, Some(last), c, site)]
  }

  /** When every element is rejected there is exactly one sub-error per element,
      in selection order, each naming its element and its cause. */
  lemma {:induction false} SubErrorsWhenAllFail(elems: seq<ElemId>, fn: ElemId -> Option<Cause>, stage: string, site: string)
    requires forall i :: 0 <= i < |elems| ==> fn(elems[i]).Some?
    ensures |SubErrors(elems, fn, stage, site)| == |elems|
    ensures forall i :: 0 <= i < |elems| ==>
              SubErrors(elems, fn, stage, site)[i] == ChainError(stage, Some(elems[i]), fn(elems[i]).value, site)
  {
    if elems != [] {
      var front := elems[..|elems| - 1];
      assert forall i :: 0 <= i < |front| ==> front[i] == elems[i];
      SubErrorsWhenAllFail(front, fn, stage, site);
    }
  }

  /** The outcome of a test over a selection: the dispatch on the number of
      elements, then fail-fast for All and first-success for Any. */
  function Quantified(elems: seq<ElemId>, mode: Mode, selector: string, stage: string,
                      fn: ElemId -> Option<Cause>, site: string): (v: Verdict)
    ensures v.tried <= elems
    ensures v.err.None? ==> |elems| > 0 && exists i :: 0 <= i < |v.tried| && fn(v.tried[i]).None?
    ensures v.err.None? && (mode.AllOf? || |elems| == 1) ==> forall i :: 0 <= i < |elems| ==> fn(elems[i]).None?
    ensures v.err.Some? ==> v.err.value.stage == stage && v.err.value.caller == site
    ensures v.err.Some? && v.err.value.element.Some? ==> v.err.value.element.value in v.tried
  {
    if |elems| == 0 then
      Verdict(Some(ChainError(stage, None, NoElements(selector), site)), [])
    else if |elems| == 1 then
      Verdict(Raise(stage, Some(elems[0]), fn(elems[0]), site), elems)
    else if mode == Single then
      Verdict(Some(ChainError(stage, None, Ambiguous(selector), site)), [])
    else if mode == AllOf then
      var k := FirstFail(elems, fn);
      if k == |elems| then Verdict(None, elems)
      else Verdict(Some(ChainError(stage, Some(elems[k]), NotAll(fn(elems[k]).value), site)), elems[..k + 1])
    else
      var k := FirstPass(elems, fn);
      if k < |elems| then Verdict(None, elems[..k + 1])
      else Verdict(Some(ChainError(stage, None, NoneOf(SubErrors(elems, fn, stage, site)), site)), elems)
  }

  /** The engine as the source runs it: count dispatch, then one pass over the
      elements that stops early; `tried` logs every call of the check. */
  method Quantify(elems: seq<ElemId>, mode: Mode, selector: string, stage: string,
                  fn: ElemId -> Option<Cause>, site: string)
    returns (err: Option<ChainError>, ghost tried: seq<ElemId>)
    ensures err == Quantified(elems, mode, selector, stage, fn, site).err
    ensures tried == Quantified(elems, mode, selector, stage, fn, site).tried
  {
    tried := [];
    if |elems| == 0 {
      err := Some(ChainError(stage, None, NoElements(selector), site));
      return;
    }
    if |elems| == 1 {
      var c := fn(elems[0]);
      tried := [elems[0]];
      err := None;
      if c.Some? {
        err := Some(ChainError(stage, Some(elems[0]), c.value, site));
      }
      return;
    }
    if mode == Single {
      err := Some(ChainError(stage, None, Ambiguous(selector), site));
      return;
    }
    var errs: seq<ChainError> := [];
    var i := 0;
    while i < |elems|
      invariant 0 <= i <= |elems|
      invariant tried == elems[..i]
      invariant mode == AllOf ==> errs == [] && forall j :: 0 <= j < i ==> fn(elems[j]).None?
      invariant mode == AnyOf ==> errs == SubErrors(elems[..i], fn, stage, site)
                                  && forall j :: 0 <= j < i ==> fn(elems[j]).Some?
    {
      var c := fn(elems[i]);
      tried := tried + [elems[i]];
      assert elems[..i + 1] == elems[..i] + [elems[i]];
      if c.Some? {
        if mode == AllOf {
          err := Some(ChainError(stage, Some(elems[i]), NotAll(c.value), site));
          return;
        }
        errs := errs + [ChainError(stage, Some(elems[i]), c.value, site)];
        assert elems[..i + 1][..i] == elems[..i];
      } else if mode == AnyOf {
        err := None;
        return;
      }
      i := i + 1;
    }
    assert elems[..i] == elems;
    err := None;
    if |errs| != 0 {
      err := Some(ChainError(stage, None, NoneOf(errs), site));
    } else if mode == AnyOf {
      SubErrorsWhenAllFail(elems, fn, stage, site);
    }
  }

  /** An empty selection fails without running the check. */
  lemma NoElementsLaw(mode: Mode, selector: string, stage: string, fn: ElemId -> Option<Cause>, site: string)
    ensures Quantified([], mode, selector, stage, fn, site)
         == Verdict(Some(ChainError(stage, None, NoElements(selector), site)), [])
  {
  }

  /** One element runs the check once, whatever the quantifier says, and a
      failure is attached to that element unwrapped. */
  lemma SingleLaw(elems: seq<ElemId>, m1: Mode, m2: Mode, selector: string, stage: string,
                  fn: ElemId -> Option<Cause>, site: string)
    requires |elems| == 1
    ensures Quantified(elems, m1, selector, stage, fn, site) == Quantified(elems, m2, selector, stage, fn, site)
    ensures Quantified(elems, m1, selector, stage, fn, site).tried == elems
    ensures Quantified(elems, m1, selector, stage, fn, site).err.None? <==> fn(elems[0]).None?
    ensures fn(elems[0]).Some? ==>
      Quantified(elems, m1, selector, stage, fn, site).err == Some(ChainError(stage, Some(elems[0]), fn(elems[0]).value, site))
  {
  }

  /** Several elements and no quantifier: an ambiguity error, and the check never runs. */
  lemma AmbiguousLaw(elems: seq<ElemId>, selector: string, stage: string, fn: ElemId -> Option<Cause>, site: string)
    requires |elems| > 1
    ensures Quantified(elems, Single, selector, stage, fn, site)
         == Verdict(Some(ChainError(stage, None, Ambiguous(selector), site)), [])
  {
  }

  /** All: the test passes iff every element passes; otherwise it stops at the
      first failure, never passes a later element to the check, and blames the
      failing element with a "Not All" cause. */
  lemma AllModeLaw(elems: seq<ElemId>, selector: string, stage: string, fn: ElemId -> Option<Cause>, site: string)
    requires |elems| > 1
    ensures var v := Quantified(elems, AllOf, selector, stage, fn, site);
      (v.err.None? <==> forall i :: 0 <= i < |elems| ==> fn(elems[i]).None?) &&
      (v.err.None? ==> v.tried == elems) &&
      (v.err.Some? ==>
         (exists k :: 0 <= k < |elems| && fn(elems[k]).Some?
            && (forall j :: 0 <= j < k ==> fn(elems[j]).None?)
            && v.tried == elems[..k + 1]
            && v.err.value == ChainError(stage, Some(elems[k]), NotAll(fn(elems[k]).value), site)))
  {
    var k := FirstFail(elems, fn);
    if k < |elems| {
      assert elems[..k + 1][k] == elems[k];
    }
  }

  /** Any: the test passes iff some element passes, and then stops right after
      the first one; if none passes, the one error wraps exactly one sub-error
      per element, in selection order. */
  lemma AnyModeLaw(elems: seq<ElemId>, selector: string, stage: string, fn: ElemId -> Option<Cause>, site: string)
    requires |elems| > 1
    ensures var v := Quantified(elems, AnyOf, selector, stage, fn, site);
      (v.err.None? <==> exists i :: 0 <= i < |elems| && fn(elems[i]).None?) &&
      (v.err.None? ==>
         (exists k :: 0 <= k < |elems| && fn(elems[k]).None?
            && (forall j :: 0 <= j < k ==> fn(elems[j]).Some?)
            && v.tried == elems[..k + 1])) &&
      (v.err.Some? ==>
         (v.tried == elems && v.err.value.stage == stage && v.err.value.element == None
          && v.err.value.cause.NoneOf? && |v.err.value.cause.subs| == |elems|
          && forall i :: 0 <= i < |elems| ==>
               v.err.value.cause.subs[i] == ChainError(stage, Some(elems[i]), fn(elems[i]).value, site)))
  {
    var k := FirstPass(elems, fn);
    if k == |elems| {
      SubErrorsWhenAllFail(elems, fn, stage, site);
    }
  }

  // ---------------------------------------------------------------------------
  // Child selection

  /** What one parent contributes to a child selection: its children if the lookup succeeded. */
  function Found(r: Result<seq<ElemId>>): seq<ElemId>
  {
    if r.Ok? then r.value else []
  }

  /** The children of every parent whose lookup succeeded, concatenated in parent order. */
  function Pooled(parents: seq<ElemId>, selector: string, page: Page): seq<ElemId>
  {
    if parents == [] then []
    else Pooled(parents[..|parents| - 1], selector, page) + Found(page.children(parents[|parents| - 1], selector))
  }

  /** Pooling distributes over splitting the parents, so children keep parent order. */
  lemma {:induction false} PooledAppend(a: seq<ElemId>, b: seq<ElemId>, selector: string, page: Page)
    ensures Pooled(a + b, selector, page) == Pooled(a, selector, page) + Pooled(b, selector, page)
  {
    if b == [] {
      assert a + b == a;
    } else {
      var front := b[..|b| - 1];
      assert (a + b)[..|a + b| - 1] == a + front;
      PooledAppend(a, front, selector, page);
    }
  }

  /** A child is pooled iff some parent's lookup succeeded and returned it. */
  lemma {:induction false} PooledMembers(parents: seq<ElemId>, selector: string, page: Page)
    ensures forall x :: x in Pooled(parents, selector, page) <==>
              exists j :: 0 <= j < |parents| && page.children(parents[j], selector).Ok?
                          && x in page.children(parents[j], selector).value
  {
    if parents != [] {
      var front := parents[..|parents| - 1];
      PooledMembers(front, selector, page);
      forall x | x in Pooled(parents, selector, page)
        ensures exists j :: 0 <= j < |parents| && page.children(parents[j], selector).Ok?
                            && x in page.children(parents[j], selector).value
      {
        if x in Pooled(front, selector, page) {
          var j :| 0 <= j < |front| && page.children(front[j], selector).Ok? && x in page.children(front[j], selector).value;
          assert parents[j] == front[j];
        } else {
          assert page.children(parents[|parents| - 1], selector).Ok?;
        }
      }
      forall x | exists j :: 0 <= j < |parents| && page.children(parents[j], selector).Ok?
                             && x in page.children(parents[j], selector).value
        ensures x in Pooled(parents, selector, page)
      {
        var j :| 0 <= j < |parents| && page.children(parents[j], selector).Ok? && x in page.children(parents[j], selector).value;
        if j < |front| {
          assert front[j] == parents[j];
        }
      }
    }
  }

  /** A child selection succeeds iff some parent lookup succeeds. Otherwise it
      reports stage "Find Children" with the last parent and its error, and with
      no element and a nil cause when there are no parents. */
  function ChildrenResult(parents: seq<ElemId>, selector: string, page: Page, site: string): (r: Result<seq<ElemId>>)
    ensures r.Ok? <==> exists j :: 0 <= j < |parents| && page.children(parents[j], selector).Ok?
    ensures r.Fail? ==> r.cause.Nested? && r.cause.error.stage == "Find Children" && r.cause.error.caller == site
    ensures r.Fail? && parents == [] ==> r.cause.error.element == None && r.cause.error.cause == NilCause
    ensures r.Fail? && parents != [] ==>
              var last := parents[|parents| - 1];
              page.children(last, selector).Fail? && r.cause.error.element == Some(last)
              && r.cause.error.cause == page.children(last, selector).cause
  {
    if exists j :: 0 <= j < |parents| && page.children(parents[j], selector).Ok? then
      Ok(Pooled(parents, selector, page))
    else if parents == [] then
      Fail(Nested(ChainError("Find Children", None, NilCause, site)))
    else
      var last := parents[|parents| - 1];
      Fail(Nested(ChainError("Find Children", Some(last), page.children(last, selector).cause, site)))
  }

  /** The child selection loop: one lookup per parent, pooling the successes and
      remembering the last failure. */
  method SelectChildren(parents: seq<ElemId>, selector: string, page: Page, site: string)
    returns (r: Result<seq<ElemId>>)
    ensures r == ChildrenResult(parents, selector, page, site)
  {
    var found: seq<ElemId> := [];
    var success := false;
    var lastErr: Cause := NilCause;
    var lastElement: Option<ElemId> := None;
    for i := 0 to |parents|
      invariant found == Pooled(parents[..i], selector, page)
      invariant success <==> exists j :: 0 <= j < i && page.children(parents[j], selector).Ok?
      invariant !success && i > 0 ==>
                  lastElement == Some(parents[i - 1]) && lastErr == page.children(parents[i - 1], selector).cause
      invariant i == 0 ==> lastElement == None && lastErr == NilCause
    {
      var res := page.children(parents[i], selector);
      assert parents[..i + 1][..i] == parents[..i];
      if res.Fail? {
        lastElement := Some(parents[i]);
        lastErr := res.cause;
        continue;
      }
      found := found + res.value;
      success := true;
    }
    assert parents[..|parents|] == parents;
    if !success {
      r := Fail(Nested(ChainError("Find Children", lastElement, lastErr, site)));
      return;
    }
    r := Ok(found);
  }

  // ---------------------------------------------------------------------------
  // Filter

  /** A filter predicate, run as a chain of checks on an isolated one-element
      selection, passes iff every check passes on that element. */
  function Passes(pred: seq<ElemCheck>, page: Page, id: ElemId): bool
  {
    forall j :: 0 <= j < |pred| ==> RunCheck(pred[j], page, id).None?
  }

  function PassFn(pred: seq<ElemCheck>, page: Page): ElemId -> bool
  {
    (id: ElemId) => Passes(pred, page, id)
  }

  /** The elements the filter keeps, in their original order. */
  function Kept(elems: seq<ElemId>, pass: ElemId -> bool): seq<ElemId>
  {
    if elems == [] then []
    else Kept(elems[..|elems| - 1], pass) + (if pass(elems[|elems| - 1]) then [elems[|elems| - 1]] else [])
  }

  /** Filtering distributes over concatenation: relative order is preserved. */
  lemma {:induction false} KeptAppend(a: seq<ElemId>, b: seq<ElemId>, pass: ElemId -> bool)
    ensures Kept(a + b, pass) == Kept(a, pass) + Kept(b, pass)
  {
    if b == [] {
      assert a + b == a;
    } else {
      var front := b[..|b| - 1];
      assert (a + b)[..|a + b| - 1] == a + front;
      KeptAppend(a, front, pass);
    }
  }

  /** The filter keeps exactly the elements that pass and drops exactly those that fail. */
  lemma {:induction false} KeptMembers(elems: seq<ElemId>, pass: ElemId -> bool)
    ensures forall x :: x in Kept(elems, pass) <==> x in elems && pass(x)
    ensures |Kept(elems, pass)| <= |elems|
    ensures Kept(elems, pass) == elems <==> forall i :: 0 <= i < |elems| ==> pass(elems[i])
  {
    if elems != [] {
      var front := elems[..|elems| - 1];
      KeptMembers(front, pass);
      assert elems == front + [elems[|elems| - 1]];
      if Kept(elems, pass) == elems {
        assert |Kept(front, pass)| <= |front|;
        assert pass(elems[|elems| - 1]);
        assert Kept(front, pass) == front;
      }
      if forall i :: 0 <= i < |elems| ==> pass(elems[i]) {
        assert forall i :: 0 <= i < |front| ==> pass(front[i]);
      }
    }
  }

  // ---------------------------------------------------------------------------
  // Retry

  /** The attempt a retry stops at, scanning from attempt `i`. */
  function SettleFrom(ok: nat -> bool, i: nat, deadline: nat): (k: nat)
    requires i <= deadline
    decreases deadline - i
    ensures i <= k <= deadline
    ensures forall j :: i <= j < k ==> !ok(j)
    ensures ok(k) || k == deadline
  {
    if ok(i) || i == deadline then i else SettleFrom(ok, i + 1, deadline)
  }

  /** A retry with attempts 0..deadline stops at the first attempt that leaves no
      error, or at the last attempt when none does. */
  function Settle(ok: nat -> bool, deadline: nat): (k: nat)
    ensures k <= deadline
    ensures forall j :: 0 <= j < k ==> !ok(j)
    ensures ok(k) || k == deadline
  {
    SettleFrom(ok, 0, deadline)
  }

  /** The attempt a retry stops at is the only one satisfying Settle's contract,
      and a success anywhere within the deadline makes the retry end clean. */
  lemma SettleUnique(ok: nat -> bool, deadline: nat, k: nat)
    requires k <= deadline
    requires forall j :: 0 <= j < k ==> !ok(j)
    requires ok(k) || k == deadline
    ensures Settle(ok, deadline) == k
  {
  }

  lemma SettleRecovers(ok: nat -> bool, deadline: nat, j: nat)
    requires j <= deadline && ok(j)
    ensures ok(Settle(ok, deadline)) && Settle(ok, deadline) <= j
  {
  }

  // ---------------------------------------------------------------------------
  // Page-level steps

  /** The URL matchers. */
  datatype UrlCheck = Path(want: string) | QueryValue(key: string, value: string) | Fragment(want: string)

  function UrlCheckName(check: UrlCheck): string
  {
    match check
    case Path(_) => "Path Matches"
    case QueryValue(_, _) => "Query Value Matches"
    case Fragment(_) => "Fragment Matches"
  }

  /** The search over the values of one query key. */
  function FindValue(values: seq<string>, target: string): (found: bool)
    ensures found <==> exists i :: 0 <= i < |values| && values[i] == target
  {
    if values == [] then false
    else values[0] == target || FindValue(values[1..], target)
  }

  /** QueryValue fails when the key is absent, and otherwise passes iff some value under the key equals the target. */
  function QueryValueCause(query: map<string, seq<string>>, key: string, value: string): (r: Option<Cause>)
    ensures key !in query ==> r == Some(NoQueryKey(key))
    ensures key in query ==> (r.None? <==> value in query[key])
    ensures key in query && r.Some? ==> r == Some(NoQueryValue(key, value, query[key]))
  {
    if key in query then
      if FindValue(query[key], value) then None else Some(NoQueryValue(key, value, query[key]))
    else Some(NoQueryKey(key))
  }

  /** The error of a URL matcher on a parsed URL: Path and Fragment pass iff equal. */
  function UrlCheckCause(check: UrlCheck, url: Url): (r: Option<Cause>)
    ensures check.Path? ==> (r.None? <==> url.path == check.want)
    ensures check.Fragment? ==> (r.None? <==> url.fragment == check.want)
    ensures check.QueryValue? ==> r == QueryValueCause(url.query, check.key, check.value)
  {
    match check
    case Path(m) => if url.path != m then Some(PathMismatch(m, url.path)) else None
    case Fragment(m) => if url.fragment != m then Some(FragmentMismatch(m, url.fragment)) else None
    case QueryValue(k, v) => QueryValueCause(url.query, k, v)
  }

  /** The stage name of a navigation step. */
  function NavName(nav: Nav): string
  {
    match nav
    case Get(_) => "Get"
    case Back => "Back"
    case Forward => "Forward"
    case Refresh => "Refresh"
  }

  /** The redo step a page-level chain records: the last page test, title
      match, URL match or navigation, with the call site it blames. */
  datatype Step =
    | NoStep
    | PageTest(name: string, fn: Page -> Option<Cause>, site: string)
    | TitleTest(kind: MatchKind, target: string, site: string)
    | UrlTest(check: UrlCheck, site: string)
    | Navigate(nav: Nav, site: string)

  /** The error a title match records: a failed title read or a failed comparison, under stage "Title <kind>". */
  function TitleOutcome(kind: MatchKind, target: string, page: Page, site: string): (r: Option<ChainError>)
    ensures r.None? <==> page.title.Ok? && Matches(kind, page.title.value, target)
    ensures r.Some? ==> r.value.stage == "Title " + KindName(kind) && r.value.element == None
  {
    var stage := "Title " + KindName(kind);
    match page.title
    case Fail(c) => Some(ChainError(stage, None, c, site))
    case Ok(t) => if Matches(kind, t, target) then None else Some(ChainError(stage, None, Mismatch("title", kind, target, t), site))
  }

  /** The error a URL match records: an unreadable or unparsable URL, or a failed check, under stage "URL <check>". */
  function UrlOutcome(check: UrlCheck, page: Page, site: string): (r: Option<ChainError>)
    ensures r.None? <==> page.location.At? && UrlCheckCause(check, page.location.url).None?
    ensures r.Some? ==> r.value.stage == "URL " + UrlCheckName(check) && r.value.element == None
  {
    var stage := "URL " + UrlCheckName(check);
    match page.location
    case Unreachable(c) => Some(ChainError(stage, None, c, site))
    case Unparsable(c) => Some(ChainError(stage, None, c, site))
    case At(url) => Raise(stage, None, UrlCheckCause(check, url), site)
  }

  /** What replaying a page-level step on a clean chain records. A chain with no
      step is never replayed (the source would call a nil closure). */
  function StepOutcome(step: Step, page: Page): (r: Option<ChainError>)
    ensures step.NoStep? ==> r.None?
    ensures r.Some? ==> r.value.element == None && r.value.caller == step.site
    ensures step.PageTest? ==> (r.None? <==> step.fn(page).None?) && (r.Some? ==> r.value.stage == step.name)
    ensures step.Navigate? ==> (r.None? <==> page.navigate(step.nav).None?) && (r.Some? ==> r.value.stage == NavName(step.nav))
  {
    match step
    case NoStep => None
    case PageTest(name, fn, site) => Raise(name, None, fn(page), site)
    case TitleTest(kind, target, site) => TitleOutcome(kind, target, page, site)
    case UrlTest(check, site) => UrlOutcome(check, page, site)
    case Navigate(nav, site) => Raise(NavName(nav), None, page.navigate(nav), site)
  }

  /** For each attempt, whether replaying `step` on that attempt's page leaves no error. */
  function StepOk(step: Step, pages: nat -> Page): (ok: nat -> bool)
    ensures forall k :: ok(k) == StepOutcome(step, pages(k)).None?
  {
    (k: nat) => StepOutcome(step, pages(k)).None?
  }

  // ---------------------------------------------------------------------------
  // Selection-level steps

  /** The redo step a selection records: re-select (from Find), Count, or an element test. */
  datatype ElemStep =
    | NoElemStep
    | Reselect(site: string)
    | CountStep(want: int, site: string)
    | ElemTest(check: ElemCheck, site: string)

  /** Count fails iff the wanted number differs from the number of selected elements. */
  function CountOutcome(want: int, elems: seq<ElemId>, selector: string, site: string): (r: Option<ChainError>)
    ensures r.None? <==> want == |elems|
    ensures r.Some? ==> r.value == ChainError("Count", None, CountMismatch(selector, want, |elems|), site)
  {
    if want != |elems| then Some(ChainError("Count", None, CountMismatch(selector, want, |elems|), site)) else None
  }

  /** The selection and the error a selection step leaves: the elements found,
      or no elements and an error under stage "Elements". */
  function Selection(r: Result<seq<ElemId>>, site: string): (seq<ElemId>, Option<ChainError>)
  {
    match r
    case Ok(found) => (found, None)
    case Fail(c) => ([], Some(ChainError("Elements", None, c, site)))
  }
}

/** The two chain heads. A `Sequence` carries the chain's error and the redo
    step of its last page-level action; an `Elements` is a selection that shares
    its sequence's error and carries its own elements, selection function, redo
    step and quantifier flags. Every step checks the shared error first; the
    retry loops clear it, re-select and replay the recorded step. */
module Chain {
  import opened Strings
  import opened Failures
  import opened Browser
  import opened Steps

  /** Where a selection's elements come from when it is selected again: no
      function (the filter's isolated selections), a CSS query on the page
      (Find), or the pooled children of a parent selection (FindChildren). */
  datatype SelectFn = NoSelect | ByCss | ChildrenOf(parent: Elements)

  /** What the selection function returns; `parents` are the parent selection's current elements. */
  function Select(sel: SelectFn, selector: string, parents: seq<ElemId>, page: Page, site: string): Result<seq<ElemId>>
    requires !sel.NoSelect?
  {
    match sel
    case ByCss => page.find(selector)
    case ChildrenOf(_) => ChildrenResult(parents, selector, page, site)
  }

  /** The elements and error that replaying a selection's redo step leaves on a
      clean chain. A missing step is never replayed (the source would call a nil
      closure); the retry's precondition rules that out. */
  function Replay(step: ElemStep, sel: SelectFn, selector: string, parents: seq<ElemId>,
                  elems: seq<ElemId>, mode: Mode, page: Page): (r: (seq<ElemId>, Option<ChainError>))
    requires step.Reselect? ==> !sel.NoSelect?
    ensures !step.Reselect? ==> r.0 == elems
    ensures step.Reselect? && r.1.Some? ==> r.0 == []
    ensures step.NoElemStep? ==> r.1.None?
    ensures r.1.Some? ==> r.1.value.caller == step.site
    ensures step.CountStep? ==> (r.1.None? <==> step.want == |elems|)
    ensures step.ElemTest? && r.1.Some? ==> r.1.value.stage == Stage(step.check)
  {
    match step
    case NoElemStep => (elems, None)
    case Reselect(site) => Selection(Select(sel, selector, parents, page, site), site)
    case CountStep(want, site) => (elems, CountOutcome(want, elems, selector, site))
    case ElemTest(check, site) => (elems, Quantified(elems, mode, selector, Stage(check), CheckFn(check, page), site).err)
  }

  /** One attempt of a selection's retry: select again, and replay the redo step
      only if the selection succeeded. */
  function AttemptOutcome(sel: SelectFn, selector: string, parents: seq<ElemId>, last: ElemStep,
                          mode: Mode, page: Page, site: string): (seq<ElemId>, Option<ChainError>)
    requires !sel.NoSelect?
  {
    match Select(sel, selector, parents, page, site)
    case Fail(c) => ([], Some(ChainError("Elements", None, c, site)))
    case Ok(found) => Replay(last, sel, selector, parents, found, mode, page)
  }

  /** For each attempt, whether it leaves no error. */
  function AttemptOk(sel: SelectFn, selector: string, parents: seq<ElemId>, last: ElemStep,
                     mode: Mode, pages: nat -> Page, site: string): (ok: nat -> bool)
    requires !sel.NoSelect?
    ensures forall k :: ok(k) == AttemptOutcome(sel, selector, parents, last, mode, pages(k), site).1.None?
  {
    (k: nat) => AttemptOutcome(sel, selector, parents, last, mode, pages(k), site).1.None?
  }

  /** A page-level chain. */
  class Sequence {
    var err: Option<ChainError>
    var last: Step
    /** Whether an error callback is registered. */
    var onErr: bool

    constructor Start()
      ensures err == None && last == NoStep && !onErr
    {
      err := None;
      last := NoStep;
      onErr := false;
    }

    /** Registers the error callback; `registered` is false when the callback
        passed is nil, which removes any earlier one. */
    method OnError(registered: bool)
      modifies this`onErr
      ensures onErr == registered
    {
      onErr := registered;
    }

    /** Ends the chain: returns its error, and hands that error to the callback
        (once) when a callback is registered and there is an error. */
    method End() returns (r: Option<ChainError>, handled: Option<ChainError>)
      ensures r == err
      ensures handled.Some? <==> onErr && err.Some?
      ensures handled.Some? ==> handled == err
    {
      r := err;
      handled := None;
      if err.Some? && onErr {
        handled := err;
      }
    }

    /** Runs the recorded step once on a clean chain (the source's call of `last`). */
    method Redo(page: Page)
      requires err.None? && !last.NoStep?
      modifies this`err
      ensures err == StepOutcome(last, page)
    {
      err := StepOutcome(last, page);
    }

    /** An arbitrary test against the page. On a failed chain it changes nothing,
        not even the redo step. */
    method Test(name: string, fn: Page -> Option<Cause>, site: string, page: Page)
      modifies this`err, this`last
      ensures old(err).Some? ==> err == old(err) && last == old(last)
      ensures old(err).None? ==> last == PageTest(name, fn, site) && err == Raise(name, None, fn(page), site)
    {
      if err.Some? {
        return;
      }
      last := PageTest(name, fn, site);
      Redo(page);
    }

    /** Title Equals, Contains, StartsWith and EndsWith. The redo step is
        replaced even on a failed chain; the error is then left as it was. */
    method Title(kind: MatchKind, target: string, site: string, page: Page)
      modifies this`err, this`last
      ensures last == TitleTest(kind, target, site)
      ensures err == if old(err).Some? then old(err) else TitleOutcome(kind, target, page, site)
    {
      last := TitleTest(kind, target, site);
      if err.None? {
        Redo(page);
      }
    }

    /** URL Path, QueryValue and Fragment, on the current URL after parsing. */
    method Url(check: UrlCheck, site: string, page: Page)
      modifies this`err, this`last
      ensures last == UrlTest(check, site)
      ensures err == if old(err).Some? then old(err) else UrlOutcome(check, page, site)
    {
      last := UrlTest(check, site);
      if err.None? {
        Redo(page);
      }
    }

    /** Get, Back, Forward and Refresh. The redo step is replaced even on a failed chain. */
    method Navigate(nav: Nav, site: string, page: Page)
      modifies this`err, this`last
      ensures last == Steps.Navigate(nav, site)
      ensures err == if old(err).Some? then old(err) else Raise(NavName(nav), None, page.navigate(nav), site)
    {
      last := Steps.Navigate(nav, site);
      if err.None? {
        Redo(page);
      }
    }

    /** Selects the elements matching a CSS selector. On a failed chain the
        selection is empty and has no redo step; otherwise its redo step
        re-selects, and a failed lookup records stage "Elements". */
    method Find(selector: string, site: string, page: Page) returns (e: Elements)
      modifies this`err
      ensures fresh(e) && e.Valid()
      ensures e.chain == this && e.selector == selector && e.selectFn == ByCss && !e.any && !e.all
      ensures old(err).Some? ==> err == old(err) && e.elems == [] && e.last == NoElemStep
      ensures old(err).None? ==> e.last == Reselect(site) && (e.elems, err) == Selection(page.find(selector), site)
    {
      e := new Elements(this, [], selector, ByCss);
      if err.Some? {
        return;
      }
      e.last := Reselect(site);
      e.Redo(page);
    }

    /** Retries the recorded step while the chain is in error: each attempt
        clears the error and replays the step, stopping at the first attempt
        that leaves no error; after the last attempt the remaining error blames
        this call site. Without an error it changes nothing. */
    method Eventually(pages: nat -> Page, deadline: nat, site: string)
      requires err.Some? ==> !last.NoStep?
      modifies this`err
      ensures old(err).None? ==> err == None
      ensures old(err).Some? ==>
        err == Stamp(StepOutcome(last, pages(Settle(StepOk(last, pages), deadline))), site)
      ensures old(err).Some? && (exists j :: 0 <= j <= deadline && StepOutcome(last, pages(j)).None?) ==> err == None
      ensures old(err).Some? && (forall j :: 0 <= j <= deadline ==> StepOutcome(last, pages(j)).Some?) ==>
                err.Some? && err.value == StepOutcome(last, pages(deadline)).value.(caller := site)
    {
      if err.None? {
        return;
      }
      ghost var ok := StepOk(last, pages);
      var k := 0;
      err := None;
      Redo(pages(0));
      while err.Some? && k < deadline
        invariant k <= deadline
        invariant forall j :: 0 <= j < k ==> !ok(j)
        invariant err == StepOutcome(last, pages(k))
        decreases deadline - k
      {
        k := k + 1;
        err := None;
        Redo(pages(k));
      }
      SettleUnique(ok, deadline, k);
      if j :| 0 <= j <= deadline && ok(j) {
        SettleRecovers(ok, deadline, j);
      }
      if err.Some? {
        err := Some(err.value.(caller := site));
      }
    }

    /** Reads the page source, title and URL for printing. It ignores an
        earlier error and overwrites it when a read fails. */
    method Debug(page: Page, site: string)
      modifies this`err
      ensures page.source.Fail? ==> err == Some(ChainError("Debug Source", None, page.source.cause, site))
      ensures page.source.Ok? && page.title.Fail? ==>
                err == Some(ChainError("Debug Title", None, page.title.cause, site))
      ensures page.source.Ok? && page.title.Ok? && page.location.Unreachable? ==>
                err == Some(ChainError("Debug URL", None, page.location.cause, site))
      ensures page.source.Ok? && page.title.Ok? && !page.location.Unreachable? ==> err == old(err)
    {
      if page.source.Fail? {
        err := Some(ChainError("Debug Source", None, page.source.cause, site));
        return;
      }
      if page.title.Fail? {
        err := Some(ChainError("Debug Title", None, page.title.cause, site));
        return;
      }
      if page.location.Unreachable? {
        err := Some(ChainError("Debug URL", None, page.location.cause, site));
      }
    }

    /** Takes a screenshot and writes it to a file whose write outcome is
        `written`. It ignores an earlier error; a failed write records no call site. */
    method Screenshot(page: Page, written: Option<Cause>, site: string)
      modifies this`err
      ensures page.screenshot.Some? ==> err == Some(ChainError("Screenshot", None, page.screenshot.value, site))
      ensures page.screenshot.None? && written.Some? ==>
                err == Some(ChainError("Screenshot Writing File", None, written.value, ""))
      ensures page.screenshot.None? && written.None? ==> err == old(err)
    {
      if page.screenshot.Some? {
        err := Some(ChainError("Screenshot", None, page.screenshot.value, site));
        return;
      }
      if written.Some? {
        err := Some(ChainError("Screenshot Writing File", None, written.value, ""));
      }
    }
  }

  /** A selection of elements on a chain. */
  class Elements {
    const chain: Sequence
    const selector: string
    const selectFn: SelectFn
    var elems: seq<ElemId>
    var last: ElemStep
    var any: bool
    var all: bool

    /** At most one quantifier flag is set, and a child selection is never its own parent. */
    ghost predicate Valid()
      reads this`any, this`all
    {
      !(any && all) && (selectFn.ChildrenOf? ==> selectFn.parent != this)
    }

    function Quantifier(): Mode
      reads this`any, this`all
    {
      if all then AllOf else if any then AnyOf else Single
    }

    /** The parent selection's current elements, for a child selection. */
    function Parents(): seq<ElemId>
      reads if selectFn.ChildrenOf? then {selectFn.parent} else {}
    {
      if selectFn.ChildrenOf? then selectFn.parent.elems else []
    }

    constructor(chain: Sequence, elems: seq<ElemId>, selector: string, selectFn: SelectFn)
      ensures this.chain == chain && this.elems == elems && this.selector == selector && this.selectFn == selectFn
      ensures last == NoElemStep && !any && !all
      ensures Valid()
    {
      this.chain := chain;
      this.selector := selector;
      this.selectFn := selectFn;
      this.elems := elems;
      last := NoElemStep;
      any := false;
      all := false;
    }

    /** Later tests pass if any element passes. */
    method Any()
      requires Valid()
      modifies this`any, this`all
      ensures any && !all && Valid() && Quantifier() == AnyOf
    {
      all := false;
      any := true;
    }

    /** Later tests pass only if every element passes. */
    method All()
      requires Valid()
      modifies this`any, this`all
      ensures all && !any && Valid() && Quantifier() == AllOf
    {
      any := false;
      all := true;
    }

    /** Calls the selection function. */
    method SelectNow(page: Page, site: string) returns (r: Result<seq<ElemId>>)
      requires !selectFn.NoSelect?
      ensures r == Select(selectFn, selector, Parents(), page, site)
    {
      match selectFn {
        case ByCss => r := page.find(selector);
        case ChildrenOf(parent) => r := SelectChildren(parent.elems, selector, page, site);
      }
    }

    /** Runs the recorded step once on a clean chain (the source's call of `last`). */
    method Redo(page: Page)
      requires Valid() && chain.err.None? && !last.NoElemStep?
      requires last.Reselect? ==> !selectFn.NoSelect?
      modifies this`elems, chain`err
      ensures (elems, chain.err) == Replay(last, selectFn, selector, Parents(), old(elems), Quantifier(), page)
    {
      match last {
        case Reselect(site) =>
          var r := SelectNow(page, site);
          match r {
            case Ok(found) =>
              elems := found;
            case Fail(c) =>
              elems := [];
              chain.err := Some(ChainError("Elements", None, c, site));
          }
        case CountStep(want, site) =>
          chain.err := CountOutcome(want, elems, selector, site);
        case ElemTest(check, site) =>
          var err;
          ghost var tried;
          err, tried := Quantify(elems, Quantifier(), selector, Stage(check), CheckFn(check, page), site);
          chain.err := err;
      }
    }

    /** Checks the number of selected elements. The redo step is replaced even on a failed chain. */
    method Count(want: int, site: string)
      modifies this`last, chain`err
      ensures last == CountStep(want, site)
      ensures chain.err == if old(chain.err).Some? then old(chain.err) else CountOutcome(want, elems, selector, site)
    {
      last := CountStep(want, site);
      if chain.err.None? {
        chain.err := CountOutcome(want, elems, selector, site);
      }
    }

    /** Visible, Hidden, Enabled, Disabled, Selected, Unselected, Click,
        SendKeys, Submit, Clear and the string matchers: records the check as
        the redo step (even on a failed chain) and, on a clean chain, runs it
        through the quantifier engine; `tried` lists the elements the check ran on. */
    method Check(check: ElemCheck, site: string, page: Page) returns (ghost tried: seq<ElemId>)
      requires Valid()
      modifies this`last, chain`err
      ensures last == ElemTest(check, site)
      ensures old(chain.err).Some? ==> chain.err == old(chain.err) && tried == []
      ensures old(chain.err).None? ==>
        Verdict(chain.err, tried) == Quantified(elems, Quantifier(), selector, Stage(check), CheckFn(check, page), site)
    {
      last := ElemTest(check, site);
      tried := [];
      if chain.err.None? {
        var err;
        err, tried := Quantify(elems, Quantifier(), selector, Stage(check), CheckFn(check, page), site);
        chain.err := err;
      }
    }

    /** An arbitrary test against the elements. On a failed chain it changes
        nothing, not even the redo step. */
    method Test(name: string, fn: (Page, ElemId) -> Option<Cause>, site: string, page: Page)
      returns (ghost tried: seq<ElemId>)
      requires Valid()
      modifies this`last, chain`err
      ensures old(chain.err).Some? ==> chain.err == old(chain.err) && last == old(last) && tried == []
      ensures old(chain.err).None? ==> last == ElemTest(Custom(name, fn), site)
      ensures old(chain.err).None? ==>
        Verdict(chain.err, tried) == Quantified(elems, Quantifier(), selector, name + " Test", CheckFn(Custom(name, fn), page), site)
    {
      tried := [];
      if chain.err.Some? {
        return;
      }
      tried := Check(Custom(name, fn), site, page);
    }

    /** A new selection on the same chain. */
    method Find(selector: string, site: string, page: Page) returns (e: Elements)
      modifies chain`err
      ensures fresh(e) && e.Valid()
      ensures e.chain == chain && e.selector == selector && e.selectFn == ByCss && !e.any && !e.all
      ensures old(chain.err).Some? ==> chain.err == old(chain.err) && e.elems == [] && e.last == NoElemStep
      ensures old(chain.err).None? ==> e.last == Reselect(site) && (e.elems, chain.err) == Selection(page.find(selector), site)
    {
      e := chain.Find(selector, site, page);
    }

    /** Selects the children of every element of this selection. On a failed
        chain it returns this selection itself. Otherwise the new selection
        holds the pooled children, or no elements and the "Find Children"
        error when no parent lookup succeeded; it records no redo step. */
    method FindChildren(selector: string, site: string, page: Page) returns (r: Elements)
      modifies chain`err
      ensures old(chain.err).Some? ==> r == this && chain.err == old(chain.err)
      ensures old(chain.err).None? ==>
        fresh(r) && r.Valid() && r.chain == chain && r.selector == selector && r.selectFn == ChildrenOf(this)
        && r.last == NoElemStep && !r.any && !r.all
        && match ChildrenResult(elems, selector, page, site)
           case Ok(found) => r.elems == found && chain.err == None
           case Fail(c) => r.elems == [] && chain.err == Some(c.error)
    {
      if chain.err.Some? {
        return this;
      }
      r := new Elements(chain, [], selector, ChildrenOf(this));
      var res := r.SelectNow(page, site);
      match res {
        case Ok(found) =>
          r.elems := found;
        case Fail(c) =>
          chain.err := Some(c.error);
      }
    }

    /** Keeps the elements for which the predicate passes on an isolated
        selection. It never touches the chain's error or redo step. */
    method Filter(pred: seq<ElemCheck>, site: string, page: Page)
      modifies this`elems
      ensures old(chain.err).Some? ==> elems == old(elems)
      ensures old(chain.err).None? ==> elems == Kept(old(elems), PassFn(pred, page))
    {
      if chain.err.Some? {
        return;
      }
      elems := KeepPassing(elems, pred, site, page);
    }

    /** One attempt of the retry: clear the error, select again and, if that
        worked, replay the redo step. */
    method Poll(page: Page, site: string)
      requires Valid() && !selectFn.NoSelect?
      requires Select(selectFn, selector, Parents(), page, site).Ok? ==> !last.NoElemStep?
      modifies this`elems, chain`err
      ensures (elems, chain.err) == AttemptOutcome(selectFn, selector, Parents(), last, Quantifier(), page, site)
    {
      chain.err := None;
      var r := SelectNow(page, site);
      match r {
        case Fail(c) =>
          elems := [];
          chain.err := Some(ChainError("Elements", None, c, site));
        case Ok(found) =>
          elems := found;
          Redo(page);
      }
    }

    /** Retries while the chain is in error and there is a selection function
        and a selector: each attempt clears the error, selects again and
        replays the redo step, stopping at the first attempt that leaves no
        error; after the last attempt the remaining error blames this call site.
        The source calls a missing redo step as soon as a re-selection
        succeeds, which the precondition excludes. */
    method Eventually(pages: nat -> Page, deadline: nat, site: string)
      requires Valid()
      requires chain.err.Some? && !selectFn.NoSelect? && selector != "" && last.NoElemStep? ==>
                 forall k :: 0 <= k <= deadline ==> Select(selectFn, selector, Parents(), pages(k), site).Fail?
      modifies this`elems, chain`err
      ensures old(chain.err).None? || selectFn.NoSelect? || selector == "" ==>
                elems == old(elems) && chain.err == old(chain.err)
      ensures old(chain.err).Some? && !selectFn.NoSelect? && selector != "" ==>
        var k := Settle(AttemptOk(selectFn, selector, Parents(), last, Quantifier(), pages, site), deadline);
        var outcome := AttemptOutcome(selectFn, selector, Parents(), last, Quantifier(), pages(k), site);
        elems == outcome.0 && chain.err == Stamp(outcome.1, site)
      ensures old(chain.err).Some? && !selectFn.NoSelect? && selector != "" &&
              (exists j :: 0 <= j <= deadline &&
                 AttemptOutcome(selectFn, selector, Parents(), last, Quantifier(), pages(j), site).1.None?) ==>
                chain.err == None
      ensures old(chain.err).Some? && !selectFn.NoSelect? && selector != "" &&
              (forall j :: 0 <= j <= deadline ==>
                 AttemptOutcome(selectFn, selector, Parents(), last, Quantifier(), pages(j), site).1.Some?) ==>
                chain.err.Some? && chain.err.value.caller == site
    {
      if chain.err.None? || selectFn.NoSelect? || selector == "" {
        return;
      }
      ghost var parents := Parents();
      ghost var ok := AttemptOk(selectFn, selector, parents, last, Quantifier(), pages, site);
      var k := 0;
      Poll(pages(0), site);
      while chain.err.Some? && k < deadline
        invariant k <= deadline
        invariant Valid() && Parents() == parents
        invariant forall j :: 0 <= j < k ==> !ok(j)
        invariant (elems, chain.err) == AttemptOutcome(selectFn, selector, parents, last, Quantifier(), pages(k), site)
        decreases deadline - k
      {
        k := k + 1;
        Poll(pages(k), site);
      }
      SettleUnique(ok, deadline, k);
      if j :| 0 <= j <= deadline && ok(j) {
        SettleRecovers(ok, deadline, j);
      }
      if chain.err.Some? {
        chain.err := Some(chain.err.value.(caller := site));
      }
    }

    /** Ends the chain this selection belongs to. */
    method End() returns (r: Option<ChainError>, handled: Option<ChainError>)
      ensures r == chain.err
      ensures handled.Some? <==> chain.onErr && chain.err.Some?
      ensures handled.Some? ==> handled == chain.err
    {
      r, handled := chain.End();
    }
  }

  /** Runs a filter predicate, a chain of checks, on one element through a
      fresh chain and a fresh one-element selection, and ends that chain. */
  method Isolated(id: ElemId, pred: seq<ElemCheck>, site: string, page: Page) returns (err: Option<ChainError>)
    ensures err.None? <==> Passes(pred, page, id)
  {
    var sub := new Sequence.Start();
    var we := new Elements(sub, [id], "", NoSelect);
    for i := 0 to |pred|
      invariant we.Valid() && we.chain == sub && we.elems == [id]
      invariant sub.err.None? <==> forall j :: 0 <= j < i ==> RunCheck(pred[j], page, id).None?
    {
      ghost var tried := we.Check(pred[i], site, page);
    }
    var handled;
    err, handled := sub.End();
  }

  /** The filter loop: the elements whose isolated predicate run ends without error, in order. */
  method KeepPassing(elems: seq<ElemId>, pred: seq<ElemCheck>, site: string, page: Page) returns (kept: seq<ElemId>)
    ensures kept == Kept(elems, PassFn(pred, page))
  {
    kept := [];
    for i := 0 to |elems|
      invariant kept == Kept(elems[..i], PassFn(pred, page))
    {
      var err := Isolated(elems[i], pred, site, page);
      assert elems[..i + 1][..i] == elems[..i];
      if err.None? {
        kept := kept + [elems[i]];
      }
    }
    assert elems[..|elems|] == elems;
  }
}

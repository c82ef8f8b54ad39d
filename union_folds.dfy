/** What the three union loader closures return, as folds over the outcomes
    of the candidate loaders taken in declaration order. The folds mirror the
    loops of `union_loader`, `union_loader_dt_first` and `union_loader_dt_all`;
    the lemmas give each a closed form. */
module UnionFolds {
  import opened Values
  import opened LoadErrors

  /** How much detail a failing union loader collects. */
  datatype DebugTrail = Disable | First | All

  // ---- searches over the candidate outcomes ----

  /** The first candidate whose outcome is not a load failure (or |os|). */
  function FirstNonLoadFailure(os: seq<Outcome>): (k: nat)
    ensures k <= |os|
    ensures forall j :: 0 <= j < k ==> IsLoadFailure(os[j])
    ensures k < |os| ==> !IsLoadFailure(os[k])
  {
    if |os| == 0 then 0
    else if !IsLoadFailure(os[0]) then 0
    else 1 + FirstNonLoadFailure(os[1..])
  }

  /** The first candidate that succeeded (or |os|). */
  function FirstOk(os: seq<Outcome>): (k: nat)
    ensures k <= |os|
    ensures forall j :: 0 <= j < k ==> !os[j].Ok?
    ensures k < |os| ==> os[k].Ok?
  {
    if |os| == 0 then 0
    else if os[0].Ok? then 0
    else 1 + FirstOk(os[1..])
  }

  /** The first candidate that raised something other than a LoadError (or |os|). */
  function FirstUnexpected(os: seq<Outcome>): (k: nat)
    ensures k <= |os|
    ensures forall j :: 0 <= j < k ==> !IsUnexpected(os[j])
    ensures k < |os| ==> IsUnexpected(os[k])
  {
    if |os| == 0 then 0
    else if IsUnexpected(os[0]) then 0
    else 1 + FirstUnexpected(os[1..])
  }

  /** The exceptions raised, in candidate order; successes contribute nothing. */
  function Failures(os: seq<Outcome>): seq<Exc>
  {
    if |os| == 0 then []
    else Failures(os[..|os| - 1]) + (if os[|os| - 1].Raised? then [os[|os| - 1].exc] else [])
  }

  lemma FailuresPrefixStep(os: seq<Outcome>, i: nat)
    requires i < |os|
    ensures Failures(os[..i + 1]) == Failures(os[..i]) + (if os[i].Raised? then [os[i].exc] else [])
  {
    assert os[..i + 1][..i] == os[..i];
  }

  /** When every candidate failed, there is one error per candidate, in candidate order. */
  lemma {:induction false} FailuresWhenAllFailed(os: seq<Outcome>)
    requires forall j :: 0 <= j < |os| ==> os[j].Raised?
    ensures |Failures(os)| == |os|
    ensures forall j :: 0 <= j < |os| ==> Failures(os)[j] == os[j].exc
  {
    if |os| > 0 {
      var init := os[..|os| - 1];
      FailuresWhenAllFailed(init);
      assert forall j :: 0 <= j < |init| ==> init[j] == os[j];
    }
  }

  // ---- the three loops ----

  /** `union_loader` from candidate `i` on. */
  function DisableFrom(os: seq<Outcome>, i: nat): (r: Outcome)
    requires i <= |os|
    ensures r == Raised(LoadError) <==> forall k :: i <= k < |os| ==> IsLoadFailure(os[k])
    ensures r != Raised(LoadError) ==>
      exists k :: i <= k < |os| && r == os[k] && !IsLoadFailure(os[k]) && (forall j :: i <= j < k ==> IsLoadFailure(os[j]))
    decreases |os| - i
  {
    if i == |os| then Raised(LoadError)
    else if IsLoadFailure(os[i]) then DisableFrom(os, i + 1)
    else os[i]
  }

  /** `union_loader_dt_first` from candidate `i` on, with the errors collected so far. */
  function FirstFrom(os: seq<Outcome>, i: nat, errors: seq<Exc>): (r: Outcome)
    requires i <= |os|
    ensures IsLoadFailure(r) <==> forall k :: i <= k < |os| ==> IsLoadFailure(os[k])
    ensures IsLoadFailure(r) ==>
      r.exc.UnionLoadError? && |r.exc.errors| == |errors| + (|os| - i) && r.exc.errors[..|errors|] == errors
    ensures !IsLoadFailure(r) ==>
      exists k :: i <= k < |os| && r == os[k] && (forall j :: i <= j < k ==> IsLoadFailure(os[j]))
    decreases |os| - i
  {
    if i == |os| then Raised(UnionLoadError(errors))
    else if IsLoadFailure(os[i]) then FirstFrom(os, i + 1, errors + [os[i].exc])
    else os[i]
  }

  /** `union_loader_dt_all` from candidate `i` on, with the errors collected so
      far and the `has_unexpected_error` flag. */
  function AllFrom(os: seq<Outcome>, i: nat, errors: seq<Exc>, hasUnexpected: bool): (r: Outcome)
    requires i <= |os|
    ensures r.Ok? ==> !hasUnexpected && exists k :: i <= k < |os| && r == os[k]
    ensures r.Raised? ==> r.exc.ExceptionGroup? || r.exc.UnionLoadError?
    ensures r.Raised? ==> |r.exc.errors| >= |errors| && r.exc.errors[..|errors|] == errors
    ensures r.Raised? ==>
      (r.exc.ExceptionGroup? <==> hasUnexpected || exists k :: i <= k < |os| && IsUnexpected(os[k]))
    decreases |os| - i
  {
    if i == |os| then
      if hasUnexpected then Raised(ExceptionGroup(errors)) else Raised(UnionLoadError(errors))
    else match os[i]
      case Ok(_) =>
        if !hasUnexpected then os[i] else AllFrom(os, i + 1, errors, hasUnexpected)
      case Raised(e) =>
        AllFrom(os, i + 1, errors + [e], hasUnexpected || !IsLoadError(e))
  }

  /** The union loader selected by the debug trail, applied to the candidates' outcomes. */
  function Fold(trail: DebugTrail, os: seq<Outcome>): Outcome
  {
    match trail
    case Disable => DisableFrom(os, 0)
    case First => FirstFrom(os, 0, [])
    case All => AllFrom(os, 0, [], false)
  }

  /** How many candidates the closure calls before it returns or raises. */
  function CallCount(trail: DebugTrail, os: seq<Outcome>): (n: nat)
    ensures n <= |os|
  {
    match trail
    case All =>
      if FirstOk(os) < FirstUnexpected(os) then FirstOk(os) + 1 else |os|
    case _ =>
      if FirstNonLoadFailure(os) < |os| then FirstNonLoadFailure(os) + 1 else |os|
  }

  // ---- closed forms ----

  lemma {:induction false} DisableFromClosedForm(os: seq<Outcome>, i: nat)
    requires i <= |os|
    requires forall j :: 0 <= j < i ==> IsLoadFailure(os[j])
    ensures var k := FirstNonLoadFailure(os);
      DisableFrom(os, i) == if k < |os| then os[k] else Raised(LoadError)
    decreases |os| - i
  {
    if i < |os| && IsLoadFailure(os[i]) {
      DisableFromClosedForm(os, i + 1);
    }
  }

  /** DISABLE: the first candidate that does not raise a LoadError decides
      (its value, or its exception propagating); if all raise LoadError, a bare
      LoadError is raised. */
  lemma DisableClosedForm(os: seq<Outcome>)
    ensures var k := FirstNonLoadFailure(os);
      Fold(Disable, os) == if k < |os| then os[k] else Raised(LoadError)
  {
    DisableFromClosedForm(os, 0);
  }

  lemma {:induction false} FirstFromClosedForm(os: seq<Outcome>, i: nat)
    requires i <= |os|
    requires forall j :: 0 <= j < i ==> IsLoadFailure(os[j])
    ensures var k := FirstNonLoadFailure(os);
      FirstFrom(os, i, Failures(os[..i])) == if k < |os| then os[k] else Raised(UnionLoadError(Failures(os)))
    decreases |os| - i
  {
    if i == |os| {
      assert os[..i] == os;
    } else if IsLoadFailure(os[i]) {
      FailuresPrefixStep(os, i);
      FirstFromClosedForm(os, i + 1);
    }
  }

  /** FIRST: like DISABLE, but on total failure the UnionLoadError carries
      every candidate's error, one per candidate, in candidate order. */
  lemma FirstClosedForm(os: seq<Outcome>)
    ensures var k := FirstNonLoadFailure(os);
      && (k < |os| ==> Fold(First, os) == os[k])
      && (k == |os| ==> Fold(First, os) == Raised(UnionLoadError(Failures(os))))
      && (k == |os| ==> |Failures(os)| == |os| && forall j :: 0 <= j < |os| ==> Failures(os)[j] == os[j].exc)
  {
    assert os[..0] == [];
    FirstFromClosedForm(os, 0);
    if FirstNonLoadFailure(os) == |os| {
      FailuresWhenAllFailed(os);
    }
  }

  lemma {:induction false} AllFromAfterUnexpected(os: seq<Outcome>, i: nat)
    requires i <= |os|
    ensures AllFrom(os, i, Failures(os[..i]), true) == Raised(ExceptionGroup(Failures(os)))
    decreases |os| - i
  {
    if i == |os| {
      assert os[..i] == os;
    } else {
      FailuresPrefixStep(os, i);
      AllFromAfterUnexpected(os, i + 1);
      match os[i]
      case Ok(_) =>
        assert Failures(os[..i + 1]) == Failures(os[..i]);
      case Raised(e) =>
        assert Failures(os[..i + 1]) == Failures(os[..i]) + [e];
    }
  }

  lemma {:induction false} AllFromClosedForm(os: seq<Outcome>, i: nat)
    requires i <= |os|
    requires forall j :: 0 <= j < i ==> IsLoadFailure(os[j])
    ensures var s, u := FirstOk(os), FirstUnexpected(os);
      AllFrom(os, i, Failures(os[..i]), false) ==
        if s < u then os[s]
        else if u < |os| then Raised(ExceptionGroup(Failures(os)))
        else Raised(UnionLoadError(Failures(os)))
    decreases |os| - i
  {
    var s, u := FirstOk(os), FirstUnexpected(os);
    if i == |os| {
      assert os[..i] == os;
    } else {
      assert s >= i && u >= i;
      FailuresPrefixStep(os, i);
      match os[i]
      case Ok(_) =>
        assert s == i;
      case Raised(e) =>
        if IsLoadError(e) {
          AllFromClosedForm(os, i + 1);
        } else {
          assert u == i;
          AllFromAfterUnexpected(os, i + 1);
        }
    }
  }

  /** ALL: the first success is returned only if no candidate before it raised
      an unexpected exception; once one has, later successes are dropped and
      the loop runs to the end, raising an exception group of every error seen
      (load errors and unexpected ones, in candidate order); with no unexpected
      exception and no success it raises a UnionLoadError of all errors. */
  lemma AllClosedForm(os: seq<Outcome>)
    ensures var s, u := FirstOk(os), FirstUnexpected(os);
      Fold(All, os) ==
        if s < u then os[s]
        else if u < |os| then Raised(ExceptionGroup(Failures(os)))
        else Raised(UnionLoadError(Failures(os)))
  {
    assert os[..0] == [];
    AllFromClosedForm(os, 0);
  }

  /** What the ALL loop knows after scanning candidates `0..i`: the errors collected
      so far, and whether an unexpected exception was among them. */
  ghost predicate AllScanned(os: seq<Outcome>, i: nat, errors: seq<Exc>, seen: bool)
    requires i <= |os|
  {
    && errors == Failures(os[..i])
    && (seen <==> FirstUnexpected(os) < i)
    && (seen ==> FirstUnexpected(os) < FirstOk(os))
    && (!seen ==> forall j :: 0 <= j < i ==> IsLoadFailure(os[j]))
  }

  /** One candidate more in the ALL loop: a success met before any unexpected
      exception is the fold's result; otherwise the scan goes on with the error
      (if any) appended and the flag raised on an unexpected exception. */
  lemma AllScanStep(os: seq<Outcome>, i: nat, errors: seq<Exc>, seen: bool)
    requires i < |os| && AllScanned(os, i, errors, seen)
    ensures !seen && os[i].Ok? ==> Fold(All, os) == os[i] && CallCount(All, os) == i + 1
    ensures os[i].Ok? && seen ==> AllScanned(os, i + 1, errors, seen)
    ensures os[i].Raised? ==> AllScanned(os, i + 1, errors + [os[i].exc], seen || !IsLoadError(os[i].exc))
  {
    AllClosedForm(os);
    FailuresPrefixStep(os, i);
  }

  /** The ALL loop ran past the last candidate: it raises what it collected. */
  lemma AllScanDone(os: seq<Outcome>, errors: seq<Exc>, seen: bool)
    requires AllScanned(os, |os|, errors, seen)
    ensures Fold(All, os) == if seen then Raised(ExceptionGroup(errors)) else Raised(UnionLoadError(errors))
    ensures CallCount(All, os) == |os|
  {
    AllClosedForm(os);
    assert os[..|os|] == os;
  }

  // ---- how the strategies relate ----

  /** FIRST and DISABLE call the same candidates and agree on every success and
      every propagated exception; they differ only in the error raised when all
      candidates fail with LoadError. */
  lemma DisableAndFirstAgree(os: seq<Outcome>)
    ensures CallCount(Disable, os) == CallCount(First, os)
    ensures FirstNonLoadFailure(os) < |os| ==> Fold(Disable, os) == Fold(First, os)
    ensures FirstNonLoadFailure(os) == |os| ==>
      Fold(Disable, os) == Raised(LoadError) && Fold(First, os) == Raised(UnionLoadError(Failures(os)))
  {
    DisableClosedForm(os);
    FirstClosedForm(os);
  }

  /** Without unexpected exceptions, ALL behaves exactly like FIRST, calls included. */
  lemma AllIsFirstWithoutUnexpected(os: seq<Outcome>)
    requires forall j :: 0 <= j < |os| ==> !IsUnexpected(os[j])
    ensures Fold(All, os) == Fold(First, os)
    ensures CallCount(All, os) == CallCount(First, os)
  {
    AllClosedForm(os);
    FirstClosedForm(os);
    var k, s := FirstNonLoadFailure(os), FirstOk(os);
    assert FirstUnexpected(os) == |os|;
    if k < |os| {
      assert os[k].Ok?;
      assert s == k;
    } else {
      assert s == |os|;
    }
  }

  /** An unexpected exception aborts FIRST at once, whereas ALL keeps going. */
  lemma UnexpectedBeforeSuccess(o1: Outcome, o2: Outcome)
    requires IsUnexpected(o1) && o2.Ok?
    ensures Fold(First, [o1, o2]) == o1 && CallCount(First, [o1, o2]) == 1
    ensures Fold(All, [o1, o2]) == Raised(ExceptionGroup([o1.exc])) && CallCount(All, [o1, o2]) == 2
  {
    var os := [o1, o2];
    assert [] + [o1.exc] == [o1.exc];
    assert AllFrom(os, 2, [o1.exc], true) == Raised(ExceptionGroup([o1.exc]));
    assert AllFrom(os, 1, [o1.exc], true) == AllFrom(os, 2, [o1.exc], true);
    assert AllFrom(os, 0, [], false) == AllFrom(os, 1, [o1.exc], true);
  }

  /** A success before any unexpected exception is returned at once by ALL too. */
  lemma SuccessBeforeUnexpected(o1: Outcome, o2: Outcome)
    requires o1.Ok? && IsUnexpected(o2)
    ensures Fold(All, [o1, o2]) == o1 && CallCount(All, [o1, o2]) == 1
  {
  }
}

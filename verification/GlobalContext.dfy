/**
 global.go: the shared, reference-counted polaris context.

 The contexts made here are numbered in the order of their initialisation; those handed to
 `setPolarisContext` come from elsewhere. `holders` is the history variable: for each
 context, how many acquirers got it and have not closed yet.
 */
module GlobalContext {
  import opened Wrappers

  datatype Context = Initialised(n: nat) | Supplied(id: nat)

  datatype Globals = Globals(ctxRef: int, polarisContext: Option<Context>, next: nat,
                             destroyed: multiset<Context>, holders: multiset<Context>, failures: nat)

  /** `initOk`: initialisation succeeds if it is attempted. `ClosedBy(c)`: an acquirer of
      `c` calls `ClosePolarisContext`. `Replaced` is `setPolarisContext`. */
  datatype Event = Acquired(initOk: bool) | ClosedBy(holder: Context) | Replaced(with: Option<Context>)

  function Init(): Globals {
    Globals(0, None, 0, multiset{}, multiset{}, 0)
  }

  function Acquire(g: Globals, initOk: bool): (Globals, Option<Context>) {
    var counted := g.(ctxRef := g.ctxRef + 1);
    if g.polarisContext.Some? then (counted, g.polarisContext)
    else if initOk then
      (counted.(polarisContext := Some(Initialised(g.next)), next := g.next + 1), Some(Initialised(g.next)))
    else (counted.(failures := g.failures + 1), None)
  }

  function Release(g: Globals): Globals {
    if g.polarisContext.None? then g
    else if g.ctxRef - 1 == 0 then
      g.(ctxRef := 0, polarisContext := None, destroyed := g.destroyed + multiset{g.polarisContext.value})
    else g.(ctxRef := g.ctxRef - 1)
  }

  function Replace(g: Globals, ctx: Option<Context>): Globals {
    g.(polarisContext := ctx)
  }

  function Step(g: Globals, e: Event): Globals {
    match e
    case Acquired(initOk) =>
      var (g', got) := Acquire(g, initOk);
      if got.Some? then g'.(holders := g'.holders + multiset{got.value}) else g'
    case ClosedBy(c) => Release(g.(holders := g.holders - multiset{c}))
    case Replaced(ctx) => Replace(g, ctx)
  }

  function Run(es: seq<Event>): Globals {
    if es == [] then Init() else Step(Run(es[..|es| - 1]), es[|es| - 1])
  }

  /** Only successful acquirers close, each at most once, and nobody replaces the context. */
  predicate WellUsed(es: seq<Event>) {
    if es == [] then true
    else
      var e := es[|es| - 1];
      && WellUsed(es[..|es| - 1])
      && !e.Replaced?
      && (e.ClosedBy? ==> e.holder in Run(es[..|es| - 1]).holders)
  }

  predicate MadeBefore(c: Context, next: nat) {
    c.Initialised? && c.n < next
  }

  /** The count is the number of holders plus the acquirers whose initialisation failed; all
      holders hold the current context, and only older ones were destroyed, once each. */
  ghost predicate Inv(g: Globals) {
    && g.ctxRef == |g.holders| + g.failures
    && (forall c :: c in g.holders ==> g.polarisContext == Some(c))
    && (g.polarisContext.Some? ==>
          g.ctxRef > 0 && MadeBefore(g.polarisContext.value, g.next) && g.polarisContext.value !in g.destroyed)
    && (forall c :: c in g.destroyed ==> MadeBefore(c, g.next) && g.destroyed[c] == 1)
    && (g.polarisContext.None? ==> |g.holders| == 0)
  }

  lemma AcquireKeepsInv(g: Globals, initOk: bool)
    requires Inv(g)
    ensures Inv(Step(g, Acquired(initOk)))
  {
  }

  lemma CloseKeepsInv(g: Globals, c: Context)
    requires Inv(g) && c in g.holders
    ensures Inv(Step(g, ClosedBy(c)))
  {
  }

  lemma {:induction false} RunKeepsInv(es: seq<Event>)
    requires WellUsed(es)
    ensures Inv(Run(es))
  {
    if es != [] {
      var front := es[..|es| - 1];
      RunKeepsInv(front);
      match es[|es| - 1]
      case Acquired(initOk) => AcquireKeepsInv(Run(front), initOk);
      case ClosedBy(c) => CloseKeepsInv(Run(front), c);
    }
  }

  /** No context is destroyed while an acquirer holds it, none is destroyed twice, and every
      acquirer holds the one current context. */
  lemma {:induction false} NeverDestroyedWhileHeld(es: seq<Event>, c: Context)
    requires WellUsed(es)
    ensures var g := Run(es);
            && (c in g.holders ==> g.destroyed[c] == 0 && g.polarisContext == Some(c))
            && g.destroyed[c] <= 1
            && g.ctxRef == |g.holders| + g.failures
  {
    RunKeepsInv(es);
  }

  /** While no initialisation has failed, the context exists exactly while someone holds it
      and the reference count is the number of holders; a failure breaks the count for good
      and the first equivalence until a context is made. */
  lemma {:induction false} ExistsWhileHeld(es: seq<Event>)
    requires WellUsed(es)
    ensures var g := Run(es);
            && ((g.polarisContext.Some? <==> g.ctxRef > 0) <==> (g.failures == 0 || g.polarisContext.Some?))
            && (g.ctxRef == |g.holders| <==> g.failures == 0)
            && (g.failures == 0 ==> (g.polarisContext.Some? <==> |g.holders| > 0))
  {
    RunKeepsInv(es);
  }

  /** Closing destroys the context if and only if the last holder closes and no
      initialisation ever failed: a failed one is counted for good, and every context made
      after it is leaked. */
  lemma {:induction false} DestroyedExactly(es: seq<Event>, c: Context)
    requires WellUsed(es) && c in Run(es).holders
    ensures var g, g' := Run(es), Run(es + [ClosedBy(c)]);
            && WellUsed(es + [ClosedBy(c)])
            && (g'.polarisContext.None? <==> |g.holders| == 1 && g.failures == 0)
            && g'.destroyed == if |g.holders| == 1 && g.failures == 0 then g.destroyed + multiset{c} else g.destroyed
  {
    RunKeepsInv(es);
    var all := es + [ClosedBy(c)];
    assert all[..|all| - 1] == es && all[|all| - 1] == ClosedBy(c);
    assert |Run(es).holders - multiset{c}| == |Run(es).holders| - 1;
  }

  lemma {:induction false} FailuresStay(es: seq<Event>, more: seq<Event>)
    requires WellUsed(es + more) && Run(es).failures > 0 && WellUsed(es)
    ensures Run(es + more).failures > 0 && Run(es + more).destroyed == Run(es).destroyed
  {
    var all := es + more;
    if more == [] {
      assert all == es;
    } else {
      assert all[..|all| - 1] == es + more[..|more| - 1];
      FailuresStay(es, more[..|more| - 1]);
      RunKeepsInv(es + more[..|more| - 1]);
      match all[|all| - 1]
      case Acquired(_) =>
      case ClosedBy(c) =>
        var g := Run(es + more[..|more| - 1]);
        assert |g.holders - multiset{c}| == |g.holders| - 1;
    }
  }

  /** After one failed initialisation no context is ever destroyed, whatever is closed. */
  lemma {:induction false} FailedInitialisationLeaks(es: seq<Event>, more: seq<Event>)
    requires WellUsed(es + [Acquired(false)] + more) && WellUsed(es) && Run(es).polarisContext.None?
    ensures Run(es + [Acquired(false)] + more).destroyed == Run(es).destroyed
  {
    var failed := es + [Acquired(false)];
    assert failed[..|failed| - 1] == es && failed[|failed| - 1] == Acquired(false);
    FailuresStay(failed, more);
  }

  /** What an acquirer gets: the one context there is, else a new one that was never held
      or destroyed before, else nothing; a later acquirer gets the same one. A shared context
      that was destroyed is thus never handed out again. */
  lemma {:induction false} AcquiredExactly(es: seq<Event>, initOk: bool)
    requires WellUsed(es)
    ensures var g, g', got := Run(es), Run(es + [Acquired(initOk)]), Acquire(Run(es), initOk).1;
            && WellUsed(es + [Acquired(initOk)])
            && g'.polarisContext == got && g'.ctxRef == g.ctxRef + 1 && g'.destroyed == g.destroyed
            && (g.polarisContext.Some? ==> got == g.polarisContext)
            && (got.None? <==> g.polarisContext.None? && !initOk)
            && (got.None? ==> g'.holders == g.holders && g'.failures == g.failures + 1)
            && (got.Some? ==> g'.holders == g.holders + multiset{got.value} && g'.failures == g.failures)
            && (got.Some? ==> got.value !in g.destroyed)
            && (got.Some? && g.polarisContext.None? ==> !Seen(es, got.value))
            && (got.Some? ==> forall again :: Acquire(g', again).1 == got)
  {
    RunKeepsInv(es);
    RunSnoc(es, Acquired(initOk));
    if Seen(es, Initialised(Run(es).next)) {
      SeenBefore(es, Initialised(Run(es).next));
    }
  }

  /** Some earlier acquirer held `c`. */
  predicate Seen(es: seq<Event>, c: Context) {
    es != [] && (Seen(es[..|es| - 1], c) || c in Run(es).holders)
  }

  lemma {:induction false} SeenBefore(es: seq<Event>, c: Context)
    requires WellUsed(es) && Seen(es, c)
    ensures MadeBefore(c, Run(es).next)
  {
    RunKeepsInv(es);
    var front := es[..|es| - 1];
    if Seen(front, c) {
      SeenBefore(front, c);
    }
  }

  /** After the last holder closed, the next acquirer gets a new context and holds it. */
  lemma {:induction false} FreshAfterDestruction(es: seq<Event>, c: Context)
    requires WellUsed(es) && Run(es).holders == multiset{c} && Run(es).failures == 0
    ensures var g := Run(es + [ClosedBy(c)] + [Acquired(true)]);
            && c in g.destroyed && g.polarisContext.Some? && g.polarisContext.value !in g.destroyed
            && g.holders == multiset{g.polarisContext.value} && g.ctxRef == 1
            && !Seen(es, g.polarisContext.value)
  {
    var closed := es + [ClosedBy(c)];
    assert c in Run(es).holders;
    DestroyedExactly(es, c);
    AcquiredExactly(closed, true);
    RunSnoc(es, ClosedBy(c));
    RunKeepsInv(closed);
    assert Run(closed).holders == multiset{};
    assert closed[..|closed| - 1] == es;
  }

  // ---------- with setPolarisContext ----------

  /** Only successful acquirers close, each at most once; the context may be replaced. */
  predicate HoldersClose(es: seq<Event>) {
    if es == [] then true
    else
      var e := es[|es| - 1];
      HoldersClose(es[..|es| - 1]) && (e.ClosedBy? ==> e.holder in Run(es[..|es| - 1]).holders)
  }

  /** The closes that found no context and so did not lower the count. */
  function MissedCloses(es: seq<Event>): nat {
    if es == [] then 0
    else
      var front := es[..|es| - 1];
      MissedCloses(front) + if es[|es| - 1].ClosedBy? && Run(front).polarisContext.None? then 1 else 0
  }

  /** What the count has beyond the holders and the failed initialisations. */
  function Surplus(g: Globals): int {
    g.ctxRef - |g.holders| - g.failures
  }

  lemma StepSurplus(g: Globals, e: Event)
    requires e.ClosedBy? ==> e.holder in g.holders
    ensures Surplus(Step(g, e)) == Surplus(g) + if e.ClosedBy? && g.polarisContext.None? then 1 else 0
  {
    if e.ClosedBy? {
      assert |g.holders - multiset{e.holder}| == |g.holders| - 1;
    }
  }

  /** The count never undercounts the holders: beyond them it has the failed
      initialisations and the missed closes. */
  lemma {:induction false} CountExact(es: seq<Event>)
    requires HoldersClose(es)
    ensures Run(es).ctxRef == |Run(es).holders| + Run(es).failures + MissedCloses(es)
  {
    if es == [] {
    } else {
      var front := es[..|es| - 1];
      CountExact(front);
      StepSurplus(Run(front), es[|es| - 1]);
      assert Surplus(Run(es)) == MissedCloses(es);
    }
  }

  lemma {:induction false} RunSnoc(es: seq<Event>, e: Event)
    ensures Run(es + [e]) == Step(Run(es), e)
    ensures HoldersClose(es + [e]) <==> HoldersClose(es) && (e.ClosedBy? ==> e.holder in Run(es).holders)
  {
    assert (es + [e])[..|es|] == es;
  }

  /** Safety survives replacement: a context is only ever destroyed by a close after which
      nobody holds any context at all. */
  lemma {:induction false} DestroyedWhenUnheld(es: seq<Event>, e: Event)
    requires HoldersClose(es + [e]) && Run(es + [e]).destroyed != Run(es).destroyed
    ensures e.ClosedBy? && Run(es + [e]).holders == multiset{}
    ensures Run(es).polarisContext.Some?
    ensures Run(es + [e]).destroyed == Run(es).destroyed + multiset{Run(es).polarisContext.value}
  {
    RunSnoc(es, e);
    CountExact(es);
    CountExact(es + [e]);
  }

  /** Leak-freedom does not. A holder's close destroys the context it holds if and only if
      that context is still the current one and the count is one: it is the last holder, no
      initialisation failed and no close was missed. */
  lemma {:induction false} CloseDestroysOwn(es: seq<Event>, c: Context)
    requires HoldersClose(es) && c in Run(es).holders
    ensures var g, g' := Run(es), Run(es + [ClosedBy(c)]);
            && (g'.destroyed == g.destroyed + multiset{c} <==> g.polarisContext == Some(c) && g.ctxRef == 1)
            && (g.ctxRef == 1 <==> |g.holders| == 1 && g.failures == 0 && MissedCloses(es) == 0)
  {
    RunSnoc(es, ClosedBy(c));
    CountExact(es);
    assert |Run(es).holders| >= 1;
    var g, g' := Run(es), Run(es + [ClosedBy(c)]);
    assert (g.destroyed + multiset{c})[c] == g.destroyed[c] + 1;
    if g.polarisContext.Some? && g.ctxRef == 1 {
      assert g'.destroyed[c] == g.destroyed[c] + if g.polarisContext.value == c then 1 else 0;
    }
  }

  /** A run that leaks: context 0 is replaced while it is held; its only holder's close
      destroys the replacement instead. */
  lemma ReplacementLeaks(id: nat)
    ensures var es := [Acquired(true), Replaced(Some(Supplied(id))), ClosedBy(Initialised(0))];
            && HoldersClose(es)
            && Run(es).holders == multiset{} && Run(es).polarisContext == None
            && Run(es).destroyed == multiset{Supplied(id)}
  {
    var e0, e1, e2 := Acquired(true), Replaced(Some(Supplied(id))), ClosedBy(Initialised(0));
    RunSnoc([], e0);
    assert [] + [e0] == [e0];
    RunSnoc([e0], e1);
    assert [e0] + [e1] == [e0, e1];
    RunSnoc([e0, e1], e2);
    assert [e0, e1] + [e2] == [e0, e1, e2];
    assert Run([e0, e1]).holders == multiset{Initialised(0)};
  }

  // ---------- the object ----------

  class PolarisGlobals {
    var ctxRef: int
    var polarisContext: Option<Context>
    var next: nat
    var destroyed: multiset<Context>
    ghost var holders: multiset<Context>
    ghost var failures: nat

    ghost function View(): Globals
      reads this
    {
      Globals(ctxRef, polarisContext, next, destroyed, holders, failures)
    }

    constructor ()
      ensures View() == Init()
    {
      ctxRef, polarisContext, next, destroyed, holders, failures := 0, None, 0, multiset{}, multiset{}, 0;
    }

    method PolarisContext(initOk: bool) returns (ctx: Option<Context>)
      modifies this
      ensures View() == Step(old(View()), Acquired(initOk))
      ensures ctx == polarisContext
      ensures ctx.None? <==> old(polarisContext).None? && !initOk
    {
      ctxRef := ctxRef + 1;
      if polarisContext.None? {
        if initOk {
          polarisContext := Some(Initialised(next));
          next := next + 1;
        } else {
          failures := failures + 1;
        }
      }
      if polarisContext.Some? {
        holders := holders + multiset{polarisContext.value};
      }
      return polarisContext;
    }

    method ClosePolarisContext(ghost holder: Context)
      modifies this
      ensures View() == Step(old(View()), ClosedBy(holder))
    {
      holders := holders - multiset{holder};
      if polarisContext.None? {
        return;
      }
      ctxRef := ctxRef - 1;
      if ctxRef == 0 {
        destroyed := destroyed + multiset{polarisContext.value};
        polarisContext := None;
      }
    }

    method SetPolarisContext(sdkContext: Option<Context>)
      modifies `polarisContext
      ensures View() == Step(old(View()), Replaced(sdkContext))
    {
      polarisContext := sdkContext;
    }
  }
}

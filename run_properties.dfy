/**
 * What a run of the embed job guarantees, proved about the functions that
 * specify it: entry cancellation, stop-at-cancel removal, all-or-nothing
 * addition, short-circuiting failures, and convergence to the selection.
 */
module RunProperties {
  import opened Cartridges
  import opened Reconcile
  import opened Remote
  import opened Progress
  import opened EmbedJob

  /** No call from the current log position on throws. */
  ghost predicate NoFaultsFrom<C>(s: Server<C>)
  {
    forall k :: |s.log| <= k ==> k !in s.faults
  }

  /** No poll from the current one on sees cancellation. */
  ghost predicate NeverCanceled(p: Poller)
  {
    forall i :: p.polls <= i ==> !Answer(p.schedule, i)
  }

  /** A lookup or destroy of one of the cartridges `cs`. */
  ghost predicate Touches<C>(call: Call<C>, cs: seq<C>)
  {
    (call.Lookup? || call.Destroy?) && call.cartridge in cs
  }

  /** The calls of an undisturbed removal loop: look each cartridge up, then destroy it. */
  ghost function RemovalCalls<C>(items: seq<C>): seq<Call<C>>
  {
    if items == [] then [] else [Lookup(items[0]), Destroy(items[0])] + RemovalCalls(items[1..])
  }

  // ---------------------------------------------------------------------------
  // The removal loop

  /**
   * One turn of the removal loop makes one or two calls, both about its
   * cartridge and the first a lookup, and its effect on the server is that of
   * those calls.
   */
  lemma RemoveOneCalls<C(!new)>(w: World<C>, c: C)
    ensures var p := RemoveOne(w, c);
      && Follows(w.server, p.world.server, p.outcome.Failed?)
      && p.world.monitor == w.monitor
      && |w.server.log| < |p.world.server.log| <= |w.server.log| + 2
      && p.world.server.log[|w.server.log|] == Lookup(c)
      && forall k :: |w.server.log| <= k < |p.world.server.log| ==> Touches(p.world.server.log[k], [c])
  {
    FollowsRefl(w.server);
    var found := LookupStep(w.server, c);
    FollowsInvoke(w.server, w.server, Lookup(c));
    if found.outcome == Done(Some(c)) {
      FollowsInvoke(w.server, found.server, Call.Destroy(c));
    }
  }

  /** What the removal loop did to the server is the effect of its calls; it stops at its first failure. */
  lemma {:induction false} RemoveLoopFollows<C(!new)>(w: World<C>, items: seq<C>)
    ensures var p := RemoveLoop(w, items);
      Follows(w.server, p.world.server, p.outcome.Failed?) && p.world.monitor.schedule == w.monitor.schedule
      && p.world.monitor.polls >= w.monitor.polls
    decreases |items|
  {
    FollowsRefl(w.server);
    if items != [] && !Canceled(w.monitor) {
      var step := RemoveOne(Poll(w), items[0]);
      RemoveOneCalls(Poll(w), items[0]);
      if step.outcome.Done? {
        RemoveLoopFollows(step.world, items[1..]);
        var p := RemoveLoop(step.world, items[1..]);
        FollowsTrans(w.server, step.world.server, p.world.server, p.outcome.Failed?);
      }
    }
  }

  /** What RemoveLoopStopsAtCancel states about a loop run from `w` with result `p`. */
  ghost predicate StopsAtCancel<C>(w: World<C>, items: seq<C>, p: Phase<C, ()>)
  {
    var n := p.world.monitor.polls - w.monitor.polls;
    && p.world.monitor.schedule == w.monitor.schedule
    && 0 <= n <= |items|
    && w.server.log <= p.world.server.log
    && (forall i :: w.monitor.polls <= i < p.world.monitor.polls - 1 ==> !Answer(w.monitor.schedule, i))
    && (forall k :: |w.server.log| <= k < |p.world.server.log| ==> Touches(p.world.server.log[k], items[..n]))
    && (n > 0 && Answer(w.monitor.schedule, p.world.monitor.polls - 1) ==>
          p.outcome.Done?
          && forall k :: |w.server.log| <= k < |p.world.server.log| ==> Touches(p.world.server.log[k], items[..n - 1]))
    && (p.outcome.Done? && n < |items| ==> n > 0 && Answer(w.monitor.schedule, p.world.monitor.polls - 1))
  }

  /**
   * The removal loop polls once per cartridge it reaches, and every poll but its
   * last saw no cancellation. Its only calls are lookups and destroys of the
   * cartridges it reached. If its last poll saw cancellation it stopped there: it
   * made no call for that cartridge or any later one. Conversely, a loop that
   * ended normally before the end of the list did so because its last poll saw
   * cancellation: a skipped or destroyed cartridge never ends the loop.
   */
  lemma {:induction false} RemoveLoopStopsAtCancel<C(!new)>(w: World<C>, items: seq<C>)
    ensures StopsAtCancel(w, items, RemoveLoop(w, items))
    decreases |items|
  {
    if items != [] && !Canceled(w.monitor) {
      var step := RemoveOne(Poll(w), items[0]);
      RemoveOneCalls(Poll(w), items[0]);
      assert items[..1] == [items[0]];
      if step.outcome.Done? {
        RemoveLoopStopsAtCancel(step.world, items[1..]);
        Resume(w, step.world, items, RemoveLoop(step.world, items[1..]));
      }
    }
  }

  /** The inductive step of RemoveLoopStopsAtCancel: one cartridge handled, then the loop `p` over the rest. */
  lemma Resume<C>(w: World<C>, w1: World<C>, items: seq<C>, p: Phase<C, ()>)
    requires items != [] && !Canceled(w.monitor)
    requires w1.monitor == Polled(w.monitor) && w.server.log <= w1.server.log
    requires forall k :: |w.server.log| <= k < |w1.server.log| ==> Touches(w1.server.log[k], items[..1])
    requires StopsAtCancel(w1, items[1..], p)
    ensures StopsAtCancel(w, items, p)
  {
    var rest := items[1..];
    var n' := p.world.monitor.polls - w1.monitor.polls;
    assert items[..n' + 1] == items[..1] + rest[..n'];
    TouchesConcat(w.server.log, w1.server.log, p.world.server.log, items[..1], rest[..n']);
    if n' > 0 && Answer(w.monitor.schedule, p.world.monitor.polls - 1) {
      assert items[..n'] == items[..1] + rest[..n' - 1];
      TouchesConcat(w.server.log, w1.server.log, p.world.server.log, items[..1], rest[..n' - 1]);
    }
  }

  /** A loop that no poll cancels and that ends normally has looked up every cartridge of its list. */
  lemma {:induction false} RemoveLoopLooksUpEach<C(!new)>(w: World<C>, items: seq<C>)
    requires NeverCanceled(w.monitor)
    ensures var p := RemoveLoop(w, items);
      p.outcome.Done? ==>
        && p.world.monitor.polls == w.monitor.polls + |items|
        && forall j :: 0 <= j < |items| ==> LookedUp(p.world.server.log, |w.server.log|, items[j])
    decreases |items|
  {
    if items != [] {
      assert !Canceled(w.monitor) by {
        assert !Answer(w.monitor.schedule, w.monitor.polls);
      }
      var step := RemoveOne(Poll(w), items[0]);
      RemoveOneCalls(Poll(w), items[0]);
      if step.outcome.Done? {
        var p := RemoveLoop(step.world, items[1..]);
        assert RemoveLoop(w, items) == p;
        RemoveLoopLooksUpEach(step.world, items[1..]);
        RemoveLoopFollows(step.world, items[1..]);
        if p.outcome.Done? {
          LookedUpCons(w.server.log, step.world.server.log, p.world.server.log, items);
        }
      }
    }
  }

  /** A lookup of the first cartridge, followed by lookups of all the others. */
  lemma LookedUpCons<C>(log0: seq<Call<C>>, log1: seq<Call<C>>, log2: seq<Call<C>>, items: seq<C>)
    requires items != [] && log0 <= log1 <= log2 && |log0| < |log1| && log1[|log0|] == Lookup(items[0])
    requires forall j :: 0 <= j < |items[1..]| ==> LookedUp(log2, |log1|, items[1..][j])
    ensures forall j :: 0 <= j < |items| ==> LookedUp(log2, |log0|, items[j])
  {
    assert log2[|log0|] == Lookup(items[0]);
    forall j | 0 < j < |items|
      ensures LookedUp(log2, |log0|, items[j])
    {
      assert items[j] == items[1..][j - 1];
      assert LookedUp(log2, |log1|, items[1..][j - 1]);
    }
  }

  /** Among the calls from log position `from` on there is a lookup of `c`. */
  ghost predicate LookedUp<C>(log: seq<Call<C>>, from: nat, c: C)
  {
    exists k :: from <= k < |log| && log[k] == Lookup(c)
  }

  /** Calls about `a` followed by calls about `b` are calls about `a + b`. */
  lemma TouchesConcat<C>(log0: seq<Call<C>>, log1: seq<Call<C>>, log2: seq<Call<C>>, a: seq<C>, b: seq<C>)
    requires log0 <= log1 <= log2
    requires forall k :: |log0| <= k < |log1| ==> Touches(log1[k], a)
    requires forall k :: |log1| <= k < |log2| ==> Touches(log2[k], b)
    ensures forall k :: |log0| <= k < |log2| ==> Touches(log2[k], a + b)
  {
    forall k | |log0| <= k < |log2|
      ensures Touches(log2[k], a + b)
    {
      if k < |log1| {
        assert log2[k] == log1[k];
      }
    }
  }

  /**
   * A cartridge the lookup does not find is skipped: the turn makes the lookup
   * call only, changes nothing on the server, and the loop goes on.
   */
  lemma RemoveOneSkipsAbsent<C(!new)>(w: World<C>, c: C)
    requires c !in w.server.embedded && !NextFails(w.server)
    ensures RemoveOne(w, c) == Phase(Done(()), w.(server := w.server.(log := w.server.log + [Lookup(c)])))
  {
  }

  /** One undisturbed turn of the removal loop: the cartridge is found and destroyed. */
  lemma CleanStep<C(!new)>(w: World<C>, c: C)
    requires c in w.server.embedded && !NextFails(w.server) && |w.server.log| + 1 !in w.server.faults
    ensures RemoveOne(w, c)
         == Phase(Done(()), w.(server := Server(RemoveFirst(w.server.embedded, c),
                                                w.server.log + [Lookup(c), Destroy(c)], w.server.faults)))
  {
    assert w.server.log + [Lookup(c)] + [Destroy(c)] == w.server.log + [Lookup(c), Destroy(c)];
  }

  /** What RemoveLoopClean states about a loop run from `w` with result `p`. */
  ghost predicate CleanRun<C>(w: World<C>, items: seq<C>, p: Phase<C, ()>)
  {
    && p.outcome.Done?
    && p.world.server.log == w.server.log + RemovalCalls(items)
    && multiset(p.world.server.embedded) == multiset(w.server.embedded) - multiset(items)
    && p.world.server.faults == w.server.faults
    && p.world.monitor == w.monitor.(polls := w.monitor.polls + |items|)
  }

  /**
   * Undisturbed by faults and cancellation, and with every cartridge to remove
   * actually embedded, the loop looks up and destroys each cartridge in list
   * order, and exactly those cartridges leave the embedded list.
   */
  lemma {:induction false} RemoveLoopClean<C(!new)>(w: World<C>, items: seq<C>)
    requires NoFaultsFrom(w.server) && NeverCanceled(w.monitor)
    requires multiset(items) <= multiset(w.server.embedded)
    ensures CleanRun(w, items, RemoveLoop(w, items))
    decreases |items|
  {
    if items == [] {
      assert w.server.log + RemovalCalls(items) == w.server.log;
    } else {
      var c, rest := items[0], items[1..];
      var e := w.server.embedded;
      TakeOne(items, e);
      assert !Canceled(w.monitor) by {
        assert !Answer(w.monitor.schedule, w.monitor.polls);
      }
      assert |w.server.log| !in w.server.faults && |w.server.log| + 1 !in w.server.faults;
      CleanStep(Poll(w), c);
      var w2 := World(Server(RemoveFirst(e, c), w.server.log + [Lookup(c), Destroy(c)], w.server.faults), Polled(w.monitor));
      assert RemoveLoop(w, items) == RemoveLoop(w2, rest);
      assert NoFaultsFrom(w2.server) && NeverCanceled(w2.monitor);
      RemoveLoopClean(w2, rest);
      CleanRunCons(w, w2, items, RemoveLoop(w2, rest));
    }
  }

  /** A clean turn for the first cartridge followed by a clean run of the rest is a clean run of all. */
  lemma CleanRunCons<C(!new)>(w: World<C>, w2: World<C>, items: seq<C>, p: Phase<C, ()>)
    requires items != [] && multiset(items) <= multiset(w.server.embedded)
    requires w2 == World(Server(RemoveFirst(w.server.embedded, items[0]), w.server.log + [Lookup(items[0]), Destroy(items[0])],
                                w.server.faults), Polled(w.monitor))
    requires CleanRun(w2, items[1..], p)
    ensures CleanRun(w, items, p)
  {
    TakeOne(items, w.server.embedded);
    RemovalCallsCons(w.server.log, items);
  }

  /** The calls of a clean removal loop: those for the first cartridge, then those for the rest. */
  lemma RemovalCallsCons<C>(log: seq<Call<C>>, items: seq<C>)
    requires items != []
    ensures log + RemovalCalls(items) == (log + [Lookup(items[0]), Destroy(items[0])]) + RemovalCalls(items[1..])
  {
    var c := items[0];
    assert RemovalCalls(items) == [Lookup(c), Destroy(c)] + RemovalCalls(items[1..]);
  }

  /** Removing the first of several cartridges that are all embedded leaves the others embedded. */
  lemma TakeOne<C(!new)>(items: seq<C>, e: seq<C>)
    requires items != [] && multiset(items) <= multiset(e)
    ensures items[0] in e
    ensures multiset(items[1..]) <= multiset(RemoveFirst(e, items[0]))
    ensures multiset(RemoveFirst(e, items[0])) - multiset(items[1..]) == multiset(e) - multiset(items)
  {
    assert items == [items[0]] + items[1..];
    assert items[0] in multiset(e);
  }

  /** The removal phase's effect on the server is that of its calls. */
  lemma RemovePhaseFollows<C(!new)>(w: World<C>, toRemove: seq<C>, sel: Selectors<C>)
    ensures var p := RemovePhase(w, toRemove, sel);
      && Follows(w.server, p.world.server, p.outcome.Failed?) && p.world.monitor.schedule == w.monitor.schedule
      && p.world.monitor.polls >= w.monitor.polls
      && (toRemove == [] ==> p == Phase(Done(()), w))
  {
    if toRemove == [] {
      FollowsRefl(w.server);
    } else {
      RemoveLoopFollows(w, PrioritySort(sel, toRemove));
    }
  }

  // ---------------------------------------------------------------------------
  // The addition

  /**
   * The addition is all or nothing: for an empty list or a cancelled monitor it
   * makes no call and answers the empty list; otherwise it makes exactly one bulk
   * call, with the sorted list, and answers what that call answered.
   */
  lemma AddPhaseAllOrNothing<C(!new)>(w: World<C>, toAdd: seq<C>, sel: Selectors<C>)
    ensures var p := AddPhase(w, toAdd, sel);
      && (toAdd == [] ==> p == Phase(Done([]), w))
      && (toAdd != [] && Canceled(w.monitor) ==> p == Phase(Done([]), Poll(w)))
      && (toAdd != [] && !Canceled(w.monitor) ==>
            && p.world.server.log == w.server.log + [AddMany(PrioritySort(sel, toAdd))]
            && p.world.monitor == Polled(w.monitor)
            && (p.outcome.Failed? <==> NextFails(w.server))
            && (p.outcome.Done? ==>
                  && p.outcome.value == PrioritySort(sel, toAdd)
                  && multiset(p.outcome.value) == multiset(toAdd)
                  && p.world.server.embedded == w.server.embedded + p.outcome.value)
            && (p.outcome.Failed? ==> p.world.server.embedded == w.server.embedded))
  {
  }

  lemma AddPhaseFollows<C(!new)>(w: World<C>, toAdd: seq<C>, sel: Selectors<C>)
    ensures var p := AddPhase(w, toAdd, sel);
      Follows(w.server, p.world.server, p.outcome.Failed?) && p.world.monitor.schedule == w.monitor.schedule
  {
    FollowsRefl(w.server);
    if toAdd != [] && !Canceled(w.monitor) {
      FollowsInvoke(w.server, w.server, AddMany(PrioritySort(sel, toAdd)));
    }
  }

  // ---------------------------------------------------------------------------
  // Whole runs

  /**
   * A run is cancelled exactly when the monitor is cancelled on entry, and then
   * it makes no call on the application and leaves the added-cartridges field as
   * it was.
   */
  lemma RunCancelledOnEntry<C(!new)>(w: World<C>, selected: seq<C>, sel: Selectors<C>, name: string, added0: Option<seq<C>>)
    ensures var r := RunSpec(w, selected, sel, name, added0);
      && (r.status == CancelStatus <==> Canceled(w.monitor))
      && (r.status == CancelStatus ==> r.world == Poll(w) && r.added == added0)
  {
    if !Canceled(w.monitor) {
      RunFailuresShortCircuit(w, selected, sel, name, added0);
    }
  }

  /**
   * What RunFailuresShortCircuit states about the part of a run from `w` that
   * ended in `r`: the server holds the effect of the calls made, which stopped at
   * the first failure; an error names the application and keeps the
   * added-cartridges field; and the run is not cancelled.
   */
  ghost predicate ShortCircuits<C>(w: World<C>, name: string, added0: Option<seq<C>>, r: Run<C>)
  {
    && Follows(w.server, r.world.server, r.status.ErrorStatus?)
    && r.world.monitor.schedule == w.monitor.schedule
    && r.status != CancelStatus
    && (r.status.ErrorStatus? ==> r.status == ErrorStatus(name) && r.added == added0)
  }

  lemma ReadThenAddShortCircuits<C(!new)>(w: World<C>, selected: seq<C>, sel: Selectors<C>, name: string, added0: Option<seq<C>>)
    ensures ShortCircuits(w, name, added0, ReadThenAdd(w, selected, sel, name, added0))
  {
    FollowsRefl(w.server);
    var second := ListStep(w.server);
    FollowsInvoke(w.server, w.server, ListEmbedded);
    if second.outcome.Done? {
      var w2 := w.(server := second.server);
      var toAdd := ToAdd(selected, second.outcome.value);
      var addition := AddPhase(w2, toAdd, sel);
      AddPhaseFollows(w2, toAdd, sel);
      FollowsTrans(w.server, w2.server, addition.world.server, addition.outcome.Failed?);
    }
  }

  lemma RemoveThenAddShortCircuits<C(!new)>(w: World<C>, selected: seq<C>, toRemove: seq<C>, sel: Selectors<C>, name: string,
                                            added0: Option<seq<C>>)
    ensures ShortCircuits(w, name, added0, RemoveThenAdd(w, selected, toRemove, sel, name, added0))
  {
    var removal := RemovePhase(w, toRemove, sel);
    RemovePhaseFollows(w, toRemove, sel);
    if removal.outcome.Done? {
      var r := ReadThenAdd(removal.world, selected, sel, name, added0);
      ReadThenAddShortCircuits(removal.world, selected, sel, name, added0);
      FollowsTrans(w.server, removal.world.server, r.world.server, r.status.ErrorStatus?);
    }
  }

  /**
   * Failures short-circuit and are not rolled back: a run ends in an error
   * exactly when one of its calls threw, that call is its last one, the error
   * names the application, and the added-cartridges field is left as it was. The
   * server holds the effect of every call that succeeded.
   */
  lemma RunFailuresShortCircuit<C(!new)>(w: World<C>, selected: seq<C>, sel: Selectors<C>, name: string, added0: Option<seq<C>>)
    ensures var r := RunSpec(w, selected, sel, name, added0);
      && Follows(w.server, r.world.server, r.status.ErrorStatus?)
      && r.world.monitor.schedule == w.monitor.schedule
      && (r.status.ErrorStatus? ==> r.status == ErrorStatus(name) && r.added == added0)
      && (r.status == CancelStatus ==> Canceled(w.monitor))
  {
    FollowsRefl(w.server);
    if !Canceled(w.monitor) {
      var first := ListStep(w.server);
      FollowsInvoke(w.server, w.server, ListEmbedded);
      var w1 := World(first.server, Polled(w.monitor));
      if first.outcome.Done? {
        var r := RemoveThenAdd(w1, selected, ToRemove(selected, first.outcome.value), sel, name, added0);
        RemoveThenAddShortCircuits(w1, selected, ToRemove(selected, first.outcome.value), sel, name, added0);
        FollowsTrans(w.server, w1.server, r.world.server, r.status.ErrorStatus?);
      }
    }
  }

  /** With no call throwing, a run is cancelled on entry or ends OK. */
  lemma RunWithoutFaults<C(!new)>(w: World<C>, selected: seq<C>, sel: Selectors<C>, name: string, added0: Option<seq<C>>)
    requires NoFaultsFrom(w.server)
    ensures RunSpec(w, selected, sel, name, added0).status == if Canceled(w.monitor) then CancelStatus else OkStatus
  {
    var r := RunSpec(w, selected, sel, name, added0);
    RunFailuresShortCircuit(w, selected, sel, name, added0);
    RunCancelledOnEntry(w, selected, sel, name, added0);
    assert r.status.ErrorStatus? ==> |w.server.log| <= |r.world.server.log| - 1 && |r.world.server.log| - 1 in w.server.faults;
  }

  /** No bulk call among the calls from position `from` on. */
  ghost predicate NoBulkFrom<C>(log: seq<Call<C>>, from: nat)
  {
    forall k :: from <= k < |log| ==> !log[k].AddMany?
  }

  /** No bulk call from `from` to the end of `log1`, nor in what `log2` adds to it. */
  lemma NoBulkJoin<C>(log1: seq<Call<C>>, log2: seq<Call<C>>, from: nat)
    requires log1 <= log2 && NoBulkFrom(log1, from) && NoBulkFrom(log2, |log1|)
    ensures NoBulkFrom(log2, from)
  {
    forall k | from <= k < |log2|
      ensures !log2[k].AddMany?
    {
      if k < |log1| {
        assert log2[k] == log1[k];
      }
    }
  }

  /** The removal phase makes no bulk call. */
  lemma RemovePhaseNoBulk<C(!new)>(w: World<C>, toRemove: seq<C>, sel: Selectors<C>)
    ensures var p := RemovePhase(w, toRemove, sel);
      && w.server.log <= p.world.server.log
      && NoBulkFrom(p.world.server.log, |w.server.log|)
      && p.world.monitor.schedule == w.monitor.schedule
  {
    if toRemove != [] {
      var items := PrioritySort(sel, toRemove);
      RemoveLoopStopsAtCancel(w, items);
      var p := RemoveLoop(w, items);
      var log := p.world.server.log;
      forall k | |w.server.log| <= k < |log|
        ensures !log[k].AddMany?
      {
        assert Touches(log[k], items[..p.world.monitor.polls - w.monitor.polls]);
      }
    }
  }

  lemma ReadThenAddStopsAtCancel<C(!new)>(w: World<C>, selected: seq<C>, sel: Selectors<C>, name: string, added0: Option<seq<C>>, i: nat)
    requires Sticky(w.monitor.schedule) && Answer(w.monitor.schedule, i)
    requires i < ReadThenAdd(w, selected, sel, name, added0).world.monitor.polls
    ensures var r := ReadThenAdd(w, selected, sel, name, added0);
      && (r.status == OkStatus ==> r.added == Some([]))
      && w.server.log <= r.world.server.log
      && NoBulkFrom(r.world.server.log, |w.server.log|)
  {
    var second := ListStep(w.server);
    if second.outcome.Done? {
      var toAdd := ToAdd(selected, second.outcome.value);
      if toAdd != [] {
        StickyAnswer(w.monitor.schedule, i, w.monitor.polls);
      }
    }
  }

  lemma RemoveThenAddStopsAtCancel<C(!new)>(w: World<C>, selected: seq<C>, toRemove: seq<C>, sel: Selectors<C>, name: string,
                                            added0: Option<seq<C>>, i: nat)
    requires Sticky(w.monitor.schedule) && Answer(w.monitor.schedule, i)
    requires i < RemoveThenAdd(w, selected, toRemove, sel, name, added0).world.monitor.polls
    ensures var r := RemoveThenAdd(w, selected, toRemove, sel, name, added0);
      && (r.status == OkStatus ==> r.added == Some([]))
      && w.server.log <= r.world.server.log
      && NoBulkFrom(r.world.server.log, |w.server.log|)
  {
    var removal := RemovePhase(w, toRemove, sel);
    RemovePhaseNoBulk(w, toRemove, sel);
    if removal.outcome.Done? {
      var r := ReadThenAdd(removal.world, selected, sel, name, added0);
      ReadThenAddStopsAtCancel(removal.world, selected, sel, name, added0, i);
      NoBulkJoin(removal.world.server.log, r.world.server.log, |w.server.log|);
    }
  }

  /**
   * Cancellation after entry is not a failure and stops the addition: if any
   * poll after the entry check sees cancellation (on a monitor whose
   * cancellation stays set), the run is not cancelled, makes no bulk call, and,
   * when it ends OK, records the empty list as added.
   */
  lemma RunCancelledAfterEntryAddsNothing<C(!new)>(w: World<C>, selected: seq<C>, sel: Selectors<C>, name: string, added0: Option<seq<C>>)
    requires Sticky(w.monitor.schedule)
    requires var r := RunSpec(w, selected, sel, name, added0);
      exists i :: w.monitor.polls < i < r.world.monitor.polls && Answer(w.monitor.schedule, i)
    ensures var r := RunSpec(w, selected, sel, name, added0);
      && r.status != CancelStatus
      && (r.status == OkStatus ==> r.added == Some([]))
      && NoBulkFrom(r.world.server.log, |w.server.log|)
      && (NoFaultsFrom(w.server) ==> r.status == OkStatus && r.added == Some([]))
  {
    var r := RunSpec(w, selected, sel, name, added0);
    if NoFaultsFrom(w.server) {
      RunWithoutFaults(w, selected, sel, name, added0);
    }
    var i :| w.monitor.polls < i < r.world.monitor.polls && Answer(w.monitor.schedule, i);
    var first := ListStep(w.server);
    var w1 := World(first.server, Polled(w.monitor));
    if !Canceled(w.monitor) && first.outcome.Done? {
      var toRemove := ToRemove(selected, first.outcome.value);
      RemoveThenAddStopsAtCancel(w1, selected, toRemove, sel, name, added0, i);
      RemoveThenAddShortCircuits(w1, selected, toRemove, sel, name, added0);
      NoBulkJoin(w1.server.log, r.world.server.log, |w.server.log|);
    }
  }

  /**
   * What RunAddedIsBulkAnswer states about the part of a run from log position
   * `from` that ended in `r`.
   */
  ghost predicate AddedIsBulkAnswer<C(!new)>(from: nat, selected: seq<C>, r: Run<C>)
  {
    var log, e := r.world.server.log, r.world.server.embedded;
    r.status == OkStatus ==>
      && r.added.Some?
      && from <= |log|
      && (r.added.value == [] ==> NoBulkFrom(log, from))
      && (r.added.value != [] ==>
            var a := r.added.value;
            && from < |log| && log[|log| - 1] == AddMany(a)
            && NoBulkFrom(log[..|log| - 1], from)
            && |a| <= |e| && e[|e| - |a|..] == a
            && multiset(a) == multiset(ToAdd(selected, e[..|e| - |a|])))
  }

  /** A part of a run with no bulk call, followed by a part whose added list is its bulk answer. */
  lemma AddedIsBulkAnswerJoin<C(!new)>(log1: seq<Call<C>>, from: nat, selected: seq<C>, r: Run<C>)
    requires log1 <= r.world.server.log && NoBulkFrom(log1, from) && from <= |log1|
    requires AddedIsBulkAnswer(|log1|, selected, r)
    ensures AddedIsBulkAnswer(from, selected, r)
  {
    var log := r.world.server.log;
    if r.status == OkStatus {
      if r.added.value == [] {
        NoBulkJoin(log1, log, from);
      } else {
        assert log1 <= log[..|log| - 1];
        NoBulkJoin(log1, log[..|log| - 1], from);
      }
    }
  }

  lemma ReadThenAddBulk<C(!new)>(w: World<C>, selected: seq<C>, sel: Selectors<C>, name: string, added0: Option<seq<C>>)
    ensures AddedIsBulkAnswer(|w.server.log|, selected, ReadThenAdd(w, selected, sel, name, added0))
  {
    var second := ListStep(w.server);
    if second.outcome.Done? {
      var w2 := w.(server := second.server);
      assert NoBulkFrom(w2.server.log, |w.server.log|) by {
        assert w2.server.log == w.server.log + [ListEmbedded];
      }
      assert second.outcome.value == w2.server.embedded;
      assert ReadThenAdd(w, selected, sel, name, added0) == Finish(AddPhase(w2, ToAdd(selected, w2.server.embedded), sel), name, added0);
      FinishBulk(|w.server.log|, w2, selected, sel, name, added0);
    }
  }

  /** The addition and the end of a run, from a world whose calls since `from` include no bulk call. */
  lemma FinishBulk<C(!new)>(from: nat, w: World<C>, selected: seq<C>, sel: Selectors<C>, name: string, added0: Option<seq<C>>)
    requires from <= |w.server.log| && NoBulkFrom(w.server.log, from)
    ensures AddedIsBulkAnswer(from, selected, Finish(AddPhase(w, ToAdd(selected, w.server.embedded), sel), name, added0))
  {
    var toAdd := ToAdd(selected, w.server.embedded);
    var addition := AddPhase(w, toAdd, sel);
    if toAdd == [] || Canceled(w.monitor) {
      assert addition.world.server == w.server && addition.outcome == Done([]);
    } else if !NextFails(w.server) {
      var a := PrioritySort(sel, toAdd);
      var reply := AddManyStep(w.server, a);
      assert addition == Phase(Done(a), World(reply.server, Polled(w.monitor)));
      assert reply.server.log == w.server.log + [AddMany(a)] && reply.server.embedded == w.server.embedded + a;
      BulkAnswerShape(from, selected, w.server.log, w.server.embedded, a, Finish(addition, name, added0));
    }
  }

  /** An OK ending whose one bulk call, the last call, embedded the missing cartridges `a`. */
  lemma BulkAnswerShape<C(!new)>(from: nat, selected: seq<C>, log0: seq<Call<C>>, e1: seq<C>, a: seq<C>, r: Run<C>)
    requires from <= |log0| && NoBulkFrom(log0, from)
    requires r.status == OkStatus && r.added == Some(a) && a != []
    requires r.world.server.log == log0 + [AddMany(a)] && r.world.server.embedded == e1 + a
    requires multiset(a) == multiset(ToAdd(selected, e1))
    ensures AddedIsBulkAnswer(from, selected, r)
  {
    AppendSlices(e1, a);
    AppendSlices(log0, [AddMany(a)]);
  }

  /** The two halves of a concatenation. */
  lemma AppendSlices<T>(s: seq<T>, t: seq<T>)
    ensures (s + t)[..|s|] == s && (s + t)[|s|..] == t
  {
  }

  lemma RemoveThenAddBulk<C(!new)>(w: World<C>, selected: seq<C>, toRemove: seq<C>, sel: Selectors<C>, name: string,
                                   added0: Option<seq<C>>)
    ensures AddedIsBulkAnswer(|w.server.log|, selected, RemoveThenAdd(w, selected, toRemove, sel, name, added0))
  {
    var removal := RemovePhase(w, toRemove, sel);
    RemovePhaseNoBulk(w, toRemove, sel);
    if removal.outcome.Done? {
      var r := ReadThenAdd(removal.world, selected, sel, name, added0);
      ReadThenAddBulk(removal.world, selected, sel, name, added0);
      AddedIsBulkAnswerJoin(removal.world.server.log, |w.server.log|, selected, r);
    }
  }

  /**
   * An OK run records what the addition answered. If that is non-empty, it came
   * from the run's last call, its only bulk call; it ends the embedded list; and
   * it holds exactly the selected cartridges missing from the list as it stood
   * before that call. If it is empty, the run made no bulk call.
   */
  lemma RunAddedIsBulkAnswer<C(!new)>(w: World<C>, selected: seq<C>, sel: Selectors<C>, name: string, added0: Option<seq<C>>)
    ensures AddedIsBulkAnswer(|w.server.log|, selected, RunSpec(w, selected, sel, name, added0))
  {
    var first := ListStep(w.server);
    if !Canceled(w.monitor) && first.outcome.Done? {
      var w1 := World(first.server, Polled(w.monitor));
      var toRemove := ToRemove(selected, first.outcome.value);
      var r := RemoveThenAdd(w1, selected, toRemove, sel, name, added0);
      RemoveThenAddBulk(w1, selected, toRemove, sel, name, added0);
      RemoveThenAddShortCircuits(w1, selected, toRemove, sel, name, added0);
      assert w1.server.log[|w.server.log|] == ListEmbedded;
      AddedIsBulkAnswerJoin(w1.server.log, |w.server.log|, selected, r);
    }
  }

  /** Undisturbed, the second read and the addition end OK with every selected cartridge embedded. */
  lemma ReadThenAddConverges<C(!new)>(w: World<C>, selected: seq<C>, sel: Selectors<C>, name: string, added0: Option<seq<C>>)
    requires NoFaultsFrom(w.server) && NeverCanceled(w.monitor)
    ensures var r := ReadThenAdd(w, selected, sel, name, added0);
      && r.status == OkStatus
      && forall c :: c in r.world.server.embedded <==> c in w.server.embedded || c in selected
  {
    var e := w.server.embedded;
    assert |w.server.log| !in w.server.faults && |w.server.log| + 1 !in w.server.faults;
    var second := ListStep(w.server);
    var w2 := w.(server := second.server);
    var toAdd := ToAdd(selected, e);
    if toAdd != [] {
      assert !Answer(w.monitor.schedule, w.monitor.polls);
      PrioritySortSameElements(sel, toAdd);
      assert AddPhase(w2, toAdd, sel).world.server.embedded == e + PrioritySort(sel, toAdd);
    }
  }

  /** Undisturbed, the removal phase succeeds and leaves exactly the embedded cartridges that are selected. */
  lemma RemovePhaseClean<C(!new)>(w: World<C>, selected: seq<C>, sel: Selectors<C>)
    requires NoFaultsFrom(w.server) && NeverCanceled(w.monitor)
    ensures var p := RemovePhase(w, ToRemove(selected, w.server.embedded), sel);
      && p.outcome.Done?
      && (forall c :: c in p.world.server.embedded <==> c in w.server.embedded && c in selected)
      && NoFaultsFrom(p.world.server) && NeverCanceled(p.world.monitor)
  {
    var e0 := w.server.embedded;
    var toRemove := ToRemove(selected, e0);
    if toRemove != [] {
      var sorted := PrioritySort(sel, toRemove);
      ToRemoveCounts(selected, e0);
      assert multiset(sorted) <= multiset(e0) by {
        forall c
          ensures multiset(sorted)[c] <= multiset(e0)[c]
        {
        }
      }
      RemoveLoopClean(w, sorted);
      var e1 := RemoveLoop(w, sorted).world.server.embedded;
      forall c
        ensures c in e1 <==> c in e0 && c in selected
      {
        assert c in e1 <==> multiset(e1)[c] > 0;
        assert c in e0 <==> multiset(e0)[c] > 0;
      }
    }
  }

  /** Undisturbed, the removal phase and the rest of the run end OK with exactly the selected cartridges embedded. */
  lemma RemoveThenAddConverges<C(!new)>(w: World<C>, selected: seq<C>, sel: Selectors<C>, name: string, added0: Option<seq<C>>)
    requires NoFaultsFrom(w.server) && NeverCanceled(w.monitor)
    ensures var r := RemoveThenAdd(w, selected, ToRemove(selected, w.server.embedded), sel, name, added0);
      && r.status == OkStatus
      && forall c :: c in r.world.server.embedded <==> c in selected
  {
    var removal := RemovePhase(w, ToRemove(selected, w.server.embedded), sel);
    RemovePhaseClean(w, selected, sel);
    assert RemoveThenAdd(w, selected, ToRemove(selected, w.server.embedded), sel, name, added0)
        == ReadThenAdd(removal.world, selected, sel, name, added0);
    ReadThenAddConverges(removal.world, selected, sel, name, added0);
  }

  /**
   * Undisturbed by faults and cancellation, a run ends OK with the application
   * holding exactly the selected cartridges, so a second run with the same
   * selection finds nothing to add and nothing to remove.
   */
  lemma RunConverges<C(!new)>(w: World<C>, selected: seq<C>, sel: Selectors<C>, name: string, added0: Option<seq<C>>)
    requires NoFaultsFrom(w.server) && NeverCanceled(w.monitor)
    ensures var r := RunSpec(w, selected, sel, name, added0);
      && r.status == OkStatus
      && (forall c :: c in r.world.server.embedded <==> c in selected)
      && ToAdd(selected, r.world.server.embedded) == []
      && ToRemove(selected, r.world.server.embedded) == []
  {
    assert !Answer(w.monitor.schedule, w.monitor.polls);
    assert |w.server.log| !in w.server.faults;
    var first := ListStep(w.server);
    var w1 := World(first.server, Polled(w.monitor));
    RemoveThenAddConverges(w1, selected, sel, name, added0);
    InSyncNothingToDo(selected, RunSpec(w, selected, sel, name, added0).world.server.embedded);
  }

  /**
   * Undisturbed by faults and cancellation, a run whose selection already holds
   * exactly the embedded cartridges only reads the embedded list twice: no
   * lookup, destroy or bulk call, and the empty list is recorded as added.
   */
  lemma RunInSyncMakesNoChange<C(!new)>(w: World<C>, selected: seq<C>, sel: Selectors<C>, name: string, added0: Option<seq<C>>)
    requires NoFaultsFrom(w.server) && NeverCanceled(w.monitor)
    requires forall c :: c in selected <==> c in w.server.embedded
    ensures var r := RunSpec(w, selected, sel, name, added0);
      && r.status == OkStatus && r.added == Some([])
      && r.world.server.embedded == w.server.embedded
      && r.world.server.log == w.server.log + [ListEmbedded, ListEmbedded]
      && r.world.monitor == Polled(w.monitor)
  {
    assert !Answer(w.monitor.schedule, w.monitor.polls);
    assert |w.server.log| !in w.server.faults && |w.server.log| + 1 !in w.server.faults;
    InSyncNothingToDo(selected, w.server.embedded);
    var first := ListStep(w.server);
    var w1 := World(first.server, Polled(w.monitor));
    assert RunSpec(w, selected, sel, name, added0) == ReadThenAdd(w1, selected, sel, name, added0);
  }
}

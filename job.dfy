/**
 * The embed-cartridges job: bring an application's embedded cartridges in line
 * with a selection by removing the embedded ones that are not selected, one at a
 * time and stopping at cancellation, and then adding the missing ones in one
 * bulk call.
 *
 * The functions RemoveLoop, RemovePhase, AddPhase and RunSpec say what a run does
 * to the server and the monitor; the methods of EmbedCartridgesJob do it step by
 * step and are proved to agree with them.
 */
module EmbedJob {
  import opened Cartridges
  import opened Reconcile
  import opened Remote
  import opened Progress

  /** Everything a run touches: the remote application and the progress monitor. */
  datatype World<C> = World(server: Server<C>, monitor: Poller)

  /** How a step of the job ended, and the world after it. */
  datatype Phase<C, T> = Phase(outcome: Outcome<T>, world: World<C>)

  /** The job's status: cancelled, OK, or an error naming the application. */
  datatype Status = CancelStatus | OkStatus | ErrorStatus(application: string)

  /** A whole run: its status, the world after it, and the job's added-cartridges field. */
  datatype Run<C> = Run(status: Status, world: World<C>, added: Option<seq<C>>)

  function Poll<C>(w: World<C>): World<C>
  {
    w.(monitor := Polled(w.monitor))
  }

  /**
   * The removal loop over the sorted list: before each cartridge poll for
   * cancellation and stop if it is set; otherwise remove the cartridge. A failing
   * call ends the loop.
   */
  function RemoveLoop<C(==)>(w: World<C>, items: seq<C>): Phase<C, ()>
    decreases |items|
  {
    if items == [] then Phase(Done(()), w)
    else if Canceled(w.monitor) then Phase(Done(()), Poll(w))
    else
      var step := RemoveOne(Poll(w), items[0]);
      if step.outcome.Failed? then step else RemoveLoop(step.world, items[1..])
  }

  /** One turn of the removal loop after the poll: look the cartridge up, and destroy it if found. */
  function RemoveOne<C(==)>(w: World<C>, c: C): Phase<C, ()>
  {
    var found := LookupStep(w.server, c);
    var w1 := w.(server := found.server);
    match found.outcome
    case Failed => Phase(Failed, w1)
    case Done(None) => Phase(Done(()), w1)
    case Done(Some(e)) =>
      var destroyed := DestroyStep(w1.server, e);
      Phase(destroyed.outcome, w1.(server := destroyed.server))
  }

  /** `removeEmbeddedCartridges`: nothing at all for an empty list, else the loop over the sorted list. */
  function RemovePhase<C(==)>(w: World<C>, toRemove: seq<C>, sel: Selectors<C>): Phase<C, ()>
  {
    if toRemove == [] then Phase(Done(()), w)
    else RemoveLoop(w, PrioritySort(sel, toRemove))
  }

  /**
   * `addEmbeddedCartridges`: an empty list, or a cancelled monitor, gives the
   * empty list without a call (the monitor is polled only for a non-empty list);
   * otherwise one bulk call with the sorted list, whose answer is the result.
   */
  function AddPhase<C(==)>(w: World<C>, toAdd: seq<C>, sel: Selectors<C>): Phase<C, seq<C>>
  {
    if toAdd == [] then Phase(Done([]), w)
    else if Canceled(w.monitor) then Phase(Done([]), Poll(w))
    else
      var reply := AddManyStep(w.server, PrioritySort(sel, toAdd));
      Phase(reply.outcome, World(reply.server, Polled(w.monitor)))
  }

  /**
   * `doRun`: a cancelled monitor on entry cancels the run. Otherwise read the
   * embedded list, remove what is not selected, read the embedded list again, add
   * what is missing from it, and record the answer of the addition. Any failing
   * call ends the run with an error naming the application and leaves the
   * added-cartridges field as it was.
   */
  function RunSpec<C(==,!new)>(w: World<C>, selected: seq<C>, sel: Selectors<C>, name: string, added0: Option<seq<C>>): Run<C>
  {
    if Canceled(w.monitor) then Run(CancelStatus, Poll(w), added0)
    else
      var first := ListStep(w.server);
      var w1 := World(first.server, Polled(w.monitor));
      if first.outcome.Failed? then Run(ErrorStatus(name), w1, added0)
      else RemoveThenAdd(w1, selected, ToRemove(selected, first.outcome.value), sel, name, added0)
  }

  /** The rest of a run once the embedded list has been read: the removal phase, then the second read and the addition. */
  function RemoveThenAdd<C(==,!new)>(w: World<C>, selected: seq<C>, toRemove: seq<C>, sel: Selectors<C>, name: string,
                                     added0: Option<seq<C>>): Run<C>
  {
    var removal := RemovePhase(w, toRemove, sel);
    if removal.outcome.Failed? then Run(ErrorStatus(name), removal.world, added0)
    else ReadThenAdd(removal.world, selected, sel, name, added0)
  }

  /** The rest of a run once the removal phase is over: read the embedded list again, then the addition. */
  function ReadThenAdd<C(==,!new)>(w: World<C>, selected: seq<C>, sel: Selectors<C>, name: string, added0: Option<seq<C>>): Run<C>
  {
    var second := ListStep(w.server);
    var w2 := w.(server := second.server);
    if second.outcome.Failed? then Run(ErrorStatus(name), w2, added0)
    else Finish(AddPhase(w2, ToAdd(selected, second.outcome.value), sel), name, added0)
  }

  /** The end of a run: an error if the addition failed, else OK with its answer recorded as added. */
  function Finish<C>(addition: Phase<C, seq<C>>, name: string, added0: Option<seq<C>>): Run<C>
  {
    if addition.outcome.Failed? then Run(ErrorStatus(name), addition.world, added0)
    else Run(OkStatus, addition.world, Some(addition.outcome.value))
  }

  class EmbedCartridgesJob<C(==,!new)> {
    const selectedCartridges: seq<C>
    const application: Application<C>
    /** The `LatestVersionOf` selectors the priority comparator consults. */
    const selectors: Selectors<C>
    /** `addedCartridges`: null (None) until a run assigns it. */
    var addedCartridges: Option<seq<C>>

    constructor (selectedCartridges: seq<C>, application: Application<C>, selectors: Selectors<C>)
      ensures this.selectedCartridges == selectedCartridges && this.application == application
      ensures this.selectors == selectors && addedCartridges == None
    {
      this.selectedCartridges := selectedCartridges;
      this.application := application;
      this.selectors := selectors;
      this.addedCartridges := None;
    }

    /** `getAddedCartridges()`. */
    function GetAddedCartridges(): Option<seq<C>>
      reads this
    {
      addedCartridges
    }

    method DoRun(monitor: Monitor) returns (status: Status)
      modifies this, application, monitor
      ensures var r := RunSpec(old(World(application.State(), monitor.State())), selectedCartridges, selectors,
                               application.name, old(addedCartridges));
              status == r.status && World(application.State(), monitor.State()) == r.world
              && addedCartridges == r.added
    {
      var canceled := monitor.IsCanceled();
      if canceled {
        return CancelStatus;
      }
      var embedded := application.GetEmbeddedCartridges();
      if embedded.Failed? {
        return ErrorStatus(application.name);
      }
      var toRemove := CartridgesToRemove(selectedCartridges, embedded.value);
      var removed := RemoveEmbeddedCartridges(toRemove, monitor);
      if removed.Failed? {
        return ErrorStatus(application.name);
      }
      embedded := application.GetEmbeddedCartridges();
      if embedded.Failed? {
        return ErrorStatus(application.name);
      }
      var toAdd := CartridgesToAdd(selectedCartridges, embedded.value);
      var added := AddEmbeddedCartridges(toAdd, monitor);
      if added.Failed? {
        return ErrorStatus(application.name);
      }
      addedCartridges := Some(added.value);
      return OkStatus;
    }

    method RemoveEmbeddedCartridges(toRemove: seq<C>, monitor: Monitor) returns (r: Outcome<()>)
      modifies application, monitor
      ensures Phase(r, World(application.State(), monitor.State()))
           == RemovePhase(old(World(application.State(), monitor.State())), toRemove, selectors)
    {
      if toRemove == [] {
        return Done(());
      }
      // Collections.sort reorders the freshly built list.
      var sorted := PrioritySort(selectors, toRemove);
      ghost var w0 := World(application.State(), monitor.State());
      var i := 0;
      while i < |sorted|
        invariant 0 <= i <= |sorted|
        invariant RemoveLoop(w0, sorted) == RemoveLoop(World(application.State(), monitor.State()), sorted[i..])
      {
        assert sorted[i..][1..] == sorted[i + 1..];
        var canceled := monitor.IsCanceled();
        if canceled {
          return Done(());
        }
        var found := application.GetEmbeddedCartridge(sorted[i]);
        if found.Failed? {
          return Failed;
        }
        if found.value.Some? {
          var destroyed := application.Destroy(found.value.value);
          if destroyed.Failed? {
            return Failed;
          }
        }
        i := i + 1;
      }
      return Done(());
    }

    method AddEmbeddedCartridges(toAdd: seq<C>, monitor: Monitor) returns (r: Outcome<seq<C>>)
      modifies application, monitor
      ensures Phase(r, World(application.State(), monitor.State()))
           == AddPhase(old(World(application.State(), monitor.State())), toAdd, selectors)
    {
      if toAdd == [] {
        return Done([]);
      }
      var canceled := monitor.IsCanceled();
      if canceled {
        return Done([]);
      }
      var sorted := PrioritySort(selectors, toAdd);
      r := application.AddEmbeddableCartridges(sorted);
    }

    /** The private `getAddedCartridges(selected, embedded)`: one pass over the selection. */
    static method CartridgesToAdd(selected: seq<C>, embedded: seq<C>) returns (r: seq<C>)
      ensures r == ToAdd(selected, embedded)
      ensures forall c :: c in r <==> c in selected && c !in embedded
    {
      r := [];
      for i := 0 to |selected|
        invariant r == ToAdd(selected[..i], embedded)
      {
        assert selected[..i + 1][..i] == selected[..i];
        assert selected[..i + 1][i] == selected[i];
        if selected[i] !in embedded {
          r := r + [selected[i]];
        }
      }
      assert selected[..|selected|] == selected;
    }

    /** `getRemovedCartridges(selected, embedded)`: one pass over the embedded list. */
    static method CartridgesToRemove(selected: seq<C>, embedded: seq<C>) returns (r: seq<C>)
      ensures r == ToRemove(selected, embedded)
      ensures forall c :: c in r <==> c in embedded && c !in selected
    {
      r := [];
      for i := 0 to |embedded|
        invariant r == ToRemove(selected, embedded[..i])
      {
        assert embedded[..i + 1][..i] == embedded[..i];
        assert embedded[..i + 1][i] == embedded[i];
        if embedded[i] !in selected {
          r := r + [embedded[i]];
        }
      }
      assert embedded[..|embedded|] == embedded;
    }
  }
}

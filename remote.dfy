/**
 * The remote OpenShift application as the embed job sees it: the list of
 * cartridges embedded in it, a lookup of one embedded cartridge, destroying one,
 * and adding several in one bulk call.
 *
 * The server is abstract state. Every call the job makes on it is appended to a
 * log, and whether a call throws `OpenShiftException` is an oracle: the call with
 * log position k fails exactly when k is in `faults`. A failing call changes
 * nothing on the server.
 */
module Remote {

  datatype Option<T> = None | Some(value: T)

  /** What a remote call gives back: a value, or the `OpenShiftException` it threw. */
  datatype Outcome<T> = Done(value: T) | Failed

  /** One call on the application or on one of its embedded cartridges. */
  datatype Call<C> =
    | ListEmbedded             // application.getEmbeddedCartridges()
    | Lookup(cartridge: C)     // application.getEmbeddedCartridge(cartridge)
    | Destroy(cartridge: C)    // embeddedCartridge.destroy()
    | AddMany(cartridges: seq<C>)  // application.addEmbeddableCartridges(cartridges)

  datatype Server<C> = Server(embedded: seq<C>, log: seq<Call<C>>, faults: set<nat>)

  datatype Reply<C, T> = Reply(outcome: Outcome<T>, server: Server<C>)

  /** Whether the next call on the server throws. */
  predicate NextFails<C>(s: Server<C>)
  {
    |s.log| in s.faults
  }

  /** Drop the first occurrence of `c`, if any. */
  function RemoveFirst<C(==)>(s: seq<C>, c: C): (r: seq<C>)
    ensures c in s ==> multiset(r) == multiset(s) - multiset{c}
    ensures c !in s ==> r == s
  {
    if s == [] then []
    else
      assert s == [s[0]] + s[1..];
      if s[0] == c then s[1..]
      else [s[0]] + RemoveFirst(s[1..], c)
  }

  /** The effect of a call that succeeds on the embedded list. */
  function Apply<C(==)>(embedded: seq<C>, call: Call<C>): seq<C>
  {
    match call
    case Destroy(c) => RemoveFirst(embedded, c)
    case AddMany(cs) => embedded + cs
    case _ => embedded
  }

  /** Make a call: it is logged, and it takes effect unless it is one that fails. */
  function Invoke<C(==)>(s: Server<C>, call: Call<C>): Server<C>
  {
    Server(if NextFails(s) then s.embedded else Apply(s.embedded, call), s.log + [call], s.faults)
  }

  function ListStep<C(==)>(s: Server<C>): Reply<C, seq<C>>
  {
    Reply(if NextFails(s) then Failed else Done(s.embedded), Invoke(s, ListEmbedded))
  }

  /** The lookup finds the cartridge exactly when it is embedded, and answers null otherwise. */
  function LookupStep<C(==)>(s: Server<C>, c: C): Reply<C, Option<C>>
  {
    Reply(if NextFails(s) then Failed else if c in s.embedded then Done(Some(c)) else Done(None),
          Invoke(s, Lookup(c)))
  }

  function DestroyStep<C(==)>(s: Server<C>, c: C): Reply<C, ()>
  {
    Reply(if NextFails(s) then Failed else Done(()), Invoke(s, Destroy(c)))
  }

  /** The bulk add embeds the given cartridges and answers them as the newly embedded ones. */
  function AddManyStep<C(==)>(s: Server<C>, cs: seq<C>): Reply<C, seq<C>>
  {
    Reply(if NextFails(s) then Failed else Done(cs), Invoke(s, AddMany(cs)))
  }

  /**
   * The embedded list after the calls `calls`, numbered from `base` in the log,
   * have been made on `embedded`: each call that succeeded takes effect, each one
   * that failed does not, and nothing is undone.
   */
  function Replay<C(==)>(embedded: seq<C>, calls: seq<Call<C>>, base: nat, faults: set<nat>): seq<C>
    decreases |calls|
  {
    if calls == [] then embedded
    else
      var before := Replay(embedded, calls[..|calls| - 1], base, faults);
      if base + |calls| - 1 in faults then before else Apply(before, calls[|calls| - 1])
  }

  /**
   * `s` is what `s0` becomes after some calls: the log only grew, the server holds
   * the effect of exactly those calls, none of them failed except perhaps the
   * last, and `failed` says whether the last one did.
   */
  predicate Follows<C(==)>(s0: Server<C>, s: Server<C>, failed: bool)
  {
    && s0.log <= s.log
    && s.faults == s0.faults
    && s.embedded == Replay(s0.embedded, s.log[|s0.log|..], |s0.log|, s0.faults)
    && (forall k :: |s0.log| <= k < |s.log| - 1 ==> k !in s0.faults)
    && (failed <==> |s0.log| < |s.log| && |s.log| - 1 in s0.faults)
  }

  /** Having made no call, the server follows itself. */
  lemma FollowsRefl<C(!new)>(s: Server<C>)
    ensures Follows(s, s, false)
  {
    assert s.log[|s.log|..] == [];
  }

  /** Making one more call after calls that all succeeded. */
  lemma FollowsInvoke<C(!new)>(s0: Server<C>, s: Server<C>, call: Call<C>)
    requires Follows(s0, s, false)
    ensures Follows(s0, Invoke(s, call), NextFails(s))
  {
    var s1 := Invoke(s, call);
    var calls := s1.log[|s0.log|..];
    assert calls[..|calls| - 1] == s.log[|s0.log|..];
    assert calls[|calls| - 1] == call;
  }

  /** Calls that all succeeded, followed by more calls, are those calls together. */
  lemma {:induction false} FollowsTrans<C(!new)>(s0: Server<C>, s1: Server<C>, s2: Server<C>, failed: bool)
    requires Follows(s0, s1, false) && Follows(s1, s2, failed)
    ensures Follows(s0, s2, failed)
    decreases |s2.log|
  {
    var n0, n1 := |s0.log|, |s1.log|;
    var all, first, second := s2.log[n0..], s1.log[n0..], s2.log[n1..];
    assert all == first + second;
    ReplayAppend(s0.embedded, first, second, n0, s0.faults);
    assert forall k :: n0 <= k < n1 ==> k !in s0.faults;
  }

  /** Replaying two stretches of a log one after the other is replaying both together. */
  lemma {:induction false} ReplayAppend<C(!new)>(embedded: seq<C>, a: seq<Call<C>>, b: seq<Call<C>>, base: nat, faults: set<nat>)
    ensures Replay(embedded, a + b, base, faults) == Replay(Replay(embedded, a, base, faults), b, base + |a|, faults)
    decreases |b|
  {
    if b == [] {
      assert a + b == a;
    } else {
      var init := b[..|b| - 1];
      assert (a + b)[..|a + b| - 1] == a + init;
      assert (a + b)[|a + b| - 1] == b[|b| - 1];
      ReplayAppend(embedded, a, init, base, faults);
    }
  }

  /** The remote application: its embedded cartridges, the calls made on it, and its fault oracle. */
  class Application<C(==)> {
    const name: string
    const faults: set<nat>
    var embedded: seq<C>
    var log: seq<Call<C>>

    constructor (name: string, embedded: seq<C>, faults: set<nat>)
      ensures this.name == name && State() == Server(embedded, [], faults)
    {
      this.name := name;
      this.faults := faults;
      this.embedded := embedded;
      this.log := [];
    }

    function State(): Server<C>
      reads this
    {
      Server(embedded, log, faults)
    }

    /** `getEmbeddedCartridges()`. */
    method GetEmbeddedCartridges() returns (r: Outcome<seq<C>>)
      modifies this
      ensures Reply(r, State()) == ListStep(old(State()))
    {
      r := if |log| in faults then Failed else Done(embedded);
      log := log + [ListEmbedded];
    }

    /** `getEmbeddedCartridge(cartridge)`: the embedded cartridge, or null. */
    method GetEmbeddedCartridge(cartridge: C) returns (r: Outcome<Option<C>>)
      modifies this
      ensures Reply(r, State()) == LookupStep(old(State()), cartridge)
    {
      if |log| in faults {
        r := Failed;
      } else if cartridge in embedded {
        r := Done(Some(cartridge));
      } else {
        r := Done(None);
      }
      log := log + [Lookup(cartridge)];
    }

    /** `destroy()` on the embedded cartridge `cartridge`. */
    method Destroy(cartridge: C) returns (r: Outcome<()>)
      modifies this
      ensures Reply(r, State()) == DestroyStep(old(State()), cartridge)
    {
      if |log| in faults {
        r := Failed;
      } else {
        embedded := RemoveFirst(embedded, cartridge);
        r := Done(());
      }
      log := log + [Call.Destroy(cartridge)];
    }

    /** `addEmbeddableCartridges(cartridges)`: the newly embedded cartridges. */
    method AddEmbeddableCartridges(cartridges: seq<C>) returns (r: Outcome<seq<C>>)
      modifies this
      ensures Reply(r, State()) == AddManyStep(old(State()), cartridges)
    {
      if |log| in faults {
        r := Failed;
      } else {
        embedded := embedded + cartridges;
        r := Done(cartridges);
      }
      log := log + [AddMany(cartridges)];
    }
  }
}

/**
 * Cooperative cancellation. The progress monitor answers each `isCanceled()` poll
 * from a schedule: poll number k sees `schedule[k]`, and polls past the end of the
 * schedule see its last entry (an empty schedule never cancels).
 */
module Progress {

  datatype Poller = Poller(schedule: seq<bool>, polls: nat)

  function Answer(schedule: seq<bool>, k: nat): bool
  {
    if schedule == [] then false
    else if k < |schedule| then schedule[k]
    else schedule[|schedule| - 1]
  }

  /** What the next poll sees. */
  predicate Canceled(p: Poller)
  {
    Answer(p.schedule, p.polls)
  }

  function Polled(p: Poller): Poller
  {
    p.(polls := p.polls + 1)
  }

  /** Once cancellation is requested it stays requested, as with an Eclipse progress monitor. */
  predicate Sticky(schedule: seq<bool>)
  {
    forall i, j :: 0 <= i <= j < |schedule| && schedule[i] ==> schedule[j]
  }

  /** On a sticky schedule, a later poll sees whatever cancellation an earlier one saw. */
  lemma StickyAnswer(schedule: seq<bool>, i: nat, j: nat)
    requires Sticky(schedule) && i <= j && Answer(schedule, i)
    ensures Answer(schedule, j)
  {
    var n := |schedule|;
    var i', j' := if i < n then i else n - 1, if j < n then j else n - 1;
    assert schedule[i'] && i' <= j';
  }

  class Monitor {
    const schedule: seq<bool>
    var polls: nat

    constructor (schedule: seq<bool>)
      ensures State() == Poller(schedule, 0)
    {
      this.schedule := schedule;
      this.polls := 0;
    }

    function State(): Poller
      reads this
    {
      Poller(schedule, polls)
    }

    /** `isCanceled()`. */
    method IsCanceled() returns (b: bool)
      modifies this
      ensures b == Canceled(old(State())) && State() == Polled(old(State()))
    {
      b := Answer(schedule, polls);
      polls := polls + 1;
    }
  }
}

/** The mutex of the next message: one thread at most holds it, only its holder writes to the slot,
    and nobody keeps it for good. */
module MessageMutex {
  import opened Messages
  import opened ClientMachine
  import opened Refinement

  /** An action that writes to the slot, or makes it pending. */
  predicate WritesSlot(a: Action) {
    a.Copy? || a.Put? || a.PutCustom? || a.Unlock?
  }

  /** The thread took the mutex and will release it. */
  predicate Holding(p: seq<Action>) {
    Lock !in p && Unlock in p
  }

  /** The mutex is taken once, before the slot is written, and released once, after it. */
  ghost predicate Guarded(p: seq<Action>) {
    && (forall i, j :: 0 <= i < j < |p| && p[j] == Lock ==> p[i] != Lock && !WritesSlot(p[i]))
    && (forall i, j :: 0 <= i < j < |p| && p[i] == Unlock ==> !WritesSlot(p[j]))
    && (Lock in p || (exists a <- p :: WritesSlot(a)) ==> Unlock in p)
  }

  ghost predicate Held(threads: map<nat, seq<Action>>) {
    exists t <- threads :: Holding(threads[t])
  }

  ghost predicate HeldByOne(threads: map<nat, seq<Action>>) {
    forall t, u :: t in threads && u in threads && Holding(threads[t]) && Holding(threads[u]) ==> t == u
  }

  ghost predicate MutexInv(c: Client) {
    && (forall t <- c.threads :: Guarded(c.threads[t]))
    && HeldByOne(c.threads) && c.locked == Held(c.threads)
  }

  /** Thread `t` goes on with `q`: it keeps what it had, or takes what nobody had, or releases it. */
  lemma OneThreadMoves(threads: map<nat, seq<Action>>, t: nat, q: seq<Action>)
    requires HeldByOne(threads) && t in threads
    ensures var moved := threads[t := q];
            && (Holding(q) == Holding(threads[t]) ==> HeldByOne(moved) && Held(moved) == Held(threads))
            && (Holding(q) && !Held(threads) ==> HeldByOne(moved) && Held(moved))
            && (Holding(threads[t]) && !Holding(q) ==> HeldByOne(moved) && !Held(moved))
  {
    var moved := threads[t := q];
    assert moved[t] == q && forall u <- moved :: u != t ==> moved[u] == threads[u];
    if Held(threads) {
      var u :| u in threads && Holding(threads[u]);
      assert u != t ==> Holding(moved[u]);
    }
  }

  lemma StoreAndPublishIsGuarded(f: Field, from: Report)
    ensures Guarded(StoreAndPublish(f, from)) && Lock in StoreAndPublish(f, from)
  {
    var p := StoreAndPublish(f, from);
    assert p[1] == Lock && p[3] == Unlock;
  }

  lemma FullStateIsGuarded(x: Captured)
    ensures Guarded(Program(ReportFullState(x))) && Lock in Program(ReportFullState(x))
  {
    var p := Program(ReportFullState(x));
    assert p[0] == Lock && p[10] == Unlock;
  }

  lemma FirstMessageIsGuarded(x: Captured)
    ensures Guarded(FirstMessageProgram(x)) && Lock in FirstMessageProgram(x)
  {
    var p := FirstMessageProgram(x);
    assert p[0] == Lock && p[10] == Unlock;
  }

  lemma CallIsGuarded(call: Call)
    ensures Guarded(Program(call)) && !Holding(Program(call))
  {
    var p := Program(call);
    match call
    case SetAgentDescription(d) =>
      StoreAndPublishIsGuarded(DescriptionField, EMPTY_REPORT.(agentDescription := Some(d)));
    case SetHealth(h) => StoreAndPublishIsGuarded(HealthField, EMPTY_REPORT.(health := Some(h)));
    case SetCustomCapabilities(c) =>
      StoreAndPublishIsGuarded(CustomCapabilitiesField, EMPTY_REPORT.(customCapabilities := Some(c)));
    case SetCapabilities(c) =>
      StoreAndPublishIsGuarded(CapabilitiesField, EMPTY_REPORT.(capabilities := c + {ReportsStatus}));
    case ReportPackageStatuses(s) => StoreAndPublishIsGuarded(PackagesField, PackagesReport(s));
    case ReportFullState(x) => FullStateIsGuarded(x);
    case SetRemoteConfigStatus(_) =>
    case SetPackageStatuses(_) =>
    case StorePackageStatuses(_) =>
    case _ => assert p[0] == Lock && p[2] == Unlock;
  }

  lemma NewIsGuarded(e: Event, t: nat, p: seq<Action>)
    requires NewProgram(e, t, p)
    ensures Guarded(p) && !Holding(p)
  {
    if e.Begin? {
      CallIsGuarded(e.call);
    } else if e.Beat? {
      assert p[0] == Lock && p[1] == Unlock;
    } else {
      FirstMessageIsGuarded(e.first);
    }
  }

  lemma TailIsGuarded(p: seq<Action>)
    requires Guarded(p) && p != []
    ensures Guarded(p[1..])
    ensures p[0] == Lock ==> Holding(p[1..])
    ensures p[0] == Unlock ==> Holding(p) && !Holding(p[1..])
    ensures WritesSlot(p[0]) ==> Holding(p)
    ensures !p[0].Lock? && !p[0].Unlock? ==> Holding(p[1..]) == Holding(p)
  {
    var q := p[1..];
    assert forall i :: 0 <= i < |q| ==> q[i] == p[i + 1];
    assert forall a :: a in p <==> a == p[0] || a in q;
    assert WritesSlot(p[0]) ==> forall j :: 0 <= j < |p| ==> p[j] != Lock;
    if exists a <- q :: WritesSlot(a) {
      var a :| a in q && WritesSlot(a);
      assert a in p;
    }
  }

  lemma ContinueIsGuarded(c: Core, p: seq<Action>)
    requires Guarded(p) && ProgramOk(p) && p != []
    ensures var q := Continue(c, p[0], p[1..]);
            && Guarded(q)
            && (p[0] == Lock ==> Holding(q))
            && (p[0] == Unlock ==> Holding(p) && !Holding(q))
            && (WritesSlot(p[0]) ==> Holding(p))
            && (!p[0].Lock? && !p[0].Unlock? ==> Holding(q) == Holding(p))
  {
    TailIsGuarded(p);
    match p[0]
    case CompareRemote(s) => StoreAndPublishIsGuarded(RemoteConfigField, RemoteReport(s));
    case ComparePackages(s) => StoreAndPublishIsGuarded(PackagesField, PackagesReport(s));
    case PutCustom(_) => assert Unlock in [Unlock];
    case _ =>
  }

  lemma AdvanceKeepsMutex(c: Client, t: nat)
    requires MutexInv(c) && Programs(c) && Enabled(c, Advance(t))
    ensures MutexInv(DoAdvance(c, t))
  {
    var p := c.threads[t];
    ContinueIsGuarded(c.core, p);
    OneThreadMoves(c.threads, t, Continue(c.core, p[0], p[1..]));
  }

  lemma StillHolding(c: Client, e: Event, t: nat)
    requires OwnThreads(c) && Enabled(c, e) && !e.Advance? && t in c.threads && Holding(c.threads[t])
    ensures OldProgram(Next(c, e), t, c.threads[t])
  {
    EventThreads(c, e);
    if PreparedAgain(c, e, t) {
      FirstMessageIsGuarded(e.failed);
      assert false;
    }
  }

  lemma EventKeepsMutex(c: Client, e: Event)
    requires MutexInv(c) && OwnThreads(c) && Enabled(c, e) && !e.Advance?
    ensures MutexInv(Next(c, e))
  {
    var d := Next(c, e);
    EventThreads(c, e);
    assert d.locked == c.locked;
    forall t <- d.threads
      ensures Guarded(d.threads[t])
      ensures Holding(d.threads[t]) ==> OldProgram(c, t, d.threads[t])
    {
      if !OldProgram(c, t, d.threads[t]) { NewIsGuarded(e, t, d.threads[t]); }
    }
    if Held(c.threads) {
      var u :| u in c.threads && Holding(c.threads[u]);
      StillHolding(c, e, u);
    }
  }

  lemma {:induction false} RunsKeepMutex(es: seq<Event>)
    ensures MutexInv(After(es))
  {
    if es != [] {
      var c, e := After(es[..|es| - 1]), es[|es| - 1];
      RunsKeepMutex(es[..|es| - 1]);
      RunsKeepInv(es[..|es| - 1]);
      if Enabled(c, e) {
        if e.Advance? { AdvanceKeepsMutex(c, e.t); } else { EventKeepsMutex(c, e); }
      }
    }
  }

  /** Main result: in every run one thread at most is between taking and releasing the mutex, and the
      thread that is about to write to the slot is that one. */
  lemma OnlyTheHolderWrites(es: seq<Event>, t: nat)
    requires !Quiet(After(es), t) && WritesSlot(After(es).threads[t][0])
    ensures var c := After(es);
            c.locked && Holding(c.threads[t]) && forall u <- c.threads :: Holding(c.threads[u]) ==> u == t
  {
    RunsKeepMutex(es);
    TailIsGuarded(After(es).threads[t]);
  }

  lemma NobodyHolds(es: seq<Event>)
    requires AllQuiet(After(es))
    ensures !After(es).locked
  {
    RunsKeepMutex(es);
  }
}

/** Runs that go on from any state, and programs that run without interruption in them. */
module Runs {
  import opened Messages
  import opened ClientMachine
  import opened Refinement
  import opened Protocol
  import opened ClientApi

  // ---- Runs from any state -------------------------------------------------------------------------

  function Play(s: System, es: seq<SystemEvent>): System {
    if es == [] then s else NextSystem(Play(s, es[..|es| - 1]), es[|es| - 1])
  }

  lemma {:induction false} PlayConcat(s: System, es: seq<SystemEvent>, more: seq<SystemEvent>)
    ensures Play(s, es + more) == Play(Play(s, es), more)
  {
    if more == [] {
      assert es + more == es;
    } else {
      var before := more[..|more| - 1];
      PlayConcat(s, es, before);
      assert (es + more)[..|es + more| - 1] == es + before;
    }
  }

  lemma {:induction false} PlaySnoc(s: System, es: seq<SystemEvent>, e: SystemEvent)
    ensures Play(s, es + [e]) == NextSystem(Play(s, es), e)
  {
    assert (es + [e])[..|es|] == es;
  }

  lemma {:induction false} PlayOne(s: System, e: SystemEvent)
    ensures Play(s, [e]) == NextSystem(s, e)
  {
    assert [e][..0] == [];
    assert Play(s, []) == s;
  }

  lemma {:induction false} AfterRunPlays(es: seq<SystemEvent>, more: seq<SystemEvent>)
    ensures AfterRun(es + more) == Play(AfterRun(es), more)
  {
    if more == [] {
      assert es + more == es;
    } else {
      var before := more[..|more| - 1];
      AfterRunPlays(es, before);
      assert (es + more)[..|es + more| - 1] == es + before;
    }
  }

  /** A step of the client that pops nothing concerns nobody else. */
  lemma {:induction false} SilentStep(s: System, e: Event, written: bool)
    requires Next(s.client, e).log.popped == s.client.log.popped
    ensures NextSystem(s, ClientStep(e, written)) == s.(client := Next(s.client, e))
  {
  }

  // ---- Running one program ---------------------------------------------------------------------------

  /** Only threads and the slot have moved on. */
  ghost predicate SameLoop(c: Client, d: Client) {
    && d.sender == c.sender && d.started == c.started && d.cancelled == c.cancelled && d.lost == c.lost
    && d.log.popped == c.log.popped && d.log.overlap == c.log.overlap
  }

  predicate Straight(a: Action) {
    Plain(a) || a.Store?
  }

  /** A program that takes the mutex at `l`, releases it at `u` and does nothing else with it. */
  ghost predicate LocksOnce(p: seq<Action>, l: nat, u: nat) {
    && l < u < |p| && p[l] == Lock && p[u] == Unlock
    && (forall i :: 0 <= i < |p| ==> Straight(p[i]) && p[i] != Cancel)
    && (forall i :: 0 <= i < |p| ==> (p[i] == Lock ==> i == l) && (p[i] == Unlock ==> i == u))
  }

  lemma {:induction false} ActsSnoc(c: Core, p: seq<Action>, i: nat)
    requires i < |p|
    ensures Acts(c, p[..i + 1]) == Act(Acts(c, p[..i]), p[i])
  {
    assert p[..i + 1][..i] == p[..i];
  }

  lemma {:induction false} AdvanceStraight(c: Client, t: nat, a: Action)
    requires !Quiet(c, t) && c.threads[t][0] == a && Straight(a) && a != Cancel
    ensures var d := DoAdvance(c, t);
            && d.core == Act(c.core, a) && d.threads == c.threads[t := c.threads[t][1..]] && SameLoop(c, d)
            && d.locked == (if a == Lock then true else if a == Unlock then false else c.locked)
  {
  }

  /** Thread `t` has done `i` actions of its program `p` since `c`. */
  ghost predicate RunningAt(c: Client, d: Client, t: nat, p: seq<Action>, l: nat, u: nat, i: nat)
    requires i <= |p|
  {
    && SameLoop(c, d)
    && d.threads == c.threads[t := p[i..]]
    && d.locked == (l < i <= u)
    && d.core == Acts(c.core, p[..i])
  }

  lemma {:induction false} RunningStep(c: Client, d: Client, t: nat, p: seq<Action>, l: nat, u: nat, i: nat)
    requires i < |p| && LocksOnce(p, l, u) && RunningAt(c, d, t, p, l, u, i)
    ensures RunningAt(c, Next(d, Advance(t)), t, p, l, u, i + 1)
  {
    AdvanceStraight(d, t, p[i]);
    ActsSnoc(c.core, p, i);
    assert p[i..][1..] == p[i + 1..];
  }

  /** The thread's program `p` is done, and nothing else happened. */
  ghost predicate Ran(c: Client, d: Client, t: nat, p: seq<Action>) {
    SameLoop(c, d) && !d.locked && d.threads == c.threads[t := []] && d.core == Acts(c.core, p)
  }

  const FIRST := Captured(None, 0, None, None)

  /** Thread `t` takes `n` actions. */
  function Steps(t: nat, n: nat): seq<SystemEvent> {
    if n == 0 then [] else Steps(t, n - 1) + [ClientStep(Advance(t), true)]
  }

  lemma {:induction false} OneMoreStep(q: System, d: Client, t: nat, i: nat)
    requires Play(q, Steps(t, i)) == q.(client := d)
    requires Next(d, Advance(t)).log.popped == d.log.popped
    ensures Play(q, Steps(t, i + 1)) == q.(client := Next(d, Advance(t)))
  {
    SilentStep(q.(client := d), Advance(t), true);
    PlaySnoc(q, Steps(t, i), ClientStep(Advance(t), true));
  }

  /** A program that nobody interrupts runs to its end. */
  lemma {:induction false} RunsToEnd(q: System, t: nat, p: seq<Action>, l: nat, u: nat) returns (d: Client)
    requires LocksOnce(p, l, u) && !q.client.locked && t in q.client.threads && q.client.threads[t] == p
    ensures Play(q, Steps(t, |p|)) == q.(client := d) && Ran(q.client, d, t, p)
  {
    var c := q.client;
    d := c;
    assert p[0..] == p && p[..0] == [];
    for i := 0 to |p|
      invariant Play(q, Steps(t, i)) == q.(client := d) && RunningAt(c, d, t, p, l, u, i)
    {
      RunningStep(c, d, t, p, l, u, i);
      OneMoreStep(q, d, t, i);
      d := Next(d, Advance(t));
    }
    assert p[..|p|] == p && p[|p|..] == [];
  }

  lemma {:induction false} SetterLocksOnce(f: Field, from: Report)
    ensures LocksOnce(StoreAndPublish(f, from), 1, 3)
  {
  }

  lemma {:induction false} SetterActs(c: Core, f: Field, from: Report)
    ensures Acts(c, StoreAndPublish(f, from)) == Published(c, f, from)
  {
    var store, rest := Store(f, from), [Lock, Copy(f), Unlock, Schedule];
    ActsCons(c, StoreAndPublish(f, from));
    assert StoreAndPublish(f, from)[1..] == rest;
    PublishActs(Act(c, store), Copy(f));
  }

  lemma {:induction false} PublishActs(c: Core, a: Action)
    ensures Acts(c, [Lock, a, Unlock, Schedule]) == Act(Act(Act(c, a), Unlock), Schedule)
  {
    var p := [Lock, a, Unlock, Schedule];
    ActsSnoc(c, p, 0);
    ActsSnoc(c, p, 1);
    ActsSnoc(c, p, 2);
    ActsSnoc(c, p, 3);
    assert p[..0] == [] && p[..4] == p;
  }

  lemma {:induction false} HeartbeatActs(c: Core)
    ensures LocksOnce(HEARTBEAT_PROGRAM, 0, 1)
    ensures Acts(c, HEARTBEAT_PROGRAM) == c.(out := c.out.(pending := true), token := true)
  {
    var p := HEARTBEAT_PROGRAM;
    ActsSnoc(c, p, 0);
    ActsSnoc(c, p, 1);
    ActsSnoc(c, p, 2);
    assert p[..0] == [] && p[..3] == p;
  }

  /** The sender loop waits, no thread is under way, and messages carry the uid `id`. */
  ghost predicate IdleClient(c: Client, id: Uid) {
    && c.started && c.sender == Waiting && !c.locked && !c.lost && !c.cancelled && AllQuiet(c)
    && c.core.out.message.instanceUid == id
  }

  /** The system after the client popped its slot and wrote the message. */
  function Written(q: System, popped: Client): System
    requires q.live in q.wires
  {
    q.(client := popped,
       wires := q.wires[q.live := q.wires[q.live].(up := q.wires[q.live].up + [|Stream(q)|])])
  }

  /** A pending message that is popped is written. */
  lemma {:induction false} StepWrites(q: System, step: SenderStep)
    requires q.live in q.wires && StepEnabled(q.client, step) && Pops(step)
    requires q.client.core.out.pending && q.client.core.out.message != EMPTY_MESSAGE
    ensures NextSystem(q, ClientStep(Move(step), true)) == Written(q, DoMove(q.client, step))
  {
    assert Next(q.client, Move(step)).log.popped == q.client.log.popped + [q.client.core.out.message];
  }
}

/** What an unnoticed break of a connection does to the server's copy.

    A client may dial again before the server notices that the old connection is gone.  Its agent
    then stays registered on the old connection, the messages of the new one follow on without a
    gap, and a request for the full state that was on its way is lost with the old connection. */
module Reconnects {
  import opened Messages
  import opened Registries
  import opened Protocol
  import opened Coherence

  // ---- Breaks that the server notices in time ------------------------------------------------

  /** The client dials only once the server has removed the connection it used. */
  ghost predicate BreaksNoticed(es: seq<SystemEvent>) {
    forall i :: 0 <= i < |es| && es[i].Dial? ==> AfterRun(es[..i]).live !in AfterRun(es[..i]).wires
  }

  lemma {:induction false} BreaksNoticedBefore(es: seq<SystemEvent>)
    requires BreaksNoticed(es) && es != []
    ensures var before := es[..|es| - 1];
            BreaksNoticed(before) && (es[|es| - 1].Dial? ==> AfterRun(before).live !in AfterRun(before).wires)
  {
    var before := es[..|es| - 1];
    forall i | 0 <= i < |before| && before[i].Dial?
      ensures AfterRun(before[..i]).live !in AfterRun(before[..i]).wires
    {
      assert before[..i] == es[..i] && before[i] == es[i];
    }
  }

  /** Nothing is left of older connections, and no record ever steps back. */
  ghost predicate OneConnection(s: System) {
    && (forall c <- s.wires :: c == s.live)
    && (forall id <- s.registry.agentsById ::
          && s.live in s.wires && s.registry.agentsById[id].conn == s.live
          && s.registry.agentsById[id].data.last == s.registry.agentsById[id].data.top)
  }

  lemma {:induction false} OneConnectionServed(s: System, c: Connection)
    requires SystemOk(s) && OneConnection(s) && EnabledIn(s, Serve(c))
    ensures OneConnection(Served(s, c))
  {
    var i := s.wires[c].up[0];
    var id := Stream(s)[i].instanceUid;
    assert i in s.wires[c].up;
    if id in s.registry.agentsById {
      assert RecordOk(s, s.registry.agentsById[id]);
      assert s.registry.agentsById[id].data.top < i;
    }
  }

  lemma {:induction false} OneConnectionKept(s: System, e: SystemEvent)
    requires SystemOk(s) && Inverse(s.registry) && OneConnection(s)
    requires e.Dial? ==> s.live !in s.wires
    ensures OneConnection(NextSystem(s, e))
  {
    if EnabledIn(s, e) {
      match e
      case Serve(c) => OneConnectionServed(s, c);
      case Close(c) => RemovalIsExact(s.registry, c);
      case _ =>
    }
  }

  lemma {:induction false} NoticedRunsKeepOneConnection(es: seq<SystemEvent>)
    requires BreaksNoticed(es)
    ensures OneConnection(AfterRun(es))
  {
    if es != [] {
      var before := es[..|es| - 1];
      BreaksNoticedBefore(es);
      NoticedRunsKeepOneConnection(before);
      SystemRuns(before);
      OneConnectionKept(AfterRun(before), es[|es| - 1]);
    }
  }

  /** Main result: in every run in which breaks are noticed before the client dials again, and for
      every agent that the server knows to report `f`: its copy of `f` is what the messages up to
      the last processed one add up to; or a request for the full state is on its way to the client;
      or the client is about to send `f`, or has sent it later. */
  lemma {:induction false} NoticedCopyIsRightOrHealing(es: seq<SystemEvent>, id: Uid, f: Field)
    requires BreaksNoticed(es) && id in AfterRun(es).registry.agentsById
    requires var t := AfterRun(es).registry.agentsById[id].data; Reporting(t, f) && !t.blind
    ensures var s := AfterRun(es); var t := s.registry.agentsById[id].data;
            && t.status.Some? && t.last < |Stream(s)|
            && (Settled(s.client, t, f) || Requested(s) || Due(s.client, t.last, f))
  {
    NoticedRunsKeepOneConnection(es);
    CopyIsRightOrHealing(es, id, f);
  }

  /** Main result: in such a run, once the newest message is processed and nothing that concerns `f`
      is on its way, the server's copy of `f` is the value that the client stores. */
  lemma {:induction false} NoticedQuietSystemIsCoherent(es: seq<SystemEvent>, id: Uid, f: Field)
    requires BreaksNoticed(es) && id in AfterRun(es).registry.agentsById
    requires var s := AfterRun(es); var t := s.registry.agentsById[id].data;
             && Reporting(t, f) && !t.blind && NothingOnItsWay(s, t, f)
    ensures var s := AfterRun(es);
            && s.registry.agentsById[id].data.status.Some?
            && Same(s.registry.agentsById[id].data.status.value.report, s.client.core.stored, f)
  {
    NoticedRunsKeepOneConnection(es);
    QuietSystemIsCoherent(es, id, f);
  }
}

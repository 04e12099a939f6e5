/** The server's copy is right, or what makes it right again is already on its way. */
module Coherence {
  import opened Messages
  import opened ClientMachine
  import opened Refinement
  import opened SenderLoop
  import opened Replicas
  import opened Registries
  import opened Protocol

  // ---- The client's part ---------------------------------------------------------------------

  /** A status is found unchanged only once there is one. */
  ghost predicate BareStoresKnown(c: Client) {
    forall t <- c.threads :: RemoteHead(c.threads[t]) && c.threads[t][0].Store? ==>
      |c.threads[t]| > 1 || Carries(c.core.stored, RemoteConfigField)
  }

  ghost predicate ClientOk(c: Client) {
    Inv(c) && Channels(c) && BareStoresKnown(c)
  }

  lemma PoppedIsKnown(ms: seq<AgentToServer>, k: nat, f: Field)
    requires k < |ms| && Carries(ms[k].report, f)
    ensures Carries(Fold(ms), f)
  {
    if k < |ms| - 1 {
      PoppedIsKnown(ms[..|ms| - 1], k, f);
    }
  }

  lemma StoredGrows(c: Client, e: Event, f: Field)
    requires Programs(c) && Carries(c.core.stored, f)
    ensures Carries(Next(c, e).core.stored, f)
  {
    if Enabled(c, e) {
      if e.Advance? {
        AdvanceField(c, e.t, f);
        assert ProgramOk(c.threads[e.t]);
      } else {
        EventReports(c, e);
      }
    }
  }

  lemma BareStoresKeptByAdvance(c: Client, t: nat)
    requires Programs(c) && !Quiet(c, t) && BareStoresKnown(c) && !Carries(c.core.stored, RemoteConfigField)
    ensures BareStoresKnown(DoAdvance(c, t))
  {
    ContinueOk(c.core, c.threads[t]);
    var p := Continue(c.core, c.threads[t][0], c.threads[t][1..]);
    assert DoAdvance(c, t).threads == c.threads[t := p];
    if RemoteHead(p) {
      StoreAndPublishOk(RemoteConfigField, RemoteReport(c.threads[t][0].status));
    }
  }

  lemma BareStoresPreserved(c: Client, e: Event)
    requires Programs(c) && OwnThreads(c) && BareStoresKnown(c)
    ensures BareStoresKnown(Next(c, e))
  {
    if Carries(c.core.stored, RemoteConfigField) {
      StoredGrows(c, e, RemoteConfigField);
    } else if Enabled(c, e) {
      if e.Advance? { BareStoresKeptByAdvance(c, e.t); } else { BareStoresKeptByEvent(c, e); }
    }
  }

  lemma BareStoresKeptByEvent(c: Client, e: Event)
    requires Programs(c) && OwnThreads(c) && BareStoresKnown(c) && !Carries(c.core.stored, RemoteConfigField)
    requires Enabled(c, e) && !e.Advance?
    ensures BareStoresKnown(Next(c, e))
  {
    var threads := Next(c, e).threads;
    NewPrograms(c, e);
    forall t | t in threads && RemoteHead(threads[t]) && threads[t][0].Store? ensures |threads[t]| > 1 {
      assert OldProgram(c, t, threads[t]);
    }
  }

  lemma PoppedGrows(c: Client, e: Event)
    ensures c.log.popped <= Next(c, e).log.popped
    ensures |Next(c, e).log.popped| <= |c.log.popped| + 1
    ensures |Next(c, e).log.popped| > |c.log.popped| ==>
              e.Move? && Enabled(c, e) && Next(c, e).log.popped == c.log.popped + [c.core.out.message]
  {
    if Enabled(c, e) {
      match e
      case Advance(t) => AdvanceHistory(c, t);
      case Move(step) => MoveEffect(c, step);
      case _ => OtherEffect(c, e);
    }
  }

  lemma ClientOkPreserved(c: Client, e: Event)
    requires ClientOk(c)
    ensures ClientOk(Next(c, e))
  {
    InvPreserved(c, e);
    ChannelsPreserved(c, e);
    BareStoresPreserved(c, e);
  }

  /** The client will send field `f`, or has sent it after message `from`. */
  ghost predicate Due(c: Client, from: nat, f: Field) {
    || Owes(c, f)
    || Carries(c.core.out.message.report, f)
    || exists k :: from < k < |c.log.popped| && Carries(c.log.popped[k].report, f)
  }

  lemma DueKeptByAdvance(c: Client, t: nat, f: Field)
    requires Programs(c) && !Quiet(c, t) && Carries(c.core.stored, f)
    requires Owes(c, f) || Carries(c.core.out.message.report, f)
    ensures Owes(DoAdvance(c, t), f) || Carries(DoAdvance(c, t).core.out.message.report, f)
  {
    ActField(c.core, c.threads[t][0], f);
    if Owes(c, f) {
      OwesPreserved(c, t, f);
    }
  }

  lemma DueKeptByEvent(c: Client, e: Event, f: Field)
    requires OwnThreads(c) && Enabled(c, e) && !e.Advance?
    requires Owes(c, f) || Carries(c.core.out.message.report, f)
    ensures var c' := Next(c, e);
            || Owes(c', f) || Carries(c'.core.out.message.report, f)
            || (|c'.log.popped| > |c.log.popped| && Carries(c'.log.popped[|c.log.popped|].report, f))
  {
    if Owes(c, f) {
      EventThreads(c, e);
      var u :| u in c.threads && Copy(f) in c.threads[u];
      if PreparedAgain(c, e, u) {
        FirstMessagesAlike(e.failed, e.first, f);
      }
      assert Copy(f) in Next(c, e).threads[u];
    }
  }

  lemma DueKept(c: Client, e: Event, from: nat, f: Field)
    requires Inv(c) && from < |c.log.popped| && Due(c, from, f) && Carries(c.core.stored, f)
    ensures Due(Next(c, e), from, f)
  {
    PoppedGrows(c, e);
    if Owes(c, f) || Carries(c.core.out.message.report, f) {
      if Enabled(c, e) {
        if e.Advance? { DueKeptByAdvance(c, e.t, f); } else { DueKeptByEvent(c, e, f); }
      }
    } else {
      var k :| from < k < |c.log.popped| && Carries(c.log.popped[k].report, f);
      assert Next(c, e).log.popped[k] == c.log.popped[k];
    }
  }

  /** A field that was just stored for the first time is about to be sent. */
  lemma NewlyStoredIsDue(c: Client, e: Event, f: Field)
    requires ClientOk(c) && c.started && !Carries(c.core.stored, f) && Carries(Next(c, e).core.stored, f)
    requires f == HealthField || f == RemoteConfigField
    ensures Owes(Next(c, e), f)
  {
    if !e.Advance? {
      EventReports(c, e);
    } else {
      var p := c.threads[e.t];
      AdvanceField(c, e.t, f);
      assert ProgramOk(p) && p[0].Store? && p[0].f == f;
      assert RemoteHead(p) <==> f == RemoteConfigField;
      assert Copy(f) in p;
      ContinueOk(c.core, p);
      assert Copy(f) in Next(c, e).threads[e.t];
    }
  }

  // ---- The claim about one record on the client's connection ---------------------------------

  /** The agent is known to report field `f`, so that its absence is noticed. */
  predicate Reporting(t: Track, f: Field) {
    t.status.Some? &&
    match f
    case HealthField => ReportsHealth in t.status.value.report.capabilities
    case RemoteConfigField => ReportsRemoteConfig in t.status.value.report.capabilities
    case _ => false
  }

  /** The copy of `f` is what the messages up to the last processed one add up to. */
  predicate Settled(c: Client, t: Track, f: Field)
    requires t.status.Some? && t.last < |c.log.popped|
  {
    Same(t.status.value.report, Fold(c.log.popped[..t.last + 1]), f)
  }

  ghost predicate TrackOk(c: Client, t: Track) {
    && t.status.Some? && t.last <= t.top < |c.log.popped|
    && t.status.value.sequenceNum == t.last % SEQUENCE_MODULUS
    && (forall f :: Replicated(f) && Carries(t.status.value.report, f) ==> Carries(c.core.stored, f))
  }

  /** `start` is the first message of the connection, `requested` says that a response with the
      request for the full state is on its way to the client. */
  ghost predicate Claim(c: Client, requested: bool, start: nat, t: Track, f: Field)
    requires TrackOk(c, t) && start <= t.top
  {
    Reporting(t, f) ==>
      && (t.last == t.top && !t.blind ==> Settled(c, t, f) || requested || Due(c, t.last, f))
      && (|| start < t.top || Carries(c.log.popped[start].report, f)
          || requested || Due(c, start, f) || !Carries(c.core.stored, f))
  }

  /** Nothing is known anywhere of a field that the client never stored. */
  lemma UnstoredIsSettled(c: Client, t: Track, f: Field)
    requires ClientOk(c) && TrackOk(c, t) && Replicated(f) && !Carries(c.core.stored, f)
    ensures Settled(c, t, f)
  {
    var prefix := c.log.popped[..t.last + 1];
    assert !Carries(Known(c), f);
    FoldChangeIsCarried(c.log.popped, t.last + 1, |c.log.popped|, f);
    assert c.log.popped[..|c.log.popped|] == c.log.popped;
    forall k | 0 <= k < |c.log.popped| ensures !Carries(c.log.popped[k].report, f) {
      if Carries(c.log.popped[k].report, f) { PoppedIsKnown(c.log.popped, k, f); }
    }
  }

  /** A client that stored no less and popped no less satisfies what is claimed about a record. */
  lemma TrackKept(c: Client, d: Client, t: Track)
    requires TrackOk(c, t) && c.log.popped <= d.log.popped
    requires forall f :: Carries(c.core.stored, f) ==> Carries(d.core.stored, f)
    ensures TrackOk(d, t)
    ensures forall f | Settled(c, t, f) :: Settled(d, t, f)
  {
    assert d.log.popped[..t.last + 1] == c.log.popped[..t.last + 1];
  }

  lemma TrackKeptByClient(c: Client, e: Event, t: Track)
    requires Programs(c) && TrackOk(c, t)
    ensures TrackOk(Next(c, e), t)
    ensures forall f | Settled(c, t, f) :: Settled(Next(c, e), t, f)
  {
    PoppedGrows(c, e);
    forall f | Carries(c.core.stored, f) ensures Carries(Next(c, e).core.stored, f) {
      StoredGrows(c, e, f);
    }
    TrackKept(c, Next(c, e), t);
  }

  lemma ClaimKeptByClient(c: Client, e: Event, requested: bool, start: nat, t: Track, f: Field)
    requires ClientOk(c) && TrackOk(c, t) && start <= t.top && Claim(c, requested, start, t, f)
    ensures TrackOk(Next(c, e), t) && Claim(Next(c, e), requested, start, t, f)
  {
    TrackKeptByClient(c, e, t);
    PoppedGrows(c, e);
    if Reporting(t, f) {
      if Carries(c.core.stored, f) {
        if Due(c, start, f) { DueKept(c, e, start, f); }
        if Due(c, t.last, f) { DueKept(c, e, t.last, f); }
      } else {
        UnstoredIsSettled(c, t, f);
        if Carries(Next(c, e).core.stored, f) { NewlyStoredIsDue(c, e, f); }
      }
    }
  }

  // ---- What the server does to a record ------------------------------------------------------

  /** A record before a message: as good as new, or one that was kept in order. */
  ghost predicate TrackOkOrNew(c: Client, t: Track) {
    t.status.Some? ==> TrackOk(c, t)
  }

  lemma ProcessedOk(c: Client, t: Track, i: nat)
    requires ClientOk(c) && TrackOkOrNew(c, t) && i < |c.log.popped|
    ensures TrackOk(c, Processed(t, i, c.log.popped[i]))
  {
    var m := c.log.popped[i];
    forall f | Replicated(f) && Carries(Processed(t, i, m).status.value.report, f)
      ensures Carries(c.core.stored, f)
    {
      UpdatedField(t.status, m, f);
      if Carries(m.report, f) {
        PoppedIsKnown(c.log.popped, i, f);
        assert Carries(Known(c), f);
      }
    }
  }

  /** The fold up to message `i`, in terms of message `i`. */
  lemma FoldAt(ms: seq<AgentToServer>, i: nat, f: Field)
    requires i < |ms|
    ensures Same(Fold(ms[..i + 1]), if Carries(ms[i].report, f) then ms[i].report else Fold(ms[..i]), f)
  {
    assert ms[..i + 1] == ms[..i] + [ms[i]];
    FoldSnoc(ms[..i], ms[i]);
  }

  /** The message carries the field, or its absence is noticed, or it is the expected successor. */
  lemma ProcessedField(c: Client, t: Track, i: nat, f: Field)
    requires ClientOk(c) && TrackOkOrNew(c, t) && i < |c.log.popped|
    requires Reporting(Processed(t, i, c.log.popped[i]), f)
    ensures var m, t' := c.log.popped[i], Processed(t, i, c.log.popped[i]);
            || (Carries(m.report, f) && TrackOk(c, t') && Settled(c, t', f))
            || AsksFullState(t.status, m)
            || t'.blind
            || (t.status.Some? && i == t.last + 1 && !Carries(m.report, f) && Reporting(t, f) && !t.blind)
  {
    var m := c.log.popped[i];
    ProcessedOk(c, t, i);
    UpdatedField(t.status, m, f);
    FoldAt(c.log.popped, i, f);
  }

  lemma ServedOnLive(c: Client, requested: bool, start: nat, t: Track, i: nat, f: Field)
    requires ClientOk(c) && TrackOkOrNew(c, t) && start <= i < |c.log.popped|
    requires t.status.Some? ==> start <= t.top < i && Claim(c, requested, start, t, f)
    ensures var m, t' := c.log.popped[i], Processed(t, i, c.log.popped[i]);
            TrackOk(c, t') && t'.top == i && Claim(c, requested || AsksFullState(t.status, m), start, t', f)
  {
    var m, t' := c.log.popped[i], Processed(t, i, c.log.popped[i]);
    ProcessedOk(c, t, i);
    if Reporting(t', f) {
      ProcessedField(c, t, i, f);
      if t.status.Some? && i == t.last + 1 && !Carries(m.report, f) && !t.blind {
        ServedSuccessor(c, t, i, f);
      }
    }
  }

  /** A successor without the field leaves the copy as right as it was, or as much on its way. */
  lemma ServedSuccessor(c: Client, t: Track, i: nat, f: Field)
    requires TrackOk(c, t) && i == t.last + 1 < |c.log.popped| && Replicated(f) && !Carries(c.log.popped[i].report, f)
    requires TrackOk(c, Processed(t, i, c.log.popped[i]))
    ensures Settled(c, t, f) ==> Settled(c, Processed(t, i, c.log.popped[i]), f)
    ensures Due(c, t.last, f) ==> Due(c, i, f)
  {
    UpdatedField(t.status, c.log.popped[i], f);
    FoldAt(c.log.popped, i, f);
    if Due(c, t.last, f) && !Owes(c, f) && !Carries(c.core.out.message.report, f) {
      var k :| t.last < k < |c.log.popped| && Carries(c.log.popped[k].report, f);
      assert i < k;
    }
  }

  /** A message left over on an older connection. */
  lemma ServedOnStale(c: Client, requested: bool, start: nat, t: Track, i: nat, f: Field)
    requires ClientOk(c) && TrackOk(c, t) && i <= start <= t.top && Claim(c, requested, start, t, f)
    ensures var t' := Processed(t, i, c.log.popped[i]);
            TrackOk(c, t') && t'.top == t.top && Claim(c, requested, start, t', f)
  {
    var m, t' := c.log.popped[i], Processed(t, i, c.log.popped[i]);
    ProcessedOk(c, t, i);
    if Reporting(t', f) && t'.last == t'.top {
      if Carries(m.report, f) {
        UpdatedField(t.status, m, f);
        FoldAt(c.log.popped, i, f);
      } else if !Carries(c.core.stored, f) {
        UnstoredIsSettled(c, t', f);
      }
    }
  }

  // ---- The invariant of the system -----------------------------------------------------------

  predicate Increasing(xs: seq<nat>) {
    forall i, j :: 0 <= i < j < |xs| ==> xs[i] < xs[j]
  }

  lemma IncreasingSnoc(xs: seq<nat>, n: nat)
    requires Increasing(xs) && forall x <- xs :: x < n
    ensures Increasing(xs + [n])
  {
    assert forall i :: 0 <= i < |xs| ==> xs[i] in xs;
  }

  lemma IncreasingTail(xs: seq<nat>)
    requires Increasing(xs) && xs != []
    ensures Increasing(xs[1..])
    ensures forall x <- xs[1..] :: xs[0] < x
    ensures forall x <- xs[1..] :: x in xs
  {
  }

  predicate Requested(s: System) {
    s.live in s.wires && true in s.wires[s.live].down
  }

  /** A connection carries messages in order; older connections carry older messages. */
  ghost predicate WireOk(s: System, c: Connection, w: Wire) {
    && c <= s.live && Increasing(w.up)
    && forall x <- w.up :: x < |Stream(s)| && if c == s.live then s.start <= x else x <= s.start
  }

  /** The record of an agent that is on the connection of the client. */
  ghost predicate LiveOk(s: System, t: Track)
    requires TrackOk(s.client, t)
  {
    && s.start <= t.top
    && (s.live in s.wires ==> forall x <- s.wires[s.live].up :: t.top < x)
    && (forall f :: Claim(s.client, Requested(s), s.start, t, f))
  }

  ghost predicate RecordOk(s: System, e: Entry<Track>) {
    && e.conn <= s.live && TrackOk(s.client, e.data)
    && (e.conn == s.live ==> LiveOk(s, e.data))
  }

  ghost predicate SystemOk(s: System) {
    && ClientOk(s.client) && s.start <= |Stream(s)|
    && (forall c <- s.wires :: WireOk(s, c, s.wires[c]))
    && (forall id <- s.registry.agentsById :: RecordOk(s, s.registry.agentsById[id]))
  }

  lemma WiresKeptByClient(s: System, e: Event, written: bool)
    requires SystemOk(s)
    ensures var s' := Stepped(s, e, written); forall c <- s'.wires :: WireOk(s', c, s'.wires[c])
    ensures Requested(Stepped(s, e, written)) == Requested(s)
  {
    var s' := Stepped(s, e, written);
    PoppedGrows(s.client, e);
    forall c <- s'.wires ensures WireOk(s', c, s'.wires[c]) {
      assert WireOk(s, c, s.wires[c]);
      if c == s.live {
        IncreasingSnoc(s.wires[c].up, |Stream(s)|);
      }
    }
  }

  lemma RecordKeptByClient(s: System, e: Event, written: bool, r: Entry<Track>)
    requires SystemOk(s) && RecordOk(s, r)
    ensures RecordOk(Stepped(s, e, written), r)
  {
    var s' := Stepped(s, e, written);
    TrackKeptByClient(s.client, e, r.data);
    WiresKeptByClient(s, e, written);
    if r.conn == s.live {
      forall f ensures Claim(s'.client, Requested(s'), s'.start, r.data, f) {
        ClaimKeptByClient(s.client, e, Requested(s), s.start, r.data, f);
      }
    }
  }

  lemma ClientStepOk(s: System, e: Event, written: bool)
    requires SystemOk(s)
    ensures SystemOk(Stepped(s, e, written))
  {
    var s' := Stepped(s, e, written);
    ClientOkPreserved(s.client, e);
    PoppedGrows(s.client, e);
    WiresKeptByClient(s, e, written);
    forall id <- s'.registry.agentsById ensures RecordOk(s', s'.registry.agentsById[id]) {
      RecordKeptByClient(s, e, written, s.registry.agentsById[id]);
    }
  }

  // ---- Events of the network and of the server -----------------------------------------------

  lemma DropOk(s: System, c: Connection)
    requires SystemOk(s) && EnabledIn(s, Drop(c))
    ensures SystemOk(NextSystem(s, Drop(c)))
  {
    var s' := NextSystem(s, Drop(c));
    assert WireOk(s, c, s.wires[c]);
    IncreasingTail(s.wires[c].up);
    assert Requested(s') == Requested(s);
    forall d <- s'.wires ensures WireOk(s', d, s'.wires[d]) {
      assert WireOk(s, d, s.wires[d]);
    }
    forall id <- s'.registry.agentsById ensures RecordOk(s', s'.registry.agentsById[id]) {
      assert RecordOk(s, s.registry.agentsById[id]);
    }
  }

  /** No record is on a connection that was just dialed. */
  lemma DialOk(s: System, resend: bool)
    requires SystemOk(s) && EnabledIn(s, Dial(resend))
    ensures SystemOk(Dialed(s, resend))
  {
    var s' := Dialed(s, resend);
    forall d <- s'.wires ensures WireOk(s', d, s'.wires[d]) {
      if d != s'.live { assert WireOk(s, d, s.wires[d]); }
    }
    forall id <- s'.registry.agentsById ensures RecordOk(s', s'.registry.agentsById[id]) {
      assert RecordOk(s, s.registry.agentsById[id]);
    }
  }

  /** Closing a connection removes its records, so it can only lose requests nobody needs. */
  lemma CloseOk(s: System, c: Connection)
    requires SystemOk(s) && EnabledIn(s, Close(c)) && Inverse(s.registry)
    ensures SystemOk(NextSystem(s, Close(c)))
  {
    var s' := NextSystem(s, Close(c));
    RemovalIsExact(s.registry, c);
    assert c != s.live ==> Requested(s') == Requested(s);
    forall d <- s'.wires ensures WireOk(s', d, s'.wires[d]) {
      assert WireOk(s, d, s.wires[d]);
    }
    forall id <- s'.registry.agentsById ensures RecordOk(s', s'.registry.agentsById[id]) {
      assert RecordOk(s, s.registry.agentsById[id]);
      assert s.registry.agentsById[id].conn != c;
    }
  }

  lemma FullReportCopies(captured: Captured)
    ensures forall f | Replicated(f) :: Copy(f) in Program(ReportFullState(captured))
  {
    var p := Program(ReportFullState(captured));
    assert p[2] == Copy(DescriptionField) && p[3] == Copy(HealthField) && p[4] == Copy(RemoteConfigField);
  }

  /** The request that the client takes from the wire becomes a thread that owes every field. */
  lemma HearKeepsClaim(s: System, captured: Captured, t: Track, f: Field)
    requires SystemOk(s) && EnabledIn(s, Hear(captured)) && TrackOk(s.client, t) && LiveOk(s, t)
    ensures var s' := Heard(s, captured);
            TrackOk(s'.client, t) && Claim(s'.client, Requested(s'), s.start, t, f)
  {
    var s' := Heard(s, captured);
    assert Claim(s.client, Requested(s), s.start, t, f);
    if s.wires[s.live].down[0] {
      TrackKeptByClient(s.client, Begin(RECEIVER, ReportFullState(captured)), t);
      if Reporting(t, f) {
        FullReportCopies(captured);
        assert Copy(f) in s'.client.threads[RECEIVER];
        assert Owes(s'.client, f);
      }
    } else {
      assert Requested(s') == Requested(s);
    }
  }

  lemma HearOk(s: System, captured: Captured)
    requires SystemOk(s) && EnabledIn(s, Hear(captured))
    ensures SystemOk(Heard(s, captured))
  {
    var s' := Heard(s, captured);
    var e := Begin(RECEIVER, ReportFullState(captured));
    ClientOkPreserved(s.client, e);
    PoppedGrows(s.client, e);
    forall d <- s'.wires ensures WireOk(s', d, s'.wires[d]) {
      assert WireOk(s, d, s.wires[d]);
    }
    forall id <- s'.registry.agentsById ensures RecordOk(s', s'.registry.agentsById[id]) {
      var r := s.registry.agentsById[id];
      assert RecordOk(s, r);
      TrackKeptByClient(s.client, e, r.data);
      if r.conn == s.live {
        forall f ensures Claim(s'.client, Requested(s'), s'.start, r.data, f) {
          HearKeepsClaim(s, captured, r.data, f);
        }
      }
    }
  }

  /** The record that handles the message. */
  lemma ServedRecordOk(s: System, c: Connection)
    requires SystemOk(s) && EnabledIn(s, Serve(c))
    ensures var s' := Served(s, c);
            var id := Stream(s)[s.wires[c].up[0]].instanceUid;
            id in s'.registry.agentsById && RecordOk(s', s'.registry.agentsById[id])
  {
    var s', i := Served(s, c), s.wires[c].up[0];
    var m := Stream(s)[i];
    var found := Found(s.registry, m.instanceUid, c, NEW_TRACK).agentsById[m.instanceUid];
    var t := found.data;
    assert WireOk(s, c, s.wires[c]);
    assert i in s.wires[c].up;
    IncreasingTail(s.wires[c].up);
    assert m.instanceUid in s.registry.agentsById ==> RecordOk(s, found);
    ProcessedOk(s.client, t, i);
    if found.conn == s.live {
      forall f ensures Claim(s'.client, Requested(s'), s.start, Processed(t, i, m), f) {
        if c == s.live {
          ServedOnLive(s.client, Requested(s), s.start, t, i, f);
          assert Requested(s') == (Requested(s) || AsksFullState(t.status, m));
        } else {
          ServedOnStale(s.client, Requested(s), s.start, t, i, f);
        }
      }
    }
  }

  lemma ServeOk(s: System, c: Connection)
    requires SystemOk(s) && EnabledIn(s, Serve(c))
    ensures SystemOk(Served(s, c))
  {
    var s' := Served(s, c);
    ServedRecordOk(s, c);
    ServedWiresOk(s, c);
    forall id <- s'.registry.agentsById ensures RecordOk(s', s'.registry.agentsById[id]) {
      if id != Stream(s)[s.wires[c].up[0]].instanceUid {
        OtherRecordOk(s, c, s.registry.agentsById[id]);
      }
    }
  }

  lemma ServedWiresOk(s: System, c: Connection)
    requires SystemOk(s) && EnabledIn(s, Serve(c))
    ensures var s' := Served(s, c); forall d <- s'.wires :: WireOk(s', d, s'.wires[d])
    ensures Requested(s) ==> Requested(Served(s, c))
  {
    var s' := Served(s, c);
    IncreasingTail(s.wires[c].up);
    forall d <- s'.wires ensures WireOk(s', d, s'.wires[d]) {
      assert WireOk(s, d, s.wires[d]);
    }
  }

  /** A record that the message is not about. */
  lemma OtherRecordOk(s: System, c: Connection, r: Entry<Track>)
    requires SystemOk(s) && EnabledIn(s, Serve(c)) && RecordOk(s, r)
    ensures RecordOk(Served(s, c), r)
  {
    ServedWiresOk(s, c);
    IncreasingTail(s.wires[c].up);
  }

  // ---- Main results --------------------------------------------------------------------------

  lemma RegistryInverse(s: System, e: SystemEvent)
    requires Inverse(s.registry)
    ensures Inverse(NextSystem(s, e).registry)
  {
    if EnabledIn(s, e) {
      match e
      case Serve(c) =>
        var id := Stream(s)[s.wires[c].up[0]].instanceUid;
        FoundKeepsInverse(s.registry, id, c, NEW_TRACK);
        var r, r' := Found(s.registry, id, c, NEW_TRACK), NextSystem(s, e).registry;
        assert forall d: Connection :: IdsOf(r', d) == IdsOf(r, d);
        assert forall i :: i in r'.agentsById <==> i in r.agentsById;
        assert forall i <- r.agentsById :: r'.agentsById[i].conn == r.agentsById[i].conn;
      case Close(c) => RemovalIsExact(s.registry, c);
      case _ =>
    }
  }

  lemma SystemOkPreserved(s: System, e: SystemEvent)
    requires SystemOk(s) && Inverse(s.registry)
    ensures SystemOk(NextSystem(s, e))
  {
    if EnabledIn(s, e) {
      match e
      case ClientStep(ce, written) => ClientStepOk(s, ce, written);
      case Hear(captured) => HearOk(s, captured);
      case Serve(c) => ServeOk(s, c);
      case Drop(c) => DropOk(s, c);
      case Dial(resend) => DialOk(s, resend);
      case Close(c) => CloseOk(s, c);
    }
  }

  lemma {:induction false} SystemRuns(es: seq<SystemEvent>)
    ensures SystemOk(AfterRun(es)) && Inverse(AfterRun(es).registry)
  {
    if es == [] {
      assert Coherent(NEW_CLIENT, HealthField);
      assert forall f :: Coherent(NEW_CLIENT, f);
    } else {
      SystemRuns(es[..|es| - 1]);
      SystemOkPreserved(AfterRun(es[..|es| - 1]), es[|es| - 1]);
      RegistryInverse(AfterRun(es[..|es| - 1]), es[|es| - 1]);
    }
  }

  /** Main result: in every run, for every agent that the server holds on the client's connection
      and knows to report `f`: the server's copy of `f` is what the messages up to the last
      processed one add up to; or a request for the full state is on its way to the client; or the
      client is about to send `f`, or has sent it later; or a leftover of an older connection came
      in late, so that the next message of this connection will be noticed as out of sequence. */
  lemma CopyIsRightOrHealing(es: seq<SystemEvent>, id: Uid, f: Field)
    requires id in AfterRun(es).registry.agentsById
    requires var s := AfterRun(es); var e := s.registry.agentsById[id];
             e.conn == s.live && Reporting(e.data, f) && !e.data.blind
    ensures var s := AfterRun(es); var t := s.registry.agentsById[id].data;
            && t.status.Some? && t.last < |Stream(s)|
            && (Settled(s.client, t, f) || Requested(s) || Due(s.client, t.last, f) || t.last < t.top)
  {
    var s := AfterRun(es);
    SystemRuns(es);
    assert RecordOk(s, s.registry.agentsById[id]);
    assert Claim(s.client, Requested(s), s.start, s.registry.agentsById[id].data, f);
  }

  /** The newest message is processed, and neither a request nor `f` itself is on its way. */
  ghost predicate NothingOnItsWay(s: System, t: Track, f: Field) {
    && t.last + 1 == |Stream(s)| && !Requested(s)
    && !Owes(s.client, f) && !Carries(s.client.core.out.message.report, f)
    && (f == RemoteConfigField ==> !s.client.log.overlap)
  }

  /** A client that has nothing to send about `f` has sent what it stores. */
  lemma QuietClientIsCoherent(c: Client, f: Field)
    requires Inv(c) && c.log.popped != [] && !Owes(c, f) && !Carries(c.core.out.message.report, f)
    requires f == HealthField || (f == RemoteConfigField && !c.log.overlap)
    ensures Same(Fold(c.log.popped), c.core.stored, f)
  {
    assert Between(c, f) ==> Owes(c, f);
    assert Coherent(c, f);
  }

  /** Main result: once nothing that concerns `f` is on its way, the server's copy of `f` is the
      value that the client stores. */
  lemma QuietSystemIsCoherent(es: seq<SystemEvent>, id: Uid, f: Field)
    requires id in AfterRun(es).registry.agentsById
    requires var s := AfterRun(es); var e := s.registry.agentsById[id];
             e.conn == s.live && Reporting(e.data, f) && !e.data.blind && NothingOnItsWay(s, e.data, f)
    ensures var s := AfterRun(es);
            && s.registry.agentsById[id].data.status.Some?
            && Same(s.registry.agentsById[id].data.status.value.report, s.client.core.stored, f)
  {
    var s := AfterRun(es);
    var t := s.registry.agentsById[id].data;
    SystemRuns(es);
    assert RecordOk(s, s.registry.agentsById[id]);
    CopyIsRightOrHealing(es, id, f);
    assert Stream(s)[..t.last + 1] == Stream(s);
    QuietClientIsCoherent(s.client, f);
  }

  /** Main result: a server that got every message of a run holds, as long as the slot has nothing
      new about `f`, and so right after every pop, the stored description, health and remote config
      status, unless a setter of `f` is between its store and its publish. */
  lemma LosslessLinkIsExact(es: seq<Event>, f: Field)
    requires Replicated(f) && After(es).log.popped != []
    requires !Between(After(es), f) && !Carries(After(es).core.out.message.report, f)
    requires f == RemoteConfigField ==> !After(es).log.overlap
    ensures Same(StatusAfter(After(es).log.popped).value.report, After(es).core.stored, f)
  {
    DeltasRefineFullState(es, f);
    LosslessReplicaIsFold(After(es).log.popped, f);
  }

  /** The same at the moment of a pop, whatever other threads are about to report. */
  lemma LosslessLinkIsExactAtPop(es: seq<Event>, e: Event, f: Field)
    requires Replicated(f) && |After(es + [e]).log.popped| > |After(es).log.popped|
    requires !Between(After(es), f) && (f == RemoteConfigField ==> !After(es).log.overlap)
    ensures Same(StatusAfter(After(es + [e]).log.popped).value.report, After(es).core.stored, f)
  {
    var c, d := After(es), After(es + [e]);
    AfterSnoc(es, e);
    PopMoment(c, e, f);
    LosslessLinkIsExact(es + [e], f);
  }

  /** A pop leaves the slot without the field, and stores nothing. */
  lemma PopMoment(c: Client, e: Event, f: Field)
    requires |Next(c, e).log.popped| > |c.log.popped| && Replicated(f)
    ensures var d := Next(c, e);
            && d.core.stored == c.core.stored && !Carries(d.core.out.message.report, f) && d.log.popped != []
            && Between(d, f) == Between(c, f) && d.log.overlap == c.log.overlap
  {
    PoppedGrows(c, e);
    MoveEffect(c, e.step);
    assert Next(c, e).threads == c.threads;
  }

  lemma {:induction false} ClientRuns(es: seq<Event>)
    ensures ClientOk(After(es))
  {
    if es == [] {
      assert forall f :: Coherent(NEW_CLIENT, f);
    } else {
      ClientRuns(es[..|es| - 1]);
      ClientOkPreserved(After(es[..|es| - 1]), es[|es| - 1]);
    }
  }

  /** While fewer than 2^64 messages were popped, no record is blind. */
  lemma {:induction false} ShortRunsAreNotBlind(es: seq<SystemEvent>)
    requires |Stream(AfterRun(es))| < SEQUENCE_MODULUS
    ensures forall id <- AfterRun(es).registry.agentsById :: !AfterRun(es).registry.agentsById[id].data.blind
  {
    if es != [] {
      var s, e := AfterRun(es[..|es| - 1]), es[|es| - 1];
      StreamGrows(s, e);
      ShortRunsAreNotBlind(es[..|es| - 1]);
      SystemRuns(es[..|es| - 1]);
      if e.Serve? && EnabledIn(s, e) {
        var i := s.wires[e.c].up[0];
        var id := Stream(s)[i].instanceUid;
        if id in s.registry.agentsById {
          assert RecordOk(s, s.registry.agentsById[id]);
          StaysSeeing(s.client, s.registry.agentsById[id].data, i);
        }
      } else if e.Close? && EnabledIn(s, e) {
        RemovalIsExact(s.registry, e.c);
      }
    }
  }

  lemma StaysSeeing(c: Client, t: Track, i: nat)
    requires TrackOk(c, t) && !t.blind && i < |c.log.popped| < SEQUENCE_MODULUS
    requires c.log.popped[i].sequenceNum == i % SEQUENCE_MODULUS
    ensures !Processed(t, i, c.log.popped[i]).blind
  {
    SmallNumbers(t.last, SEQUENCE_MODULUS);
    SmallNumbers(t.last + 1, SEQUENCE_MODULUS);
    SmallNumbers(i, SEQUENCE_MODULUS);
  }

  lemma SmallNumbers(i: nat, n: nat)
    requires i < n
    ensures i % n == i
  {
  }

  lemma StreamGrows(s: System, e: SystemEvent)
    ensures Stream(s) <= Stream(NextSystem(s, e))
  {
    if EnabledIn(s, e) {
      match e
      case ClientStep(ce, written) => PoppedGrows(s.client, ce);
      case Hear(captured) => PoppedGrows(s.client, Begin(RECEIVER, ReportFullState(captured)));
      case _ =>
    }
  }

  lemma StatusNumber(ms: seq<AgentToServer>)
    requires ms != []
    ensures StatusAfter(ms).Some? && StatusAfter(ms).value.sequenceNum == ms[|ms| - 1].sequenceNum
  {
  }

  lemma NumberedNeverAsks(ms: seq<AgentToServer>, i: nat)
    requires i < |ms| && forall k :: 0 <= k < |ms| ==> ms[k].sequenceNum == k % SEQUENCE_MODULUS
    ensures AsksFullState(StatusAfter(ms[..i]), ms[i]) <==> i == 0 && IsCompressed(ms[0].report.capabilities, ms[0])
  {
    if i > 0 {
      StatusNumber(ms[..i]);
      GapIsSeen(i - 1, i, StatusAfter(ms[..i]).value, ms[i]);
    }
  }

  /** Main result: a server that got every message asks for the full state after the first message
      at most, and then exactly if that one left out something. */
  lemma LosslessLinkNeverAsksAgain(es: seq<Event>, i: nat)
    requires i < |After(es).log.popped|
    ensures var ms := After(es).log.popped;
            AsksFullState(StatusAfter(ms[..i]), ms[i]) <==> i == 0 && IsCompressed(ms[0].report.capabilities, ms[0])
  {
    var ms := After(es).log.popped;
    PoppedAreNumbered(es);
    NumberedNeverAsks(ms, i);
  }

  lemma PoppedAreNumbered(es: seq<Event>)
    ensures var ms := After(es).log.popped;
            forall k :: 0 <= k < |ms| ==> ms[k].sequenceNum == k % SEQUENCE_MODULUS
  {
    ClientRuns(es);
  }
}

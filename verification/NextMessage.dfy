/** The slot for the next message to send (client/internal/nextmessage.go). */
module NextMessages {
  import opened Messages

  /** The value of a `NextMessage`.  Notification channels are numbered in the order in which they
      are made; `closed` lists the channels closed so far, in order. */
  datatype Outbox = Outbox(message: AgentToServer, pending: bool, channel: nat, closed: seq<nat>)

  const EMPTY_OUTBOX := Outbox(EMPTY_MESSAGE, false, 0, [])

  /** What is left in the slot once `m` was taken out of it. */
  function Remainder(m: AgentToServer): AgentToServer {
    EMPTY_MESSAGE.(
      instanceUid := m.instanceUid,
      sequenceNum := (m.sequenceNum + 1) % SEQUENCE_MODULUS,
      report := EMPTY_REPORT.(capabilities := m.report.capabilities))
  }

  function Popped(o: Outbox): Outbox {
    if o.pending then
      Outbox(Remainder(o.message), false, o.channel + 1, o.closed + [o.channel])
    else o
  }

  /** Nothing of the report is lost by a pop: what was folded before, with the popped message and
      the new slot on top, is what it was with the old slot on top. */
  lemma PopKeepsOverlay(ms: seq<AgentToServer>, o: Outbox)
    requires o.pending
    ensures Overlay(Fold(ms + [o.message]), Popped(o).message.report) == Overlay(Fold(ms), o.message.report)
  {
    FoldSnoc(ms, o.message);
  }

  class NextMessage {
    var nextMessage: AgentToServer
    var nextMessageSending: nat
    var messagePending: bool
    var closedChannels: seq<nat>

    ghost function View(): Outbox
      reads this
    {
      Outbox(nextMessage, messagePending, nextMessageSending, closedChannels)
    }

    /** The current channel is open, and no channel was closed twice. */
    ghost predicate Valid()
      reads this
    {
      && nextMessageSending !in closedChannels
      && (forall k :: k in closedChannels ==> k < nextMessageSending)
      && (forall i, j :: 0 <= i < j < |closedChannels| ==> closedChannels[i] != closedChannels[j])
    }

    constructor ()
      ensures Valid() && View() == EMPTY_OUTBOX
    {
      nextMessage := EMPTY_MESSAGE;
      nextMessageSending := 0;
      messagePending := false;
      closedChannels := [];
    }

    method Update(modifier: AgentToServer -> AgentToServer) returns (messageSendingChannel: nat)
      requires Valid()
      modifies this
      ensures Valid()
      ensures View() == old(View()).(message := modifier(old(nextMessage)), pending := true)
      ensures messageSendingChannel == View().channel && messageSendingChannel !in closedChannels
    {
      nextMessage := modifier(nextMessage);
      messagePending := true;
      messageSendingChannel := nextMessageSending;
    }

    method PopPending() returns (msgToSend: Option<AgentToServer>)
      requires Valid()
      modifies this
      ensures Valid()
      ensures msgToSend == if old(messagePending) then Some(old(nextMessage)) else None
      ensures View() == Popped(old(View()))
      // Nothing is sent twice: what is left has the uid, the next number and the capabilities only.
      ensures nextMessage == if msgToSend.None? then old(nextMessage) else EMPTY_MESSAGE.(
                instanceUid := msgToSend.value.instanceUid,
                sequenceNum := (msgToSend.value.sequenceNum + 1) % SEQUENCE_MODULUS,
                report := EMPTY_REPORT.(capabilities := msgToSend.value.report.capabilities))
      ensures !messagePending
      ensures closedChannels == old(closedChannels) + if msgToSend.Some? then [old(nextMessageSending)] else []
      ensures msgToSend.Some? ==> old(nextMessageSending) in closedChannels
    {
      msgToSend := None;
      if messagePending {
        msgToSend := Some(nextMessage);
        messagePending := false;
        var sending := nextMessageSending;
        nextMessage := EMPTY_MESSAGE.(
          instanceUid := nextMessage.instanceUid,
          sequenceNum := (nextMessage.sequenceNum + 1) % SEQUENCE_MODULUS,
          report := EMPTY_REPORT.(capabilities := nextMessage.report.capabilities));
        nextMessageSending := nextMessageSending + 1;
        closedChannels := closedChannels + [sending];
      }
    }
  }
}

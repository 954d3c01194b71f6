/**
 * The relay of server.js as an object: the three process-wide tables are its
 * fields, and each webhook or dashboard handler is a method that updates them
 * in place. Outbound `sendMessage` calls and dashboard emits are recorded in
 * two ghost logs. Each method is proved against the functions of module
 * Tables.
 */
module Relay {
  import opened Wrappers
  import opened Webhook
  import opened Tables

  class Hub {
    /** `sessionMap` */
    var sessions: map<string, Session>
    /** `connectedSenders`, in insertion order */
    var connected: seq<string>
    /** `messageHistory` */
    var history: History
    /** every `sendMessage` call so far, in call order */
    ghost var outbox: seq<Outbound>
    /** every `io.emit` so far, in emit order */
    ghost var notices: seq<Notice>

    /** The connected list is a set, and every connected sender has a conversation. */
    ghost predicate Valid()
      reads this
    {
      Distinct(connected) && forall s :: s in connected ==> s in history
    }

    /** The tables as they are when the process starts. */
    constructor ()
      ensures Valid()
      ensures sessions == map[] && connected == [] && history == map[]
      ensures outbox == [] && notices == []
    {
      sessions, connected, history := map[], [], map[];
      outbox, notices := [], [];
    }

    /**
     * POST /webhook. For a page body, every entry whose first event carries a
     * text is accepted in order: its sender is connected, a user entry is
     * pushed, two notices are emitted, and an AI reply is scheduled when the
     * sender's session has AI on. The scheduled replies are returned; each is
     * finished later by CompleteAiReply.
     */
    method ReceiveWebhook(body: Body) returns (reply: Reply, tasks: seq<AiTask>)
      requires Valid()
      requires WellFormed(body)
      modifies this
      ensures Valid()
      ensures reply == PostReply(body)
      ensures sessions == old(sessions) && outbox == old(outbox)
      ensures !IsPage(body) ==>
                connected == old(connected) && history == old(history)
                && notices == old(notices) && tasks == []
      ensures IsPage(body) ==>
                connected == ConnectAll(old(connected), TextEvents(body.entry))
                && history == RecordAll(old(history), TextEvents(body.entry))
                && notices == old(notices) + Notices(old(connected), TextEvents(body.entry))
                && tasks == AiTasks(old(sessions), TextEvents(body.entry))
      ensures IsPage(body) ==>
                old(connected) <= connected
                && forall s :: Lookup(history, s) == Lookup(old(history), s) + UserLines(TextEvents(body.entry), s)
    {
      reply := PostReply(body);
      tasks := [];
      if IsPage(body) {
        var entries := body.entry;
        var i := 0;
        ghost var accepted: seq<TextEvent> := [];
        while i < |entries|
          invariant 0 <= i <= |entries|
          invariant AllReadable(entries[..i]) && accepted == TextEvents(entries[..i])
          invariant Valid()
          invariant sessions == old(sessions) && outbox == old(outbox)
          invariant connected == ConnectAll(old(connected), accepted)
          invariant history == RecordAll(old(history), accepted)
          invariant notices == old(notices) + Notices(old(connected), accepted)
          invariant tasks == AiTasks(old(sessions), accepted)
        {
          TextEventsSnoc(entries, i);
          var scheduled := AcceptEntry(entries[i]);
          tasks := tasks + scheduled;
          ConnectAllAppend(old(connected), accepted, Accepted(entries[i]));
          RecordAllAppend(old(history), accepted, Accepted(entries[i]));
          NoticesAppend(old(connected), accepted, Accepted(entries[i]));
          AiTasksAppend(old(sessions), accepted, Accepted(entries[i]));
          AppendAssoc(old(notices), Notices(old(connected), accepted),
                      Notices(ConnectAll(old(connected), accepted), Accepted(entries[i])));
          accepted := accepted + Accepted(entries[i]);
          i := i + 1;
        }
        assert entries[..i] == entries;
        ConnectAllKeeps(old(connected), TextEvents(entries));
        RecordAllLookup(old(history), TextEvents(entries));
      }
    }

    /**
     * The `forEach` callback of intake for one entry: only its first event is
     * read, and it is accepted when it carries a truthy text.
     */
    method AcceptEntry(entry: Entry) returns (scheduled: seq<AiTask>)
      requires Valid()
      requires Readable(entry)
      modifies this
      ensures Valid()
      ensures sessions == old(sessions) && outbox == old(outbox)
      ensures connected == ConnectAll(old(connected), Accepted(entry))
      ensures history == RecordAll(old(history), Accepted(entry))
      ensures notices == old(notices) + Notices(old(connected), Accepted(entry))
      ensures scheduled == AiTasks(sessions, Accepted(entry))
    {
      var event := entry.messaging[0];
      var senderId := event.sender.value;
      if event.message.Some? && Truthy(event.message.value.text) {
        var text := event.message.value.text.value;
        assert Accepted(entry) == [TextEvent(senderId, text)];
        ghost var single := [TextEvent(senderId, text)];
        assert [] + single == single;
        IntakeSnoc(old(connected), old(history), old(sessions), [], TextEvent(senderId, text));
        assert Notices(old(connected), single)
            == [NewMessage(senderId, text), SenderList(Connect(old(connected), senderId))];
        scheduled := AcceptText(senderId, text);
      } else {
        assert Accepted(entry) == [];
        scheduled := [];
      }
    }

    /**
     * The body of intake for one accepted (sender, text) pair: connect the
     * sender, emit the message and the sender list, push the user entry, and
     * schedule an AI reply when the sender's session has AI on.
     */
    method AcceptText(senderId: string, text: string) returns (scheduled: seq<AiTask>)
      requires Valid()
      modifies this
      ensures Valid()
      ensures connected == Connect(old(connected), senderId)
      ensures notices == old(notices) + [NewMessage(senderId, text), SenderList(connected)]
      ensures history == Push(old(history), senderId, HistoryEntry(User, text))
      ensures scheduled == if Assigned(sessions, senderId)
                           then [AiTask(senderId, sessions[senderId], text)] else []
      ensures sessions == old(sessions) && outbox == old(outbox)
    {
      if senderId !in connected {
        connected := connected + [senderId];
      }
      notices := notices + [NewMessage(senderId, text), SenderList(connected)];
      if senderId !in history {
        history := history[senderId := []];
      }
      history := history[senderId := history[senderId] + [HistoryEntry(User, text)]];
      scheduled := [];
      if senderId in sessions && sessions[senderId].assignToAI {
        scheduled := [AiTask(senderId, sessions[senderId], text)];
      }
    }

    /**
     * The continuation of an AI reply scheduled at intake. A truthy reply is
     * sent with the token of the session captured at intake and pushed as an
     * AI entry; a null or empty reply does nothing. The current sessions are
     * not consulted.
     */
    method CompleteAiReply(task: AiTask, reply: Option<string>)
      requires Valid()
      requires task.sender in history
      modifies this
      ensures Valid()
      ensures sessions == old(sessions) && connected == old(connected) && notices == old(notices)
      ensures Truthy(reply) ==>
                history == Push(old(history), task.sender, HistoryEntry(Ai, reply.value))
                && outbox == old(outbox) + [Outbound(task.sender, reply.value, task.session.fbToken)]
      ensures !Truthy(reply) ==> history == old(history) && outbox == old(outbox)
    {
      if Truthy(reply) {
        outbox := outbox + [Outbound(task.sender, reply.value, task.session.fbToken)];
        history := history[task.sender := history[task.sender] + [HistoryEntry(Ai, reply.value)]];
      }
    }

    /**
     * Dashboard `send`: one outbound message, then one operator entry at the
     * end of that sender's conversation. The sender is not connected by it.
     */
    method Send(senderId: string, message: string, fbToken: string)
      requires Valid()
      modifies this
      ensures Valid()
      ensures outbox == old(outbox) + [Outbound(senderId, message, fbToken)]
      ensures history == Push(old(history), senderId, HistoryEntry(Admin, message))
      ensures sessions == old(sessions) && connected == old(connected) && notices == old(notices)
    {
      outbox := outbox + [Outbound(senderId, message, fbToken)];
      if senderId !in history {
        history := history[senderId := []];
      }
      history := history[senderId := history[senderId] + [HistoryEntry(Admin, message)]];
    }

    /** Dashboard `assignAI`: the sender's whole session record is replaced. */
    method AssignAI(senderId: string, aiKey: string, fbToken: string, assignToAI: bool,
                    systemPrompt: Option<string>)
      requires Valid()
      modifies this
      ensures Valid()
      ensures sessions == old(sessions)[senderId := Session(aiKey, fbToken, assignToAI, systemPrompt)]
      ensures connected == old(connected) && history == old(history)
      ensures outbox == old(outbox) && notices == old(notices)
    {
      sessions := sessions[senderId := Session(aiKey, fbToken, assignToAI, systemPrompt)];
    }

    /**
     * Dashboard `broadcast`: for each connected sender in insertion order, one
     * outbound message and one operator entry.
     */
    method Broadcast(message: string, fbToken: string)
      requires Valid()
      modifies this
      ensures Valid()
      ensures outbox == old(outbox) + BroadcastSends(old(connected), message, fbToken)
      ensures history == PushAll(old(history), old(connected), HistoryEntry(Admin, message))
      ensures forall s :: s in connected ==>
                Lookup(history, s) == Lookup(old(history), s) + [HistoryEntry(Admin, message)]
      ensures forall s :: s !in connected ==> Lookup(history, s) == Lookup(old(history), s)
      ensures sessions == old(sessions) && connected == old(connected) && notices == old(notices)
    {
      var i := 0;
      while i < |connected|
        invariant 0 <= i <= |connected|
        invariant Valid()
        invariant connected == old(connected) && sessions == old(sessions) && notices == old(notices)
        invariant outbox == old(outbox) + BroadcastSends(connected[..i], message, fbToken)
        invariant history == PushAll(old(history), connected[..i], HistoryEntry(Admin, message))
      {
        assert connected[..i + 1][..i] == connected[..i];
        Send(connected[i], message, fbToken);
        i := i + 1;
      }
      assert connected[..i] == connected;
      PushAllLookup(old(history), connected, HistoryEntry(Admin, message));
    }

    /** Dashboard `getHistory`: the stored conversation, or the empty one. */
    method GetHistory(senderId: string) returns (h: seq<HistoryEntry>)
      ensures h == Lookup(history, senderId)
      ensures senderId !in history ==> h == []
    {
      if senderId in history {
        h := history[senderId];
      } else {
        h := [];
      }
    }

    /** The sender list pushed to a dashboard when it connects. */
    method SendersOnConnect() returns (list: seq<string>)
      requires Valid()
      ensures list == connected && Distinct(list)
    {
      list := connected;
    }
  }

  /**
   * A walk through the relay: an operator assigns AI to a sender, the sender
   * writes "hi", and the scheduled AI call fails and then succeeds.
   */
  method AssignedSenderWalkThrough(outcome: Gemini.Response)
  {
    var hub := new Hub();
    hub.AssignAI("U1", "key", "tok", true, Some("be brief"));
    var body := Body(Some("page"), [Entry([Event(Some("U1"), Some(Message(Some("hi"))))])]);
    assert body.entry[..0] == [];
    assert TextEvents(body.entry) == [TextEvent("U1", "hi")];
    var reply, tasks := hub.ReceiveWebhook(body);
    assert reply == Reply(200, "EVENT_RECEIVED");
    assert hub.connected == ["U1"];
    assert hub.history["U1"] == [HistoryEntry(User, "hi")];
    assert tasks == [AiTask("U1", Session("key", "tok", true, Some("be brief")), "hi")];

    // A failed call resolves to null: no entry, no send.
    hub.CompleteAiReply(tasks[0], Gemini.CallResult(Gemini.Failed));
    assert hub.history["U1"] == [HistoryEntry(User, "hi")] && hub.outbox == [];

    // Any parsed answer resolves to a truthy reply, which is sent and recorded.
    var answer := Gemini.CallResult(Gemini.Answered(Some(outcome)));
    hub.CompleteAiReply(tasks[0], answer);
    assert hub.history["U1"] == [HistoryEntry(User, "hi"), HistoryEntry(Ai, answer.value)];
    assert hub.outbox == [Outbound("U1", answer.value, "tok")];
  }

  /**
   * Intake followed by the AI continuations it scheduled, completed in order
   * with whatever the AI calls resolved to: every continuation finds its
   * sender's history, whatever the body and the sessions were.
   */
  method CompleteScheduledReplies(hub: Hub, body: Body, replies: seq<Option<string>>)
    requires hub.Valid() && WellFormed(body)
    modifies hub
  {
    ghost var sessions := hub.sessions;
    var reply, tasks := hub.ReceiveWebhook(body);
    if IsPage(body) {
      var accepted := TextEvents(body.entry);
      AiTasksMatchPairs(sessions, accepted);
      RecordAllLookup(old(hub.history), accepted);
    }
    var j := 0;
    while j < |tasks| && j < |replies|
      invariant hub.Valid()
      invariant forall t :: t in tasks ==> t.sender in hub.history
    {
      hub.CompleteAiReply(tasks[j], replies[j]);
      j := j + 1;
    }
  }

  /**
   * An operator's `send` to a sender that never wrote records the message
   * without connecting the sender; a later broadcast does not reach it.
   */
  method SendToUnknownSender()
  {
    var hub := new Hub();
    hub.Send("U2", "hello", "tok");
    assert hub.history["U2"] == [HistoryEntry(Admin, "hello")];
    assert "U2" !in hub.connected;
    hub.Broadcast("news", "tok");
    assert hub.outbox == [Outbound("U2", "hello", "tok")];
    var h := hub.GetHistory("U2");
    assert h == [HistoryEntry(Admin, "hello")];
    var none := hub.GetHistory("U3");
    assert none == [];
  }

  /** A body that is not a page event, or whose only event carries no text, changes nothing. */
  method IgnoredBodies()
  {
    var hub := new Hub();
    var reply, tasks := hub.ReceiveWebhook(Body(Some("user"), []));
    assert reply == Reply(404, "Not Found") && tasks == [];
    var textless := Body(Some("page"), [Entry([Event(Some("U1"), Some(Message(Some(""))))])]);
    TextlessEntries(textless.entry);
    reply, tasks := hub.ReceiveWebhook(textless);
    assert reply.status == 200 && tasks == [];
    assert hub.connected == [] && hub.history == map[] && hub.notices == [];
  }
}

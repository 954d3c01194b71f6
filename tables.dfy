/**
 * The relay's three in-memory tables of server.js (`sessionMap`,
 * `connectedSenders`, `messageHistory`) as values, with the functions that
 * say what each handler does to them. The class in module Relay is proved
 * against these functions; the properties of the handlers are proved here,
 * once, about the functions.
 */
module Tables {
  import opened Wrappers
  import opened Webhook
  import Gemini

  /** Who wrote a history entry: the platform user, an operator, or the AI. */
  datatype Origin = User | Admin | Ai
  /** `{ from, text }` */
  datatype HistoryEntry = HistoryEntry(from: Origin, text: string)
  /** `messageHistory`: sender to conversation. */
  type History = map<string, seq<HistoryEntry>>

  /** A `sessionMap` record, as an operator's `assignAI` command supplies it. */
  datatype Session = Session(aiKey: string, fbToken: string, assignToAI: bool, systemPrompt: Option<string>)

  /** One `sendMessage(senderId, message, fbToken)` call. */
  datatype Outbound = Outbound(recipient: string, text: string, fbToken: string)

  /** One `io.emit` to the dashboards: a received message, or the sender list. */
  datatype Notice = NewMessage(sender: string, text: string) | SenderList(senders: seq<string>)

  /**
   * An AI reply scheduled at intake: the sender, the session as it was read
   * at that moment, and the user's text.
   */
  datatype AiTask = AiTask(sender: string, session: Session, userText: string) {
    /** The request the scheduled `sendToGemini` call posts. */
    function Request(): Gemini.Request {
      Gemini.BuildRequest(session.systemPrompt, userText)
    }
  }

  /** A JavaScript Set holds each element once; `connectedSenders` as a
      sequence in insertion order has no repeats. */
  predicate Distinct(c: seq<string>) {
    forall i, j :: 0 <= i < j < |c| ==> c[i] != c[j]
  }

  /** `messageHistory.get(s) || []` */
  function Lookup(h: History, s: string): seq<HistoryEntry> {
    if s in h then h[s] else []
  }

  /**
   * "Create the list if absent, then push": `e` is added at the end of `s`'s
   * conversation and every other conversation stays as it was.
   */
  function Push(h: History, s: string, e: HistoryEntry): (r: History)
    ensures r.Keys == h.Keys + {s}
    ensures r[s] == Lookup(h, s) + [e]
    ensures forall t :: t != s ==> Lookup(r, t) == Lookup(h, t)
  {
    h[s := Lookup(h, s) + [e]]
  }

  /** `connectedSenders.add(s)`: no repeat, existing order kept, `s` present afterwards. */
  function Connect(c: seq<string>, s: string): (r: seq<string>)
    ensures c <= r
    ensures Distinct(c) ==> Distinct(r)
    ensures forall t :: t in r <==> t in c || t == s
    ensures s in c ==> r == c
    ensures s !in c ==> |r| == |c| + 1
  {
    if s in c then c else c + [s]
  }

  /** The connected senders after accepting the given pairs in order. */
  function ConnectAll(c: seq<string>, evs: seq<TextEvent>): seq<string> {
    if evs == [] then c
    else Connect(ConnectAll(c, evs[..|evs| - 1]), evs[|evs| - 1].sender)
  }

  /** Intake keeps the connected list a set, keeps its existing order, and
      adds exactly the senders of the accepted pairs. */
  lemma {:induction false} ConnectAllKeeps(c: seq<string>, evs: seq<TextEvent>)
    ensures c <= ConnectAll(c, evs)
    ensures Distinct(c) ==> Distinct(ConnectAll(c, evs))
    ensures forall t :: t in ConnectAll(c, evs) <==> t in c || t in Senders(evs)
  {
    if evs != [] {
      ConnectAllKeeps(c, evs[..|evs| - 1]);
    }
  }

  /** The senders of the given pairs. */
  function Senders(evs: seq<TextEvent>): (r: set<string>)
    ensures forall t :: t in r <==> exists k :: 0 <= k < |evs| && evs[k].sender == t
  {
    if evs == [] then {}
    else
      var n := |evs| - 1;
      var r := Senders(evs[..n]) + {evs[n].sender};
      assert forall t :: t in r ==> exists k :: 0 <= k < |evs| && evs[k].sender == t by {
        forall t | t in r
          ensures exists k :: 0 <= k < |evs| && evs[k].sender == t
        {
          if t != evs[n].sender {
            var k :| 0 <= k < n && evs[..n][k].sender == t;
            assert evs[k].sender == t;
          }
        }
      }
      assert forall t :: (exists k :: 0 <= k < |evs| && evs[k].sender == t) ==> t in r by {
        forall t, k | 0 <= k < |evs| && evs[k].sender == t
          ensures t in r
        {
          if k < n {
            assert evs[..n][k].sender == t;
          }
        }
      }
      r
  }

  /** The history after accepting the given pairs in order: one user entry per pair. */
  function RecordAll(h: History, evs: seq<TextEvent>): History {
    if evs == [] then h
    else
      var n := |evs| - 1;
      Push(RecordAll(h, evs[..n]), evs[n].sender, HistoryEntry(User, evs[n].text))
  }

  /** Sender by sender, intake appends that sender's texts, in order, at the
      end of its conversation (creating it when absent), and nothing else. */
  lemma {:induction false} RecordAllLookup(h: History, evs: seq<TextEvent>)
    ensures RecordAll(h, evs).Keys == h.Keys + Senders(evs)
    ensures forall t :: Lookup(RecordAll(h, evs), t) == Lookup(h, t) + UserLines(evs, t)
  {
    if evs != [] {
      var n := |evs| - 1;
      RecordAllLookup(h, evs[..n]);
      var pre := RecordAll(h, evs[..n]);
      var e := HistoryEntry(User, evs[n].text);
      var r := RecordAll(h, evs);
      assert r == Push(pre, evs[n].sender, e);
      forall t
        ensures Lookup(r, t) == Lookup(h, t) + UserLines(evs, t)
      {
        assert UserLines(evs, t) == UserLines(evs[..n], t) + (if evs[n].sender == t then [e] else []);
        if t == evs[n].sender {
          assert Lookup(r, t) == Lookup(pre, t) + [e];
          AppendAssoc(Lookup(h, t), UserLines(evs[..n], t), [e]);
        } else {
          assert Lookup(r, t) == Lookup(pre, t);
        }
      }
    }
  }

  /** Reference definition, sender by sender: the user entries that the pairs
      from `s` contribute, in order. */
  function UserLines(evs: seq<TextEvent>, s: string): seq<HistoryEntry> {
    if evs == [] then []
    else
      var n := |evs| - 1;
      UserLines(evs[..n], s) + (if evs[n].sender == s then [HistoryEntry(User, evs[n].text)] else [])
  }

  /** A sender that sent none of the pairs gets no entry. */
  lemma {:induction false} UserLinesOfOthers(evs: seq<TextEvent>, s: string)
    requires forall k :: 0 <= k < |evs| ==> evs[k].sender != s
    ensures UserLines(evs, s) == []
  {
    if evs != [] {
      UserLinesOfOthers(evs[..|evs| - 1], s);
    }
  }

  /** A sender that sent exactly one of the pairs gets exactly that one entry. */
  lemma {:induction false} UserLinesOfOne(evs: seq<TextEvent>, j: nat)
    requires j < |evs|
    requires forall k :: 0 <= k < |evs| && k != j ==> evs[k].sender != evs[j].sender
    ensures UserLines(evs, evs[j].sender) == [HistoryEntry(User, evs[j].text)]
  {
    var n := |evs| - 1;
    var s := evs[j].sender;
    if j == n {
      UserLinesOfOthers(evs[..n], s);
    } else {
      UserLinesOfOne(evs[..n], j);
    }
  }

  /** The dashboard notices intake emits: per pair, the message and then the
      sender list as it stands after that pair. */
  function Notices(c: seq<string>, evs: seq<TextEvent>): seq<Notice> {
    if evs == [] then []
    else
      var n := |evs| - 1;
      Notices(c, evs[..n]) + [NewMessage(evs[n].sender, evs[n].text), SenderList(ConnectAll(c, evs))]
  }

  /** `session?.assignToAI`: the sender has a session and it has AI turned on. */
  predicate Assigned(sessions: map<string, Session>, s: string) {
    s in sessions && sessions[s].assignToAI
  }

  /** The AI replies intake schedules: one per pair whose sender is assigned to AI. */
  function AiTasks(sessions: map<string, Session>, evs: seq<TextEvent>): seq<AiTask> {
    if evs == [] then []
    else
      var n := |evs| - 1;
      var s := evs[n].sender;
      AiTasks(sessions, evs[..n])
      + (if Assigned(sessions, s) then [AiTask(s, sessions[s], evs[n].text)] else [])
  }

  /** Every scheduled reply belongs to an assigned sender and carries that
      sender's session as it was at intake; nothing is scheduled exactly when
      no accepted pair comes from an assigned sender. */
  lemma {:induction false} AiTasksScheduled(sessions: map<string, Session>, evs: seq<TextEvent>)
    ensures |AiTasks(sessions, evs)| <= |evs|
    ensures forall j :: 0 <= j < |AiTasks(sessions, evs)| ==>
              var task := AiTasks(sessions, evs)[j];
              Assigned(sessions, task.sender) && task.session == sessions[task.sender]
    ensures AiTasks(sessions, evs) == [] <==> forall k :: 0 <= k < |evs| ==> !Assigned(sessions, evs[k].sender)
  {
    if evs != [] {
      var n := |evs| - 1;
      AiTasksScheduled(sessions, evs[..n]);
      assert (forall k :: 0 <= k < n ==> !Assigned(sessions, evs[..n][k].sender))
         <==> (forall k :: 0 <= k < n ==> !Assigned(sessions, evs[k].sender));
    }
  }

  /** A reply is scheduled for exactly the pairs whose sender is assigned to
      AI: each such pair gets a task with its sender, that sender's session
      and its text, and every task is one of these. */
  lemma {:induction false} AiTasksMatchPairs(sessions: map<string, Session>, evs: seq<TextEvent>)
    ensures forall k :: 0 <= k < |evs| && Assigned(sessions, evs[k].sender) ==>
              AiTask(evs[k].sender, sessions[evs[k].sender], evs[k].text) in AiTasks(sessions, evs)
    ensures forall t :: t in AiTasks(sessions, evs) ==>
              exists k :: 0 <= k < |evs| && Assigned(sessions, evs[k].sender)
                          && t == AiTask(evs[k].sender, sessions[evs[k].sender], evs[k].text)
  {
    if evs != [] {
      var n := |evs| - 1;
      var pre := evs[..n];
      AiTasksMatchPairs(sessions, pre);
      var r := AiTasks(sessions, evs);
      var s := evs[n].sender;
      var last := if Assigned(sessions, s) then [AiTask(s, sessions[s], evs[n].text)] else [];
      assert r == AiTasks(sessions, pre) + last;
      forall k | 0 <= k < |evs| && Assigned(sessions, evs[k].sender)
        ensures AiTask(evs[k].sender, sessions[evs[k].sender], evs[k].text) in r
      {
        if k < n {
          assert pre[k] == evs[k];
        }
      }
      forall t | t in r
        ensures exists k :: 0 <= k < |evs| && Assigned(sessions, evs[k].sender)
                            && t == AiTask(evs[k].sender, sessions[evs[k].sender], evs[k].text)
      {
        if t in AiTasks(sessions, pre) {
          var k :| 0 <= k < n && Assigned(sessions, pre[k].sender)
                   && t == AiTask(pre[k].sender, sessions[pre[k].sender], pre[k].text);
          assert pre[k] == evs[k];
        } else {
          assert t in last;
        }
      }
    }
  }

  /** When every pair comes from an assigned sender, there is one task per pair,
      in order, carrying that pair's sender and text. */
  lemma {:induction false} AiTasksAllAssigned(sessions: map<string, Session>, evs: seq<TextEvent>)
    requires forall k :: 0 <= k < |evs| ==> evs[k].sender in sessions && sessions[evs[k].sender].assignToAI
    ensures |AiTasks(sessions, evs)| == |evs|
    ensures forall k :: 0 <= k < |evs| ==>
              AiTasks(sessions, evs)[k] == AiTask(evs[k].sender, sessions[evs[k].sender], evs[k].text)
  {
    if evs != [] {
      AiTasksAllAssigned(sessions, evs[..|evs| - 1]);
    }
  }

  /** Accepting one more pair extends each of the intake folds by one step. */
  lemma IntakeSnoc(c: seq<string>, h: History, sessions: map<string, Session>,
                   evs: seq<TextEvent>, ev: TextEvent)
    ensures ConnectAll(c, evs + [ev]) == Connect(ConnectAll(c, evs), ev.sender)
    ensures RecordAll(h, evs + [ev]) == Push(RecordAll(h, evs), ev.sender, HistoryEntry(User, ev.text))
    ensures Notices(c, evs + [ev])
         == Notices(c, evs) + [NewMessage(ev.sender, ev.text), SenderList(ConnectAll(c, evs + [ev]))]
    ensures AiTasks(sessions, evs + [ev])
         == AiTasks(sessions, evs)
            + (if Assigned(sessions, ev.sender) then [AiTask(ev.sender, sessions[ev.sender], ev.text)] else [])
  {
    assert (evs + [ev])[..|evs|] == evs;
  }

  /** Accepting `a` and then `b` connects the same senders as accepting `a + b`. */
  lemma {:induction false} ConnectAllAppend(c: seq<string>, a: seq<TextEvent>, b: seq<TextEvent>)
    ensures ConnectAll(c, a + b) == ConnectAll(ConnectAll(c, a), b)
  {
    if b == [] {
      assert a + b == a;
    } else {
      var n := |b| - 1;
      ConnectAllAppend(c, a, b[..n]);
      assert b == b[..n] + [b[n]];
      AppendAssoc(a, b[..n], [b[n]]);
      SnocParts(a + b[..n], b[n]);
      SnocParts(b[..n], b[n]);
    }
  }

  /** Accepting `a` and then `b` records the same history as accepting `a + b`. */
  lemma {:induction false} RecordAllAppend(h: History, a: seq<TextEvent>, b: seq<TextEvent>)
    ensures RecordAll(h, a + b) == RecordAll(RecordAll(h, a), b)
  {
    if b == [] {
      assert a + b == a;
    } else {
      var n := |b| - 1;
      RecordAllAppend(h, a, b[..n]);
      assert b == b[..n] + [b[n]];
      AppendAssoc(a, b[..n], [b[n]]);
      SnocParts(a + b[..n], b[n]);
      SnocParts(b[..n], b[n]);
    }
  }

  /** Accepting `a` and then `b` emits the notices of `a` followed by those of `b`. */
  lemma {:induction false} NoticesAppend(c: seq<string>, a: seq<TextEvent>, b: seq<TextEvent>)
    ensures Notices(c, a + b) == Notices(c, a) + Notices(ConnectAll(c, a), b)
  {
    if b == [] {
      assert a + b == a;
    } else {
      var n := |b| - 1;
      NoticesAppend(c, a, b[..n]);
      assert b == b[..n] + [b[n]];
      AppendAssoc(a, b[..n], [b[n]]);
      SnocParts(a + b[..n], b[n]);
      SnocParts(b[..n], b[n]);
      ConnectAllAppend(c, a, b);
      AppendAssoc(Notices(c, a), Notices(ConnectAll(c, a), b[..n]),
                  [NewMessage(b[n].sender, b[n].text), SenderList(ConnectAll(c, a + b))]);
    }
  }

  /** Accepting `a` and then `b` schedules the replies of `a` followed by those of `b`. */
  lemma {:induction false} AiTasksAppend(sessions: map<string, Session>, a: seq<TextEvent>, b: seq<TextEvent>)
    ensures AiTasks(sessions, a + b) == AiTasks(sessions, a) + AiTasks(sessions, b)
  {
    if b == [] {
      assert a + b == a;
    } else {
      var n := |b| - 1;
      AiTasksAppend(sessions, a, b[..n]);
      assert b == b[..n] + [b[n]];
      AppendAssoc(a, b[..n], [b[n]]);
      SnocParts(a + b[..n], b[n]);
      SnocParts(b[..n], b[n]);
      var last := if Assigned(sessions, b[n].sender) then [AiTask(b[n].sender, sessions[b[n].sender], b[n].text)] else [];
      AppendAssoc(AiTasks(sessions, a), AiTasks(sessions, b[..n]), last);
    }
  }

  /** The sends of a broadcast: one per connected sender. */
  function BroadcastSends(c: seq<string>, message: string, fbToken: string): seq<Outbound> {
    if c == [] then []
    else BroadcastSends(c[..|c| - 1], message, fbToken) + [Outbound(c[|c| - 1], message, fbToken)]
  }

  /** N connected senders give N sends, in the set's order, all with the same text and token. */
  lemma {:induction false} BroadcastSendsAt(c: seq<string>, message: string, fbToken: string)
    ensures |BroadcastSends(c, message, fbToken)| == |c|
    ensures forall i :: 0 <= i < |c| ==> BroadcastSends(c, message, fbToken)[i] == Outbound(c[i], message, fbToken)
  {
    if c != [] {
      BroadcastSendsAt(c[..|c| - 1], message, fbToken);
    }
  }

  /** The history after pushing `e` to each of `ss` in turn. */
  function PushAll(h: History, ss: seq<string>, e: HistoryEntry): History {
    if ss == [] then h
    else Push(PushAll(h, ss[..|ss| - 1], e), ss[|ss| - 1], e)
  }

  /** Pushing to distinct senders gives each exactly one entry, at the end, and
      leaves every other conversation as it was. */
  lemma {:induction false} PushAllLookup(h: History, ss: seq<string>, e: HistoryEntry)
    ensures PushAll(h, ss, e).Keys == h.Keys + (set t | t in ss)
    ensures forall t :: t !in ss ==> Lookup(PushAll(h, ss, e), t) == Lookup(h, t)
    ensures Distinct(ss) ==> forall t :: t in ss ==> Lookup(PushAll(h, ss, e), t) == Lookup(h, t) + [e]
  {
    if ss != [] {
      var n := |ss| - 1;
      PushAllLookup(h, ss[..n], e);
      assert forall t :: t in ss <==> t in ss[..n] || t == ss[n] by {
        assert ss == ss[..n] + [ss[n]];
      }
      assert Distinct(ss) ==> Distinct(ss[..n]) && ss[n] !in ss[..n];
    }
  }
}

/**
 * The `/webhook` endpoint of server.js, apart from the relay tables it
 * updates: the GET verification handshake, the shape of a POSTed body, how
 * the body is normalised into (sender, text) pairs, and the POST's answer.
 */
module Webhook {
  import opened Wrappers

  /** The shared secret the platform must present in the handshake. */
  const VerifyToken: string := "hello"

  /** An HTTP answer; `sendStatus(n)` answers with the status's standard phrase. */
  datatype Reply = Reply(status: int, body: string)

  /**
   * GET /webhook: answers 200 with the challenge when `hub.mode` is truthy and
   * `hub.verify_token` is exactly the secret, 403 otherwise. A function of
   * the three query parameters only, so no relay table can change.
   */
  function Verify(mode: Option<string>, token: Option<string>, challenge: Option<string>): (r: Reply)
    ensures r.status == 200 <==> Truthy(mode) && token == Some(VerifyToken)
    ensures r.status == 200 ==> r.body == challenge.GetOr("")
    ensures r.status != 200 ==> r == Reply(403, "Forbidden")
  {
    if Truthy(mode) && token == Some(VerifyToken) then Reply(200, challenge.GetOr(""))
    else Reply(403, "Forbidden")
  }

  /** `message`: only its `text` is read. */
  datatype Message = Message(text: Option<string>)
  /** One messaging event; `sender` holds `sender.id`. */
  datatype Event = Event(sender: Option<string>, message: Option<Message>)
  /** One entry of the body; only `messaging[0]` is ever read. */
  datatype Entry = Entry(messaging: seq<Event>)
  /** The POSTed JSON body; `kind` is its `object` field. */
  datatype Body = Body(kind: Option<string>, entry: seq<Entry>)

  predicate IsPage(body: Body) {
    body.kind == Some("page")
  }

  /** An entry the handler can read without throwing: a first event with a sender. */
  predicate Readable(e: Entry) {
    |e.messaging| > 0 && e.messaging[0].sender.Some?
  }

  predicate AllReadable(entries: seq<Entry>) {
    forall i :: 0 <= i < |entries| ==> Readable(entries[i])
  }

  /** What the handler needs of a body: every entry of a page body is readable. */
  predicate WellFormed(body: Body) {
    IsPage(body) ==> AllReadable(body.entry)
  }

  /** A text message the handler accepts, normalised. */
  datatype TextEvent = TextEvent(sender: string, text: string)

  /**
   * The pair one entry contributes: one when its first event carries a
   * message with truthy text, none otherwise.
   */
  function Accepted(e: Entry): (r: seq<TextEvent>)
    requires Readable(e)
    ensures |r| <= 1
    ensures |r| == 1 <==> e.messaging[0].message.Some? && Truthy(e.messaging[0].message.value.text)
    ensures |r| == 1 ==> (r[0].sender == e.messaging[0].sender.value
                          && Some(r[0].text) == e.messaging[0].message.value.text)
  {
    var ev := e.messaging[0];
    if ev.message.Some? && Truthy(ev.message.value.text) then
      [TextEvent(ev.sender.value, ev.message.value.text.value)]
    else []
  }

  /** The pairs a list of entries yields, in entry order. */
  function TextEvents(entries: seq<Entry>): (r: seq<TextEvent>)
    requires AllReadable(entries)
    ensures |r| <= |entries|
    ensures forall k :: 0 <= k < |r| ==> r[k].text != ""
  {
    if entries == [] then []
    else TextEvents(entries[..|entries| - 1]) + Accepted(entries[|entries| - 1])
  }

  /** Any run of readable entries is readable. */
  lemma ReadableSlice(entries: seq<Entry>, lo: nat, hi: nat)
    requires AllReadable(entries) && lo <= hi <= |entries|
    ensures AllReadable(entries[lo..hi])
  {
    assert forall k :: 0 <= k < hi - lo ==> entries[lo..hi][k] == entries[lo + k];
  }

  /** The pairs of two lists of entries read one after the other are those
      of the first list followed by those of the second. */
  lemma {:induction false} TextEventsAppend(x: seq<Entry>, y: seq<Entry>)
    requires AllReadable(x) && AllReadable(y)
    ensures AllReadable(x + y)
    ensures TextEvents(x + y) == TextEvents(x) + TextEvents(y)
  {
    assert AllReadable(x + y) by {
      assert forall k :: 0 <= k < |x + y| ==> (x + y)[k] == if k < |x| then x[k] else y[k - |x|];
    }
    if y == [] {
      assert x + y == x;
    } else {
      var m := |y| - 1;
      var ys := y[..m];
      assert AllReadable(ys) by {
        assert forall k :: 0 <= k < m ==> ys[k] == y[k];
      }
      TextEventsAppend(x, ys);
      assert (x + y)[..|x + y| - 1] == x + ys && (x + y)[|x + y| - 1] == y[m];
      AppendAssoc(TextEvents(x), TextEvents(ys), Accepted(y[m]));
    }
  }

  /** Each entry's pair, if any, sits in the body's pairs between the pairs of
      the entries before it and those of the entries after it; so an entry
      whose first event has a truthy text is always accepted. */
  lemma {:induction false} TextEventsAt(entries: seq<Entry>, i: nat)
    requires AllReadable(entries) && i < |entries|
    ensures AllReadable(entries[..i]) && AllReadable(entries[i + 1..])
    ensures TextEvents(entries)
         == TextEvents(entries[..i]) + Accepted(entries[i]) + TextEvents(entries[i + 1..])
    ensures forall p :: p in Accepted(entries[i]) ==> p in TextEvents(entries)
  {
    var before, at, after := entries[..i], [entries[i]], entries[i + 1..];
    ReadableSlice(entries, 0, i);
    ReadableSlice(entries, i + 1, |entries|);
    assert before == entries[0..i] && after == entries[i + 1..|entries|];
    assert entries == (before + at) + after;
    assert at[..0] == [];
    assert TextEvents(at) == Accepted(entries[i]);
    TextEventsAppend(before, at);
    TextEventsAppend(before + at, after);
  }

  /** Reading one more entry adds that entry's pair, if any, at the end. */
  lemma TextEventsSnoc(entries: seq<Entry>, i: nat)
    requires AllReadable(entries) && i < |entries|
    ensures AllReadable(entries[..i]) && AllReadable(entries[..i + 1])
    ensures TextEvents(entries[..i + 1]) == TextEvents(entries[..i]) + Accepted(entries[i])
  {
    assert entries[..i + 1][..i] == entries[..i];
  }

  /** The POST's answer: EVENT_RECEIVED for a page body, 404 for anything else. */
  function PostReply(body: Body): (r: Reply)
    ensures r.status == 200 <==> IsPage(body)
    ensures IsPage(body) ==> r.body == "EVENT_RECEIVED"
    ensures !IsPage(body) ==> r == Reply(404, "Not Found")
  {
    if IsPage(body) then Reply(200, "EVENT_RECEIVED") else Reply(404, "Not Found")
  }

  /** Only the first messaging event of each entry matters: entries that agree
      on it yield the same pairs, whatever else they carry. */
  lemma {:induction false} FirstEventOnly(entries: seq<Entry>, others: seq<Entry>)
    requires AllReadable(entries) && |others| == |entries|
    requires forall i :: 0 <= i < |entries| ==>
               others[i].messaging != [] && others[i].messaging[0] == entries[i].messaging[0]
    ensures AllReadable(others) && TextEvents(others) == TextEvents(entries)
  {
    if entries != [] {
      var n := |entries| - 1;
      FirstEventOnly(entries[..n], others[..n]);
    }
  }

  /** Entries whose first event has no message or a falsy text yield nothing. */
  lemma {:induction false} TextlessEntries(entries: seq<Entry>)
    requires AllReadable(entries)
    requires forall i :: 0 <= i < |entries| ==>
               entries[i].messaging[0].message.None? || !Truthy(entries[i].messaging[0].message.value.text)
    ensures TextEvents(entries) == []
  {
    if entries != [] {
      TextlessEntries(entries[..|entries| - 1]);
    }
  }

  /** Every pair comes from the first event of some entry. */
  lemma {:induction false} TextEventsOrigin(entries: seq<Entry>)
    requires AllReadable(entries)
    ensures forall k :: 0 <= k < |TextEvents(entries)| ==>
              exists i :: 0 <= i < |entries| && TextEvents(entries)[k] in Accepted(entries[i])
  {
    if entries != [] {
      var n := |entries| - 1;
      TextEventsOrigin(entries[..n]);
      var r := TextEvents(entries);
      var pre := TextEvents(entries[..n]);
      assert r == pre + Accepted(entries[n]);
      forall k | 0 <= k < |r|
        ensures exists i :: 0 <= i < |entries| && r[k] in Accepted(entries[i])
      {
        if k < |pre| {
          var i :| 0 <= i < n && pre[k] in Accepted(entries[..n][i]);
          assert r[k] == pre[k];
          assert entries[..n][i] == entries[i];
          assert r[k] in Accepted(entries[i]);
        } else {
          assert r[k] == Accepted(entries[n])[k - |pre|];
          assert r[k] in Accepted(entries[n]);
        }
      }
    } else {
      assert TextEvents(entries) == [];
    }
  }
}

/**
  The voice agent's transcript handling: the two transcription streams (the agent's and
  the local user's) are merged into one list ordered by first receipt time, and every
  merged message whose key "type:firstReceivedTime" has not been seen before by this
  component instance is posted once to the transcript log endpoint.
 */
module Transcripts {
  import opened Sorting

  /** The `type` tag put on a merged message. */
  datatype Role = Agent | User

  /**
    One transcription segment as the media layer delivers it. An absent string is "".
    `alternatives` holds the texts of the segment's recognition alternatives, in order.
   */
  datatype Segment = Segment(
    firstReceivedTime: int,
    text: string,
    alternatives: seq<string>,
    participantIdentity: string)

  /** A segment tagged with the stream it came from. */
  datatype Message = Message(kind: Role, seg: Segment)

  /** The delivery identity of a message: its type and its first receipt time. */
  datatype Key = Key(kind: Role, time: int)

  /** The JSON body of one POST to the transcriptions endpoint. */
  datatype Payload = Payload(room: string, kind: Role, text: string, ts: int, participant: string)

  function ReceivedAt(m: Message): int { m.seg.firstReceivedTime }

  function KeyOf(m: Message): Key { Key(m.kind, m.seg.firstReceivedTime) }

  function PayloadKey(p: Payload): Key { Key(p.kind, p.ts) }

  /** Tags every segment of one stream with its role. */
  function Tag(kind: Role, segs: seq<Segment>): (r: seq<Message>)
    ensures |r| == |segs|
    ensures forall i :: 0 <= i < |segs| ==> r[i] == Message(kind, segs[i])
  {
    if segs == [] then [] else [Message(kind, segs[0])] + Tag(kind, segs[1..])
  }

  /** The agent messages followed by the user messages, before sorting. */
  function Tagged(agent: seq<Segment>, user: seq<Segment>): seq<Message> {
    Tag(Agent, agent) + Tag(User, user)
  }

  /**
    The merge effect: agent segments tagged "agent", then user segments tagged "user",
    stably sorted ascending by first receipt time.
   */
  function Merge(agent: seq<Segment>, user: seq<Segment>): (r: seq<Message>)
    ensures |r| == |agent| + |user|
    ensures multiset(r) == multiset(Tagged(agent, user))
    ensures SortedBy(r, ReceivedAt)
  {
    SortBy(Tagged(agent, user), ReceivedAt)
  }

  /**
    Ties keep their pre-sort order: among messages received at the same time, every agent
    message comes before every user message and each stream keeps its own order.
   */
  lemma MergeStable(agent: seq<Segment>, user: seq<Segment>, t: int)
    ensures WithKey(Merge(agent, user), ReceivedAt, t)
         == WithKey(Tag(Agent, agent), ReceivedAt, t) + WithKey(Tag(User, user), ReceivedAt, t)
  {
    SortStable(Tagged(agent, user), ReceivedAt, t);
    WithKeyAppend(Tag(Agent, agent), Tag(User, user), ReceivedAt, t);
  }

  /** Re-sorting a merged view changes nothing: the merged view is its own fixpoint. */
  lemma MergeResortIsIdentity(agent: seq<Segment>, user: seq<Segment>)
    ensures SortBy(Merge(agent, user), ReceivedAt) == Merge(agent, user)
  {
    SortSortedIsIdentity(Merge(agent, user), ReceivedAt);
  }

  /** An agent segment received at 200 and a user segment received at 100: the user's comes first. */
  lemma MergeOutOfOrderArrival(a: Segment, u: Segment)
    requires a.firstReceivedTime == 200 && u.firstReceivedTime == 100
    ensures Merge([a], [u]) == [Message(User, u), Message(Agent, a)]
  {
    assert Tag(Agent, [a]) == [Message(Agent, a)];
    assert Tag(User, [u]) == [Message(User, u)];
    assert Tagged([a], [u]) == [Message(Agent, a), Message(User, u)];
  }

  /** The text sent for a message: `text`, else the first alternative's text, else "". */
  function FirstText(seg: Segment): string {
    if seg.text != "" then seg.text
    else if |seg.alternatives| > 0 then seg.alternatives[0]
    else ""
  }

  /**
    The participant sent for a message: its own identity, else the local identity for a
    user message and "agent" for an agent message.
   */
  function ParticipantOf(m: Message, localIdentity: string): string {
    if m.seg.participantIdentity != "" then m.seg.participantIdentity
    else if m.kind == User then localIdentity
    else "agent"
  }

  /** The room sent with every payload: the room's name, else "unknown-room". */
  function RoomNameOf(roomName: string): string {
    if roomName != "" then roomName else "unknown-room"
  }

  function ToPayload(m: Message, roomName: string, localIdentity: string): Payload {
    Payload(RoomNameOf(roomName), m.kind, FirstText(m.seg), m.seg.firstReceivedTime,
            ParticipantOf(m, localIdentity))
  }

  /**
    The payloads the send effect builds from `msgs` when `sent` holds the keys already sent:
    one per message whose key is neither in `sent` nor carried by an earlier message of `msgs`.
   */
  function Pending(sent: set<Key>, msgs: seq<Message>, roomName: string, localIdentity: string): seq<Payload>
    decreases |msgs|
  {
    if msgs == [] then []
    else if KeyOf(msgs[0]) in sent then Pending(sent, msgs[1..], roomName, localIdentity)
    else [ToPayload(msgs[0], roomName, localIdentity)]
         + Pending(sent + {KeyOf(msgs[0])}, msgs[1..], roomName, localIdentity)
  }

  /** The set of keys carried by a sequence of messages. */
  function KeySet(msgs: seq<Message>): set<Key> {
    set i | 0 <= i < |msgs| :: KeyOf(msgs[i])
  }

  /** The set of keys carried by a sequence of payloads. */
  function PayloadKeySet(ps: seq<Payload>): set<Key> {
    set i | 0 <= i < |ps| :: PayloadKey(ps[i])
  }

  /** No two payloads carry the same key. */
  ghost predicate DistinctKeys(ps: seq<Payload>) {
    forall i, j :: 0 <= i < j < |ps| ==> PayloadKey(ps[i]) != PayloadKey(ps[j])
  }

  /** `msgs[i]` is the first message of `msgs` with its key. */
  ghost predicate FirstWithKey(msgs: seq<Message>, i: int) {
    0 <= i < |msgs| && forall j :: 0 <= j < i ==> KeyOf(msgs[j]) != KeyOf(msgs[i])
  }

  lemma KeySetCons(m: Message, msgs: seq<Message>)
    ensures KeySet([m] + msgs) == {KeyOf(m)} + KeySet(msgs)
  {
    var s := [m] + msgs;
    forall k | k in KeySet(s) ensures k in {KeyOf(m)} + KeySet(msgs) {
      var i :| 0 <= i < |s| && KeyOf(s[i]) == k;
      if i > 0 { assert s[i] == msgs[i - 1]; }
    }
    forall k | k in KeySet(msgs) ensures k in KeySet(s) {
      var i :| 0 <= i < |msgs| && KeyOf(msgs[i]) == k;
      assert s[i + 1] == msgs[i];
    }
    assert s[0] == m;
  }

  lemma PayloadKeySetAppend(a: seq<Payload>, b: seq<Payload>)
    ensures PayloadKeySet(a + b) == PayloadKeySet(a) + PayloadKeySet(b)
  {
    var s := a + b;
    forall k | k in PayloadKeySet(s) ensures k in PayloadKeySet(a) + PayloadKeySet(b) {
      var i :| 0 <= i < |s| && PayloadKey(s[i]) == k;
      if i >= |a| { assert s[i] == b[i - |a|]; }
    }
    forall k | k in PayloadKeySet(b) ensures k in PayloadKeySet(s) {
      var i :| 0 <= i < |b| && PayloadKey(b[i]) == k;
      assert s[i + |a|] == b[i];
    }
    forall k | k in PayloadKeySet(a) ensures k in PayloadKeySet(s) {
      var i :| 0 <= i < |a| && PayloadKey(a[i]) == k;
      assert s[i] == a[i];
    }
  }

  /**
    The pending payloads carry pairwise distinct keys, none of them already sent, and
    together exactly the keys of `msgs` that were not yet sent.
   */
  lemma {:induction false} PendingKeys(sent: set<Key>, msgs: seq<Message>, roomName: string, localIdentity: string)
    ensures DistinctKeys(Pending(sent, msgs, roomName, localIdentity))
    ensures PayloadKeySet(Pending(sent, msgs, roomName, localIdentity)) == KeySet(msgs) - sent
    decreases |msgs|
  {
    if msgs != [] {
      var m, rest := msgs[0], msgs[1..];
      assert msgs == [m] + rest;
      KeySetCons(m, rest);
      if KeyOf(m) in sent {
        PendingKeys(sent, rest, roomName, localIdentity);
      } else {
        var p := ToPayload(m, roomName, localIdentity);
        var tail := Pending(sent + {KeyOf(m)}, rest, roomName, localIdentity);
        PendingKeys(sent + {KeyOf(m)}, rest, roomName, localIdentity);
        PayloadKeySetAppend([p], tail);
        assert [p][0] == p && PayloadKey(p) == KeyOf(m);
        assert PayloadKeySet([p]) == {KeyOf(m)};
        var r := [p] + tail;
        forall i, j | 0 <= i < j < |r| ensures PayloadKey(r[i]) != PayloadKey(r[j]) {
          assert r[j] == tail[j - 1];
          assert PayloadKey(tail[j - 1]) in PayloadKeySet(tail);
          if i > 0 { assert r[i] == tail[i - 1]; }
        }
      }
    }
  }

  /** Every pending payload is built from the first message with its key, whose key was not sent. */
  lemma {:induction false} PendingSound(sent: set<Key>, msgs: seq<Message>, roomName: string, localIdentity: string, p: Payload)
    requires p in Pending(sent, msgs, roomName, localIdentity)
    ensures exists i :: FirstWithKey(msgs, i) && KeyOf(msgs[i]) !in sent
                        && p == ToPayload(msgs[i], roomName, localIdentity)
    decreases |msgs|
  {
    var m, rest := msgs[0], msgs[1..];
    var sent' := if KeyOf(m) in sent then sent else sent + {KeyOf(m)};
    var tail := Pending(sent', rest, roomName, localIdentity);
    if KeyOf(m) !in sent && p == ToPayload(m, roomName, localIdentity) {
      assert FirstWithKey(msgs, 0);
    } else {
      assert p in tail;
      PendingSound(sent', rest, roomName, localIdentity, p);
      var i :| FirstWithKey(rest, i) && KeyOf(rest[i]) !in sent'
               && p == ToPayload(rest[i], roomName, localIdentity);
      assert msgs[i + 1] == rest[i];
      forall j | 0 <= j < i + 1 ensures KeyOf(msgs[j]) != KeyOf(msgs[i + 1]) {
        if j > 0 {
          assert msgs[j] == rest[j - 1];
        }
      }
      assert FirstWithKey(msgs, i + 1);
    }
  }

  /** The first message with a key that was not sent yields a pending payload. */
  lemma {:induction false} PendingComplete(sent: set<Key>, msgs: seq<Message>, roomName: string, localIdentity: string, i: int)
    requires FirstWithKey(msgs, i) && KeyOf(msgs[i]) !in sent
    ensures ToPayload(msgs[i], roomName, localIdentity) in Pending(sent, msgs, roomName, localIdentity)
    decreases |msgs|
  {
    if i > 0 {
      var m, rest := msgs[0], msgs[1..];
      var sent' := if KeyOf(m) in sent then sent else sent + {KeyOf(m)};
      assert msgs[i] == rest[i - 1];
      assert KeyOf(m) != KeyOf(msgs[i]);
      forall j | 0 <= j < i - 1 ensures KeyOf(rest[j]) != KeyOf(rest[i - 1]) {
        assert rest[j] == msgs[j + 1];
      }
      PendingComplete(sent', rest, roomName, localIdentity, i - 1);
    }
  }

  /**
    A payload is pending exactly when it is built from a message that is the first of
    `msgs` with its key and whose key was not already sent.
   */
  lemma PendingExactly(sent: set<Key>, msgs: seq<Message>, roomName: string, localIdentity: string, p: Payload)
    ensures p in Pending(sent, msgs, roomName, localIdentity)
        <==> exists i :: FirstWithKey(msgs, i) && KeyOf(msgs[i]) !in sent
                         && p == ToPayload(msgs[i], roomName, localIdentity)
  {
    if p in Pending(sent, msgs, roomName, localIdentity) {
      PendingSound(sent, msgs, roomName, localIdentity, p);
    }
    if exists i :: FirstWithKey(msgs, i) && KeyOf(msgs[i]) !in sent
                   && p == ToPayload(msgs[i], roomName, localIdentity) {
      var i :| FirstWithKey(msgs, i) && KeyOf(msgs[i]) !in sent
               && p == ToPayload(msgs[i], roomName, localIdentity);
      PendingComplete(sent, msgs, roomName, localIdentity, i);
    }
  }

  /** Nothing is pending for a message whose key was already sent, whatever its new text. */
  lemma SentKeyIsNeverResent(sent: set<Key>, msgs: seq<Message>, roomName: string, localIdentity: string, k: Key)
    requires k in sent
    ensures forall p :: p in Pending(sent, msgs, roomName, localIdentity) ==> PayloadKey(p) != k
  {
    var ps := Pending(sent, msgs, roomName, localIdentity);
    PendingKeys(sent, msgs, roomName, localIdentity);
    forall p | p in ps ensures PayloadKey(p) != k {
      var i :| 0 <= i < |ps| && ps[i] == p;
      assert PayloadKey(ps[i]) in PayloadKeySet(ps);
    }
  }

  /** Once every key of `msgs` is sent, sending the same messages again builds no payload. */
  lemma ResendBuildsNothing(sent: set<Key>, msgs: seq<Message>, roomName: string, localIdentity: string)
    requires KeySet(msgs) <= sent
    ensures Pending(sent, msgs, roomName, localIdentity) == []
  {
    PendingKeys(sent, msgs, roomName, localIdentity);
  }

  /** One step of the send loop: how the pending payloads of a suffix unfold. */
  lemma PendingStep(sent: set<Key>, msgs: seq<Message>, i: int, roomName: string, localIdentity: string)
    requires 0 <= i < |msgs|
    ensures Pending(sent, msgs[i..], roomName, localIdentity)
         == if KeyOf(msgs[i]) in sent then Pending(sent, msgs[i + 1..], roomName, localIdentity)
            else [ToPayload(msgs[i], roomName, localIdentity)]
                 + Pending(sent + {KeyOf(msgs[i])}, msgs[i + 1..], roomName, localIdentity)
  {
    assert msgs[i..][1..] == msgs[i + 1..];
  }

  lemma KeySetSnoc(msgs: seq<Message>, i: int)
    requires 0 <= i < |msgs|
    ensures KeySet(msgs[..i + 1]) == KeySet(msgs[..i]) + {KeyOf(msgs[i])}
  {
    var a, b := msgs[..i], msgs[..i + 1];
    forall k | k in KeySet(b) ensures k in KeySet(a) + {KeyOf(msgs[i])} {
      var j :| 0 <= j < |b| && KeyOf(b[j]) == k;
      if j < i { assert b[j] == a[j]; }
    }
    forall k | k in KeySet(a) ensures k in KeySet(b) {
      var j :| 0 <= j < |a| && KeyOf(a[j]) == k;
      assert b[j] == a[j];
    }
    assert b[i] == msgs[i];
  }

  /** Appending payloads with distinct keys never posted before keeps every key posted at most once. */
  lemma AppendFreshKeys(posted: seq<Payload>, added: seq<Payload>)
    requires DistinctKeys(posted) && DistinctKeys(added)
    requires PayloadKeySet(posted) !! PayloadKeySet(added)
    ensures DistinctKeys(posted + added)
    ensures PayloadKeySet(posted + added) == PayloadKeySet(posted) + PayloadKeySet(added)
  {
    PayloadKeySetAppend(posted, added);
    var ob := posted + added;
    forall i, j | 0 <= i < j < |ob| ensures PayloadKey(ob[i]) != PayloadKey(ob[j]) {
      if j >= |posted| {
        assert ob[j] == added[j - |posted|];
        assert PayloadKey(ob[j]) in PayloadKeySet(added);
        if i >= |posted| {
          assert ob[i] == added[i - |posted|];
        } else {
          assert PayloadKey(ob[i]) in PayloadKeySet(posted);
        }
      }
    }
  }

  /**
    One mounted voice-agent component: the merged `messages` state, the `sentKeysRef`
    set, and the POSTs issued so far (each an append to `outbox`).
   */
  class TranscriptPipeline {
    var messages: seq<Message>
    var sentKeys: set<Key>
    var outbox: seq<Payload>

    /** Each key is posted at most once, and exactly the posted keys are recorded as sent. */
    ghost predicate Valid()
      reads this
    {
      DistinctKeys(outbox) && sentKeys == PayloadKeySet(outbox)
    }

    /** A fresh component instance: nothing merged, nothing sent. */
    constructor ()
      ensures Valid()
      ensures messages == [] && sentKeys == {} && outbox == []
    {
      messages := [];
      sentKeys := {};
      outbox := [];
    }

    /** The merge effect, fired when either transcription stream changes. */
    method OnTranscriptionsChanged(agent: seq<Segment>, user: seq<Segment>)
      requires Valid()
      modifies this
      ensures Valid()
      ensures messages == Merge(agent, user)
      ensures sentKeys == old(sentKeys) && outbox == old(outbox)
    {
      messages := Merge(agent, user);
    }

    /**
      The send effect, fired when the messages, the room or the local participant change.
      `roomName` and `localIdentity` are "" when absent. Every payload is posted; a failed
      POST is swallowed, so the outcome of a POST changes no state.
     */
    method SendNewMessages(roomName: string, localIdentity: string)
      requires Valid()
      modifies this
      ensures Valid()
      ensures messages == old(messages)
      ensures sentKeys == old(sentKeys) + KeySet(messages)
      ensures outbox == old(outbox) + Pending(old(sentKeys), messages, roomName, localIdentity)
    {
      var toSend := CollectUnsent(roomName, localIdentity);
      PendingKeys(old(sentKeys), messages, roomName, localIdentity);
      AppendFreshKeys(outbox, toSend);
      if |toSend| > 0 {
        PostAll(toSend);
      }
    }

    /** The first loop of the send effect: marks each unseen key as sent and builds its payload. */
    method CollectUnsent(roomName: string, localIdentity: string) returns (toSend: seq<Payload>)
      modifies this`sentKeys
      ensures sentKeys == old(sentKeys) + KeySet(messages)
      ensures toSend == Pending(old(sentKeys), messages, roomName, localIdentity)
    {
      var msgs := messages;
      toSend := [];
      for i := 0 to |msgs|
        invariant sentKeys == old(sentKeys) + KeySet(msgs[..i])
        invariant toSend + Pending(sentKeys, msgs[i..], roomName, localIdentity)
               == Pending(old(sentKeys), msgs, roomName, localIdentity)
      {
        var m := msgs[i];
        PendingStep(sentKeys, msgs, i, roomName, localIdentity);
        KeySetSnoc(msgs, i);
        var key := KeyOf(m);
        if key !in sentKeys {
          sentKeys := sentKeys + {key};
          toSend := toSend + [ToPayload(m, roomName, localIdentity)];
        }
      }
      assert msgs[..|msgs|] == msgs;
      assert msgs[|msgs|..] == [];
    }

    /** The second loop of the send effect: one POST, i.e. one outbox entry, per payload. */
    method PostAll(toSend: seq<Payload>)
      modifies this`outbox
      ensures outbox == old(outbox) + toSend
    {
      for j := 0 to |toSend|
        invariant outbox == old(outbox) + toSend[..j]
      {
        outbox := outbox + [toSend[j]];
        assert toSend[..j + 1] == toSend[..j] + [toSend[j]];
      }
      assert toSend[..|toSend|] == toSend;
    }
  }

  /**
    A user segment received at 100 is first posted as "hel", then revised to "hello":
    exactly one POST is made, carrying "hel".
   */
  method FirstRevisionWins() returns (posts: seq<Payload>)
    ensures posts == [Payload("unknown-room", User, "hel", 100, "visitor")]
  {
    var c := new TranscriptPipeline();
    c.OnTranscriptionsChanged([], [Segment(100, "hel", [], "")]);
    c.SendNewMessages("", "visitor");
    assert c.messages == [Message(User, Segment(100, "hel", [], ""))];
    c.OnTranscriptionsChanged([], [Segment(100, "hello", [], "")]);
    c.SendNewMessages("", "visitor");
    assert c.messages == [Message(User, Segment(100, "hello", [], ""))];
    posts := c.outbox;
  }

  /**
    A new component instance (a new session) starts with an empty sent-key set, so a
    segment whose key was sent by the previous instance is posted again.
   */
  method NewSessionResends() returns (first: seq<Payload>, second: seq<Payload>)
    ensures first == second == [Payload("room-1", Agent, "hi", 7, "agent")]
  {
    var seg := Segment(7, "hi", [], "");
    var a := new TranscriptPipeline();
    a.OnTranscriptionsChanged([seg], []);
    a.SendNewMessages("room-1", "");
    assert a.messages == [Message(Agent, seg)];
    first := a.outbox;
    var b := new TranscriptPipeline();
    b.OnTranscriptionsChanged([seg], []);
    b.SendNewMessages("room-1", "");
    assert b.messages == [Message(Agent, seg)];
    second := b.outbox;
  }
}

/**
 Messages and their threads: sending and reading (blueprints/api.py), the inbox
 and the active pane (services/messagerie.py).
 */
module Messaging {
  import opened Wrappers
  import opened Sums

  type Id = nat

  /** A row of `messages`; `at` is its `created_at`. */
  datatype Message = Message(thread: Id, sender: Id, recipient: Id, at: int, read: bool)

  function Pair(m: Message): set<Id> {
    {m.sender, m.recipient}
  }

  predicate TakesPart(m: Message, viewer: Id) {
    m.sender == viewer || m.recipient == viewer
  }

  function Counterpart(m: Message, viewer: Id): Id {
    if m.sender == viewer then m.recipient else m.sender
  }

  // --- Sending and reading ------------------------------------------------------

  /** The threads an unordered lookup for this pair may return. */
  function ThreadsOf(ms: seq<Message>, pair: set<Id>): set<Id> {
    set i | 0 <= i < |ms| && Pair(ms[i]) == pair :: ms[i].thread
  }

  function AllThreads(ms: seq<Message>): set<Id> {
    set i | 0 <= i < |ms| :: ms[i].thread
  }

  /** What `send_message` may do: the row it adds goes to a thread the lookup found, or to the new one. */
  ghost predicate Sent(before: seq<Message>, after: seq<Message>, sender: Id, recipient: Id, at: int, newThread: Id) {
    exists thread ::
      && after == before + [Message(thread, sender, recipient, at, false)]
      && (thread in ThreadsOf(before, {sender, recipient})
          || (ThreadsOf(before, {sender, recipient}) == {} && thread == newThread))
  }

  predicate ToRead(m: Message, viewer: Id, thread: Id) {
    m.thread == thread && m.recipient == viewer && !m.read
  }

  /** The bulk update of `get_messages`. */
  function MarkedRead(ms: seq<Message>, viewer: Id, thread: Id): seq<Message> {
    seq(|ms|, i requires 0 <= i < |ms| => if ToRead(ms[i], viewer, thread) then ms[i].(read := true) else ms[i])
  }

  datatype Event =
    | Send(sender: Id, recipient: Id, at: int, newThread: Id)
    | Open(viewer: Id, thread: Id)

  ghost predicate Step(before: seq<Message>, e: Event, after: seq<Message>) {
    match e
    case Send(sender, recipient, at, newThread) => Sent(before, after, sender, recipient, at, newThread)
    case Open(viewer, thread) => after == MarkedRead(before, viewer, thread)
  }

  /** `uuid4` never draws a thread in use. */
  ghost predicate Fresh(ms: seq<Message>, e: Event) {
    e.Send? ==> e.newThread !in AllThreads(ms)
  }

  /** A run: `states[k]` is the table after the first k events. */
  ghost predicate Run(states: seq<seq<Message>>, es: seq<Event>) {
    && |states| == |es| + 1 && states[0] == []
    && forall k :: 0 <= k < |es| ==> Fresh(states[k], es[k]) && Step(states[k], es[k], states[k + 1])
  }

  // --- Threads are pairs ----------------------------------------------------------

  /** All messages of a pair share one thread, and a thread has one pair. */
  ghost predicate ThreadsArePairs(ms: seq<Message>) {
    forall i, j :: 0 <= i < |ms| && 0 <= j < |ms| ==>
      (ms[i].thread == ms[j].thread <==> Pair(ms[i]) == Pair(ms[j]))
  }

  lemma SendKeepsPairs(before: seq<Message>, after: seq<Message>, sender: Id, recipient: Id, at: int, newThread: Id)
    requires ThreadsArePairs(before) && newThread !in AllThreads(before)
    requires Sent(before, after, sender, recipient, at, newThread)
    ensures ThreadsArePairs(after)
  {
    var thread :| after == before + [Message(thread, sender, recipient, at, false)]
                  && (thread in ThreadsOf(before, {sender, recipient})
                      || (ThreadsOf(before, {sender, recipient}) == {} && thread == newThread));
    forall i | 0 <= i < |before|
      ensures before[i].thread == thread <==> Pair(before[i]) == {sender, recipient}
    {
      assert before[i].thread in AllThreads(before);
      assert Pair(before[i]) == {sender, recipient} ==> before[i].thread in ThreadsOf(before, {sender, recipient});
    }
  }

  /** Any number of messages between any users: pairs and threads stay one to one. */
  lemma {:induction false} EveryRunKeepsPairs(states: seq<seq<Message>>, es: seq<Event>, k: nat)
    requires Run(states, es) && k <= |es|
    ensures ThreadsArePairs(states[k])
  {
    if k != 0 {
      EveryRunKeepsPairs(states, es, k - 1);
      var before, e := states[k - 1], es[k - 1];
      assert Fresh(before, e) && Step(before, e, states[k]);
      match e
      case Send(sender, recipient, at, newThread) =>
        SendKeepsPairs(before, states[k], sender, recipient, at, newThread);
      case Open(viewer, thread) =>
        forall i | 0 <= i < |before|
          ensures Pair(states[k][i]) == Pair(before[i]) && states[k][i].thread == before[i].thread
        {
        }
    }
  }

  /** Without a new thread id two pairs can end up in one thread: exactly when the id is in use. */
  lemma FreshIdMattersIff(before: seq<Message>, sender: Id, recipient: Id, at: int, newThread: Id)
    requires ThreadsArePairs(before) && ThreadsOf(before, {sender, recipient}) == {}
    ensures ThreadsArePairs(before + [Message(newThread, sender, recipient, at, false)])
        <==> newThread !in AllThreads(before)
  {
    var after := before + [Message(newThread, sender, recipient, at, false)];
    if newThread in AllThreads(before) {
      var i :| 0 <= i < |before| && before[i].thread == newThread;
      assert before[i].thread in ThreadsOf(before, Pair(before[i]));
      assert after[i].thread == after[|before|].thread;
    } else {
      assert Sent(before, after, sender, recipient, at, newThread);
      SendKeepsPairs(before, after, sender, recipient, at, newThread);
    }
  }

  // --- Unread counts ---------------------------------------------------------------

  /** The unread messages addressed to the viewer. */
  function UnreadOf(ms: seq<Message>, viewer: Id): set<nat> {
    set i: nat | 0 <= i < |ms| && ms[i].recipient == viewer && !ms[i].read
  }

  function UnreadIn(ms: seq<Message>, viewer: Id, thread: Id): set<nat> {
    set i: nat | 0 <= i < |ms| && ToRead(ms[i], viewer, thread)
  }

  /** Opening a thread reads all of it, and nothing else. */
  lemma OpeningReadsTheThread(ms: seq<Message>, viewer: Id, thread: Id, other: Id)
    ensures var after := MarkedRead(ms, viewer, thread);
            && UnreadIn(after, viewer, thread) == {}
            && (other != thread ==> UnreadIn(after, viewer, other) == UnreadIn(ms, viewer, other))
            && UnreadOf(after, viewer) == UnreadOf(ms, viewer) - UnreadIn(ms, viewer, thread)
            && (forall user :: user != viewer ==> UnreadOf(after, user) == UnreadOf(ms, user))
  {
    var after := MarkedRead(ms, viewer, thread);
    forall user, i: nat | user != viewer ensures i in UnreadOf(after, user) <==> i in UnreadOf(ms, user) {
    }
  }

  /**
   A message sent is the recipient's to read and no one else's, shows both
   sides to each other, carries its time, and leaves every older message as it is.
   */
  lemma SendingIsSeen(before: seq<Message>, after: seq<Message>, sender: Id, recipient: Id, at: int, newThread: Id)
    requires Sent(before, after, sender, recipient, at, newThread)
    ensures before <= after && |after| == |before| + 1
    ensures UnreadOf(after, recipient) == UnreadOf(before, recipient) + {|before|}
    ensures forall user :: user != recipient ==> UnreadOf(after, user) == UnreadOf(before, user)
    ensures var m := after[|before|];
            && Counterpart(m, recipient) == sender && Counterpart(m, sender) == recipient && m.at == at
            && (forall user :: |before| in MessagesIn(after, user, m.thread) <==> user == sender || user == recipient)
  {
  }

  // --- The inbox ------------------------------------------------------------------

  datatype Row = Row(thread: Id, other: Id, lastAt: int, unread: nat)

  /** The threads the viewer takes part in. */
  function ThreadsSeen(ms: seq<Message>, viewer: Id): set<Id> {
    set i | 0 <= i < |ms| && TakesPart(ms[i], viewer) :: ms[i].thread
  }

  /** The viewer's messages of one thread. */
  function MessagesIn(ms: seq<Message>, viewer: Id, thread: Id): set<nat> {
    set i: nat | 0 <= i < |ms| && TakesPart(ms[i], viewer) && ms[i].thread == thread
  }

  ghost predicate Latest(ms: seq<Message>, viewer: Id, thread: Id, i: nat) {
    i in MessagesIn(ms, viewer, thread) && forall j :: j in MessagesIn(ms, viewer, thread) ==> ms[j].at <= ms[i].at
  }

  /** A row of the inbox shows a thread's last message, its counterpart and its unread count. */
  ghost predicate RowOk(ms: seq<Message>, viewer: Id, r: Row) {
    && (exists i: nat ::
          Latest(ms, viewer, r.thread, i) && r.lastAt == ms[i].at && r.other == Counterpart(ms[i], viewer))
    && r.unread == |UnreadIn(ms, viewer, r.thread)|
  }

  predicate Newer(a: Row, b: Row) {
    a.lastAt >= b.lastAt
  }

  ghost predicate Sorted(rows: seq<Row>) {
    forall i, j :: 0 <= i < j < |rows| ==> Newer(rows[i], rows[j])
  }

  ghost predicate OneRowEach(rows: seq<Row>) {
    forall i, j :: 0 <= i < j < |rows| ==> rows[i].thread != rows[j].thread
  }

  /** One row per thread of `threads`, newest first. */
  ghost predicate Lists(ms: seq<Message>, viewer: Id, threads: set<Id>, rows: seq<Row>) {
    && OneRowEach(rows) && Sorted(rows)
    && (forall i :: 0 <= i < |rows| ==> rows[i].thread in threads && RowOk(ms, viewer, rows[i]))
    && (forall t :: t in threads ==> HasRow(rows, t))
  }

  ghost predicate InboxOf(ms: seq<Message>, viewer: Id, rows: seq<Row>) {
    Lists(ms, viewer, ThreadsSeen(ms, viewer), rows)
  }

  predicate HasRow(rows: seq<Row>, thread: Id) {
    exists i :: 0 <= i < |rows| && rows[i].thread == thread
  }

  /** Where a row goes among sorted rows. */
  function Place(r: Row, rows: seq<Row>): (k: nat)
    requires Sorted(rows)
    ensures k <= |rows|
    ensures forall i :: 0 <= i < k ==> !Newer(r, rows[i])
    ensures forall i :: k <= i < |rows| ==> Newer(r, rows[i])
  {
    if rows == [] || Newer(r, rows[0]) then 0 else 1 + Place(r, rows[1..])
  }

  function Insert(r: Row, rows: seq<Row>): seq<Row>
    requires Sorted(rows)
  {
    var k := Place(r, rows);
    rows[..k] + [r] + rows[k..]
  }

  /** A message later than all the others puts its thread on top of both inboxes, with its time and the other side. */
  lemma NewestOnTop(before: seq<Message>, after: seq<Message>, sender: Id, recipient: Id, at: int, newThread: Id,
                    viewer: Id, rows: seq<Row>)
    requires Sent(before, after, sender, recipient, at, newThread)
    requires forall i :: 0 <= i < |before| ==> before[i].at < at
    requires (viewer == sender || viewer == recipient) && InboxOf(after, viewer, rows)
    ensures |rows| > 0 && rows[0].thread == after[|before|].thread && rows[0].lastAt == at
    ensures rows[0].other == if viewer == sender then recipient else sender
  {
    var n := |before|;
    SendingIsSeen(before, after, sender, recipient, at, newThread);
    assert forall i :: 0 <= i < n ==> after[i] == before[i];
    var thread := after[n].thread;
    assert n in MessagesIn(after, viewer, thread);
    SeenHasMessages(after, viewer, thread);
    assert HasRow(rows, thread);
    var k: nat :| k < |rows| && rows[k].thread == thread;
    LastIsNewest(after, viewer, rows[k], n);
    assert rows[0].lastAt >= at by {
      if k > 0 {
        assert Newer(rows[0], rows[k]);
      }
    }
    var i: nat :| Latest(after, viewer, rows[0].thread, i)
                  && rows[0].lastAt == after[i].at && rows[0].other == Counterpart(after[i], viewer);
    assert i == n;
  }

  /** A row shows a time no earlier than any message of its thread. */
  lemma LastIsNewest(ms: seq<Message>, viewer: Id, r: Row, n: nat)
    requires RowOk(ms, viewer, r) && n in MessagesIn(ms, viewer, r.thread)
    ensures r.lastAt >= ms[n].at
  {
  }

  /** Under the one-to-one rule the inbox has one row per person. */
  lemma OneRowPerPerson(ms: seq<Message>, viewer: Id, rows: seq<Row>, i: nat, j: nat)
    requires ThreadsArePairs(ms) && InboxOf(ms, viewer, rows) && i < j < |rows|
    ensures rows[i].other != rows[j].other
  {
    var a: nat :| Latest(ms, viewer, rows[i].thread, a) && rows[i].other == Counterpart(ms[a], viewer);
    var b: nat :| Latest(ms, viewer, rows[j].thread, b) && rows[j].other == Counterpart(ms[b], viewer);
    assert Pair(ms[a]) == {viewer, rows[i].other} && Pair(ms[b]) == {viewer, rows[j].other};
  }

  function SumUnread(rows: seq<Row>): nat {
    if rows == [] then 0 else SumUnread(rows[..|rows| - 1]) + rows[|rows| - 1].unread
  }

  ghost function ThreadAt(ms: seq<Message>): nat -> nat {
    (i: nat) => if i < |ms| then ms[i].thread else 0
  }

  ghost function One(): nat -> int {
    (i: nat) => 1
  }

  lemma {:induction false} CountIsSum(keys: set<nat>)
    ensures SumOver(keys, One()) == |keys|
  {
    if keys != {} {
      var k :| k in keys;
      SumOverTake(keys, One(), k);
      CountIsSum(keys - {k});
    }
  }

  function ThreadsIn(rows: seq<Row>): set<Id> {
    set i | 0 <= i < |rows| :: rows[i].thread
  }

  lemma OneThreadLess(rows: seq<Row>)
    requires OneRowEach(rows) && rows != []
    ensures var last := rows[|rows| - 1];
            last.thread in ThreadsIn(rows) && ThreadsIn(rows) - {last.thread} == ThreadsIn(rows[..|rows| - 1])
  {
    var front, last := rows[..|rows| - 1], rows[|rows| - 1];
    forall t | t in ThreadsIn(rows) - {last.thread} ensures t in ThreadsIn(front) {
      var i: nat :| i < |rows| && rows[i].thread == t;
      assert front[i].thread == t;
    }
    forall t | t in ThreadsIn(front) ensures t in ThreadsIn(rows) && t != last.thread {
      var i: nat :| i < |front| && front[i].thread == t;
      assert rows[i].thread == t;
    }
  }

  lemma {:induction false} RowsSumOverThreads(ms: seq<Message>, viewer: Id, rows: seq<Row>)
    requires OneRowEach(rows)
    requires forall i :: 0 <= i < |rows| ==> rows[i].unread == |UnreadIn(ms, viewer, rows[i].thread)|
    ensures SumUnread(rows) == SumOver(ThreadsIn(rows), PartOf(UnreadOf(ms, viewer), ThreadAt(ms), One()))
  {
    if rows != [] {
      var front, last := rows[..|rows| - 1], rows[|rows| - 1];
      RowsSumOverThreads(ms, viewer, front);
      var part := PartOf(UnreadOf(ms, viewer), ThreadAt(ms), One());
      assert Owned(UnreadOf(ms, viewer), ThreadAt(ms), last.thread) == UnreadIn(ms, viewer, last.thread);
      CountIsSum(UnreadIn(ms, viewer, last.thread));
      OneThreadLess(rows);
      SumOverTake(ThreadsIn(rows), part, last.thread);
    }
  }

  /** The unread badges of the inbox add up to all unread messages addressed to the viewer. */
  lemma BadgesAddUp(ms: seq<Message>, viewer: Id, rows: seq<Row>)
    requires InboxOf(ms, viewer, rows)
    ensures SumUnread(rows) == |UnreadOf(ms, viewer)|
  {
    var unread := UnreadOf(ms, viewer);
    RowsSumOverThreads(ms, viewer, rows);
    forall i | i in unread ensures ThreadAt(ms)(i) in ThreadsIn(rows) {
      assert ms[i].thread in ThreadsSeen(ms, viewer);
      assert HasRow(rows, ms[i].thread);
    }
    SumByOwnerConserves(ThreadsIn(rows), unread, ThreadAt(ms), One());
    CountIsSum(unread);
  }

  /** The messages table. */
  class Mailbox {
    var messages: seq<Message>

    constructor ()
      ensures messages == []
    {
      messages := [];
    }

    /** send_message, past its checks on the recipient: `gate` is their outcome. */
    method SendMessage(sender: Id, recipient: Id, at: int, newThread: Id, gate: bool) returns (thread: Option<Id>)
      modifies this
      ensures gate ==> Sent(old(messages), messages, sender, recipient, at, newThread)
                       && thread == Some(messages[|messages| - 1].thread)
      ensures !gate ==> thread == None && messages == old(messages)
    {
      var existing := ThreadsOf(messages, {sender, recipient});
      var chosen := newThread;
      if existing != {} {
        chosen :| chosen in existing;
      }
      if !gate {
        return None;
      }
      messages := messages + [Message(chosen, sender, recipient, at, false)];
      thread := Some(chosen);
    }

    /** get_messages: the update that marks a thread read, row by row. */
    method OpenThread(viewer: Id, thread: Id)
      modifies this
      ensures messages == MarkedRead(old(messages), viewer, thread)
    {
      for i := 0 to |messages|
        invariant |messages| == |old(messages)|
        invariant messages[..i] == MarkedRead(old(messages), viewer, thread)[..i]
        invariant messages[i..] == old(messages)[i..]
      {
        if ToRead(messages[i], viewer, thread) {
          messages := messages[i := messages[i].(read := true)];
        }
      }
    }

    /** threads_for_viewer */
    method ThreadsForViewer(viewer: Id) returns (rows: seq<Row>)
      ensures InboxOf(messages, viewer, rows)
    {
      rows := [];
      var seen := ThreadsSeen(messages, viewer);
      var todo := seen;
      while todo != {}
        invariant todo <= seen
        invariant Lists(messages, viewer, seen - todo, rows)
      {
        var thread :| thread in todo;
        var row := ThreadRow(viewer, thread);
        RowIsListed(messages, viewer, seen - todo, rows, row);
        assert seen - (todo - {thread}) == seen - todo + {thread};
        rows := Insert(row, rows);
        todo := todo - {thread};
      }
      assert seen - todo == seen;
    }

    /** _summarise_thread */
    method ThreadRow(viewer: Id, thread: Id) returns (row: Row)
      requires thread in ThreadsSeen(messages, viewer)
      ensures row.thread == thread && RowOk(messages, viewer, row)
    {
      var last := LastMessage(viewer, thread);
      row := Row(thread, Counterpart(messages[last], viewer), messages[last].at, |UnreadIn(messages, viewer, thread)|);
    }

    /** One group of DISTINCT ON: a newest message of the thread. */
    method LastMessage(viewer: Id, thread: Id) returns (last: nat)
      requires thread in ThreadsSeen(messages, viewer)
      ensures Latest(messages, viewer, thread, last)
    {
      var mine := MessagesIn(messages, viewer, thread);
      SeenHasMessages(messages, viewer, thread);
      var first :| first in mine;
      last := first;
      var todo := mine;
      while todo != {}
        invariant todo <= mine && last in mine
        invariant forall j :: j in mine - todo ==> messages[j].at <= messages[last].at
      {
        var j :| j in todo;
        if messages[j].at > messages[last].at {
          last := j;
        }
        todo := todo - {j};
      }
    }

    /** active_thread_context: whichever row the query returns. */
    method ActiveThread(viewer: Id, thread: Id) returns (other: Option<Id>)
      ensures other.Some? <==> thread in ThreadsSeen(messages, viewer)
      ensures ThreadsArePairs(messages) && other.Some? ==>
                forall i :: 0 <= i < |messages| && messages[i].thread == thread ==>
                    Pair(messages[i]) == {viewer, other.value}
    {
      var mine := MessagesIn(messages, viewer, thread);
      SeenHasMessages(messages, viewer, thread);
      if mine == {} {
        return None;
      }
      var first :| first in mine;
      other := Some(Counterpart(messages[first], viewer));
      assert Pair(messages[first]) == {viewer, other.value};
    }
  }

  /** A thread shown twice, whatever rows the database picks, shows the same counterpart. */
  lemma CounterpartIsFixed(ms: seq<Message>, viewer: Id, thread: Id, i: nat, j: nat)
    requires ThreadsArePairs(ms) && i in MessagesIn(ms, viewer, thread) && j in MessagesIn(ms, viewer, thread)
    ensures Counterpart(ms[i], viewer) == Counterpart(ms[j], viewer)
  {
    var a, b := Counterpart(ms[i], viewer), Counterpart(ms[j], viewer);
    assert Pair(ms[i]) == {viewer, a} && Pair(ms[j]) == {viewer, b};
    assert a in {viewer, b} && b in {viewer, a};
  }

  lemma SeenHasMessages(ms: seq<Message>, viewer: Id, thread: Id)
    ensures thread in ThreadsSeen(ms, viewer) <==> MessagesIn(ms, viewer, thread) != {}
  {
    if thread in ThreadsSeen(ms, viewer) {
      var i: nat :| i < |ms| && TakesPart(ms[i], viewer) && ms[i].thread == thread;
      assert i in MessagesIn(ms, viewer, thread);
    }
  }

  lemma RowIsListed(ms: seq<Message>, viewer: Id, threads: set<Id>, rows: seq<Row>, row: Row)
    requires Lists(ms, viewer, threads, rows) && row.thread !in threads && RowOk(ms, viewer, row)
    ensures Lists(ms, viewer, threads + {row.thread}, Insert(row, rows))
  {
    hide RowOk;
    var k, out := Place(row, rows), Insert(row, rows);
    InsertedRows(row, rows, k, out);
    hide Insert, Place;
    forall t | t in threads + {row.thread} ensures HasRow(out, t) {
      StillHasRow(row, rows, k, out, t);
    }
  }

  lemma StillHasRow(row: Row, rows: seq<Row>, k: nat, out: seq<Row>, t: Id)
    requires k < |out| == |rows| + 1 && out[k] == row
    requires forall i :: 0 <= i < |rows| ==> rows[i] == out[if i < k then i else i + 1]
    requires t == row.thread || HasRow(rows, t)
    ensures HasRow(out, t)
  {
    if t == row.thread {
      assert out[k].thread == t;
    } else {
      var i: nat :| i < |rows| && rows[i].thread == t;
      assert out[if i < k then i else i + 1].thread == t;
    }
  }

  /** Where the old rows are once `row` stands at k. */
  lemma InsertedAt(row: Row, rows: seq<Row>, k: nat, out: seq<Row>)
    requires k <= |rows| && out == rows[..k] + [row] + rows[k..]
    ensures |out| == |rows| + 1 && out[k] == row
    ensures forall i :: 0 <= i < |rows| ==> rows[i] == out[if i < k then i else i + 1]
    ensures forall i :: 0 <= i < |out| && i != k ==> out[i] == rows[if i < k then i else i - 1]
  {
    forall i | 0 <= i < |rows| ensures rows[i] == out[if i < k then i else i + 1] {
      assert i >= k ==> out[i + 1] == rows[k..][i - k];
    }
  }

  lemma InsertedRows(row: Row, rows: seq<Row>, k: nat, out: seq<Row>)
    requires Sorted(rows) && OneRowEach(rows) && k == Place(row, rows) && out == rows[..k] + [row] + rows[k..]
    requires forall i :: 0 <= i < |rows| ==> rows[i].thread != row.thread
    ensures |out| == |rows| + 1 && out[k] == row
    ensures forall i :: 0 <= i < |rows| ==> rows[i] == out[if i < k then i else i + 1]
    ensures forall i :: 0 <= i < |out| && i != k ==> out[i] == rows[if i < k then i else i - 1]
    ensures Sorted(out) && OneRowEach(out)
  {
    InsertedAt(row, rows, k, out);
    forall i, j | 0 <= i < j < |out| ensures Newer(out[i], out[j]) && out[i].thread != out[j].thread {
      InsertedPair(row, rows, k, out, i, j);
    }
  }

  lemma InsertedPair(row: Row, rows: seq<Row>, k: nat, out: seq<Row>, i: nat, j: nat)
    requires Sorted(rows) && OneRowEach(rows) && k <= |rows| && |out| == |rows| + 1 && out[k] == row
    requires forall x :: 0 <= x < k ==> !Newer(row, rows[x])
    requires forall x :: k <= x < |rows| ==> Newer(row, rows[x])
    requires forall x :: 0 <= x < |rows| ==> rows[x].thread != row.thread
    requires forall x :: 0 <= x < |out| && x != k ==> out[x] == rows[if x < k then x else x - 1]
    requires i < j < |out|
    ensures Newer(out[i], out[j]) && out[i].thread != out[j].thread
  {
    if i != k && j != k {
      var a, b := if i < k then i else i - 1, if j < k then j else j - 1;
      assert out[i] == rows[a] && out[j] == rows[b] && a < b;
    }
  }
}

/** The mobile message feed: a process-wide FIFO of messages pushed by the
    socket, drained one message per timer tick into a rolling display window
    of at most three messages. */
module MessageFeed {

  datatype Author = Author(name: string, avatarUrl: string)

  datatype Message = Message(id: string, text: string, user: Author)

  /** One slot of the list the tick builds: a message, or a falsy value
      (`undefined` past the end of the previous window, or a `null` payload). */
  datatype Entry = Absent | Present(message: Message)

  predicate AllPresent(s: seq<Entry>) {
    forall i :: 0 <= i < |s| ==> s[i].Present?
  }

  function Min(a: int, b: int): int {
    if a <= b then a else b
  }

  /** The first `n` elements of `s`, or all of them when there are fewer. */
  function Take(s: seq<Entry>, n: nat): (r: seq<Entry>)
    ensures |r| == Min(n, |s|)
    ensures r == s[..|r|]
  {
    if |s| <= n then s else s[..n]
  }

  /** `list.filter(Boolean)`: the present entries, in their original order. */
  function KeepTruthy(s: seq<Entry>): (r: seq<Entry>)
    ensures AllPresent(r)
    ensures |r| <= |s|
    ensures AllPresent(s) ==> r == s
  {
    if s == [] then []
    else (if s[0].Present? then [s[0]] else []) + KeepTruthy(s[1..])
  }

  /** `filter` distributes over concatenation: it decides each entry on its own. */
  lemma {:induction false} KeepTruthyAppend(a: seq<Entry>, b: seq<Entry>)
    ensures KeepTruthy(a + b) == KeepTruthy(a) + KeepTruthy(b)
    decreases |a|
  {
    if a != [] {
      assert (a + b)[0] == a[0] && (a + b)[1..] == a[1..] + b;
      KeepTruthyAppend(a[1..], b);
      var first := if a[0].Present? then [a[0]] else [];
      assert KeepTruthy(a + b) == first + KeepTruthy(a[1..] + b);
      assert KeepTruthy(a) == first + KeepTruthy(a[1..]);
    } else {
      assert a + b == b;
    }
  }

  /** `filter(Boolean)` keeps every message, in order, and drops exactly the
      falsy entries: a message survives, an absent entry vanishes, and the
      kept list holds each message as often as the input does. */
  lemma {:induction false} KeepTruthyExact(s: seq<Entry>)
    ensures forall m :: KeepTruthy([Present(m)]) == [Present(m)]
    ensures KeepTruthy([Absent]) == []
    ensures multiset(KeepTruthy(s)) == multiset(s)[Absent := 0]
    decreases |s|
  {
    assert forall m :: KeepTruthy([Present(m)]) == [Present(m)] by {
      forall m ensures KeepTruthy([Present(m)]) == [Present(m)] {
        assert [Present(m)][1..] == [];
      }
    }
    assert [Absent][1..] == [];
    if s != [] {
      KeepTruthyExact(s[1..]);
      assert s == [s[0]] + s[1..];
      assert multiset(s) == multiset([s[0]]) + multiset(s[1..]);
    }
  }

  /** The window a tick computes from the queue head and the previous window:
      `[head, prev[0], prev[1]].filter(Boolean)`. */
  function NextWindow(head: Entry, prev: seq<Entry>): (r: seq<Entry>)
    ensures |r| <= 3 && AllPresent(r)
    ensures head.Present? ==> |r| >= 1 && r[0] == head
    ensures head.Present? && AllPresent(prev) ==>
      r == [head] + Take(prev, 2) && |r| == Min(3, |prev| + 1)
  {
    KeepTruthy([head] + Take(prev, 2))
  }

  /** A falsy head is dropped and only the previous entries remain; a present
      head is followed by the previous two entries with falsy ones dropped;
      either way the window holds exactly the messages among the three slots. */
  lemma NextWindowEntries(head: Entry, prev: seq<Entry>)
    ensures head.Absent? ==> NextWindow(head, prev) == KeepTruthy(Take(prev, 2))
    ensures head.Present? ==> NextWindow(head, prev) == [head] + KeepTruthy(Take(prev, 2))
    ensures multiset(NextWindow(head, prev)) == multiset([head] + Take(prev, 2))[Absent := 0]
  {
    KeepTruthyAppend([head], Take(prev, 2));
    KeepTruthyExact([head] + Take(prev, 2));
    KeepTruthyExact([]);
  }

  /** The pending queue and the display window. */
  datatype FeedState = FeedState(queue: seq<Entry>, window: seq<Entry>)

  /** What can happen to the feed: a socket push, a timer tick, or the
      initial `messages/last3` fetch resolving with a list. */
  datatype Event = Arrived(entry: Entry) | TimerFired | Fetched(messages: seq<Entry>)

  /** The effect of one event on the feed. */
  function Apply(s: FeedState, e: Event): (r: FeedState)
    ensures e.Arrived? ==> r.queue == s.queue + [e.entry] && r.window == s.window
    ensures e.TimerFired? && s.queue == [] ==> r == s
    ensures e.TimerFired? && s.queue != [] ==>
      r.queue == s.queue[1..] && |r.window| <= 3 && AllPresent(r.window) &&
      (s.queue[0].Present? ==> |r.window| >= 1 && r.window[0] == s.queue[0])
    ensures e.Fetched? ==> r.window == e.messages && r.queue == s.queue
  {
    match e
    case Arrived(entry) => s.(queue := s.queue + [entry])
    case TimerFired =>
      if |s.queue| > 0 then FeedState(s.queue[1..], NextWindow(s.queue[0], s.window)) else s
    case Fetched(messages) => s.(window := messages)
  }

  /** The state after a sequence of events, applied first to last. */
  function Replay(s: FeedState, trace: seq<Event>): FeedState
    decreases |trace|
  {
    if trace == [] then s
    else Apply(Replay(s, trace[..|trace| - 1]), trace[|trace| - 1])
  }

  /** The queue heads the ticks of a trace took off the queue, in order. */
  function Drained(s: FeedState, trace: seq<Event>): seq<Entry>
    decreases |trace|
  {
    if trace == [] then []
    else
      var before := Replay(s, trace[..|trace| - 1]);
      var taken := if trace[|trace| - 1].TimerFired? && before.queue != [] then [before.queue[0]] else [];
      Drained(s, trace[..|trace| - 1]) + taken
  }

  /** The entries the socket pushed during a trace, in order. */
  function Pushed(trace: seq<Event>): seq<Entry>
    decreases |trace|
  {
    if trace == [] then []
    else
      var last := trace[|trace| - 1];
      Pushed(trace[..|trace| - 1]) + (if last.Arrived? then [last.entry] else [])
  }

  /** The queue is FIFO: whatever the interleaving of pushes, ticks and fetches,
      the entries taken off the queue followed by those still waiting are the
      entries queued at the start followed by those pushed, in the same order. */
  lemma {:induction false} FifoOrder(s: FeedState, trace: seq<Event>)
    ensures Drained(s, trace) + Replay(s, trace).queue == s.queue + Pushed(trace)
    decreases |trace|
  {
    if trace != [] {
      var init := trace[..|trace| - 1];
      FifoOrder(s, init);
      var before := Replay(s, init);
      var last := trace[|trace| - 1];
      assert Replay(s, trace) == Apply(before, last);
      if last.TimerFired? && before.queue != [] {
        assert Drained(s, trace) == Drained(s, init) + [before.queue[0]];
        assert Pushed(trace) == Pushed(init);
        assert Replay(s, trace).queue == before.queue[1..];
        assert before.queue == [before.queue[0]] + before.queue[1..];
      } else {
        assert Drained(s, trace) == Drained(s, init);
        if last.Arrived? {
          assert Pushed(trace) == Pushed(init) + [last.entry];
          assert Replay(s, trace).queue == before.queue + [last.entry];
          assert Drained(s, init) + (before.queue + [last.entry])
              == (Drained(s, init) + before.queue) + [last.entry];
        } else {
          assert Pushed(trace) == Pushed(init);
        }
      }
    }
  }

  /** `s` reversed: the most recent element first. */
  function Reversed(s: seq<Entry>): (r: seq<Entry>)
    ensures |r| == |s|
    ensures forall i :: 0 <= i < |s| ==> r[i] == s[|s| - 1 - i]
  {
    if s == [] then [] else [s[|s| - 1]] + Reversed(s[..|s| - 1])
  }

  /** `n` timer ticks with no push in between. */
  function Ticks(n: nat): (t: seq<Event>)
    ensures |t| == n && forall i :: 0 <= i < n ==> t[i] == TimerFired
  {
    seq(n, _ => TimerFired)
  }

  /** Draining `n` messages (1 <= n <= queue length, all present) leaves the
      rest of the queue and a window holding the most recently drained
      messages first, then the earlier window, cut to three entries. */
  lemma {:induction false} DrainWindow(s: FeedState, n: nat)
    requires 1 <= n <= |s.queue|
    requires AllPresent(s.queue) && AllPresent(s.window)
    ensures Replay(s, Ticks(n)) == FeedState(s.queue[n..], Take(Reversed(s.queue[..n]) + s.window, 3))
  {
    var q, w := s.queue, s.window;
    assert Ticks(n)[..n - 1] == Ticks(n - 1);
    assert Replay(s, Ticks(n)) == Apply(Replay(s, Ticks(n - 1)), TimerFired);
    if n == 1 {
      assert Reversed(q[..1]) == [q[0]];
      TakeAfterHead(q[0], w);
    } else {
      DrainWindow(s, n - 1);
      var older := Reversed(q[..n - 1]) + w;
      var prev := Take(older, 3);
      assert q[n - 1..] == [q[n - 1]] + q[n..];
      assert Reversed(q[..n]) == [q[n - 1]] + Reversed(q[..n - 1]) by {
        assert q[..n][..n - 1] == q[..n - 1];
      }
      ReversedPresent(q[..n - 1]);
      assert AllPresent(older);
      TakeAfterHead(q[n - 1], older);
    }
  }

  /** Putting a present entry in front of a window of all-present entries and
      keeping three is what a tick does. */
  lemma TakeAfterHead(head: Entry, older: seq<Entry>)
    requires head.Present? && AllPresent(older)
    ensures AllPresent(Take(older, 3))
    ensures NextWindow(head, Take(older, 3)) == Take([head] + older, 3)
  {
  }

  lemma {:induction false} ReversedPresent(s: seq<Entry>)
    requires AllPresent(s)
    ensures AllPresent(Reversed(s))
    decreases |s|
  {
    if s != [] {
      ReversedPresent(s[..|s| - 1]);
    }
  }

  /** The end-to-end scenario: a fetch of three messages, one push, one tick
      shows the pushed message first and drops the oldest fetched one. */
  lemma FetchPushTick(s: FeedState, m1: Message, m2: Message, m3: Message, m4: Message)
    requires s.queue == []
    ensures Replay(s, [Fetched([Present(m1), Present(m2), Present(m3)]), Arrived(Present(m4)), TimerFired])
      == FeedState([], [Present(m4), Present(m1), Present(m2)])
  {
    var fetched := [Present(m1), Present(m2), Present(m3)];
    var t := [Fetched(fetched), Arrived(Present(m4)), TimerFired];
    assert t[..2][..1] == [t[0]] && [t[0]][..0] == [];
    assert t[..2] == [t[0], t[1]];
    assert Replay(s, [t[0]]) == FeedState([], fetched);
    assert Replay(s, t[..2]) == FeedState([Present(m4)], fetched);
    assert NextWindow(Present(m4), fetched) == [Present(m4), Present(m1), Present(m2)];
  }

  /** The feed component: the module-level `messagesQueue` and the
      `currentMessages` state, which starts empty. */
  class Feed {
    var queue: seq<Entry>
    var window: seq<Entry>

    function State(): FeedState
      reads this
    {
      FeedState(queue, window)
    }

    /** The queue starts as the bundled example messages; the window as `[]`. */
    constructor (initialQueue: seq<Entry>)
      ensures queue == initialQueue && window == []
    {
      queue := initialQueue;
      window := [];
    }

    /** The `new_message` socket handler. */
    method Push(entry: Entry)
      modifies this
      ensures queue == old(queue) + [entry] && window == old(window)
      ensures State() == Apply(old(State()), Arrived(entry))
    {
      queue := queue + [entry];
    }

    /** One run of the interval callback. */
    method Tick()
      modifies this
      ensures old(queue) == [] ==> queue == old(queue) && window == old(window)
      ensures old(queue) != [] ==>
        queue == old(queue)[1..] && window == NextWindow(old(queue)[0], old(window))
      ensures State() == Apply(old(State()), TimerFired)
    {
      if |queue| > 0 {
        window := NextWindow(queue[0], window);
        queue := queue[1..];
      }
    }

    /** The initial fetch resolving: the window becomes the fetched list as is. */
    method LoadInitial(messages: seq<Entry>)
      modifies this
      ensures window == messages && queue == old(queue)
      ensures State() == Apply(old(State()), Fetched(messages))
    {
      window := messages;
    }
  }
}

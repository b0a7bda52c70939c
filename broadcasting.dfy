/**
 * The line broadcaster: a bounded history of output lines plus a set of
 * subscriber queues, each of bounded capacity, that every new line is fanned
 * out to. A queue is named by a `QueueId`; `subscribers` is the set of queues
 * that currently receive new lines, `queues` the contents of every queue that
 * a connected stream still holds.
 */
module Broadcasting {
  import opened Results
  import opened Text

  /** Lines kept for late subscribers. */
  const LogHistoryMax: nat := 2000
  /** `queue.Queue(maxsize=1000)` of each stream. */
  const QueueCapacity: nat := 1000
  /** `history[-500:]` replayed to a new stream. */
  const ReplayWindow: nat := 500

  type QueueId = nat

  /** Python's `s[-n:]` for a positive `n`: the last `n` items, or all of `s` when shorter. */
  function LastN<T>(s: seq<T>, n: nat): (r: seq<T>)
    requires n > 0
    ensures |r| == if |s| < n then |s| else n
    ensures r == s[|s| - |r|..]
  {
    if |s| <= n then s else s[|s| - n..]
  }

  /** Keeping the last `n` items and then appending keeps the same items as appending first. */
  lemma LastNAppend<T>(s: seq<T>, x: T, n: nat)
    requires n > 0
    ensures LastN(LastN(s, n) + [x], n) == LastN(s + [x], n)
  {
    var t := LastN(s, n);
    var a, b := LastN(t + [x], n), LastN(s + [x], n);
    assert |a| == |b|;
    forall i | 0 <= i < |a| ensures a[i] == b[i] {
      if i < |a| - 1 {
        assert a[i] == t[|t| + 1 - |a| + i];
      }
    }
  }

  /** The last `k` items survive keeping the last `n`, for any `k` up to `n`. */
  lemma LastNTail<T>(s: seq<T>, n: nat, k: nat)
    requires 0 < n && k <= n && k <= |s|
    ensures |LastN(s, n)| >= k && LastN(s, n)[|LastN(s, n)| - k..] == s[|s| - k..]
  {
  }

  /** A tail of `s` followed by `x` is a tail of `s + [x]`. */
  lemma TailAppend<T>(s: seq<T>, w: seq<T>, x: T)
    requires |w| <= |s| && w == s[|s| - |w|..]
    ensures (s + [x])[|s| - |w|..] == w + [x]
  {
  }

  /** The history after `history.append(line)` and the truncation to the newest lines. */
  function Record(history: seq<string>, line: string): (r: seq<string>)
  {
    LastN(history + [line], LogHistoryMax)
  }

  /** Every line of `lines` with its trailing newlines removed. */
  function StripAll(lines: seq<string>): (r: seq<string>)
    ensures |r| == |lines|
    ensures forall i :: 0 <= i < |lines| ==> r[i] == StripNewlines(lines[i])
  {
    seq(|lines|, i requires 0 <= i < |lines| => StripNewlines(lines[i]))
  }

  /** `q.put_nowait(ln)` repeated over `lines`, stopping at the first put that finds the queue full. */
  function Fill(queue: seq<string>, lines: seq<string>): (r: seq<string>)
    decreases |lines|
  {
    if lines == [] || |queue| >= QueueCapacity then queue
    else Fill(queue + [lines[0]], lines[1..])
  }

  /** Puts into a queue with room for all of them never fail. */
  lemma {:induction false} FillWithRoom(queue: seq<string>, lines: seq<string>)
    requires |queue| + |lines| <= QueueCapacity
    ensures Fill(queue, lines) == queue + lines
    decreases |lines|
  {
    if lines != [] {
      FillWithRoom(queue + [lines[0]], lines[1..]);
      assert queue + [lines[0]] + lines[1..] == queue + lines;
    }
  }

  /** The replay loop of `sse_stream`: `put_nowait` each line into a fresh queue, stopping at the first put that fails. */
  method FillQueue(lines: seq<string>) returns (queue: seq<string>)
    ensures queue == Fill([], lines)
  {
    queue := [];
    var i := 0;
    while i < |lines|
      invariant 0 <= i <= |lines|
      invariant queue == lines[..i]
      invariant Fill(queue, lines[i..]) == Fill([], lines)
    {
      if |queue| >= QueueCapacity {
        break;
      }
      assert lines[i..][1..] == lines[i + 1..];
      queue := queue + [lines[i]];
      i := i + 1;
    }
  }

  datatype Hub = Hub(history: seq<string>, subscribers: set<QueueId>, queues: map<QueueId, seq<string>>)
  {
    /** History within its bound, every subscriber has a queue, no queue beyond its capacity. */
    ghost predicate Valid() {
      && |history| <= LogHistoryMax
      && subscribers <= queues.Keys
      && forall q :: q in queues ==> |queues[q]| <= QueueCapacity
    }

    /** First half of `broadcast`, under `history_lock`: the (stripped) line joins the history. */
    function AppendHistory(line: string): Hub {
      this.(history := Record(history, line))
    }

    /**
     * Second half of `broadcast`, outside the lock: `put_nowait` on every subscriber;
     * those whose queue is full are dropped from `subscribers`.
     */
    function FanOut(line: string): Hub
      requires subscribers <= queues.Keys
    {
      var live := set q | q in subscribers && |queues[q]| < QueueCapacity;
      var delivered := map q | q in queues :: if q in live then queues[q] + [line] else queues[q];
      this.(subscribers := live, queues := delivered)
    }

    /** `broadcast(line)` as one atomic step. */
    function Broadcast(line: string): Hub
      requires subscribers <= queues.Keys
    {
      var l := StripNewlines(line);
      AppendHistory(l).FanOut(l)
    }

    /** First half of `sse_stream`, under `history_lock`: a fresh queue is filled from the history. */
    function Replay(q: QueueId): Hub
      requires q !in queues
    {
      this.(queues := queues[q := Fill([], LastN(history, ReplayWindow))])
    }

    /** Second half, outside the lock: `subscribers.add(q)`. */
    function Register(q: QueueId): Hub {
      this.(subscribers := subscribers + {q})
    }

    /** Opening a stream as one atomic step: replay, then register. */
    function Subscribe(q: QueueId): Hub
      requires q !in queues
    {
      Replay(q).Register(q)
    }

    /** Closing a stream: `subscribers.discard(q)`, and the stream's queue goes with it. */
    function Disconnect(q: QueueId): Hub {
      this.(subscribers := subscribers - {q}, queues := queues - {q})
    }

    /** The stream takes the oldest line of its queue; `None` where `q.get()` would wait. */
    function Take(q: QueueId): (Hub, Option<string>)
      requires q in queues
    {
      if queues[q] == [] then (this, None)
      else (this.(queues := queues[q := queues[q][1..]]), Some(queues[q][0]))
    }
  }

  /** `broadcast` applied to each of `lines` in turn. */
  function BroadcastAll(h: Hub, lines: seq<string>): (r: Hub)
    requires h.subscribers <= h.queues.Keys
    ensures r.subscribers <= r.queues.Keys && r.queues.Keys == h.queues.Keys
  {
    if lines == [] then h
    else BroadcastAll(h, lines[..|lines| - 1]).Broadcast(lines[|lines| - 1])
  }

  /** After `broadcast`, the history holds at most `LogHistoryMax` lines, the newest last. */
  lemma BroadcastHistory(h: Hub, line: string)
    requires h.subscribers <= h.queues.Keys
    ensures var r := h.Broadcast(line).history;
      && |r| <= LogHistoryMax
      && |r| == (if |h.history| < LogHistoryMax then |h.history| + 1 else LogHistoryMax)
      && r[|r| - 1] == StripNewlines(line)
      && r[..|r| - 1] == h.history[|h.history| + 1 - |r|..]
  {
    var r := h.Broadcast(line).history;
    assert r == (h.history + [StripNewlines(line)])[|h.history| + 1 - |r|..];
  }

  /** `broadcast` keeps the broadcaster's invariant. */
  lemma BroadcastValid(h: Hub, line: string)
    requires h.Valid()
    ensures h.Broadcast(line).Valid()
  {
  }

  /** What `broadcast` does to one queue: a subscriber with room gets the line at its back and
      stays subscribed, a full subscriber is dropped, and any other queue is left alone. */
  lemma BroadcastDelivery(h: Hub, line: string, q: QueueId)
    requires h.subscribers <= h.queues.Keys
    requires q in h.queues
    ensures var r := h.Broadcast(line);
      && q in r.queues
      && (q in r.subscribers <==> q in h.subscribers && |h.queues[q]| < QueueCapacity)
      && r.queues[q] == (if q in r.subscribers then h.queues[q] + [StripNewlines(line)] else h.queues[q])
  {
  }

  /** After any run of broadcasts the history is exactly the newest `LogHistoryMax` lines, in order. */
  lemma {:induction false} HistoryKeepsNewest(h: Hub, lines: seq<string>)
    requires h.subscribers <= h.queues.Keys
    requires |h.history| <= LogHistoryMax
    ensures BroadcastAll(h, lines).history == LastN(h.history + StripAll(lines), LogHistoryMax)
  {
    if lines == [] {
      assert h.history + StripAll(lines) == h.history;
    } else {
      var init, last := lines[..|lines| - 1], lines[|lines| - 1];
      HistoryKeepsNewest(h, init);
      var prev := h.history + StripAll(init);
      BroadcastAllHistoryStep(h, lines);
      LastNAppend(prev, StripNewlines(last), LogHistoryMax);
      StripAllSnoc(lines);
      assert prev + [StripNewlines(last)] == h.history + StripAll(lines);
    }
  }

  /** The last broadcast of a run adds its stripped line to the history the others left. */
  lemma BroadcastAllHistoryStep(h: Hub, lines: seq<string>)
    requires h.subscribers <= h.queues.Keys
    requires lines != []
    ensures BroadcastAll(h, lines).history
         == Record(BroadcastAll(h, lines[..|lines| - 1]).history, StripNewlines(lines[|lines| - 1]))
  {
  }

  /** Stripping a run of lines is stripping all but the last, then the last. */
  lemma StripAllSnoc(lines: seq<string>)
    requires lines != []
    ensures StripAll(lines) == StripAll(lines[..|lines| - 1]) + [StripNewlines(lines[|lines| - 1])]
  {
  }

  /**
   * A subscriber with room for a whole burst receives every line of it, in order, after what
   * it already held, and stays subscribed.
   */
  lemma {:induction false} SubscriberReceivesBurst(h: Hub, lines: seq<string>, q: QueueId)
    requires h.subscribers <= h.queues.Keys
    requires q in h.subscribers
    requires |h.queues[q]| + |lines| <= QueueCapacity
    ensures var r := BroadcastAll(h, lines);
      q in r.subscribers && r.queues[q] == h.queues[q] + StripAll(lines)
  {
    if lines != [] {
      var init, last := lines[..|lines| - 1], lines[|lines| - 1];
      SubscriberReceivesBurst(h, init, q);
      var mid := BroadcastAll(h, init);
      assert mid.queues[q] == h.queues[q] + StripAll(init);
      BroadcastDelivery(mid, last, q);
      StripAllSnoc(lines);
    }
  }

  /** Two subscribers attached before a burst, with room for it, both receive the same lines. */
  lemma SubscribersAgree(h: Hub, lines: seq<string>, q1: QueueId, q2: QueueId)
    requires h.subscribers <= h.queues.Keys
    requires q1 in h.subscribers && q2 in h.subscribers
    requires |h.queues[q1]| + |lines| <= QueueCapacity && |h.queues[q2]| + |lines| <= QueueCapacity
    ensures var r := BroadcastAll(h, lines);
      && |r.queues[q1]| == |h.queues[q1]| + |lines|
      && |r.queues[q2]| == |h.queues[q2]| + |lines|
      && r.queues[q1][|h.queues[q1]|..] == r.queues[q2][|h.queues[q2]|..]
  {
    SubscriberReceivesBurst(h, lines, q1);
    SubscriberReceivesBurst(h, lines, q2);
  }

  /** A queue that is not subscribed receives nothing from any broadcast. */
  lemma {:induction false} UnsubscribedQueueUntouched(h: Hub, lines: seq<string>, q: QueueId)
    requires h.subscribers <= h.queues.Keys
    requires q in h.queues && q !in h.subscribers
    ensures var r := BroadcastAll(h, lines);
      q !in r.subscribers && r.queues[q] == h.queues[q]
  {
    if lines != [] {
      UnsubscribedQueueUntouched(h, lines[..|lines| - 1], q);
      BroadcastDelivery(BroadcastAll(h, lines[..|lines| - 1]), lines[|lines| - 1], q);
    }
  }

  /**
   * Opening a stream registers a fresh queue holding exactly the last
   * min(|history|, 500) history lines, in order; nothing else changes.
   */
  lemma SubscribeReplay(h: Hub, q: QueueId)
    requires q !in h.queues
    ensures var r := h.Subscribe(q);
      && r.subscribers == h.subscribers + {q}
      && r.queues.Keys == h.queues.Keys + {q}
      && (forall k :: k in h.queues ==> r.queues[k] == h.queues[k])
      && |r.queues[q]| == (if |h.history| < ReplayWindow then |h.history| else ReplayWindow)
      && r.queues[q] == h.history[|h.history| - |r.queues[q]|..]
      && r.history == h.history
  {
    ReplayFits(h.history);
    assert h.Subscribe(q).queues[q] == LastN(h.history, ReplayWindow);
  }

  /** The replay window is smaller than a queue, so replaying it never hits a full queue. */
  lemma ReplayFits(history: seq<string>)
    ensures Fill([], LastN(history, ReplayWindow)) == LastN(history, ReplayWindow)
  {
    var w := LastN(history, ReplayWindow);
    FillWithRoom([], w);
    assert [] + w == w;
  }

  /** Opening a stream keeps the broadcaster's invariant: the replay never overflows the queue. */
  lemma SubscribeValid(h: Hub, q: QueueId)
    requires h.Valid() && q !in h.queues
    ensures h.Subscribe(q).Valid()
  {
    SubscribeReplay(h, q);
  }

  /**
   * No gap and no repetition: a stream opened atomically and then sent up to 500 lines holds
   * its replay window followed by exactly those lines.
   */
  lemma SubscribeThenBurst(h: Hub, q: QueueId, lines: seq<string>)
    requires h.Valid() && q !in h.queues
    requires |lines| <= QueueCapacity - ReplayWindow
    ensures var r := BroadcastAll(h.Subscribe(q), lines);
      r.queues[q] == LastN(h.history, ReplayWindow) + StripAll(lines)
  {
    SubscribeReplay(h, q);
    SubscriberReceivesBurst(h.Subscribe(q), lines, q);
  }

  /**
   * What happens to the broadcaster between two moments, one step at a time: a line is
   * broadcast, a stream opens on a fresh queue `k`, a stream closes, or a stream takes the
   * oldest line of its queue. Opening on an id already in use, or taking from a queue that
   * is gone, changes nothing.
   */
  datatype Event = Line(line: string) | Open(k: QueueId) | Close(k: QueueId) | Get(k: QueueId)

  /** The event concerns the stream of queue `q` itself. */
  predicate Touches(e: Event, q: QueueId) {
    !e.Line? && e.k == q
  }

  function Step(h: Hub, e: Event): Hub
    requires h.Valid()
  {
    match e
    case Line(line) => h.Broadcast(line)
    case Open(k) => if k in h.queues then h else h.Subscribe(k)
    case Close(k) => h.Disconnect(k)
    case Get(k) => if k in h.queues then h.Take(k).0 else h
  }

  /** Every step keeps the broadcaster's bounds. */
  lemma StepValid(h: Hub, e: Event)
    requires h.Valid()
    ensures Step(h, e).Valid()
  {
    match e
    case Line(line) => BroadcastValid(h, line);
    case Open(k) => if k !in h.queues { SubscribeValid(h, k); }
    case Close(k) => DisconnectRemoves(h, k);
    case Get(k) => if k in h.queues { TakeOldest(h, k); }
  }

  /** The broadcaster after a run of events. */
  function Run(h: Hub, events: seq<Event>): (r: Hub)
    requires h.Valid()
    ensures r.Valid()
    decreases |events|
  {
    if events == [] then h
    else
      StepValid(h, events[0]);
      Run(Step(h, events[0]), events[1..])
  }

  /** The lines broadcast by a run of events, in order. */
  function Broadcasts(events: seq<Event>): seq<string>
    decreases |events|
  {
    if events == [] then []
    else (if events[0].Line? then [events[0].line] else []) + Broadcasts(events[1..])
  }

  /**
   * One step by anyone other than the stream of `q`: a broadcast with room puts its line at
   * the back of `q`, and opening, closing or reading another stream leaves `q` alone.
   */
  lemma OtherClientStep(h: Hub, e: Event, q: QueueId)
    requires h.Valid() && q in h.subscribers && !Touches(e, q)
    requires e.Line? ==> |h.queues[q]| < QueueCapacity
    ensures q in Step(h, e).subscribers
    ensures Step(h, e).queues[q] == h.queues[q] + (if e.Line? then [StripNewlines(e.line)] else [])
  {
    match e
    case Line(line) => BroadcastDelivery(h, line, q);
    case Open(k) => if k !in h.queues { SubscribeReplay(h, k); }
    case Close(k) => DisconnectRemoves(h, k);
    case Get(k) =>
  }

  /**
   * A subscriber with room receives every line broadcast during a run, in order, whatever other
   * streams open, close or read meanwhile, and stays subscribed.
   */
  lemma {:induction false} BurstAmidOtherClients(h: Hub, events: seq<Event>, q: QueueId)
    requires h.Valid() && q in h.subscribers
    requires forall i :: 0 <= i < |events| ==> !Touches(events[i], q)
    requires |h.queues[q]| + |Broadcasts(events)| <= QueueCapacity
    ensures var r := Run(h, events);
      q in r.subscribers && r.queues[q] == h.queues[q] + StripAll(Broadcasts(events))
    decreases |events|
  {
    if events == [] {
      assert h.queues[q] + StripAll([]) == h.queues[q];
    } else {
      var e, rest := events[0], events[1..];
      var mine := if e.Line? then [e.line] else [];
      assert Broadcasts(events) == mine + Broadcasts(rest);
      OtherClientStep(h, e, q);
      StepValid(h, e);
      var h1 := Step(h, e);
      BurstAmidOtherClients(h1, rest, q);
      assert Run(h, events) == Run(h1, rest);
      StripAllConcat(mine, Broadcasts(rest));
    }
  }

  /** Stripping a concatenation is concatenating the stripped parts. */
  lemma StripAllConcat(a: seq<string>, b: seq<string>)
    ensures StripAll(a + b) == StripAll(a) + StripAll(b)
  {
  }

  /**
   * No gap and no repetition amid other clients: a stream opened and then sent up to 500 lines,
   * while other streams come and go, holds its replay window followed by exactly those lines.
   */
  lemma SubscribeThenRun(h: Hub, q: QueueId, events: seq<Event>)
    requires h.Valid() && q !in h.queues
    requires forall i :: 0 <= i < |events| ==> !Touches(events[i], q)
    requires |Broadcasts(events)| <= QueueCapacity - ReplayWindow
    ensures var s := h.Subscribe(q);
      && s.Valid()
      && q in Run(s, events).subscribers
      && Run(s, events).queues[q] == LastN(h.history, ReplayWindow) + StripAll(Broadcasts(events))
  {
    SubscribeValid(h, q);
    SubscribeReplay(h, q);
    BurstAmidOtherClients(h.Subscribe(q), events, q);
  }

  /** Closing a stream removes its queue and leaves every other stream as it was. */
  lemma DisconnectRemoves(h: Hub, q: QueueId)
    requires h.Valid()
    ensures var r := h.Disconnect(q);
      && r.Valid()
      && q !in r.subscribers && q !in r.queues
      && r.subscribers == h.subscribers - {q}
      && (forall k :: k in h.queues && k != q ==> k in r.queues && r.queues[k] == h.queues[k])
      && r.history == h.history
  {
  }

  /** Closing is idempotent. */
  lemma DisconnectIdempotent(h: Hub, q: QueueId)
    ensures h.Disconnect(q).Disconnect(q) == h.Disconnect(q)
  {
  }

  /** A stream receives its lines front first: `Take` yields the oldest queued line. */
  lemma TakeOldest(h: Hub, q: QueueId)
    requires h.Valid() && q in h.queues
    ensures var (r, line) := h.Take(q);
      && r.Valid()
      && (line.None? <==> h.queues[q] == [])
      && (line.Some? ==> [line.value] + r.queues[q] == h.queues[q])
      && r.subscribers == h.subscribers && r.history == h.history
  {
  }

  /** `t` is a non-empty run of lines at the very end of `s`, ending with `line`. */
  predicate EndsWithRun(s: seq<string>, t: seq<string>, line: string) {
    0 < |t| <= |s| && s[|s| - |t|..] == t && t[|t| - 1] == line
  }

  /** What the fan-out alone does to one queue, as `BroadcastDelivery` says of `broadcast`. */
  lemma FanOutDelivery(h: Hub, line: string, q: QueueId)
    requires h.subscribers <= h.queues.Keys
    requires q in h.queues
    ensures var r := h.FanOut(line);
      && q in r.queues
      && (q in r.subscribers <==> q in h.subscribers && |h.queues[q]| < QueueCapacity)
      && r.queues[q] == (if q in r.subscribers then h.queues[q] + [line] else h.queues[q])
  {
  }

  /** A first line recorded in an empty history is the whole history. */
  lemma RecordFirst(line: string)
    ensures Record([], line) == [line]
  {
    assert [] + [line] == [line];
  }

  /** The replay window taken right after a line is recorded ends with that line. */
  lemma WindowEndsWithLatest(history: seq<string>, l: string)
    ensures var w := LastN(Record(history, l), ReplayWindow);
      w != [] && w[|w| - 1] == l
  {
    var all := Record(history, l);
    LastNTail(history + [l], LogHistoryMax, 1);
    LastNTail(all, ReplayWindow, 1);
  }

  /** A stream opened right after a history append replays the window that ends with the new line. */
  lemma SubscribeAfterAppend(h: Hub, q: QueueId, l: string)
    requires h.Valid() && q !in h.queues
    ensures var r := h.AppendHistory(l).Subscribe(q);
      && r.subscribers <= r.queues.Keys && q in r.subscribers
      && r.queues[q] == LastN(Record(h.history, l), ReplayWindow)
  {
    var h1 := h.AppendHistory(l);
    ReplayFits(h1.history);
    assert h1.Subscribe(q).queues[q] == Fill([], LastN(h1.history, ReplayWindow));
  }

  /*
   * As written, `sse_stream` releases `history_lock` before `subscribers.add(q)`, and
   * `broadcast` releases it before taking its snapshot of `subscribers`. The two lemmas
   * below run the halves of those steps interleaved.
   */

  /**
   * A line broadcast between a stream's replay and its registration is recorded in the history
   * but never reaches that stream; on an empty history the stream ends up with nothing at all.
   */
  lemma LineLostBetweenReplayAndRegister(h: Hub, q: QueueId, line: string)
    requires h.Valid() && q !in h.queues
    ensures var r := h.Replay(q).Broadcast(line).Register(q);
      && r.history == Record(h.history, StripNewlines(line))
      && q in r.subscribers
      && r.queues[q] == LastN(h.history, ReplayWindow)
      && (h.history == [] ==> r.history == [StripNewlines(line)] && r.queues[q] == [])
  {
    ReplayFits(h.history);
    var h1 := h.Replay(q);
    assert h1.queues[q] == LastN(h.history, ReplayWindow) && q !in h1.subscribers;
    BroadcastDelivery(h1, line, q);
    RecordFirst(StripNewlines(line));
  }

  /**
   * A stream opened between a broadcast's history append and its fan-out receives the line
   * twice: once at the end of its replay and once more from the fan-out.
   */
  lemma LineDuplicatedBetweenAppendAndFanOut(h: Hub, q: QueueId, line: string)
    requires h.Valid() && q !in h.queues
    ensures var l := StripNewlines(line);
      var r := h.AppendHistory(l).Subscribe(q).FanOut(l);
      && q in r.subscribers
      && r.queues[q] == LastN(Record(h.history, l), ReplayWindow) + [l]
      && |r.queues[q]| >= 2 && r.queues[q][|r.queues[q]| - 2..] == [l, l]
  {
    var l := StripNewlines(line);
    var w := LastN(Record(h.history, l), ReplayWindow);
    var h2 := h.AppendHistory(l).Subscribe(q);
    SubscribeAfterAppend(h, q, l);
    FanOutDelivery(h2, l, q);
    WindowEndsWithLatest(h.history, l);
    var d := w + [l];
    assert d[|d| - 2..] == [w[|w| - 1], l];
  }

  /**
   * With the opening of a stream taken as one atomic step, a line broadcast after it reaches
   * the stream once, right after the replay: the queue is the tail of the history.
   */
  lemma BroadcastAfterSubscribe(h: Hub, q: QueueId, line: string)
    requires h.Valid() && q !in h.queues
    ensures var r := h.Subscribe(q).Broadcast(line);
      q in r.queues && EndsWithRun(r.history, r.queues[q], StripNewlines(line))
  {
    var l := StripNewlines(line);
    var window := LastN(h.history, ReplayWindow);
    ReplayFits(h.history);
    var s := h.Subscribe(q);
    assert s.queues[q] == window && q in s.subscribers && s.history == h.history;
    BroadcastDelivery(s, line, q);
    var r := s.Broadcast(line);
    assert r.queues[q] == window + [l];
    assert r.history == Record(h.history, l);
    var all := h.history + [l];
    LastNTail(all, LogHistoryMax, |window| + 1);
    TailAppend(h.history, window, l);
  }

  /**
   * With `broadcast` taken as one atomic step, a stream opened after it receives the line once,
   * from the replay, at the end of its queue.
   */
  lemma SubscribeAfterBroadcast(h: Hub, q: QueueId, line: string)
    requires h.Valid() && q !in h.queues
    ensures var r := h.Broadcast(line).Subscribe(q);
      q in r.queues && EndsWithRun(r.history, r.queues[q], StripNewlines(line))
  {
    var b := h.Broadcast(line);
    BroadcastHistory(h, line);
    SubscribeReplay(b, q);
  }

  /**
   * The process-wide broadcaster state: `history`, `subscribers` and the queues that the
   * connected streams hold. `nextId` hands out the identity of each new queue.
   */
  class Broadcaster {
    var history: seq<string>
    var subscribers: set<QueueId>
    var queues: map<QueueId, seq<string>>
    var nextId: QueueId

    /** The state as a `Hub` value. */
    function Model(): Hub
      reads this
    {
      Hub(history, subscribers, queues)
    }

    ghost predicate Valid()
      reads this
    {
      Model().Valid() && forall q :: q in queues ==> q < nextId
    }

    constructor ()
      ensures Valid()
      ensures history == [] && subscribers == {} && queues == map[]
    {
      history, subscribers, queues, nextId := [], {}, map[], 0;
    }

    /** `broadcast(line)`: record the stripped line, put it to every subscriber, drop the full ones. */
    method Broadcast(line: string)
      requires Valid()
      modifies this
      ensures Valid() && nextId == old(nextId)
      ensures Model() == old(Model()).Broadcast(line)
    {
      var l := StripNewlines(line);
      history := history + [l];
      if |history| > LogHistoryMax {
        history := history[|history| - LogHistoryMax..];
      }
      ghost var appended := Model();
      assert appended == old(Model()).AppendHistory(l);
      var dead := Deliver(l);
      Discard(dead);
      assert Model() == appended.FanOut(l);
      BroadcastValid(old(Model()), line);
    }

    /** The fan-out loop of `broadcast`: `put_nowait` to each subscriber; returns those that were full. */
    method Deliver(line: string) returns (dead: set<QueueId>)
      requires subscribers <= queues.Keys
      modifies this
      ensures history == old(history) && subscribers == old(subscribers) && nextId == old(nextId)
      ensures queues == old(Model()).FanOut(line).queues
      ensures dead == subscribers - old(Model()).FanOut(line).subscribers
    {
      ghost var live := set q | q in subscribers && |queues[q]| < QueueCapacity;
      dead := {};
      var pending := subscribers;
      while pending != {}
        invariant pending <= subscribers == old(subscribers)
        invariant history == old(history) && nextId == old(nextId)
        invariant queues.Keys == old(queues).Keys
        invariant dead == (subscribers - pending) - live
        invariant forall q :: q in queues ==>
          queues[q] == if q in live && q !in pending then old(queues)[q] + [line] else old(queues)[q]
        decreases pending
      {
        var q :| q in pending;
        pending := pending - {q};
        if |queues[q]| < QueueCapacity {
          queues := queues[q := queues[q] + [line]];
        } else {
          dead := dead + {q};
        }
      }
      ghost var spec := old(Model()).FanOut(line);
      assert spec.subscribers == live;
      assert forall q :: q in queues ==> queues[q] == spec.queues[q];
    }

    /** The discard loop of `broadcast`: `subscribers.discard(q)` for each queue in `dead`. */
    method Discard(dead: set<QueueId>)
      modifies this
      ensures subscribers == old(subscribers) - dead
      ensures history == old(history) && queues == old(queues) && nextId == old(nextId)
    {
      var doomed := dead;
      while doomed != {}
        invariant doomed <= dead
        invariant history == old(history) && queues == old(queues) && nextId == old(nextId)
        invariant subscribers == old(subscribers) - (dead - doomed)
        decreases doomed
      {
        var q :| q in doomed;
        subscribers := subscribers - {q};
        doomed := doomed - {q};
      }
    }

    /**
     * `sse_stream` opening: a fresh queue is filled from the last 500 history lines, a put that
     * finds it full ending the replay, and is then registered.
     */
    method Subscribe() returns (q: QueueId)
      requires Valid()
      modifies this
      ensures Valid()
      ensures q !in old(queues) && q == old(nextId)
      ensures Model() == old(Model()).Subscribe(q)
    {
      q := nextId;
      nextId := nextId + 1;
      var window := if |history| <= ReplayWindow then history else history[|history| - ReplayWindow..];
      var buffer := FillQueue(window);
      assert window == LastN(history, ReplayWindow);
      queues := queues[q := buffer];
      subscribers := subscribers + {q};
      SubscribeValid(old(Model()), q);
    }

    /** The stream's `finally: subscribers.discard(q)`; its queue is released with it. */
    method Disconnect(q: QueueId)
      requires Valid()
      modifies this
      ensures Valid() && nextId == old(nextId)
      ensures Model() == old(Model()).Disconnect(q)
    {
      subscribers := subscribers - {q};
      queues := queues - {q};
    }

    /** The stream's `q.get()`, without blocking: `None` where the stream would wait. */
    method Take(q: QueueId) returns (line: Option<string>)
      requires Valid() && q in queues
      modifies this
      ensures Valid() && nextId == old(nextId)
      ensures (Model(), line) == old(Model()).Take(q)
    {
      if queues[q] == [] {
        line := None;
      } else {
        line := Some(queues[q][0]);
        queues := queues[q := queues[q][1..]];
      }
    }
  }
}

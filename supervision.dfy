/**
 * The single-slot job supervisor: `current_proc` holds at most one running
 * download, a start is refused while it is occupied, and the reader of the
 * process's output clears it once the process has exited.
 */
module Supervision {
  import opened Results
  import opened Text
  import opened Broadcasting

  /** The handle of a spawned process, as far as the slot is concerned. */
  type ProcId = nat
  /** A `time.time()` reading. */
  type Timestamp = real

  /** `current_proc`: the process, its start time, its argument list and whether it is a raw command. */
  datatype JobSlot = JobSlot(p: Option<ProcId>, startTs: Option<Timestamp>, args: Option<seq<string>>, raw: bool)
  {
    /** Either empty in every part, or holding a process with its start time and arguments. */
    predicate WellFormed() {
      if p.None? then startTs.None? && args.None? && !raw else startTs.Some? && args.Some?
    }

    /** `api_stop`'s reply; the signal it sends to a running process group is not modelled. */
    function StopReply(): (r: StopReply)
      ensures r == Idle <==> p.None?
    {
      if p.None? then Idle else Stopping
    }

    /** `api_status`: whether a process is in the slot, with its arguments and start time. */
    function Report(): (r: StatusReport)
      ensures r.running <==> p.Some?
      ensures r.args == args && r.startTs == startTs
    {
      StatusReport(p.Some?, args, startTs)
    }
  }

  /** The slot as it starts, and as the reader leaves it. */
  const EmptySlot: JobSlot := JobSlot(None, None, None, false)

  datatype SpawnError =
    | AlreadyRunning   // "Another task is running"
    | SpawnFailure     // `subprocess.Popen` raised

  datatype StopReply = Idle | Stopping

  datatype StatusReport = StatusReport(running: bool, args: Option<seq<string>>, startTs: Option<Timestamp>)

  /** The line announcing a start; `quote` stands for `shlex.quote`. */
  function StartingLine(argv: seq<string>, quote: string -> string): (r: string)
    ensures |r| >= 12 && r[..12] == "# Starting: "
  {
    "# Starting: " + Join(" ", seq(|argv|, i requires 0 <= i < |argv| => quote(argv[i])))
  }

  /** The line the reader broadcasts after the process exits with code `rc`. */
  function FinishedLine(rc: int): (r: string)
    ensures |r| > 26 && r[..26] == "# Finished with exit code "
  {
    "# Finished with exit code " + IntToString(rc)
  }

  /** The finished line ends in a digit, so broadcasting it stores it unchanged. */
  lemma FinishedLineKept(rc: int)
    ensures StripNewlines(FinishedLine(rc)) == FinishedLine(rc)
  {
    var r := FinishedLine(rc);
    var d := IntToString(rc);
    assert r[|r| - 1] == d[|d| - 1];
    if rc < 0 {
      assert d[|d| - 1] == NatToString(-rc)[|NatToString(-rc)| - 1];
    }
  }

  /** Different exit codes give different finished lines. */
  lemma FinishedLineDetermines(a: int, b: int)
    requires FinishedLine(a) == FinishedLine(b)
    ensures a == b
  {
    var prefix := "# Finished with exit code ";
    assert IntToString(a) == FinishedLine(a)[|prefix|..];
    assert IntToString(b) == FinishedLine(b)[|prefix|..];
    IntToStringInjective(a, b);
  }

  /** A starting line is never mistaken for a finished line. */
  lemma StartingIsNotFinished(argv: seq<string>, quote: string -> string, rc: int)
    ensures StartingLine(argv, quote) != FinishedLine(rc)
  {
    assert StartingLine(argv, quote)[2] == 'S';
    assert FinishedLine(rc)[2] == 'F';
  }

  /** The whole supervisor state: the broadcaster and the job slot. */
  datatype Panel = Panel(hub: Hub, slot: JobSlot)
  {
    ghost predicate Valid() {
      hub.Valid() && slot.WellFormed()
    }

    /**
     * `spawn_process(argv, raw)`. `launched` is what `subprocess.Popen` gave: a process,
     * or `None` when it raised; `now` is `time.time()`.
     */
    function Spawn(argv: seq<string>, raw: bool, quote: string -> string, launched: Option<ProcId>, now: Timestamp)
      : (r: (Panel, Result<ProcId, SpawnError>))
      requires hub.subscribers <= hub.queues.Keys
      ensures r.1 == Failure(AlreadyRunning) <==> slot.p.Some?
      ensures slot.p.Some? ==> r.0 == this
      ensures slot.p.None? ==> r.0.hub == hub.Broadcast(StartingLine(argv, quote))
      ensures r.1.Success? <==> slot.p.None? && launched.Some?
      ensures r.1 == Failure(SpawnFailure) ==> r.0.slot == slot
      ensures r.1.Success? ==>
        r.1.value == launched.value && r.0.slot == JobSlot(launched, Some(now), Some(argv), raw)
    {
      if slot.p.Some? then (this, Failure(AlreadyRunning))
      else
        var started := hub.Broadcast(StartingLine(argv, quote));
        match launched
        case None => (Panel(started, slot), Failure(SpawnFailure))
        case Some(p) => (Panel(started, JobSlot(Some(p), Some(now), Some(argv), raw)), Success(p))
    }

    /** The reader's loop: every output line, newline stripped, is broadcast in turn. */
    function ReadOutput(output: seq<string>): Panel
      requires hub.subscribers <= hub.queues.Keys
    {
      Panel(BroadcastAll(hub, output), slot)
    }

    /** The reader's `finally` step: broadcast the exit code, then empty the slot. */
    function Finish(rc: int): Panel
      requires hub.subscribers <= hub.queues.Keys
    {
      Panel(hub.Broadcast(FinishedLine(rc)), EmptySlot)
    }

    /** A whole reader run: its output, then the finish step. */
    function Reader(output: seq<string>, rc: int): Panel
      requires hub.subscribers <= hub.queues.Keys
    {
      ReadOutput(output).Finish(rc)
    }
  }

  /** Every supervisor step keeps the broadcaster valid and the slot well formed. */
  lemma SpawnValid(s: Panel, argv: seq<string>, raw: bool, quote: string -> string, launched: Option<ProcId>, now: Timestamp)
    requires s.Valid()
    ensures s.Spawn(argv, raw, quote, launched, now).0.Valid()
  {
    if s.slot.p.None? {
      BroadcastValid(s.hub, StartingLine(argv, quote));
    }
  }

  lemma {:induction false} BroadcastAllValid(h: Hub, lines: seq<string>)
    requires h.Valid()
    ensures BroadcastAll(h, lines).Valid()
  {
    if lines != [] {
      BroadcastAllValid(h, lines[..|lines| - 1]);
      BroadcastValid(BroadcastAll(h, lines[..|lines| - 1]), lines[|lines| - 1]);
    }
  }

  lemma ReaderValid(s: Panel, output: seq<string>, rc: int)
    requires s.Valid()
    ensures s.ReadOutput(output).Valid() && s.Reader(output, rc).Valid()
  {
    BroadcastAllValid(s.hub, output);
    BroadcastValid(BroadcastAll(s.hub, output), FinishedLine(rc));
  }

  /** The reader's broadcasts leave the newest lines of the old history, the output and the finished line. */
  lemma ReaderHistory(s: Panel, output: seq<string>, rc: int)
    requires s.Valid()
    ensures s.Reader(output, rc).hub.history
         == LastN(s.hub.history + StripAll(output) + [FinishedLine(rc)], LogHistoryMax)
  {
    var f := FinishedLine(rc);
    var prev := s.hub.history + StripAll(output);
    var mid := BroadcastAll(s.hub, output);
    HistoryKeepsNewest(s.hub, output);
    FinishedLineKept(rc);
    assert s.Reader(output, rc).hub == mid.Broadcast(f);
    LastNAppend(prev, f, LogHistoryMax);
  }

  /**
   * After the reader: the slot is empty, and the history ends with the output lines followed
   * by exactly one finished line; before that, the older history in order.
   */
  lemma ReaderFinishesLast(s: Panel, output: seq<string>, rc: int)
    requires s.Valid()
    requires |output| < LogHistoryMax
    ensures var r := s.Reader(output, rc);
      && r.slot == EmptySlot && !r.slot.Report().running
      && r.hub.history == LastN(s.hub.history + StripAll(output) + [FinishedLine(rc)], LogHistoryMax)
      && |r.hub.history| > |output|
      && r.hub.history[|r.hub.history| - |output| - 1..] == StripAll(output) + [FinishedLine(rc)]
  {
    var tail := StripAll(output) + [FinishedLine(rc)];
    var all := s.hub.history + tail;
    assert s.hub.history + StripAll(output) + [FinishedLine(rc)] == all;
    ReaderHistory(s, output, rc);
    LastNTail(all, LogHistoryMax, |tail|);
    assert all[|all| - |tail|..] == tail;
  }

  /** A second start while the first job runs is refused and leaves everything as it was. */
  lemma SecondSpawnRejected(s: Panel, a1: seq<string>, a2: seq<string>, raw1: bool, raw2: bool,
                            quote: string -> string, p1: ProcId, l2: Option<ProcId>, t1: Timestamp, t2: Timestamp)
    requires s.Valid() && s.slot.p.None?
    ensures var (s1, r1) := s.Spawn(a1, raw1, quote, Some(p1), t1);
      && r1 == Success(p1)
      && s1.Spawn(a2, raw2, quote, l2, t2) == (s1, Failure(AlreadyRunning))
  {
    SpawnValid(s, a1, raw1, quote, Some(p1), t1);
  }

  /** Once the reader has run, the slot is free again and a new start succeeds. */
  lemma SpawnAfterReader(s: Panel, output: seq<string>, rc: int, argv: seq<string>, raw: bool,
                         quote: string -> string, p: ProcId, now: Timestamp)
    requires s.Valid()
    ensures var r := s.Reader(output, rc);
      r.Spawn(argv, raw, quote, Some(p), now).1 == Success(p)
  {
    ReaderValid(s, output, rc);
  }

  /** Stop answers "stopping" for as long as the process runs, however much it prints, and "idle" after the reader. */
  lemma StopUntilFinished(s: Panel, output: seq<string>, rc: int)
    requires s.Valid() && s.slot.p.Some?
    ensures s.slot.StopReply() == Stopping
    ensures s.ReadOutput(output).slot.StopReply() == Stopping
    ensures s.Reader(output, rc).slot.StopReply() == Idle
  {
  }

  /** What a stream attached before a start receives from that job: the starting line, then its output and the finished line. */
  lemma {:induction false} StreamSeesWholeJob(s: Panel, q: QueueId, argv: seq<string>, raw: bool, quote: string -> string,
                                              p: ProcId, now: Timestamp, output: seq<string>, rc: int)
    requires s.Valid() && s.slot.p.None?
    requires q in s.hub.subscribers && |s.hub.queues[q]| + |output| + 2 <= QueueCapacity
    ensures var s2 := s.Spawn(argv, raw, quote, Some(p), now).0.Reader(output, rc);
      s2.hub.queues[q] == s.hub.queues[q] + [StripNewlines(StartingLine(argv, quote))] + StripAll(output) + [FinishedLine(rc)]
  {
    var start := StartingLine(argv, quote);
    var s1 := s.Spawn(argv, raw, quote, Some(p), now).0;
    BroadcastDelivery(s.hub, start, q);
    var q1 := s.hub.queues[q] + [StripNewlines(start)];
    assert q in s1.hub.subscribers && s1.hub.queues[q] == q1;
    SubscriberReceivesBurst(s1.hub, output, q);
    var mid := BroadcastAll(s1.hub, output);
    BroadcastDelivery(mid, FinishedLine(rc), q);
    FinishedLineKept(rc);
  }

  /**
   * A job that prints three lines `a`, `b`, `c` and exits with 0: running while it works, idle
   * afterwards, and the history ends with the three lines and the finished line.
   */
  lemma ThreeLineJob(s: Panel, argv: seq<string>, quote: string -> string, p: ProcId, now: Timestamp,
                     a: string, b: string, c: string)
    requires s.Valid() && s.slot == EmptySlot
    requires StripNewlines(a) == a && StripNewlines(b) == b && StripNewlines(c) == c
    ensures var (s1, r) := s.Spawn(argv, false, quote, Some(p), now);
      && r == Success(p) && s1.slot.Report().running
      && var s2 := s1.Reader([a, b, c], 0);
      && !s2.slot.Report().running
      && |s2.hub.history| >= 4
      && s2.hub.history[|s2.hub.history| - 4..] == [a, b, c, "# Finished with exit code 0"]
  {
    var output := [a, b, c];
    assert StripAll(output) == output;
    assert FinishedLine(0) == "# Finished with exit code 0";
    SpawnValid(s, argv, false, quote, Some(p), now);
    var s1 := s.Spawn(argv, false, quote, Some(p), now).0;
    ReaderFinishesLast(s1, output, 0);
  }

  /**
   * `current_proc` and the operations on it. The broadcaster is shared with the
   * streams; the supervisor only ever broadcasts to it.
   */
  class Supervisor {
    const log: Broadcaster
    var proc: Option<ProcId>
    var startTs: Option<Timestamp>
    var args: Option<seq<string>>
    var raw: bool

    function Slot(): JobSlot
      reads this
    {
      JobSlot(proc, startTs, args, raw)
    }

    function State(): Panel
      reads this, log
    {
      Panel(log.Model(), Slot())
    }

    ghost predicate Valid()
      reads this, log
    {
      log.Valid() && Slot().WellFormed()
    }

    constructor (log: Broadcaster)
      requires log.Valid()
      ensures Valid() && this.log == log && Slot() == EmptySlot
    {
      this.log := log;
      proc, startTs, args, raw := None, None, None, false;
    }

    /** `spawn_process(argv, raw)`; `launched` is the outcome of `subprocess.Popen`, `now` the clock. */
    method Spawn(argv: seq<string>, raw: bool, quote: string -> string, launched: Option<ProcId>, now: Timestamp)
      returns (r: Result<ProcId, SpawnError>)
      requires Valid()
      modifies this, log
      ensures Valid() && log.nextId == old(log.nextId)
      ensures (State(), r) == old(State()).Spawn(argv, raw, quote, launched, now)
    {
      if proc.Some? {
        return Failure(AlreadyRunning);
      }
      log.Broadcast(StartingLine(argv, quote));
      match launched {
        case None =>
          r := Failure(SpawnFailure);
        case Some(p) =>
          proc, startTs, args, this.raw := Some(p), Some(now), Some(argv), raw;
          r := Success(p);
      }
    }

    /** The reader's `finally` step after `p.wait()` returned `rc`. */
    method Finish(rc: int)
      requires Valid()
      modifies this, log
      ensures Valid() && log.nextId == old(log.nextId)
      ensures State() == old(State()).Finish(rc)
    {
      log.Broadcast(FinishedLine(rc));
      proc, startTs, args, raw := None, None, None, false;
    }

    /** The reader thread: forward each output line, then the finish step. */
    method Reader(output: seq<string>, rc: int)
      requires Valid()
      modifies this, log
      ensures Valid() && log.nextId == old(log.nextId)
      ensures State() == old(State()).Reader(output, rc)
    {
      var i := 0;
      while i < |output|
        invariant 0 <= i <= |output|
        invariant Valid() && log.nextId == old(log.nextId)
        invariant State() == old(State()).ReadOutput(output[..i])
      {
        StripNewlinesIdempotent(output[i]);
        assert output[..i + 1][..i] == output[..i];
        log.Broadcast(StripNewlines(output[i]));
        i := i + 1;
      }
      assert output[..i] == output;
      Finish(rc);
    }

    /** `api_stop`: "idle" on an empty slot, otherwise "stopping" with the slot left as it is. */
    method Stop() returns (reply: StopReply)
      ensures reply == Slot().StopReply()
      ensures reply == Idle <==> proc.None?
    {
      reply := if proc.None? then Idle else Stopping;
    }

    /** `api_status`: a snapshot of the slot that changes nothing. */
    method Status() returns (s: StatusReport)
      ensures s == Slot().Report()
      ensures s.running <==> proc.Some?
      ensures s.args == args && s.startTs == startTs
    {
      s := StatusReport(proc.Some?, args, startTs);
    }
  }
}

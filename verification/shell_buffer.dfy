/** The bounded, drop-oldest output buffer of an SSH or Docker shell. */
module ShellBuffer {
  import opened Basics

  /** `out` is the end of `s`: all of `s` when it fits, and otherwise `maxBuf` bytes.  A `maxBuf`
      that is not positive is no bound. */
  predicate EndsWith(s: seq<Byte>, out: seq<Byte>, maxBuf: int) {
    && |out| == (if maxBuf <= 0 || |s| <= maxBuf then |s| else maxBuf)
    && s[|s| - |out|..] == out
  }

  function Newest(s: seq<Byte>, maxBuf: int): (out: seq<Byte>)
    ensures EndsWith(s, out, maxBuf)
  {
    if maxBuf > 0 && |s| > maxBuf then s[|s| - maxBuf..] else s
  }

  class Buffer {
    var data: seq<Byte>
    const maxBuf: int
    /** Everything appended since the buffer was last taken. */
    ghost var since: seq<Byte>

    ghost predicate Valid()
      reads this
    {
      data == Newest(since, maxBuf)
    }

    constructor (maxBuf: int)
      ensures Valid() && this.maxBuf == maxBuf && since == []
    {
      this.maxBuf := maxBuf;
      data, since := [], [];
    }

    method Append(chunk: seq<Byte>)
      requires Valid()
      modifies this
      ensures Valid() && since == old(since) + chunk && EndsWith(since, data, maxBuf)
    {
      NewestOfNewest(since, chunk, maxBuf);
      data := data + chunk;
      if maxBuf > 0 && |data| > maxBuf {
        var drop := |data| - maxBuf;
        data := data[drop..];
      }
      since := since + chunk;
    }

    method Take() returns (out: seq<Byte>)
      requires Valid()
      modifies this
      ensures Valid() && since == [] && data == []
      ensures EndsWith(old(since), out, maxBuf)
    {
      out := data;
      data, since := [], [];
    }
  }

  /** Trimming early loses nothing that trimming late would keep. */
  lemma NewestOfNewest(s: seq<Byte>, chunk: seq<Byte>, maxBuf: int)
    ensures Newest(Newest(s, maxBuf) + chunk, maxBuf) == Newest(s + chunk, maxBuf)
  {
    if maxBuf > 0 && |s| > maxBuf {
      var d := |s| - maxBuf;
      assert (s + chunk)[d..] == s[d..] + chunk;
    }
  }

  // ------------------------------------------------------- whole histories

  datatype Op = Append(chunk: seq<Byte>) | Take

  function Last(ops: seq<Op>): Op
    requires ops != []
  {
    ops[|ops| - 1]
  }

  /** What the buffer does over a history: everything read, and what is left. */
  function Run(ops: seq<Op>, maxBuf: int): (seq<seq<Byte>>, seq<Byte>) {
    if ops == [] then ([], [])
    else
      var (outs, data) := Run(ops[..|ops| - 1], maxBuf);
      match Last(ops)
      case Append(chunk) => (outs, Newest(data + chunk, maxBuf))
      case Take => (outs + [data], [])
  }

  /** The stream cut at each take, and what came after the last one. */
  function Cut(ops: seq<Op>): (seq<seq<Byte>>, seq<Byte>) {
    if ops == [] then ([], [])
    else
      var (cuts, since) := Cut(ops[..|ops| - 1]);
      match Last(ops)
      case Append(chunk) => (cuts, since + chunk)
      case Take => (cuts + [since], [])
  }

  /** Every byte ever appended, in order. */
  function Stream(ops: seq<Op>): seq<Byte> {
    if ops == [] then []
    else Stream(ops[..|ops| - 1]) + (if Last(ops).Append? then Last(ops).chunk else [])
  }

  function Concat(parts: seq<seq<Byte>>): seq<Byte> {
    if parts == [] then [] else Concat(parts[..|parts| - 1]) + parts[|parts| - 1]
  }

  /** The cuts are the stream, whole and in order. */
  lemma {:induction false} CutIsStream(ops: seq<Op>)
    ensures Concat(Cut(ops).0) + Cut(ops).1 == Stream(ops)
  {
    if ops != [] {
      CutIsStream(ops[..|ops| - 1]);
      var (cuts, since) := Cut(ops[..|ops| - 1]);
      if Last(ops).Take? {
        assert (cuts + [since])[..|cuts|] == cuts;
      }
    }
  }

  lemma {:induction false} ReadsAreNewest(ops: seq<Op>, maxBuf: int)
    ensures |Run(ops, maxBuf).0| == |Cut(ops).0|
    ensures forall k :: 0 <= k < |Cut(ops).0| ==> Run(ops, maxBuf).0[k] == Newest(Cut(ops).0[k], maxBuf)
    ensures Run(ops, maxBuf).1 == Newest(Cut(ops).1, maxBuf)
  {
    NothingToTrim(maxBuf);
    hide EndsWith, Newest;
    if ops != [] {
      ReadsAreNewest(ops[..|ops| - 1], maxBuf);
      if Last(ops).Append? {
        NewestOfNewest(Cut(ops[..|ops| - 1]).1, Last(ops).chunk, maxBuf);
      }
    }
  }

  lemma NothingToTrim(maxBuf: int)
    ensures Newest([], maxBuf) == []
  {
  }

  /** The k-th read returns the newest bytes of the k-th cut, and the buffer those of the
      last: each byte is read once, dropped, or still buffered. */
  lemma {:induction false} BufferRefinesStream(ops: seq<Op>, maxBuf: int)
    ensures |Run(ops, maxBuf).0| == |Cut(ops).0|
    ensures forall k :: 0 <= k < |Cut(ops).0| ==> EndsWith(Cut(ops).0[k], Run(ops, maxBuf).0[k], maxBuf)
    ensures EndsWith(Cut(ops).1, Run(ops, maxBuf).1, maxBuf)
  {
    hide Run, Cut, Newest, EndsWith;
    ReadsAreNewest(ops, maxBuf);
  }

  /** When at most `maxBuf` bytes arrive between takes, what is read and what is left is the whole stream. */
  lemma LosslessWithinBound(ops: seq<Op>, maxBuf: int)
    requires maxBuf > 0 ==> |Cut(ops).1| <= maxBuf
    requires maxBuf > 0 ==> forall k :: 0 <= k < |Cut(ops).0| ==> |Cut(ops).0[k]| <= maxBuf
    ensures Concat(Run(ops, maxBuf).0) + Run(ops, maxBuf).1 == Stream(ops)
  {
    BufferRefinesStream(ops, maxBuf);
    assert Run(ops, maxBuf).0 == Cut(ops).0;
    CutIsStream(ops);
  }
}

/**
  Readers and pumps around the buffer.  The wake channel holds at most one token
  and is only a hint; each access to the buffer under its mutex is one step.
*/
module ShellWake {
  import opened Basics
  import opened ShellBuffer

  type Tid = nat

  datatype Outcome = Data(bytes: seq<Byte>) | Nothing | Eof

  /** Where a thread is: a reader about to check the buffer, about to load the closed
      flag, in the select, or about to drain after doneCh; a pump reading its source or
      about to signal. */
  datatype PC =
    | Check
    | Flag
    | Select
    | Drain
    | Returned(outcome: Outcome)
    | Pumping
    | Signal
    | Ended

  datatype State = State(
    data: seq<Byte>, token: bool, closed: bool, done: bool, threads: map<Tid, PC>,
    ops: seq<Op>, outs: seq<seq<Byte>>, takers: seq<Tid>)

  function Go(s: State, t: Tid, pc: PC): State {
    s.(threads := s.threads[t := pc])
  }

  /** The buffer taken under its mutex. */
  function Taken(s: State, t: Tid): State {
    s.(data := [], ops := s.ops + [Take], outs := s.outs + [s.data], takers := s.takers + [t])
  }

  ghost predicate ReaderStep(s: State, t: Tid, s': State)
    requires t in s.threads
  {
    match s.threads[t]
    case Check => s' == if s.data != [] then Go(Taken(s, t), t, Returned(Data(s.data))) else Go(s, t, Flag)
    case Flag =>
      if s.closed then s' == Go(s, t, Returned(Eof))
      else s' == Go(s, t, Returned(Nothing)) || s' == Go(s, t, Select)
    case Select =>
      || (s.token && s' == Go(s, t, Check).(token := false))
      || s' == Go(s, t, Returned(Nothing))
      || (s.done && s' == Go(s, t, Drain))
    case Drain => s' == Go(Taken(s, t), t, Returned(if s.data != [] then Data(s.data) else Eof))
    case _ => false
  }

  ghost predicate PumpStep(s: State, t: Tid, chunk: seq<Byte>, maxBuf: int, s': State)
    requires t in s.threads
  {
    match s.threads[t]
    case Pumping =>
      || (&& chunk != []
          && s' == Go(s, t, Signal).(data := Newest(s.data + chunk, maxBuf), ops := s.ops + [Append(chunk)]))
      || s' == Go(s, t, Ended)
    case Signal => s' == Go(s, t, Pumping).(token := true)
    case _ => false
  }

  ghost predicate Next(s: State, s': State, maxBuf: int) {
    || (exists t :: t in s.threads && ReaderStep(s, t, s'))
    || (exists t, chunk :: t in s.threads && PumpStep(s, t, chunk, maxBuf, s'))
    || (exists t: Tid :: t !in s.threads && (s' == Go(s, t, Check) || s' == Go(s, t, Pumping)))
    || s' == s.(closed := true)
    || (s.closed && s' == s.(done := true))
  }

  ghost predicate IsRun(run: seq<State>, maxBuf: int) {
    && |run| > 0
    && run[0] == State([], false, false, false, map[], [], [], [])
    && forall i :: 0 <= i < |run| - 1 ==> Next(run[i], run[i + 1], maxBuf)
  }

  ghost predicate SomeAt(s: State, pc: PC) {
    exists t :: t in s.threads && s.threads[t] == pc
  }

  /** Data in the buffer is announced, about to be announced, or about to be looked at. */
  ghost predicate Announced(s: State) {
    s.data != [] ==> s.token || SomeAt(s, Signal) || SomeAt(s, Check) || SomeAt(s, Drain)
  }

  /** The buffer and the reads are those of the history of appends and takes. */
  ghost predicate Faithful(s: State, maxBuf: int) {
    Run(s.ops, maxBuf) == (s.outs, s.data)
  }

  /** Each chunk taken has been returned by the one reader that took it, and nothing else has been returned. */
  ghost predicate Delivered(s: State) {
    && |s.takers| == |s.outs|
    && (forall k :: 0 <= k < |s.takers| ==>
          && s.takers[k] in s.threads
          && s.threads[s.takers[k]] == Returned(if s.outs[k] != [] then Data(s.outs[k]) else Eof))
    && (forall j, k :: 0 <= j < k < |s.takers| ==> s.takers[j] != s.takers[k])
    && (forall t :: t in s.threads && s.threads[t].Returned? && s.threads[t].outcome.Data? ==> t in s.takers)
  }

  ghost predicate Inv(s: State, maxBuf: int) {
    Announced(s) && Faithful(s, maxBuf) && Delivered(s)
  }

  lemma AfterTake(s: State, t: Tid, maxBuf: int)
    requires Faithful(s, maxBuf)
    ensures Faithful(Taken(s, t), maxBuf)
  {
    assert (s.ops + [Take])[..|s.ops|] == s.ops;
  }

  lemma AfterAppend(s: State, chunk: seq<Byte>, maxBuf: int)
    requires Faithful(s, maxBuf)
    ensures Run(s.ops + [Append(chunk)], maxBuf) == (s.outs, Newest(s.data + chunk, maxBuf))
  {
    assert (s.ops + [Append(chunk)])[..|s.ops|] == s.ops;
  }

  lemma ReaderAnnounces(s: State, t: Tid, s': State)
    requires Announced(s) && t in s.threads && ReaderStep(s, t, s')
    ensures Announced(s')
  {
    if s'.data != [] && !s'.token {
      if s.token {
        assert s'.threads[t] == Check;
      } else {
        StillThere(s, t, s');
      }
    }
  }

  /** Some thread is still at one of the counters that announce data, unless it is the one that moved. */
  lemma StillThere(s: State, t: Tid, s': State)
    requires SomeAt(s, Signal) || SomeAt(s, Check) || SomeAt(s, Drain)
    requires t in s.threads && s.threads[t] != Signal && s.threads[t] != Drain && s.threads[t] != Check
    requires t in s'.threads && s'.threads == s.threads[t := s'.threads[t]]
    ensures SomeAt(s', Signal) || SomeAt(s', Check) || SomeAt(s', Drain)
  {
    var pc := if SomeAt(s, Signal) then Signal else if SomeAt(s, Check) then Check else Drain;
    var u :| u in s.threads && s.threads[u] == pc;
    assert s'.threads[u] == pc;
  }

  predicate HasData(pc: PC) {
    pc.Returned? && pc.outcome.Data?
  }

  lemma DeliversNothing(s: State, s': State, t: Tid, pc: PC)
    requires Delivered(s) && t !in s.takers && !HasData(pc)
    requires s'.outs == s.outs && s'.takers == s.takers && s'.threads == s.threads[t := pc]
    ensures Delivered(s')
  {
  }

  lemma DeliversTaken(s: State, t: Tid)
    requires Delivered(s) && t !in s.takers
    ensures Delivered(Go(Taken(s, t), t, Returned(if s.data != [] then Data(s.data) else Eof)))
  {
  }

  lemma ReaderDelivers(s: State, t: Tid, s': State)
    requires Delivered(s) && t in s.threads && ReaderStep(s, t, s')
    ensures Delivered(s')
  {
    assert t !in s.takers;
    if s'.takers == s.takers {
      DeliversNothing(s, s', t, s'.threads[t]);
    } else {
      DeliversTaken(s, t);
    }
  }

  lemma ReaderKeeps(s: State, t: Tid, s': State, maxBuf: int)
    requires Faithful(s, maxBuf) && t in s.threads && ReaderStep(s, t, s')
    ensures Faithful(s', maxBuf)
  {
    AfterTake(s, t, maxBuf);
  }

  lemma PumpKeeps(s: State, t: Tid, chunk: seq<Byte>, s': State, maxBuf: int)
    requires Faithful(s, maxBuf) && Announced(s) && t in s.threads && PumpStep(s, t, chunk, maxBuf, s')
    ensures Faithful(s', maxBuf) && Announced(s')
  {
    AfterAppend(s, chunk, maxBuf);
    if s.threads[t].Pumping? {
      if s'.threads[t].Signal? {
        assert SomeAt(s', Signal);
      } else if s'.data != [] && !s'.token {
        StillThere(s, t, s');
      }
    }
  }

  lemma PumpDelivers(s: State, t: Tid, chunk: seq<Byte>, s': State, maxBuf: int)
    requires Delivered(s) && t in s.threads && PumpStep(s, t, chunk, maxBuf, s')
    ensures Delivered(s')
  {
    assert t !in s.takers;
    DeliversNothing(s, s', t, s'.threads[t]);
  }

  lemma BeginKeeps(s: State, t: Tid, pc: PC, maxBuf: int)
    requires Inv(s, maxBuf) && t !in s.threads && !pc.Returned?
    ensures Inv(Go(s, t, pc), maxBuf)
  {
    hide Run;
    var s' := Go(s, t, pc);
    assert forall u :: u in s.threads ==> s'.threads[u] == s.threads[u];
  }

  lemma FlagsKeep(s: State, s': State, maxBuf: int)
    requires Inv(s, maxBuf) && s' == s.(closed := s'.closed, done := s'.done)
    ensures Inv(s', maxBuf)
  {
    hide Run;
    assert SomeAt(s', Signal) <==> SomeAt(s, Signal);
    assert SomeAt(s', Check) <==> SomeAt(s, Check);
    assert SomeAt(s', Drain) <==> SomeAt(s, Drain);
  }

  /** No lost wakeup, and no byte read twice or out of order, in any run. */
  lemma {:induction false} NoLostWakeup(run: seq<State>, i: nat, maxBuf: int)
    requires IsRun(run, maxBuf) && i < |run|
    ensures Inv(run[i], maxBuf)
  {
    if i > 0 {
      hide ReaderStep, PumpStep, Announced, Faithful, Delivered;
      NoLostWakeup(run, i - 1, maxBuf);
      var s, s' := run[i - 1], run[i];
      assert Next(s, s', maxBuf);
      if t :| t in s.threads && ReaderStep(s, t, s') {
        ReaderKeeps(s, t, s', maxBuf);
        ReaderAnnounces(s, t, s');
        ReaderDelivers(s, t, s');
      } else if t, chunk :| t in s.threads && PumpStep(s, t, chunk, maxBuf, s') {
        PumpKeeps(s, t, chunk, s', maxBuf);
        PumpDelivers(s, t, chunk, s', maxBuf);
      } else if t: Tid :| t !in s.threads && (s' == Go(s, t, Check) || s' == Go(s, t, Pumping)) {
        BeginKeeps(s, t, s'.threads[t], maxBuf);
      } else {
        FlagsKeep(s, s', maxBuf);
      }
    }
  }

  /** A reader asleep beside data, when no pump is about to signal and no reader is about
      to look, has a token to wake it. */
  lemma SleeperCanWake(run: seq<State>, i: nat, t: Tid, maxBuf: int)
    requires IsRun(run, maxBuf) && i < |run| && t in run[i].threads && run[i].threads[t] == Select
    requires run[i].data != [] && !SomeAt(run[i], Signal) && !SomeAt(run[i], Check) && !SomeAt(run[i], Drain)
    ensures ReaderStep(run[i], t, Go(run[i], t, Check).(token := false))
  {
    NoLostWakeup(run, i, maxBuf);
  }

  /** A reader that returned data returned one of the chunks taken, and no other reader returned that one. */
  lemma EachChunkReturnedOnce(run: seq<State>, i: nat, t: Tid, bytes: seq<Byte>, maxBuf: int)
    requires IsRun(run, maxBuf) && i < |run| && t in run[i].threads && run[i].threads[t] == Returned(Data(bytes))
    ensures exists k :: 0 <= k < |run[i].outs| && run[i].outs[k] == bytes && |run[i].takers| == |run[i].outs|
                        && forall j :: 0 <= j < |run[i].takers| ==> (run[i].takers[j] == t <==> j == k)
  {
    NoLostWakeup(run, i, maxBuf);
    var k :| 0 <= k < |run[i].takers| && run[i].takers[k] == t;
    assert run[i].outs[k] == bytes;
  }

  /** What all readers together returned, in the order they took the buffer, and what is
      left, is the newest part of each stretch of the pumps' output. */
  lemma ReadsFollowStream(run: seq<State>, i: nat, maxBuf: int)
    requires IsRun(run, maxBuf) && i < |run|
    ensures var (cuts, since) := Cut(run[i].ops);
      && |run[i].outs| == |cuts|
      && (forall k :: 0 <= k < |cuts| ==> EndsWith(cuts[k], run[i].outs[k], maxBuf))
      && EndsWith(since, run[i].data, maxBuf)
      && Concat(cuts) + since == Stream(run[i].ops)
  {
    NoLostWakeup(run, i, maxBuf);
    BufferRefinesStream(run[i].ops, maxBuf);
    CutIsStream(run[i].ops);
  }
}

/**
  The launcher's dispatcher: a goroutine that feeds lines into a channel of
  capacity 16, the main loop that posts each line from a goroutine of its own, a
  semaphore of 128, a wait group, and the first failure kept by a sync.Once.
  Lines are numbered in source order.
*/
module Dispatcher {
  import opened Wrappers
  import opened Basics

  type Line = nat
  type Error = nat

  const MAX_IN_FLIGHT := 128
  const LINE_BUFFER := 16

  /** What the feeding goroutine reports when it ends: the end of the source, another read
      error, its context's error, or nothing because a post has failed. */
  datatype End = Eof | Other(e: Error) | Cancelled | Quiet

  datatype Feeder = Reading | Sending(line: Line) | Reported | FeederGone

  datatype Reason = ByContext | ByFatal | ByEnd(end: End)

  datatype Result = Nil | Fatal(e: Error) | ReadError(e: Error) | ContextError

  datatype MainPC = Select | Acquire(line: Line) | Wait(reason: Reason) | Returned(result: Result)

  /** A posting goroutine: posting, about to call setFatal, inside its Once, about to free
      its place in the semaphore, about to leave the wait group, and finished. */
  datatype Worker = Posting | Failing(e: Error) | InOnce | Freeing(ok: bool) | Leaving(ok: bool) | Finished(ok: bool)

  /** The feeding goroutine and its two channels; `taken` counts the lines read from the source, and `ended`
      remembers what was reported. */
  datatype Feed = Feed(
    taken: nat, feeder: Feeder, queue: seq<Line>, closed: bool, readDone: Option<End>, ended: Option<End>)

  /** The semaphore, the wait group and the posting goroutines. */
  datatype Posts = Posts(sem: nat, wg: nat, workers: map<Line, Worker>)

  /** The first failure, its Once and the channel it closes; `reported` is every call of setFatal, in order. */
  datatype Failure = Failure(first: Option<Error>, onceBusy: bool, closed: bool, reported: seq<Error>)

  datatype State = State(
    feed: Feed, main: MainPC, dispatched: seq<Line>, posts: Posts, failure: Failure, cancelled: bool)

  const Initial: State := State(
    Feed(0, Reading, [], false, None, None), Select, [], Posts(0, 0, map[]), Failure(None, false, false, []), false)

  // ------------------------------------------------------- steps

  ghost predicate Feeds(s: State, f: Feed) {
    var f0 := s.feed;
    match f0.feeder
    case Reading =>
      || f == f0.(feeder := Sending(f0.taken), taken := f0.taken + 1)
      || f == f0.(feeder := Reported, readDone := Some(Eof), ended := Some(Eof))
      || (exists e :: f == f0.(feeder := Reported, readDone := Some(Other(e)), ended := Some(Other(e))))
      || (s.cancelled && f == f0.(feeder := Reported, readDone := Some(Cancelled), ended := Some(Cancelled)))
      || (s.failure.closed && f == f0.(feeder := Reported, readDone := Some(Quiet), ended := Some(Quiet)))
    case Sending(line) =>
      || (|f0.queue| < LINE_BUFFER && f == f0.(feeder := Reading, queue := f0.queue + [line]))
      || (s.cancelled && f == f0.(feeder := Reported, readDone := Some(Cancelled), ended := Some(Cancelled)))
      || (s.failure.closed && f == f0.(feeder := Reported, readDone := Some(Quiet), ended := Some(Quiet)))
    case Reported => f == f0.(feeder := FeederGone, closed := true)
    case FeederGone => false
  }

  ghost predicate FeederStep(s: State, s': State) {
    s' == s.(feed := s'.feed) && Feeds(s, s'.feed)
  }

  /** What readStdin returns once the wait group is empty. */
  function Outcome(f: Failure, reason: Reason): Result {
    if f.first.Some? then Fatal(f.first.value)
    else
      match reason
      case ByContext => ContextError
      case ByFatal => Nil
      case ByEnd(Eof) => Nil
      case ByEnd(Quiet) => Nil
      case ByEnd(Cancelled) => ContextError
      case ByEnd(Other(e)) => ReadError(e)
  }

  ghost predicate MainStep(s: State, s': State) {
    var f, p := s.feed, s.posts;
    match s.main
    case Select =>
      || (s.cancelled && s' == s.(main := Wait(ByContext)))
      || (s.failure.closed && s' == s.(main := Wait(ByFatal)))
      || (f.readDone.Some? && s' == s.(main := Wait(ByEnd(f.readDone.value)), feed := f.(readDone := None)))
      || (f.queue != []
          && s' == s.(main := Acquire(f.queue[0]), feed := f.(queue := f.queue[1..]), posts := p.(wg := p.wg + 1)))
      || (f.closed && f.queue == [] && s' == s)
    case Acquire(line) =>
      || (p.sem < MAX_IN_FLIGHT
          && s' == s.(main := Select, dispatched := s.dispatched + [line],
                      posts := p.(sem := p.sem + 1, workers := p.workers[line := Posting])))
      || ((s.failure.closed || s.cancelled) && p.wg > 0 && s' == s.(main := Select, posts := p.(wg := p.wg - 1)))
    case Wait(reason) => p.wg == 0 && s' == s.(main := Returned(Outcome(s.failure, reason)))
    case Returned(_) => false
  }

  function Put(p: Posts, line: Line, w: Worker): Posts {
    p.(workers := p.workers[line := w])
  }

  /** A posting goroutine up to the end of setFatal. */
  ghost predicate Works(p: Posts, f: Failure, line: Line, p': Posts, f': Failure)
    requires line in p.workers
  {
    match p.workers[line]
    case Posting => f' == f && (p' == Put(p, line, Freeing(true)) || exists e :: p' == Put(p, line, Failing(e)))
    case Failing(e) =>
      && !f.onceBusy
      && p' == Put(p, line, if f.first.None? then InOnce else Freeing(false))
      && f' == if f.first.None? then f.(first := Some(e), onceBusy := true, reported := f.reported + [e])
               else f.(reported := f.reported + [e])
    case InOnce => p' == Put(p, line, Freeing(false)) && f' == f.(onceBusy := false, closed := true)
    case Freeing(ok) => p.sem > 0 && p' == Put(p, line, Leaving(ok)).(sem := p.sem - 1) && f' == f
    case Leaving(ok) => p.wg > 0 && p' == Put(p, line, Finished(ok)).(wg := p.wg - 1) && f' == f
    case Finished(_) => false
  }

  ghost predicate WorkerStep(s: State, line: Line, s': State)
    requires line in s.posts.workers
  {
    s' == s.(posts := s'.posts, failure := s'.failure) && Works(s.posts, s.failure, line, s'.posts, s'.failure)
  }

  ghost predicate Next(s: State, s': State) {
    || FeederStep(s, s')
    || MainStep(s, s')
    || (exists line :: line in s.posts.workers && WorkerStep(s, line, s'))
    || s' == s.(cancelled := true)
  }

  ghost predicate IsRun(run: seq<State>) {
    && |run| > 0 && run[0] == Initial
    && forall i :: 0 <= i < |run| - 1 ==> Next(run[i], run[i + 1])
  }

  // ------------------------------------------------------- counting

  predicate InSem(w: Worker) {
    !w.Leaving? && !w.Finished?
  }

  predicate InGroup(w: Worker) {
    !w.Finished?
  }

  /** Goroutines holding a place in the semaphore: every post in flight is one. */
  function Holders(ws: map<Line, Worker>): set<Line> {
    set l | l in ws && InSem(ws[l])
  }

  function Members(ws: map<Line, Worker>): set<Line> {
    set l | l in ws && InGroup(ws[l])
  }

  predicate Counted(p: Posts, main: MainPC) {
    && p.sem == |Holders(p.workers)| <= MAX_IN_FLIGHT
    && p.wg == |Members(p.workers)| + One(main.Acquire?)
    && (main.Returned? ==> p.wg == 0)
  }

  // ------------------------------------------------------- order

  predicate Increasing(ls: seq<Line>) {
    forall i, j :: 0 <= i < j < |ls| ==> ls[i] < ls[j]
  }

  function MainHand(m: MainPC): seq<Line> {
    if m.Acquire? then [m.line] else []
  }

  function FeederHand(f: Feeder): seq<Line> {
    if f.Sending? then [f.line] else []
  }

  /** Every line taken and not abandoned, from the first dispatched to the last read. */
  function Pipeline(s: State): seq<Line> {
    Lines(s.dispatched, s.main, s.feed.queue, s.feed.feeder)
  }

  function Lines(dispatched: seq<Line>, main: MainPC, queue: seq<Line>, feeder: Feeder): seq<Line> {
    dispatched + (MainHand(main) + (queue + FeederHand(feeder)))
  }

  function Upto(n: nat): seq<Line> {
    seq(n, i => i)
  }

  ghost predicate Ordered(s: State) {
    && Increasing(Pipeline(s))
    && (forall l :: l in Pipeline(s) ==> l < s.feed.taken)
    && (!s.failure.closed && !s.cancelled ==> Pipeline(s) == Upto(s.feed.taken))
    && (forall l :: l in s.posts.workers <==> l in s.dispatched)
  }

  // ------------------------------------------------------- failure

  predicate HasFailed(w: Worker) {
    (w.Freeing? || w.Leaving? || w.Finished?) && !w.ok
  }

  ghost predicate FirstKept(p: Posts, f: Failure) {
    && (f.first.Some? <==> f.reported != [])
    && (f.first.Some? ==> f.first.value == f.reported[0])
    && (f.closed ==> f.first.Some?)
    && (forall l :: l in p.workers && (HasFailed(p.workers[l]) || p.workers[l].InOnce?) ==> f.first.Some?)
  }

  /** The reason to stop is real: a quiet end and a closed channel only follow a failure. */
  predicate Excused(s: State, reason: Reason) {
    && (reason.ByFatal? || reason == ByEnd(Quiet) ==> s.failure.first.Some?)
    && (reason.ByContext? || reason == ByEnd(Cancelled) ==> s.cancelled)
    && (reason.ByEnd? ==> s.feed.ended == Some(reason.end))
  }

  ghost predicate ReasonsKept(s: State) {
    && (s.feed.readDone.Some? ==> Excused(s, ByEnd(s.feed.readDone.value)))
    && (s.feed.ended.Some? ==> s.feed.feeder.Reported? || s.feed.feeder.FeederGone?)
    && (s.main.Wait? ==> Excused(s, s.main.reason))
    && (s.main.Returned? ==>
          && (s.main.result.Fatal? <==> s.failure.first.Some?)
          && (s.main.result.Fatal? ==> s.failure.first == Some(s.main.result.e))
          && (s.main.result.Nil? ==> s.feed.ended == Some(Eof))
          && (s.main.result.ReadError? ==> s.feed.ended == Some(Other(s.main.result.e)))
          && (s.main.result.ContextError? ==> s.cancelled))
  }

  ghost predicate Inv(s: State) {
    Counted(s.posts, s.main) && Ordered(s) && FirstKept(s.posts, s.failure) && ReasonsKept(s)
  }

  // ------------------------------------------------------- every step keeps it

  /** One goroutine added, or moved on. */
  lemma CountChanges(ws: map<Line, Worker>, line: Line, w: Worker)
    ensures Holders(ws[line := w]) == if InSem(w) then Holders(ws) + {line} else Holders(ws) - {line}
    ensures Members(ws[line := w]) == if InGroup(w) then Members(ws) + {line} else Members(ws) - {line}
  {
  }

  /** The same lines in the same order, wherever they are. */
  lemma SamePipeline(s: State, s': State)
    requires Ordered(s) && Pipeline(s') == Pipeline(s) && s'.feed.taken == s.feed.taken
    requires s.failure.closed ==> s'.failure.closed
    requires s.cancelled ==> s'.cancelled
    requires forall l :: l in s'.posts.workers <==> l in s'.dispatched
    ensures Ordered(s')
  {
  }

  /** A line dropped on the way, which happens only after a failure or a cancellation. */
  lemma Abandoned(s: State, s': State, xs: seq<Line>, line: Line, ys: seq<Line>)
    requires Ordered(s) && Pipeline(s) == xs + [line] + ys && Pipeline(s') == xs + ys
    requires s'.feed.taken == s.feed.taken && (s'.failure.closed || s'.cancelled)
    requires s'.posts.workers == s.posts.workers && s'.dispatched == s.dispatched
    ensures Ordered(s')
  {
    forall i, j | 0 <= i < j < |xs + ys| ensures (xs + ys)[i] < (xs + ys)[j] {
      var p := Pipeline(s);
      assert (xs + ys)[i] == p[if i < |xs| then i else i + 1];
      assert (xs + ys)[j] == p[if j < |xs| then j else j + 1];
    }
    forall l | l in Pipeline(s') ensures l < s'.feed.taken {
      assert l in Pipeline(s);
    }
  }

  lemma FeederTakes(s: State, s': State)
    requires Ordered(s) && s.feed.feeder.Reading?
    requires s' == s.(feed := s.feed.(feeder := Sending(s.feed.taken), taken := s.feed.taken + 1))
    ensures Ordered(s')
  {
    assert Pipeline(s') == Pipeline(s) + [s.feed.taken];
    assert Upto(s.feed.taken + 1) == Upto(s.feed.taken) + [s.feed.taken];
    forall i, j | 0 <= i < j < |Pipeline(s')| ensures Pipeline(s')[i] < Pipeline(s')[j] {
      assert Pipeline(s')[i] in Pipeline(s);
    }
  }

  lemma FeederOrdered(s: State, s': State)
    requires Ordered(s) && FeederStep(s, s')
    ensures Ordered(s')
  {
    var f, f' := s.feed, s'.feed;
    if f.feeder.Reading? && f'.feeder.Sending? {
      FeederTakes(s, s');
    } else if f.feeder.Sending? && f'.feeder.Reported? {
      var xs := s.dispatched + (MainHand(s.main) + f.queue);
      assert Pipeline(s) == xs + [f.feeder.line] + [];
      assert Pipeline(s') == xs + [];
      Abandoned(s, s', xs, f.feeder.line, []);
    } else {
      assert f'.queue + FeederHand(f'.feeder) == f.queue + FeederHand(f.feeder);
      SamePipeline(s, s');
    }
  }

  lemma FeederKeeps(s: State, s': State)
    requires ReasonsKept(s) && FirstKept(s.posts, s.failure) && FeederStep(s, s')
    ensures ReasonsKept(s')
  {
  }

  lemma MainOrdered(s: State, s': State)
    requires Ordered(s) && MainStep(s, s')
    ensures Ordered(s')
  {
    var queue := s.feed.queue;
    var tail := queue + FeederHand(s.feed.feeder);
    if s.main.Select? && s'.main.Acquire? {
      assert [queue[0]] + (queue[1..] + FeederHand(s.feed.feeder)) == tail;
      SamePipeline(s, s');
    } else if s.main.Acquire? {
      var line := s.main.line;
      if s'.dispatched != s.dispatched {
        assert s.dispatched + [line] + ([] + tail) == s.dispatched + ([line] + tail);
        SamePipeline(s, s');
      } else {
        assert Pipeline(s) == s.dispatched + [line] + tail;
        assert Pipeline(s') == s.dispatched + tail;
        Abandoned(s, s', s.dispatched, line, tail);
      }
    } else {
      SamePipeline(s, s');
    }
  }

  /** The line in the main loop's hand has not been dispatched. */
  lemma HandIsNew(s: State)
    requires Ordered(s) && s.main.Acquire?
    ensures s.main.line !in s.posts.workers
  {
    var p := Pipeline(s);
    assert p[|s.dispatched|] == s.main.line;
    forall k | 0 <= k < |s.dispatched| ensures s.dispatched[k] < s.main.line {
      assert p[k] == s.dispatched[k];
    }
  }

  lemma MainCounted(s: State, s': State)
    requires Ordered(s) && Counted(s.posts, s.main) && MainStep(s, s')
    ensures Counted(s'.posts, s'.main)
  {
    if s.main.Acquire? {
      HandIsNew(s);
      CountChanges(s.posts.workers, s.main.line, Posting);
    }
  }

  lemma MainFailures(s: State, s': State)
    requires ReasonsKept(s) && FirstKept(s.posts, s.failure) && MainStep(s, s')
    ensures ReasonsKept(s') && FirstKept(s'.posts, s'.failure)
  {
  }

  lemma WorkerCounted(p: Posts, f: Failure, line: Line, p': Posts, f': Failure, main: MainPC)
    requires Counted(p, main) && line in p.workers && Works(p, f, line, p', f')
    ensures Counted(p', main) && !main.Returned?
  {
    var w' := p'.workers[line];
    assert p'.workers == p.workers[line := w'];
    CountChanges(p.workers, line, w');
    assert line in Members(p.workers);
    assert InSem(p.workers[line]) ==> line in Holders(p.workers);
  }

  lemma WorkerFailures(p: Posts, f: Failure, line: Line, p': Posts, f': Failure)
    requires FirstKept(p, f) && line in p.workers && Works(p, f, line, p', f')
    ensures FirstKept(p', f') && (f.first.Some? ==> f'.first == f.first)
  {
  }

  lemma WorkerKeeps(s: State, line: Line, s': State)
    requires Inv(s) && line in s.posts.workers && WorkerStep(s, line, s')
    ensures Inv(s')
  {
    WorkerCounted(s.posts, s.failure, line, s'.posts, s'.failure, s.main);
    WorkerFailures(s.posts, s.failure, line, s'.posts, s'.failure);
    WorkerLines(s, line, s');
    SamePipeline(s, s');
  }

  lemma WorkerLines(s: State, line: Line, s': State)
    requires line in s.posts.workers && WorkerStep(s, line, s')
    ensures s'.posts.workers.Keys == s.posts.workers.Keys
    ensures s.failure.closed ==> s'.failure.closed
  {
  }

  lemma {:induction false} RunInv(run: seq<State>, i: nat)
    requires IsRun(run) && i < |run|
    ensures Inv(run[i])
  {
    if i > 0 {
      RunInv(run, i - 1);
      var s, s' := run[i - 1], run[i];
      assert Next(s, s');
      if FeederStep(s, s') {
        FeederOrdered(s, s');
        FeederKeeps(s, s');
      } else if MainStep(s, s') {
        MainOrdered(s, s');
        MainCounted(s, s');
        MainFailures(s, s');
      } else if line :| line in s.posts.workers && WorkerStep(s, line, s') {
        WorkerKeeps(s, line, s');
      } else {
        SamePipeline(s, s');
      }
    }
  }

  // ------------------------------------------------------- the contract

  /** At most 128 posts at once. */
  lemma BoundedInFlight(run: seq<State>, i: nat, posts: set<Line>)
    requires IsRun(run) && i < |run|
    requires forall l :: l in posts ==> l in run[i].posts.workers && run[i].posts.workers[l].Posting?
    ensures |posts| <= 128
  {
    RunInv(run, i);
    assert posts <= Holders(run[i].posts.workers);
    SubsetSize(posts, Holders(run[i].posts.workers));
  }

  lemma {:induction false} SubsetSize(a: set<Line>, b: set<Line>)
    requires a <= b
    ensures |a| <= |b|
  {
    if a != {} {
      var x :| x in a;
      SubsetSize(a - {x}, b - {x});
    }
  }

  /** Lines are dispatched in source order, each at most once, and until a failure or a
      cancellation none that was taken has been left out. */
  lemma DispatchedInOrder(run: seq<State>, i: nat)
    requires IsRun(run) && i < |run|
    ensures forall j, k :: 0 <= j < k < |run[i].dispatched| ==> run[i].dispatched[j] < run[i].dispatched[k]
    ensures !run[i].failure.closed && !run[i].cancelled ==> Pipeline(run[i]) == Upto(run[i].feed.taken)
    ensures !run[i].failure.closed && !run[i].cancelled ==> run[i].dispatched == Upto(|run[i].dispatched|)
  {
    RunInv(run, i);
    var s := run[i];
    var p := Pipeline(s);
    forall j, k | 0 <= j < k < |s.dispatched| ensures s.dispatched[j] < s.dispatched[k] {
      assert p[j] == s.dispatched[j] && p[k] == s.dispatched[k];
    }
    if !s.failure.closed && !s.cancelled {
      assert s.dispatched == p[..|s.dispatched|];
    }
  }

  /** When readStdin has returned no post is in flight; it returned nil only if every post
      dispatched succeeded, and a failure it returned is the first that was reported. */
  lemma ReturnContract(run: seq<State>, i: nat)
    requires IsRun(run) && i < |run| && run[i].main.Returned?
    ensures forall l :: l in run[i].dispatched ==> l in run[i].posts.workers && run[i].posts.workers[l].Finished?
    ensures run[i].main.result.Nil? ==> forall l :: l in run[i].dispatched ==> run[i].posts.workers[l] == Finished(true)
    ensures run[i].main.result.Nil? ==> run[i].feed.ended == Some(Eof)
    ensures run[i].main.result.ReadError? ==> run[i].feed.ended == Some(Other(run[i].main.result.e))
    ensures run[i].main.result.ContextError? ==> run[i].cancelled
    ensures run[i].main.result.Fatal? <==> run[i].failure.reported != []
    ensures run[i].main.result.Fatal? ==> run[i].main.result.e == run[i].failure.reported[0]
  {
    RunInv(run, i);
    var s := run[i];
    assert Members(s.posts.workers) == {};
    forall l | l in s.dispatched ensures l in s.posts.workers && s.posts.workers[l].Finished? {
      assert l !in Members(s.posts.workers);
    }
    if s.main.result.Nil? {
      forall l | l in s.dispatched ensures s.posts.workers[l] == Finished(true) {
        assert !HasFailed(s.posts.workers[l]);
      }
    }
  }
}

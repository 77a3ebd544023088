/**
  The debounced state flusher: mutators that ask for a flush through a channel of
  capacity one, the loop with its resettable timer, and Stop, which joins the loop
  before it writes for the last time.  Time is in milliseconds.

  A mutation is a number, and a snapshot is the set of mutations it has seen.
  Capturing takes time: it sees every mutation made before it began, and may or
  may not see those made meanwhile.
*/
module Flusher {
  import opened Wrappers
  import opened Basics

  type Mutation = nat

  const DEBOUNCE := 200

  /** A timer is active until it expires; expiring puts a value in its channel. */
  datatype Timer = Timer(deadline: nat, active: bool, value: bool)

  function NewTimer(now: nat): Timer {
    Timer(now + DEBOUNCE, true, false)
  }

  /** Stop, drain the channel when Stop came too late, and Reset. */
  function Restart(t: Timer, now: nat): Timer {
    var drained := if t.active then t.value else false;
    Timer(now + DEBOUNCE, true, drained)
  }

  datatype Writer = Resting | Capturing(seen: set<Mutation>) | Saving(snap: set<Mutation>) | Gone

  /** A write of the loop: when it landed, how many tokens had been consumed by then, and when the last. */
  datatype Write = Write(at: nat, consumed: nat, request: nat)

  datatype State = State(
    now: nat,
    live: set<Mutation>, file: set<Mutation>,
    // mutations whose tool call has not reached Persist yet
    unasked: set<Mutation>,
    // the request channel, the loop's timer and timerC, the stop channel
    token: bool, timer: Option<Timer>, timerC: bool, stopping: bool,
    loop: Writer, stop: Writer,
    // history
    asked: nat, consumed: nat, request: nat, writes: seq<Write>, saveFailed: bool, atStop: Option<set<Mutation>>)

  const Initial: State := State(
    0, {}, {}, {}, false, None, false, false, Resting, Resting, 0, 0, 0, [], false, None)

  /** Tool calls: change the state, then call Persist; and the passing of time. */
  ghost predicate Outside(s: State, s': State) {
    || (exists m :: m !in s.live && s' == s.(live := s.live + {m}, unasked := s.unasked + {m}))
    || (exists m :: m in s.unasked && s' == s.(unasked := s.unasked - {m}, token := true, asked := s.asked + 1))
    || s' == s.(token := true, asked := s.asked + 1)
    || s' == s.(now := s.now + 1)
    || (s.timer.Some? && s.timer.value.active && s.timer.value.deadline <= s.now
        && s' == s.(timer := Some(s.timer.value.(active := false, value := true))))
  }

  /** One turn of the loop's select. */
  ghost predicate Selects(s: State, s': State) {
    && s.loop.Resting?
    && (|| (s.stopping && s' == s.(loop := Gone))
        || (s.token && s' == s.(token := false, consumed := s.consumed + 1, request := s.now,
                                timer := Some(if s.timer.None? then NewTimer(s.now) else Restart(s.timer.value, s.now)),
                                timerC := true))
        || (s.timerC && s.timer.Some? && s.timer.value.value
            && s' == s.(timerC := false, timer := None, loop := Capturing(s.live))))
  }

  /** The loop's flush. */
  ghost predicate Fires(s: State, s': State) {
    || (exists snap :: s.loop.Capturing? && s.loop.seen <= snap <= s.live && s' == s.(loop := Saving(snap)))
    || (s.loop.Saving?
        && s' == s.(loop := Resting, file := s.loop.snap, writes := s.writes + [Write(s.now, s.consumed, s.request)]))
    || (s.loop.Saving? && s' == s.(loop := Resting, saveFailed := true))
  }

  /** Stop: close the channel, wait for the loop, capture and save. */
  ghost predicate Stops(s: State, s': State) {
    || (!s.stopping && s' == s.(stopping := true))
    || (s.stopping && s.loop.Gone? && s.stop.Resting?
        && s' == s.(stop := Capturing(s.live), atStop := Some(s.live)))
    || (exists snap :: s.stop.Capturing? && s.stop.seen <= snap <= s.live && s' == s.(stop := Saving(snap)))
    || (s.stop.Saving? && s' == s.(stop := Gone, file := s.stop.snap))
    || (s.stop.Saving? && s' == s.(stop := Gone, saveFailed := true))
  }

  ghost predicate Next(s: State, s': State) {
    Outside(s, s') || Selects(s, s') || Fires(s, s') || Stops(s, s')
  }

  ghost predicate IsRun(run: seq<State>) {
    && |run| > 0 && run[0] == Initial
    && forall i :: 0 <= i < |run| - 1 ==> Next(run[i], run[i + 1])
  }

  // ------------------------------------------------------- what holds throughout

  /** Something still to come will write mutation `m`, or Stop has begun. */
  predicate Due(s: State, m: Mutation) {
    || m in s.unasked
    || s.token
    || s.timer.Some?
    || (s.loop.Capturing? && m in s.loop.seen)
    || (s.loop.Saving? && m in s.loop.snap)
    || s.stopping
  }

  ghost predicate NothingLost(s: State) {
    !s.saveFailed ==> forall m :: m in s.live && m !in s.file ==> Due(s, m)
  }

  /** A writer's snapshot is never behind the file. */
  predicate Ahead(w: Writer, s: State) {
    && (w.Capturing? ==> s.file <= w.seen <= s.live)
    && (w.Saving? ==> s.file <= w.snap <= s.live)
  }

  /** The loop is joined before Stop writes, and Stop's write covers what was live when it began. */
  predicate OneWriter(s: State) {
    && s.file <= s.live
    && Ahead(s.loop, s) && Ahead(s.stop, s)
    && (s.loop.Gone? ==> s.stopping)
    && (!s.stop.Resting? ==> s.loop.Gone? && s.atStop.Some?)
    && (s.stop.Capturing? ==> s.atStop.value <= s.stop.seen)
    && (s.stop.Saving? ==> s.atStop.value <= s.stop.snap)
    && (s.stop.Gone? && !s.saveFailed ==> s.atStop.value <= s.file)
  }

  predicate Firing(s: State) {
    s.loop.Capturing? || s.loop.Saving?
  }

  /** Each write uses up a token of its own, and each token a call of Persist. */
  predicate Counted(s: State) {
    && s.timerC == s.timer.Some?
    && !(s.timer.Some? && Firing(s))
    && |s.writes| + One(Firing(s)) + One(s.timer.Some?) <= s.consumed
    && s.consumed + One(s.token) <= s.asked
  }

  predicate Apart(w: Write, w': Write) {
    w.at + DEBOUNCE <= w'.at && w.consumed < w'.consumed
  }

  /** The write came when nothing had been asked for a while. */
  predicate Quiet(w: Write) {
    w.request + DEBOUNCE <= w.at
  }

  predicate AllApart(ws: seq<Write>) {
    forall i :: 0 < i < |ws| ==> Apart(ws[i - 1], ws[i])
  }

  /** The last write is at least the debounce before the timer, and before now once the timer has fired. */
  predicate Spaced(s: State) {
    && (s.timer.Some? && s.timer.value.value ==> !s.timer.value.active && s.timer.value.deadline <= s.now)
    && (s.timer.Some? ==> s.request + DEBOUNCE <= s.timer.value.deadline)
    && (Firing(s) ==> s.request + DEBOUNCE <= s.now)
    && (forall i :: 0 <= i < |s.writes| ==> Quiet(s.writes[i]))
    && (s.writes != [] ==>
          var last := s.writes[|s.writes| - 1];
          && last.at <= s.now
          && (s.timer.Some? ==> last.at + DEBOUNCE <= s.timer.value.deadline)
          && (Firing(s) ==> last.at + DEBOUNCE <= s.now)
          && last.consumed + One(s.timer.Some? || Firing(s)) <= s.consumed)
  }

  ghost predicate Inv(s: State) {
    NothingLost(s) && OneWriter(s) && Counted(s) && Spaced(s) && AllApart(s.writes)
  }

  lemma OutsideSaves(s: State, s': State)
    requires NothingLost(s) && OneWriter(s) && Outside(s, s')
    ensures NothingLost(s') && OneWriter(s')
  {
    forall m | !s'.saveFailed && m in s'.live && m !in s'.file ensures Due(s', m) {
      assert m in s.live && m !in s.file ==> Due(s, m);
    }
  }

  lemma OutsidePaced(s: State, s': State)
    requires Counted(s) && Spaced(s) && AllApart(s.writes) && Outside(s, s')
    ensures Counted(s') && Spaced(s') && AllApart(s'.writes)
  {
  }

  lemma SelectsSaves(s: State, s': State)
    requires NothingLost(s) && OneWriter(s) && Selects(s, s')
    ensures NothingLost(s') && OneWriter(s')
  {
    forall m | !s'.saveFailed && m in s'.live && m !in s'.file ensures Due(s', m) {
      assert m in s.live && m !in s.file ==> Due(s, m);
    }
  }

  lemma SelectsPaced(s: State, s': State)
    requires Counted(s) && Spaced(s) && AllApart(s.writes) && Selects(s, s')
    ensures Counted(s') && Spaced(s') && AllApart(s'.writes)
  {
  }

  lemma FiresSaves(s: State, s': State)
    requires NothingLost(s) && OneWriter(s) && Fires(s, s')
    ensures NothingLost(s') && OneWriter(s')
  {
    forall m | !s'.saveFailed && m in s'.live && m !in s'.file ensures Due(s', m) {
      assert m in s.live && m !in s.file ==> Due(s, m);
    }
  }

  lemma FiresPaced(s: State, s': State)
    requires Counted(s) && Spaced(s) && AllApart(s.writes) && Fires(s, s')
    ensures Counted(s') && Spaced(s') && AllApart(s'.writes)
  {
  }

  lemma StopsSaves(s: State, s': State)
    requires NothingLost(s) && OneWriter(s) && Stops(s, s')
    ensures NothingLost(s') && OneWriter(s')
  {
    forall m | !s'.saveFailed && m in s'.live && m !in s'.file ensures Due(s', m) {
      assert m in s.live && m !in s.file ==> Due(s, m);
    }
  }

  lemma StopsPaced(s: State, s': State)
    requires Counted(s) && Spaced(s) && AllApart(s.writes) && Stops(s, s')
    ensures Counted(s') && Spaced(s') && AllApart(s'.writes)
  {
    assert s' == s.(stopping := s'.stopping, stop := s'.stop, file := s'.file, saveFailed := s'.saveFailed,
                    atStop := s'.atStop);
    hide Stops;
  }

  lemma {:induction false} RunInv(run: seq<State>, i: nat)
    requires IsRun(run) && i < |run|
    ensures Inv(run[i])
  {
    if i > 0 {
      RunInv(run, i - 1);
      var s, s' := run[i - 1], run[i];
      assert Next(s, s');
      if Outside(s, s') {
        OutsideSaves(s, s');
        OutsidePaced(s, s');
      } else if Selects(s, s') {
        SelectsSaves(s, s');
        SelectsPaced(s, s');
      } else if Fires(s, s') {
        FiresSaves(s, s');
        FiresPaced(s, s');
      } else {
        StopsSaves(s, s');
        StopsPaced(s, s');
      }
    }
  }

  // ------------------------------------------------------- the promises

  /** While every Save succeeds, a mutation missing from the file is still due to be written. */
  lemma NoUpdateLost(run: seq<State>, i: nat, m: Mutation)
    requires IsRun(run) && i < |run| && !run[i].saveFailed && m in run[i].live && m !in run[i].file
    ensures Due(run[i], m)
  {
    RunInv(run, i);
  }

  /** An idle flusher - no request, timer or flush outstanding and no tool call between its
      change and its request - has everything on disk. */
  lemma IdleMeansSaved(run: seq<State>, i: nat)
    requires IsRun(run) && i < |run|
    requires
      var s := run[i];
      !s.saveFailed && s.unasked == {} && !s.token && s.timer.None? && s.loop.Resting? && !s.stopping
    ensures run[i].file == run[i].live
  {
    RunInv(run, i);
    assert forall m :: m in run[i].live && m !in run[i].file ==> Due(run[i], m);
  }

  /** After Stop the file holds everything that was live when its last capture began; without
      further mutations it is the live state. */
  lemma StopSavesAll(run: seq<State>, i: nat)
    requires IsRun(run) && i < |run| && run[i].stop.Gone? && !run[i].saveFailed
    ensures run[i].loop.Gone? && run[i].atStop.Some?
    ensures run[i].atStop.value <= run[i].file <= run[i].live
    ensures run[i].live == run[i].atStop.value ==> run[i].file == run[i].live
  {
    RunInv(run, i);
  }

  lemma {:induction false} SpacedApart(run: seq<State>, i: nat, j: nat, k: nat)
    requires IsRun(run) && i < |run| && j <= k < |run[i].writes|
    ensures run[i].writes[j].at + (k - j) * 200 <= run[i].writes[k].at
    ensures run[i].writes[j].consumed + (k - j) <= run[i].writes[k].consumed
    decreases k - j
  {
    if j < k {
      SpacedApart(run, i, j, k - 1);
      RunInv(run, i);
      assert Apart(run[i].writes[k - 1], run[i].writes[k]);
    }
  }

  /** The loop writes at most once per debounce interval, consumes a token between two writes,
      and never writes more often than Persist was called. */
  lemma WritesAreDebounced(run: seq<State>, i: nat)
    requires IsRun(run) && i < |run|
    ensures |run[i].writes| <= run[i].asked
    ensures forall j :: 0 <= j < |run[i].writes| ==> run[i].writes[j].request + 200 <= run[i].writes[j].at
    ensures forall j, k :: 0 <= j < k < |run[i].writes| ==>
      && run[i].writes[j].at + (k - j) * 200 <= run[i].writes[k].at
      && run[i].writes[j].consumed + (k - j) <= run[i].writes[k].consumed
  {
    RunInv(run, i);
    assert forall j :: 0 <= j < |run[i].writes| ==> Quiet(run[i].writes[j]);
    forall j, k | 0 <= j < k < |run[i].writes|
      ensures run[i].writes[j].at + (k - j) * 200 <= run[i].writes[k].at
      ensures run[i].writes[j].consumed + (k - j) <= run[i].writes[k].consumed
    {
      SpacedApart(run, i, j, k);
    }
  }
}

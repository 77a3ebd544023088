/** What becomes of a forward's listener once the forward is marked closed. */
module SessionListeners {
  import opened Wrappers
  import opened SessionProtocol
  import opened SessionInvariants
  import opened SessionSteps
  import opened SessionTheorems
  import opened SessionOverlap
  import opened SessionRuns

  predicate MarkedClosed(s: State, f: Fid) {
    f in s.fwds.all && Closed(s.fwds.all[f])
  }

  /** The thread has found `f` not closed, under its bindMu, and is about to swap a new listener in. */
  predicate Swapping(s: State, t: Tid, f: Fid) {
    t in s.threads && s.threads[t].pc.Rebind? && s.threads[t].pc.rebind.RbSwap? && Working(s.threads[t].pc.rb, f)
  }

  ghost predicate SomeSwapping(s: State, f: Fid) {
    exists t :: Swapping(s, t, f)
  }

  /** `f` is closed with the same listener, and nobody is about to give it another. */
  ghost predicate Fixed(s: State, s': State, f: Fid)
    requires f in s.fwds.all
  {
    MarkedClosed(s', f) && s'.fwds.all[f].listener == s.fwds.all[f].listener && !SomeSwapping(s', f)
  }

  /** What a step of `t` does to the listener of `f`, and who comes to be about to swap. */
  ghost predicate KeepsListener(s: State, s': State, t: Tid, f: Fid) {
    && (f in s.fwds.all && f in s'.fwds.all && !Swapping(s, t, f) ==> s'.fwds.all[f].listener == s.fwds.all[f].listener)
    && (Swapping(s', t, f) ==> Swapping(s, t, f) || !MarkedClosed(s, f))
  }

  lemma CloseKeepsListener(s: State, t: Tid, c: Choice, s': State, f: Fid)
    requires t in s.threads && s.threads[t].pc.Close? && CloseStep(s, t, c, s')
    ensures KeepsListener(s, s', t, f)
  {
  }

  lemma OpenKeepsListener(s: State, t: Tid, c: Choice, s': State, f: Fid)
    requires t in s.threads && s.threads[t].pc.Open? && OpenStep(s, t, c, s')
    ensures KeepsListener(s, s', t, f)
  {
  }

  lemma CancelKeepsListener(s: State, t: Tid, c: Choice, s': State, f: Fid)
    requires t in s.threads && s.threads[t].pc.Cancel? && CancelStep(s, t, c, s')
    ensures KeepsListener(s, s', t, f)
  {
  }

  lemma RebindKeepsListener(s: State, t: Tid, c: Choice, s': State, f: Fid)
    requires t in s.threads && s.threads[t].pc.Rebind? && RebindStep(s, t, c, s')
    ensures KeepsListener(s, s', t, f)
  {
  }

  lemma RestKeepsListener(s: State, t: Tid, c: Choice, s': State, f: Fid)
    requires Step(s, t, c, s') && !s.threads[t].pc.Rebind? && !s.threads[t].pc.Close? && !s.threads[t].pc.Open?
    requires !s.threads[t].pc.Cancel?
    ensures KeepsListener(s, s', t, f)
  {
  }

  /** A step changes the listener of a forward only from the swap of a rebind that works on it. */
  lemma StepKeepsListener(s: State, t: Tid, c: Choice, s': State, f: Fid)
    requires Step(s, t, c, s')
    ensures KeepsListener(s, s', t, f)
  {
    hide KeepsListener;
    match s.threads[t].pc
    case Close(_) => CloseKeepsListener(s, t, c, s', f);
    case Open(_, _, _) => OpenKeepsListener(s, t, c, s', f);
    case Cancel(_) => CancelKeepsListener(s, t, c, s', f);
    case Rebind(_, _) => RebindKeepsListener(s, t, c, s', f);
    case _ => RestKeepsListener(s, t, c, s', f);
  }

  lemma StepFixes(s: State, t: Tid, c: Choice, s': State, f: Fid)
    requires Inv(s) && Step(s, t, c, s') && MarkedClosed(s, f) && !SomeSwapping(s, f)
    ensures Fixed(s, s', f)
  {
    StepHere(s, t, c, s');
    assert ThreadOk(s, t);
    hide Inv, Step, ThreadOk, Global, Locks;
    StepFwds(s, t, c, s');
    StepKeepsListener(s, t, c, s', f);
    StepOwn(s, t, c, s');
    NewOnesIdle(s, t, c, s');
    assert !Swapping(s, t, f);
    forall u ensures !Swapping(s', u, f) {
      if u in s.threads && u != t {
        assert !Swapping(s, u, f);
      }
    }
  }

  lemma NextFixes(s: State, s': State, f: Fid)
    requires Inv(s) && Next(s, s', true) && MarkedClosed(s, f) && !SomeSwapping(s, f)
    ensures Fixed(s, s', f)
  {
    hide Inv, Step;
    if t, c :| Step(s, t, c, s') {
      StepFixes(s, t, c, s', f);
    } else {
      var t, th :| Begin(s, t, th, true, s');
      forall u ensures !Swapping(s', u, f) {
        assert !Swapping(s, u, f);
      }
    }
  }

  /** Once a forward is marked closed and no rebind is about to swap its listener, it stays closed with
      that listener, and no rebind comes to be about to swap it. */
  lemma {:induction false} ClosedForwardIsFixed(run: seq<State>, i: nat, j: nat, f: Fid)
    requires IsRun(run, true) && i <= j < |run|
    requires MarkedClosed(run[i], f) && !SomeSwapping(run[i], f)
    ensures Fixed(run[i], run[j], f)
    decreases j - i
  {
    hide Inv, IsRun, SomeSwapping;
    if i < j {
      ClosedForwardIsFixed(run, i, j - 1, f);
      RunInv(run, j - 1);
      Follows(run, j - 1);
      NextFixes(run[j - 1], run[j], f);
    }
  }

  /** The run can go on as `more`, at the end of which `f` has another listener. */
  ghost predicate CanChange(run: seq<State>, more: seq<State>, f: Fid) {
    && IsRun(run + more, true)
    && f in Last(run).fwds.all && f in Last(run + more).fwds.all
    && Last(run + more).fwds.all[f].listener != Last(run).fwds.all[f].listener
  }

  lemma NewListenerDiffers(s: State, t: Tid, f: Fid)
    requires Inv(s) && Swapping(s, t, f)
    ensures f in s.fwds.all && s.fwds.all[f].listener.id != s.threads[t].pc.rebind.ln.id
  {
    assert ThreadOk(s, t);
    HeldIsNotBound(s.fwds, t, s.threads[t].pc, f);
  }

  lemma HeldIsNotBound(w: Fwds, t: Tid, pc: PC, f: Fid)
    requires FwdsOk(w) && ListenersOk(w, t, pc) && f in w.all && pc.Rebind? && pc.rebind.RbSwap?
    ensures w.all[f].listener.id != pc.rebind.ln.id
  {
    assert ForwardOk(w, f);
    assert HandListener(pc) == Some(pc.rebind.ln.id);
    assert At(w.place, pc.rebind.ln.id, InHand(t));
  }

  /** The swap of a thread about to make it installs a listener other than the one there. */
  lemma SwapChanges(s: State, t: Tid, f: Fid) returns (s': State)
    requires f in s.fwds.all && Swapping(s, t, f) && s.fwds.all[f].listener.id != s.threads[t].pc.rebind.ln.id
    ensures Step(s, t, Plain, s')
    ensures f in s'.fwds.all && s'.fwds.all[f].listener != s.fwds.all[f].listener
  {
    hide Move, Free;
    var rb, ln := s.threads[t].pc.rb, s.threads[t].pc.rebind.ln;
    var pc := Rebind(rb.(moved := rb.moved + {f}), RbDrop(s.fwds.all[f].listener));
    s' := Go(s, t, pc).(fwds := Swap(s.fwds, f, t, ln));
  }

  /** A forward marked closed can still be given another listener exactly when some rebind has already
      found it not closed and is about to swap. */
  lemma ClosedForwardExactly(run: seq<State>, f: Fid)
    requires IsRun(run, true) && MarkedClosed(Last(run), f)
    ensures (exists more :: CanChange(run, more, f)) <==> SomeSwapping(Last(run), f)
  {
    var n := |run|;
    assert n > 0;
    if t :| Swapping(Last(run), t, f) {
      RunInv(run, n - 1);
      hide IsRun, Inv, Step;
      NewListenerDiffers(Last(run), t, f);
      var s' := SwapChanges(Last(run), t, f);
      var run' := Extend(run, t, Plain, s', true);
      assert CanChange(run, [s'], f);
    } else {
      hide IsRun, Inv, Step;
      forall more ensures !CanChange(run, more, f) {
        if IsRun(run + more, true) {
          assert (run + more)[n - 1] == Last(run) && |run + more| >= n;
          ClosedForwardIsFixed(run + more, n - 1, |run + more| - 1, f);
        }
      }
    }
  }
}

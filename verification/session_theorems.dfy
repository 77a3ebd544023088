/** What the session protocol promises, over every run. */
module SessionTheorems {
  import opened Wrappers
  import opened Basics
  import opened SessionProtocol
  import opened SessionInvariants
  import opened SessionUpdates
  import opened SessionSteps

  // ------------------------------------------------------- conservation

  ghost predicate HeldBy(s: State, r: Res, t: Tid) {
    t in s.threads && r in Hand(s.threads[t].pc)
  }

  ghost predicate HeldBySome(s: State, r: Res) {
    exists t :: HeldBy(s, r, t)
  }

  ghost predicate Installed(s: State, r: Res) {
    s.conns.client.Some? && r in All(s.conns.client.value)
  }

  ghost predicate Cached(s: State, r: Res) {
    s.conns.sftp.Some? && s.conns.sftp.value.id == r
  }

  /** `r` is in exactly one place: one thread's hand, the installed transport, the
      SFTP cache, or closed, and then closed once. */
  ghost predicate InOnePlace(s: State, r: Res) {
    && One(HeldBySome(s, r)) + One(Installed(s, r)) + One(Cached(s, r)) + s.conns.closes[r] == 1
    && (forall t, u :: HeldBy(s, r, t) && HeldBy(s, r, u) ==> t == u)
    && (forall t :: t in s.threads ==> NoDup(Hand(s.threads[t].pc)))
    && (s.conns.client.Some? ==> NoDup(All(s.conns.client.value)))
  }

  /** Every connection opened so far, and no other, is in exactly one place. */
  ghost predicate ConnectionsConserved(s: State) {
    forall r :: if r in s.conns.place then InOnePlace(s, r) else
      !HeldBySome(s, r) && !Installed(s, r) && !Cached(s, r) && s.conns.closes[r] == 0
  }

  /** The histories agree with the program's own variables. */
  ghost predicate Owned(s: State) {
    && ConnsOk(s.conns)
    && (forall t :: t in s.threads ==> HandOk(s.conns.place, t, s.threads[t].pc))
    && (forall r, t :: At(s.conns.place, r, InHand(t)) ==> t in s.threads)
  }

  lemma HeldMeansPlaced(s: State, r: Res)
    requires Owned(s)
    ensures forall t :: HeldBy(s, r, t) <==> At(s.conns.place, r, InHand(t))
  {
    forall t ensures HeldBy(s, r, t) <==> At(s.conns.place, r, InHand(t)) {
      if t in s.threads {
        assert HandOk(s.conns.place, t, s.threads[t].pc);
      }
    }
  }

  lemma OwnedConserves(s: State)
    requires Owned(s)
    ensures ConnectionsConserved(s)
  {
    forall r ensures if r in s.conns.place then InOnePlace(s, r) else
        !HeldBySome(s, r) && !Installed(s, r) && !Cached(s, r) && s.conns.closes[r] == 0
    {
      HeldMeansPlaced(s, r);
      assert Installed(s, r) <==> At(s.conns.place, r, InTransport);
      assert Cached(s, r) <==> At(s.conns.place, r, InSftp);
      if r in s.conns.place {
        var p := s.conns.place[r];
        assert At(s.conns.place, r, p);
        if p.InHand? {
          assert HeldBy(s, r, p.t);
        }
      }
    }
  }

  /** In every run, each dialed client, jump client and SFTP client is in exactly one place. */
  lemma TransportsConserved(run: seq<State>, i: nat)
    requires IsRun(run, true) && i < |run|
    ensures ConnectionsConserved(run[i])
  {
    RunInv(run, i);
    assert forall t :: t in run[i].threads ==> ThreadOk(run[i], t);
    OwnedConserves(run[i]);
  }

  /** setClient never replaces a client that is still installed. */
  lemma NeverOverwrites(run: seq<State>, i: nat, t: Tid)
    requires IsRun(run, true) && i < |run| && t in run[i].threads && Storing(run[i].threads[t].pc)
    ensures run[i].conns.client.None?
  {
    RunInv(run, i);
    assert ThreadOk(run[i], t);
  }

  // ------------------------------------------------------- the unguarded race

  /** The write of setClient: what the thread held is installed, and it holds nothing. */
  ghost predicate Stores(s: State, t: Tid, s': State) {
    && t in s.threads && Storing(s.threads[t].pc)
    && s'.conns == InstallClient(s.conns, s.threads[t].pc.install.t)
    && t in s'.threads && Hand(s'.threads[t].pc) == []
    && s'.threads.Keys == s.threads.Keys
    && (forall u :: u in s.threads && u != t ==> s'.threads[u] == s.threads[u])
  }

  lemma StoreShape(s: State, t: Tid, c: Choice, s': State)
    requires t in s.threads && Storing(s.threads[t].pc) && Step(s, t, c, s')
    ensures Stores(s, t, s')
  {
  }

  lemma StoreKeepsOwned(s: State, t: Tid, s': State)
    requires Owned(s) && Stores(s, t, s') && s.conns.client.None?
    ensures Owned(s')
  {
    assert HandOk(s.conns.place, t, s.threads[t].pc);
    InstallOk(s.conns, t, s.threads[t].pc.install.t, s'.threads[t].pc);
    forall u | u in s'.threads ensures HandOk(s'.conns.place, u, s'.threads[u].pc) {
      assert HandOk(s.conns.place, u, s.threads[u].pc);
    }
  }

  lemma StoreLoses(s: State, t: Tid, s': State)
    requires Owned(s) && Stores(s, t, s') && s.conns.client.Some?
    ensures !ConnectionsConserved(s')
  {
    var lost := s.conns.client.value.client;
    assert lost in All(s.conns.client.value);
    assert At(s.conns.place, lost, InTransport);
    assert lost !in All(s.threads[t].pc.install.t) by {
      assert HandOk(s.conns.place, t, s.threads[t].pc);
      assert !At(s.conns.place, lost, InHand(t));
    }
    HeldMeansPlaced(s, lost);
    assert forall u :: HeldBy(s', lost, u) ==> HeldBy(s, lost, u);
    assert !At(s.conns.place, lost, InSftp) && !At(s.conns.place, lost, Shut);
    assert !Installed(s', lost) && !Cached(s', lost) && lost in s'.conns.place;
    assert !InOnePlace(s', lost);
  }

  /** setClient on an open session loses track of a connection exactly when a
      client is already installed. */
  lemma InstallLosesExactly(s: State, t: Tid, c: Choice, s': State)
    requires Owned(s) && t in s.threads && Storing(s.threads[t].pc) && Step(s, t, c, s')
    ensures ConnectionsConserved(s') <==> s.conns.client.None?
  {
    StoreShape(s, t, c, s');
    if s.conns.client.None? {
      StoreKeepsOwned(s, t, s');
      OwnedConserves(s');
    } else {
      StoreLoses(s, t, s');
    }
  }

  // ------------------------------------------------------- SFTP cache

  /** The cached SFTP client was built on the client now installed, and neither is closed. */
  lemma SftpCoherent(run: seq<State>, i: nat)
    requires IsRun(run, true) && i < |run| && run[i].conns.sftp.Some?
    ensures run[i].conns.client.Some? && run[i].conns.client.value.client == run[i].conns.sftp.value.on
    ensures run[i].conns.closes[run[i].conns.sftp.value.id] == 0
    ensures forall r :: r in All(run[i].conns.client.value) ==> run[i].conns.closes[r] == 0
  {
    RunInv(run, i);
    var c := run[i].conns;
    assert At(c.place, c.sftp.value.id, InSftp);
    assert forall r :: r in All(c.client.value) ==> At(c.place, r, InTransport);
  }

  // ------------------------------------------------------- close is final

  /** The thread that won the session's closed flag has returned from close. */
  predicate CloseCompleted(s: State) {
    && s.gate.closedBy.Some? && s.gate.closedBy.value in s.threads
    && s.threads[s.gate.closedBy.value].pc.Done?
  }

  /** Nothing is left on the session, and every keepalive has been told to stop. */
  predicate Emptied(s: State) {
    && s.conns.client.None? && s.conns.sftp.None? && s.gate.cancel.None?
    && s.fwds.named == map[] && s.shells == {}
    && (forall t :: t in s.threads && s.threads[t].role.Keepalive? ==> s.threads[t].role.ctx in s.gate.cancelled)
  }

  lemma CompletedIsEmptied(s: State)
    requires Inv(s) && CloseCompleted(s)
    ensures Emptied(s)
  {
    var w := s.gate.closedBy.value;
    assert ThreadOk(s, w) && s.gate.phase == 8;
    forall t | t in s.threads && s.threads[t].role.Keepalive? ensures s.threads[t].role.ctx in s.gate.cancelled {
      assert ThreadOk(s, t);
    }
  }

  lemma StepCompletes(s: State, t: Tid, c: Choice, s': State)
    requires Inv(s) && CloseCompleted(s) && Step(s, t, c, s')
    ensures CloseCompleted(s')
  {
    StepHere(s, t, c, s');
    assert ThreadOk(s, t);
    hide Step;
    StepKeeps(s, t, c, s');
    hide ThreadOk, Inv, Global;
  }

  lemma CompletedPersists(s: State, s': State)
    requires Inv(s) && CloseCompleted(s) && Next(s, s', true)
    ensures CloseCompleted(s')
  {
    hide Inv, Step;
    if t, c :| Step(s, t, c, s') {
      StepCompletes(s, t, c, s');
    }
  }

  lemma Follows(run: seq<State>, i: nat)
    requires IsRun(run, true) && i + 1 < |run|
    ensures Next(run[i], run[i + 1], true)
  {
  }

  /** Once close has completed the session stays empty for ever, whatever other
      threads were in the middle of doing. */
  lemma {:induction false} CloseIsFinal(run: seq<State>, i: nat, j: nat)
    requires IsRun(run, true) && i <= j < |run| && CloseCompleted(run[i])
    ensures CloseCompleted(run[j]) && Emptied(run[j])
    decreases j - i
  {
    hide IsRun, Inv, Next, CloseCompleted, Emptied;
    if i < j {
      CloseIsFinal(run, i, j - 1);
      RunInv(run, j - 1);
      Follows(run, j - 1);
      CompletedPersists(run[j - 1], run[j]);
    }
    RunInv(run, j);
    CompletedIsEmptied(run[j]);
  }

  // ------------------------------------------------------- listeners

  ghost predicate ListenerHeldBy(s: State, r: Res, t: Tid) {
    t in s.threads && HandListener(s.threads[t].pc) == Some(r)
  }

  ghost predicate ListenerHeldBySome(s: State, r: Res) {
    exists t :: ListenerHeldBy(s, r, t)
  }

  /** `r` is the installed listener of a forward that has not been shut. */
  ghost predicate Listening(s: State, r: Res, f: Fid) {
    f in s.fwds.all && s.fwds.all[f].listener.id == r && !s.fwds.all[f].flag.Over?
  }

  ghost predicate ListeningSome(s: State, r: Res) {
    exists f :: Listening(s, r, f)
  }

  ghost predicate ListenerInOnePlace(s: State, r: Res) {
    && One(ListenerHeldBySome(s, r)) + One(ListeningSome(s, r)) + s.fwds.closes[r] == 1
    && (forall t, u :: ListenerHeldBy(s, r, t) && ListenerHeldBy(s, r, u) ==> t == u)
    && (forall f, g :: Listening(s, r, f) && Listening(s, r, g) ==> f == g)
  }

  ghost predicate ListenersConserved(s: State) {
    forall r :: if r in s.fwds.place then ListenerInOnePlace(s, r) else
      !ListenerHeldBySome(s, r) && !ListeningSome(s, r) && s.fwds.closes[r] == 0
  }

  lemma ListenerPlaced(s: State, r: Res)
    requires Inv(s)
    ensures forall t :: ListenerHeldBy(s, r, t) <==> At(s.fwds.place, r, InHand(t))
    ensures forall f :: Listening(s, r, f) <==> At(s.fwds.place, r, Bound(f))
  {
    forall t ensures ListenerHeldBy(s, r, t) <==> At(s.fwds.place, r, InHand(t)) {
      if t in s.threads {
        assert ThreadOk(s, t);
      }
    }
    forall f ensures Listening(s, r, f) <==> At(s.fwds.place, r, Bound(f)) {
      if f in s.fwds.all {
        assert ForwardOk(s.fwds, f);
      }
    }
  }

  /** In every run each listener obtained is in one thread's hand, or the listener of
      one forward, or closed, and then closed once. */
  lemma ListenersAreConserved(run: seq<State>, i: nat)
    requires IsRun(run, true) && i < |run|
    ensures ListenersConserved(run[i])
  {
    RunInv(run, i);
    assert ClosesOk(run[i].fwds.place, run[i].fwds.closes);
    hide IsRun, Inv;
    forall r {
      ListenerConserved(run[i], r);
    }
  }

  /** A listener is where its history says. */
  lemma ListenerConserved(s: State, r: Res)
    requires Inv(s) && ClosesOk(s.fwds.place, s.fwds.closes)
    ensures if r in s.fwds.place then ListenerInOnePlace(s, r) else
      !ListenerHeldBySome(s, r) && !ListeningSome(s, r) && s.fwds.closes[r] == 0
  {
    ListenerPlaced(s, r);
    ListenerSomewhere(s, r);
    hide Inv, ListenerHeldBy, Listening, ListenerHeldBySome, ListeningSome;
  }

  lemma ListenerSomewhere(s: State, r: Res)
    requires forall t :: ListenerHeldBy(s, r, t) <==> At(s.fwds.place, r, InHand(t))
    requires forall f :: Listening(s, r, f) <==> At(s.fwds.place, r, Bound(f))
    requires ClosesOk(s.fwds.place, s.fwds.closes) && !At(s.fwds.place, r, InTransport) && !At(s.fwds.place, r, InSftp)
    ensures ListenerHeldBySome(s, r) <==> r in s.fwds.place && s.fwds.place[r].InHand?
    ensures ListeningSome(s, r) <==> r in s.fwds.place && s.fwds.place[r].Bound?
    ensures s.fwds.closes[r] == One(r in s.fwds.place && s.fwds.place[r].Shut?)
    ensures r in s.fwds.place ==> s.fwds.place[r].InHand? || s.fwds.place[r].Bound? || s.fwds.place[r].Shut?
  {
    hide ListenerHeldBy, Listening;
    if r in s.fwds.place {
      var p := s.fwds.place[r];
      assert At(s.fwds.place, r, p);
      assert p.InHand? ==> ListenerHeldBy(s, r, p.t);
      assert p.Bound? ==> Listening(s, r, p.f);
    }
  }

  lemma StepFwds(s: State, t: Tid, c: Choice, s': State)
    requires Global(s) && t in s.threads && ThreadOk(s, t) && Step(s, t, c, s')
    ensures s'.fwds == s.fwds || FwdsKept(s.fwds, s'.fwds, t)
  {
    StepKeeps(s, t, c, s');
  }

  lemma OverPersists(run: seq<State>, i: nat, f: Fid)
    requires IsRun(run, true) && i + 1 < |run| && f in run[i].fwds.all && run[i].fwds.all[f].flag.Over?
    ensures f in run[i + 1].fwds.all && run[i + 1].fwds.all[f] == run[i].fwds.all[f]
  {
    RunInv(run, i);
    var s, s' := run[i], run[i + 1];
    assert Next(s, s', true);
    if t, c :| Step(s, t, c, s') {
      StepFwds(s, t, c, s');
    }
  }

  /** Once a forward's Close has shut its listener, no rebind installs another. */
  lemma {:induction false} ShutForwardStaysShut(run: seq<State>, i: nat, j: nat, f: Fid)
    requires IsRun(run, true) && i <= j < |run|
    requires f in run[i].fwds.all && run[i].fwds.all[f].flag.Over?
    ensures f in run[j].fwds.all && run[j].fwds.all[f] == run[i].fwds.all[f]
    decreases j - i
  {
    hide IsRun;
    if i < j {
      ShutForwardStaysShut(run, i, j - 1, f);
      OverPersists(run, j - 1, f);
    }
  }

  /** A rebind that reaches the end of its snapshot on a session nobody has closed has
      every remote forward nobody has cancelled, and whose Listen did not fail, on the
      client now installed. */
  lemma RebindLands(run: seq<State>, i: nat, t: Tid, f: Fid)
    requires IsRun(run, true) && i < |run| && t in run[i].threads && run[i].threads[t].pc.Rebind?
    requires
      var rb := run[i].threads[t].pc.rb;
      rb.next == |rb.snapshot| && f in rb.snapshot && f !in rb.failed
    requires run[i].gate.closedBy.None?
    ensures
      var s := run[i];
      && f in s.fwds.all && s.conns.client.Some?
      && (s.fwds.all[f].remote && !Closed(s.fwds.all[f]) ==>
            s.fwds.all[f].listener.on == Some(s.conns.client.value.client))
  {
    RunInv(run, i);
    assert ThreadOk(run[i], t);
    var rb := run[i].threads[t].pc.rb;
    var k :| 0 <= k < rb.next && rb.snapshot[k] == f;
    assert Settled(run[i].fwds, run[i].gate, rb, rb.snapshot[k]);
  }

  // ------------------------------------------------------- nothing leaks

  /** Once every thread of a closed session has finished, each connection and each
      listener ever obtained has been closed exactly once, and nothing else was. */
  lemma QuietMeansAllClosed(run: seq<State>, i: nat)
    requires IsRun(run, true) && i < |run| && run[i].gate.closedBy.Some?
    requires forall t :: t in run[i].threads ==> run[i].threads[t].pc.Done?
    ensures forall r :: run[i].conns.closes[r] == if r in run[i].conns.place then 1 else 0
    ensures forall r :: run[i].fwds.closes[r] == if r in run[i].fwds.place then 1 else 0
  {
    RunInv(run, i);
    hide IsRun;
    TransportsConserved(run, i);
    QuietHoldsNothing(run[i]);
    ListenersAreConserved(run, i);
    QuietListensNowhere(run[i]);
    hide Inv, ListenerHeldBySome, ListeningSome, HeldBySome, Installed, Cached;
  }

  lemma QuietHoldsNothing(s: State)
    requires Inv(s) && s.gate.closedBy.Some? && forall t :: t in s.threads ==> s.threads[t].pc.Done?
    ensures forall r :: !HeldBySome(s, r) && !Installed(s, r) && !Cached(s, r)
  {
    CompletedIsEmptied(s);
  }

  lemma QuietListensNowhere(s: State)
    requires Inv(s) && s.gate.closedBy.Some? && forall t :: t in s.threads ==> s.threads[t].pc.Done?
    ensures forall r :: !ListenerHeldBySome(s, r) && !ListeningSome(s, r)
  {
    CompletedIsEmptied(s);
    assert forall t :: t in s.threads ==> ThreadOk(s, t);
    forall r ensures !ListeningSome(s, r) {
      forall f | f in s.fwds.all ensures !Listening(s, r, f) {
        assert ForwardOk(s.fwds, f);
      }
    }
  }

  // --------------------------------------------------- keepalive contexts

  /** The connecting thread is about to store the context, or to cancel it. */
  predicate InHandCtx(s: State, t: Tid, x: Ctx) {
    t in s.threads && (s.threads[t].pc == Start(KaLoad(x)) || s.threads[t].pc == Start(KaStore(x)))
  }

  lemma StartKeepsCtx(s: State, t: Tid, c: Choice, s': State, x: Ctx)
    requires t in s.threads && s.threads[t].pc.Start? && StartStep(s, t, c, s') && InHandCtx(s, t, x)
    ensures InHandCtx(s', t, x) || Tracked(s'.gate, x)
  {
  }

  lemma StepKeepsCtx(s: State, u: Tid, c: Choice, s': State, t: Tid, x: Ctx)
    requires Inv(s) && Step(s, u, c, s') && (InHandCtx(s, t, x) || Tracked(s.gate, x))
    ensures InHandCtx(s', t, x) || Tracked(s'.gate, x)
  {
    StepHere(s, u, c, s');
    assert ThreadOk(s, u);
    if u == t && InHandCtx(s, t, x) {
      assert StartStep(s, t, c, s');
      StartKeepsCtx(s, t, c, s', x);
    } else {
      hide Step, Tracked, PromisesConns, PromisesFwds;
      StepKeeps(s, u, c, s');
      hide ThreadOk, Inv, Global;
    }
  }

  lemma {:induction false} CtxTracked(run: seq<State>, i: nat, j: nat, t: Tid, x: Ctx)
    requires IsRun(run, true) && i <= j < |run| && InHandCtx(run[i], t, x)
    ensures InHandCtx(run[j], t, x) || Tracked(run[j].gate, x)
    decreases j - i
  {
    hide IsRun, Inv, Step, Tracked;
    if i < j {
      CtxTracked(run, i, j - 1, t, x);
      RunInv(run, j - 1);
      Follows(run, j - 1);
      var s, s' := run[j - 1], run[j];
      if u, c :| Step(s, u, c, s') {
        StepKeepsCtx(s, u, c, s', t, x);
      }
    }
  }

  /** Once every thread of a closed session has finished, every context that startKeepalive made has been cancelled,
      whether or not it had been stored or its goroutine begun when the session was closed. */
  lemma ContextsAreCancelled(run: seq<State>, i: nat, j: nat, t: Tid, x: Ctx)
    requires IsRun(run, true) && i <= j < |run| && InHandCtx(run[i], t, x)
    requires run[j].gate.closedBy.Some? && forall u :: u in run[j].threads ==> run[j].threads[u].pc.Done?
    ensures x in run[j].gate.cancelled
  {
    CtxTracked(run, i, j, t, x);
    RunInv(run, j);
    hide IsRun;
    var w := run[j].gate.closedBy.value;
    assert ThreadOk(run[j], w);
  }
}

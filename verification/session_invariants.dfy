/**
  The invariant of the session protocol.  `Global` speaks of the shared state,
  `ThreadOk` of one thread against it.  A step by `t` establishes both for itself
  and keeps the promise `Promises` to every other thread, and that promise is
  enough for the others' `ThreadOk` to survive.
*/
module SessionInvariants {
  import opened Wrappers
  import opened SessionProtocol

  // ---------------------------------------------------------- shared state

  ghost predicate ClosesOk(place: map<Res, Place>, closes: multiset<Res>) {
    forall r :: closes[r] == if At(place, r, Shut) then 1 else 0
  }

  /** Every installed connection is where its history says, and the cached SFTP
      client rides on the installed client. */
  ghost predicate ConnsOk(c: Conns) {
    && (c.client.Some? ==> NoDup(All(c.client.value)))
    && (forall r :: At(c.place, r, InTransport) <==> c.client.Some? && r in All(c.client.value))
    && (forall r :: At(c.place, r, InSftp) <==> c.sftp.Some? && c.sftp.value.id == r)
    && (forall r, f :: !At(c.place, r, Bound(f)))
    && (c.sftp.Some? ==> c.client.Some? && c.client.value.client == c.sftp.value.on)
    && ClosesOk(c.place, c.closes)
  }

  ghost predicate ForwardOk(w: Fwds, f: Fid)
    requires f in w.all
  {
    var fw := w.all[f];
    && At(w.place, fw.listener.id, if fw.flag.Over? then Shut else Bound(f))
    && (fw.flag.Live? ==> fw.name in w.named && w.named[fw.name] == f)
  }

  ghost predicate NamedOk(w: Fwds, n: Name)
    requires n in w.named
  {
    w.named[n] in w.all && w.all[w.named[n]].name == n && !w.all[w.named[n]].flag.Taken?
  }

  ghost predicate FwdsOk(w: Fwds) {
    && (forall f :: f in w.all ==> ForwardOk(w, f))
    && (forall r, f :: At(w.place, r, Bound(f)) ==> f in w.all && w.all[f].listener.id == r)
    && (forall r :: !At(w.place, r, InTransport) && !At(w.place, r, InSftp))
    && (forall n :: n in w.named ==> NamedOk(w, n))
    && ClosesOk(w.place, w.closes)
  }

  ghost predicate GateOk(g: Gate) {
    && (g.closedBy.None? <==> g.phase == 0)
    && (g.phase < 2 ==> g.firing.None?)
    && (g.phase >= 2 ==> g.cancel.None?)
    && (g.phase >= 3 && g.firing.Some? ==> g.firing.value in g.cancelled)
  }

  ghost predicate ShutDownOk(s: State) {
    && (s.gate.phase >= 4 ==> s.fwds.named == map[])
    && (s.gate.phase >= 6 ==> s.shells == {})
    && (s.gate.phase >= 7 ==> s.conns.client.None?)
  }

  /** Nothing is owned by a thread that does not exist. */
  ghost predicate OwnersOk(s: State) {
    && 0 in s.threads && s.threads[0].role.Connector?
    && (s.gate.closedBy.Some? ==> s.gate.closedBy.value in s.threads)
    && (forall r, t :: At(s.conns.place, r, InHand(t)) ==> t in s.threads)
    && (forall r, t :: At(s.fwds.place, r, InHand(t)) ==> t in s.threads)
    && (forall f :: f in s.fwds.all && !s.fwds.all[f].flag.Live? && !s.fwds.all[f].flag.Over? ==>
          s.fwds.all[f].flag.t in s.threads)
  }

  ghost predicate Global(s: State) {
    ConnsOk(s.conns) && FwdsOk(s.fwds) && GateOk(s.gate) && ShutDownOk(s) && OwnersOk(s)
  }

  // ---------------------------------------------------------- one thread

  /** How far the thread that won the session's closed flag has come. */
  function PhaseAt(pc: PC): nat {
    if pc.Close? then
      if pc.close.CloseCas? then 0
      else if pc.close.CloseCancel? then 1
      else if pc.close.CloseFire? || pc.close.CloseFwdMu? then 2
      else if pc.close.CloseFwd? || pc.close.CloseFwdBind? || pc.close.CloseFwdDel? then 3
      else if pc.close.CloseShMu? then 4
      else 5
    else if pc.Clear? then 6
    else if pc.Drop? then 7
    else 8
  }

  /** The thread has won this forward's closed flag and still has to shut its listener. */
  predicate Shutting(pc: PC, f: Fid) {
    || (pc.Close? && pc.close.CloseFwdBind? && pc.close.f == f)
    || (pc.Cancel? && pc.cancel.CancelBind? && pc.cancel.f == f)
  }

  /** Program counters from which a client is about to be installed. */
  predicate Installing(pc: PC) {
    pc.Install? || (pc.Drop? && pc.after.ToDial?)
  }

  predicate Storing(pc: PC) {
    pc.Install? && pc.install.SetStore?
  }

  /** Which program counters a thread of each role can be at. */
  predicate RoleOk(th: Thread) {
    match th.role
    case Connector => th.pc.Done? || th.pc.Install? || th.pc.Start? || (th.pc.Drop? && th.pc.after.ToEnd?)
    case Reconnector =>
      || th.pc.Done? || th.pc.Clear? || th.pc.Install? || th.pc.RebindSnap? || th.pc.Rebind?
      || (th.pc.Drop? && !th.pc.after.ToClosed?)
    case Keepalive(_) =>
      || th.pc.Done? || th.pc.Idle? || (th.pc.Clear? && !th.pc.clear.WaitReconnect?)
      || th.pc.Install? || th.pc.RebindSnap? || th.pc.Rebind? || (th.pc.Drop? && !th.pc.after.ToClosed?)
    case Closer =>
      || th.pc.Done? || th.pc.Close? || (th.pc.Clear? && !th.pc.clear.WaitReconnect?)
      || (th.pc.Drop? && th.pc.after.ToClosed?)
    case SftpUser => th.pc.Done? || th.pc.Build?
    case ForwardUser => th.pc.Done? || th.pc.Open? || th.pc.Cancel?
    case ShellUser => th.pc.Done? || th.pc.Shell?
  }

  ghost predicate HandOk(place: map<Res, Place>, t: Tid, pc: PC) {
    NoDup(Hand(pc)) && forall r :: r in Hand(pc) <==> At(place, r, InHand(t))
  }

  /** The listener in hand, the forwards taken out of the map and those being shut. */
  ghost predicate ListenersOk(w: Fwds, t: Tid, pc: PC) {
    && (forall r: Res :: HandListener(pc) == Some(r) <==> At(w.place, r, InHand(t)))
    && (forall f :: Shutting(pc, f) <==> f in w.all && w.all[f].flag == Won(t))
    && (forall f :: f in w.all && w.all[f].flag == Taken(t) ==> pc == Cancel(CancelCas(f)))
    && (pc.Cancel? && pc.cancel.CancelCas? ==>
          pc.cancel.f in w.all && (w.all[pc.cancel.f].flag == Taken(t) || Closed(w.all[pc.cancel.f])))
    && (pc.Close? && pc.close.CloseFwdBind? ==> pc.close.n in w.named && w.named[pc.close.n] == pc.close.f)
    && (pc.Close? && pc.close.CloseFwdDel? ==>
          pc.close.n in w.named && w.named[pc.close.n] in w.all && Closed(w.all[w.named[pc.close.n]]))
  }

  /** A client is installed only where there is none, and no guarded write follows
      the closer through the mutex that guards it. */
  ghost predicate PathOk(s: State, t: Tid)
    requires t in s.threads
  {
    var th := s.threads[t];
    && RoleOk(th)
    && (th.role.Connector? ==> t == 0)
    && (MayReconnect(th.role) ==> 0 in s.threads && s.threads[0].pc.Done?)
    && (Installing(th.pc) ==> s.conns.client.None?)
    && (Storing(th.pc) || (th.pc.Start? && th.pc.start.KaStore?) ==> s.gate.phase < 2)
    && (th.pc.Open? && th.pc.open.OpenPut? ==> s.gate.phase < 3)
    && (th.pc.Shell? && th.pc.at.ShPut? ==> s.gate.phase < 5)
  }

  /** While an SFTP client is being built the session keeps the client it is built on. */
  ghost predicate BuildOk(c: Conns, pc: PC) {
    pc.Build? ==>
      && (pc.build.SftpGet? || pc.build.SftpNew? || pc.build.SftpPut? ==> c.sftp.None?)
      && (pc.build.SftpNew? ==> c.client.Some? && c.client.value.client == pc.build.on)
      && (pc.build.SftpPut? ==> c.client.Some? && c.client.value.client == pc.build.sftp.on)
  }

  /** A keepalive's context is still stored, about to be cancelled, or cancelled. */
  ghost predicate Tracked(g: Gate, x: Ctx) {
    g.cancel == Some(x) || g.firing == Some(x) || x in g.cancelled
  }

  ghost predicate GateThreadOk(g: Gate, t: Tid, th: Thread) {
    && (g.closedBy == Some(t) ==> th.role.Closer? && g.phase == PhaseAt(th.pc))
    && (th.role.Closer? && th.pc != Close(CloseCas) && !th.pc.Done? ==> g.closedBy == Some(t))
    && (th.pc == Close(CloseFwdMu) && g.firing.Some? ==> g.firing.value in g.cancelled)
    && (th.role.Keepalive? ==> Tracked(g, th.role.ctx))
    && (th.role.Connector? && Installing(th.pc) ==> g.cancel.None?)
    && (th.pc.Start? ==> if th.pc.start.KaGo? then Tracked(g, th.pc.start.ctx) else g.cancel.None?)
  }

  /** Forward `f` of a rebind's snapshot has been dealt with. */
  ghost predicate Settled(w: Fwds, g: Gate, rb: Rebinding, f: Fid) {
    f in w.all && (!w.all[f].remote || Closed(w.all[f]) || f in rb.moved || f in rb.failed || g.closedBy.Some?)
  }

  ghost predicate OnTarget(s: State, target: Res) {
    s.gate.phase < 7 ==> s.conns.client.Some? && s.conns.client.value.client == target
  }

  ghost predicate RebindingOk(w: Fwds, g: Gate, rb: Rebinding) {
    && rb.next <= |rb.snapshot|
    && (forall f :: f in rb.snapshot ==> f in w.all)
    && (forall f :: f in rb.moved ==> f in w.all && w.all[f].listener.on == Some(rb.target))
    && (forall i :: 0 <= i < rb.next ==> Settled(w, g, rb, rb.snapshot[i]))
  }

  ghost predicate RebindOk(s: State, pc: PC) {
    && (pc.RebindSnap? ==> OnTarget(s, pc.target))
    && (pc.Rebind? ==>
          && OnTarget(s, pc.rb.target)
          && RebindingOk(s.fwds, s.gate, pc.rb)
          && (!pc.rebind.RbTop? ==> pc.rb.next < |pc.rb.snapshot|)
          && (pc.rebind.RbListen? ==> pc.rebind.on == pc.rb.target)
          && (pc.rebind.RbBind? || pc.rebind.RbLoad? || pc.rebind.RbSwap? ==> pc.rebind.ln.on == Some(pc.rb.target))
          && (pc.rebind.RbSwap? ==> !s.fwds.all[pc.rb.snapshot[pc.rb.next]].flag.Over?)
          && (pc.rebind.RbDrop? ==> Settled(s.fwds, s.gate, pc.rb, pc.rb.snapshot[pc.rb.next])))
  }

  ghost predicate ThreadOk(s: State, t: Tid)
    requires t in s.threads
  {
    var th := s.threads[t];
    && HandOk(s.conns.place, t, th.pc) && ListenersOk(s.fwds, t, th.pc) && PathOk(s, t)
    && BuildOk(s.conns, th.pc) && GateThreadOk(s.gate, t, th) && RebindOk(s, th.pc)
  }

  /** Mutual exclusion. */
  ghost predicate Exclusive(s: State) {
    forall t, u, l :: t in s.threads && u in s.threads && Holds(s.threads[t], l) && Holds(s.threads[u], l) ==> t == u
  }

  ghost predicate Inv(s: State) {
    Global(s) && Exclusive(s) && forall t :: t in s.threads ==> ThreadOk(s, t)
  }

  // ---------------------------------------------------------- the promise

  /** `t` holds `l`, or can take it. */
  ghost predicate Owns(s: State, t: Tid, l: Lock) {
    (t in s.threads && Holds(s.threads[t], l)) || Free(s, l)
  }

  /** What other threads have in hand stays in their hands. */
  ghost predicate OtherHands(place: map<Res, Place>, place': map<Res, Place>, t: Tid) {
    forall r, u :: u != t ==> (At(place, r, InHand(u)) <==> At(place', r, InHand(u)))
  }

  ghost predicate PromisesConns(s: State, s': State, t: Tid)
    requires t in s.threads
  {
    var c, c' := s.conns, s'.conns;
    && OtherHands(c.place, c'.place, t)
    && (c'.client != c.client ==>
          || (c.client.None? && Storing(s.threads[t].pc))
          || (c'.client.None? && Owns(s, t, SftpMu) && (s'.gate.phase >= 7 || Owns(s, t, ReconnectMu))))
    && (c'.sftp != c.sftp ==> Owns(s, t, SftpMu))
  }

  /** The forward is on its way out of somebody else's hands. */
  predicate Foreign(fw: Forward, t: Tid) {
    (fw.flag.Won? || fw.flag.Taken?) && fw.flag.t != t
  }

  ghost predicate FwdsKept(w: Fwds, w': Fwds, t: Tid) {
    && OtherHands(w.place, w'.place, t)
    && (forall f :: f in w.all ==>
          && f in w'.all
          && w'.all[f].remote == w.all[f].remote
          && (Closed(w.all[f]) ==> Closed(w'.all[f]))
          && (w.all[f].flag.Over? ==> w'.all[f] == w.all[f]))
    && (forall f :: f in w.all && Foreign(w.all[f], t) ==> w'.all[f].flag == w.all[f].flag)
    && (forall f :: f in w'.all && Foreign(w'.all[f], t) ==> f in w.all && w'.all[f].flag == w.all[f].flag)
  }

  ghost predicate SameListeners(w: Fwds, w': Fwds) {
    forall f :: f in w.all ==> f in w'.all && w'.all[f].listener == w.all[f].listener
  }

  predicate Shuts(w: Fwds, w': Fwds, f: Fid) {
    f in w.all && f in w'.all && !w.all[f].flag.Over? && w'.all[f].flag.Over?
  }

  ghost predicate ShutsNone(w: Fwds, w': Fwds) {
    forall f :: !Shuts(w, w', f)
  }

  ghost predicate PromisesFwds(s: State, s': State, t: Tid) {
    && (ShutsNone(s.fwds, s'.fwds) || forall f :: Shuts(s.fwds, s'.fwds, f) ==> Owns(s, t, BindMu(f)))
    && FwdsKept(s.fwds, s'.fwds, t)
    && (SameListeners(s.fwds, s'.fwds) || Owns(s, t, ReconnectMu))
    && (s'.fwds.named != s.fwds.named ==> Owns(s, t, ForwardsMu))
  }

  ghost predicate PromisesGate(s: State, s': State, t: Tid)
    requires t in s.threads
  {
    var g, g' := s.gate, s'.gate;
    && (g.closedBy.Some? ==> g'.closedBy == g.closedBy)
    && (g'.closedBy != g.closedBy ==> g'.closedBy == Some(t))
    && g.phase <= g'.phase
    && (g.phase != g'.phase ==> g'.closedBy == Some(t))
    && (g.phase < 2 <= g'.phase ==> Owns(s, t, Mu))
    && (g.phase < 3 <= g'.phase ==> Owns(s, t, ForwardsMu))
    && (g.phase < 5 <= g'.phase ==> Owns(s, t, ShellsMu))
    && (g'.cancel != g.cancel ==> s.threads[t].role.Connector? || g'.cancel.None?)
    && (g'.firing != g.firing ==> g'.closedBy == Some(t))
    && g.cancelled <= g'.cancelled
    && (forall x :: Tracked(g, x) ==> Tracked(g', x))
  }

  ghost predicate PromisesThreads(s: State, s': State, t: Tid)
    requires t in s.threads
  {
    && t in s'.threads && !s.threads[t].pc.Done?
    && (forall u :: u in s.threads && u != t ==> u in s'.threads && s'.threads[u] == s.threads[u])
  }

  ghost predicate Promises(s: State, s': State, t: Tid)
    requires t in s.threads
  {
    && PromisesThreads(s, s', t)
    && (s'.conns == s.conns || PromisesConns(s, s', t))
    && (s'.fwds == s.fwds || PromisesFwds(s, s', t))
    && (s'.gate == s.gate || PromisesGate(s, s', t))
  }

  // ---------------------------------------------------------- stability

  /** Connect before it has installed, and the holder of reconnectMu, exclude one another. */
  lemma OneInstaller(s: State, t: Tid, u: Tid)
    requires Exclusive(s) && t in s.threads && u in s.threads && PathOk(s, t) && PathOk(s, u)
    requires Installing(s.threads[t].pc) && Installing(s.threads[u].pc)
    ensures t == u
  {
    if MayReconnect(s.threads[t].role) && MayReconnect(s.threads[u].role) {
      assert Holds(s.threads[t], ReconnectMu) && Holds(s.threads[u], ReconnectMu);
    }
  }

  /** What `u` holds no other thread can take. */
  lemma HeldByOther(s: State, t: Tid, u: Tid, l: Lock)
    requires Exclusive(s) && u in s.threads && u != t && Holds(s.threads[u], l)
    ensures !Owns(s, t, l)
  {
  }

  lemma StablePath(s: State, s': State, t: Tid, u: Tid)
    requires Exclusive(s) && t in s.threads && u in s.threads && u != t && Promises(s, s', t)
    requires ThreadOk(s, u) && ThreadOk(s, t)
    ensures PathOk(s', u)
  {
    var th := s.threads[u];
    if Installing(th.pc) && Storing(s.threads[t].pc) {
      OneInstaller(s, t, u);
    }
    StableWrites(s, s', t, u);
  }

  /** A thread between its closed check and its write still holds the mutex the closer needs. */
  lemma StableWrites(s: State, s': State, t: Tid, u: Tid)
    requires Exclusive(s) && t in s.threads && u in s.threads && u != t && Promises(s, s', t) && PathOk(s, u)
    ensures
      var pc := s.threads[u].pc;
      && (Storing(pc) || (pc.Start? && pc.start.KaStore?) ==> s'.gate.phase < 2)
      && (pc.Open? && pc.open.OpenPut? ==> s'.gate.phase < 3)
      && (pc.Shell? && pc.at.ShPut? ==> s'.gate.phase < 5)
  {
    var th := s.threads[u];
    if Storing(th.pc) || (th.pc.Start? && th.pc.start.KaStore?) {
      HeldByOther(s, t, u, Mu);
    } else if th.pc.Open? && th.pc.open.OpenPut? {
      HeldByOther(s, t, u, ForwardsMu);
    } else if th.pc.Shell? && th.pc.at.ShPut? {
      HeldByOther(s, t, u, ShellsMu);
    }
  }

  lemma StableParts(s: State, s': State, t: Tid, u: Tid)
    requires Exclusive(s) && t in s.threads && u in s.threads && u != t && Promises(s, s', t)
    requires ThreadOk(s, u) && ThreadOk(s, t)
    ensures HandOk(s'.conns.place, u, s'.threads[u].pc)
    ensures ListenersOk(s'.fwds, u, s'.threads[u].pc)
    ensures BuildOk(s'.conns, s'.threads[u].pc)
  {
    var pc := s.threads[u].pc;
    if pc.Build? && !pc.build.SftpWait? {
      HeldByOther(s, t, u, SftpMu);
    }
    if pc.Close? && (pc.close.CloseFwdBind? || pc.close.CloseFwdDel?) {
      HeldByOther(s, t, u, ForwardsMu);
    }
  }

  lemma StableGate(s: State, s': State, t: Tid, u: Tid)
    requires t in s.threads && u in s.threads && u != t && Promises(s, s', t)
    requires ThreadOk(s, u) && ThreadOk(s, t)
    ensures GateThreadOk(s'.gate, u, s'.threads[u])
  {
  }

  lemma StableRebind(s: State, s': State, t: Tid, u: Tid)
    requires Exclusive(s) && t in s.threads && u in s.threads && u != t && Promises(s, s', t)
    requires ThreadOk(s, u) && ThreadOk(s, t)
    ensures RebindOk(s', s'.threads[u].pc)
  {
    var pc := s.threads[u].pc;
    if pc.Rebind? || pc.RebindSnap? {
      HeldByOther(s, t, u, ReconnectMu);
      if pc.Rebind? {
        StableRebinding(s, s', t, pc.rb);
        if pc.rebind.RbSwap? {
          var f := pc.rb.snapshot[pc.rb.next];
          HeldByOther(s, t, u, BindMu(f));
          assert !Shuts(s.fwds, s'.fwds, f);
        }
      }
    }
  }

  lemma StableRebinding(s: State, s': State, t: Tid, rb: Rebinding)
    requires t in s.threads && Promises(s, s', t) && !Owns(s, t, ReconnectMu)
    requires RebindingOk(s.fwds, s.gate, rb)
    ensures RebindingOk(s'.fwds, s'.gate, rb)
    ensures forall f :: Settled(s.fwds, s.gate, rb, f) ==> Settled(s'.fwds, s'.gate, rb, f)
  {
  }

  /** A step that keeps its promise leaves every other thread in order. */
  lemma Stable(s: State, s': State, t: Tid, u: Tid)
    requires Inv(s) && t in s.threads && u in s.threads && u != t && Promises(s, s', t)
    ensures u in s'.threads && ThreadOk(s', u)
  {
    assert ThreadOk(s, u) && ThreadOk(s, t);
    StablePath(s, s', t, u);
    StableParts(s, s', t, u);
    StableGate(s, s', t, u);
    StableRebind(s, s', t, u);
  }
}

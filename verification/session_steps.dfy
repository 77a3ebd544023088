/** Every step of the session protocol keeps the invariant. */
module SessionSteps {
  import opened Wrappers
  import opened SessionProtocol
  import opened SessionInvariants
  import opened SessionUpdates

  /** A step by `t` on a state in order: what every lemma below starts from. */
  ghost predicate Ready(s: State, t: Tid, s': State) {
    Locks(s, t, s') && Global(s) && ThreadOk(s, t)
  }

  /** What every step owes: the promise, the shared invariant, and its own thread. */
  ghost predicate Kept(s: State, s': State, t: Tid)
    requires t in s.threads
  {
    Promises(s, s', t) && Global(s') && t in s'.threads && ThreadOk(s', t)
  }

  /** The connections after a step of `t`. */
  ghost predicate ConnsPart(s: State, s': State, t: Tid)
    requires t in s'.threads
  {
    && ConnsOk(s'.conns) && HandOk(s'.conns.place, t, s'.threads[t].pc)
    && OtherHands(s.conns.place, s'.conns.place, t)
  }

  /** A step that touches only the connections and its own thread. */
  ghost predicate TouchesConns(s: State, s': State, t: Tid) {
    && t in s.threads && !s.threads[t].pc.Done? && t in s'.threads
    && s' == s.(conns := s'.conns, threads := s.threads[t := s.threads[t].(pc := s'.threads[t].pc)])
    && (s.gate.phase >= 7 && s.conns.client.None? ==> s'.conns.client.None?)
    && (s'.conns == s.conns || PromisesConns(s, s', t))
  }

  /** It owes nothing more. */
  lemma ConnsOnly(s: State, s': State, t: Tid)
    requires TouchesConns(s, s', t) && Global(s) && ConnsPart(s, s', t)
    ensures Promises(s, s', t) && Global(s')
  {
    hide ConnsOk, FwdsOk, GateOk, HandOk, PromisesConns;
    assert OwnersOk(s');
  }

  ghost predicate SameRoles(s: State, s': State) {
    s'.threads.Keys == s.threads.Keys && forall u :: u in s.threads ==> s'.threads[u].role == s.threads[u].role
  }

  lemma StillOwned(s: State, s': State, t: Tid)
    requires OwnersOk(s) && t in s.threads && SameRoles(s, s') && OtherHands(s.conns.place, s'.conns.place, t)
    requires s'.fwds == s.fwds && s'.gate.closedBy == s.gate.closedBy
    ensures OwnersOk(s')
  {
  }

  lemma InstallKeeps(s: State, t: Tid, c: Choice, s': State)
    requires Ready(s, t, s') && s.threads[t].pc.Install? && InstallStep(s, t, c, s')
    ensures Promises(s, s', t) && Global(s')
  {
    InstallParts(s, t, c, s');
    InstallTouches(s, t, c, s');
    hide InstallStep, ThreadOk, Locks, Move;
    ConnsOnly(s, s', t);
  }

  lemma InstallTouches(s: State, t: Tid, c: Choice, s': State)
    requires Ready(s, t, s') && s.threads[t].pc.Install? && InstallStep(s, t, c, s')
    requires OtherHands(s.conns.place, s'.conns.place, t)
    ensures TouchesConns(s, s', t)
  {
    hide ConnsOk, FwdsOk, OtherHands, HandOk, ListenersOk, RebindOk, OwnersOk, ShutDownOk;
  }

  /** A thread with no business among the forwards, before and after. */
  predicate AwayFromForwards(pc: PC) {
    HandListener(pc).None? && Clean(pc) && !pc.Close?
  }

  lemma ListenersAway(w: Fwds, t: Tid, pc: PC, pc': PC)
    requires ListenersOk(w, t, pc) && AwayFromForwards(pc) && AwayFromForwards(pc')
    ensures ListenersOk(w, t, pc')
  {
  }

  lemma InstallKeepsPath(s: State, t: Tid, c: Choice, s': State)
    requires Ready(s, t, s') && s.threads[t].pc.Install? && InstallStep(s, t, c, s')
    ensures t in s'.threads && PathOk(s', t) && BuildOk(s'.conns, s'.threads[t].pc)
    ensures AwayFromForwards(s'.threads[t].pc) && s'.fwds == s.fwds
  {
    hide ConnsOk, FwdsOk, HandOk, ListenersOk, RebindOk, OwnersOk, Move;
  }

  lemma InstallKeepsGate(s: State, t: Tid, c: Choice, s': State)
    requires Ready(s, t, s') && s.threads[t].pc.Install? && InstallStep(s, t, c, s')
    ensures t in s'.threads && GateThreadOk(s'.gate, t, s'.threads[t]) && RebindOk(s', s'.threads[t].pc)
  {
    hide ConnsOk, FwdsOk, HandOk, ListenersOk, OwnersOk, BuildOk, Move;
  }

  lemma InstallKeepsThread(s: State, t: Tid, c: Choice, s': State)
    requires Ready(s, t, s') && s.threads[t].pc.Install? && InstallStep(s, t, c, s')
    ensures ThreadOk(s', t)
  {
    InstallParts(s, t, c, s');
    InstallKeepsPath(s, t, c, s');
    InstallKeepsGate(s, t, c, s');
    hide InstallStep, ConnsOk, FwdsOk, HandOk, OtherHands, ListenersOk;
    hide PathOk, BuildOk, GateThreadOk, RebindOk, OwnersOk, Locks;
    ListenersAway(s.fwds, t, s.threads[t].pc, s'.threads[t].pc);
  }

  /** Installing over no client, as over any number of dials, keeps the connections in order. */
  lemma InstallParts(s: State, t: Tid, c: Choice, s': State)
    requires t in s.threads && s.threads[t].pc.Install? && InstallStep(s, t, c, s')
    requires ConnsOk(s.conns) && HandOk(s.conns.place, t, s.threads[t].pc)
    requires Storing(s.threads[t].pc) ==> s.conns.client.None?
    ensures t in s'.threads && ConnsPart(s, s', t)
  {
    var pc := s.threads[t].pc;
    assert t in s'.threads;
    var pc' := s'.threads[t].pc;
    if pc.install.SetStore? {
      InstallOk(s.conns, t, pc.install.t, pc');
    } else if pc.install.Dial? && pc'.Install? && pc'.install.Dialed? {
      HoldOk(s.conns, t, pc, pc');
    }
  }

  /** A step that leaves connections and forwards alone, and loses no thread. */
  ghost predicate TouchesGate(s: State, s': State, t: Tid) {
    && t in s.threads && t in s'.threads && s'.conns == s.conns && s'.fwds == s.fwds
    && s.threads.Keys <= s'.threads.Keys && (0 in s.threads ==> s'.threads[0].role == s.threads[0].role)
    && (s'.gate.closedBy == s.gate.closedBy || s'.gate.closedBy == Some(t))
    && GateOk(s'.gate) && ShutDownOk(s')
  }

  lemma GateKeepsGlobal(s: State, s': State, t: Tid)
    requires Global(s) && TouchesGate(s, s', t)
    ensures Global(s')
  {
    hide ConnsOk, FwdsOk, GateOk, ShutDownOk;
  }

  lemma StartPromises(s: State, t: Tid, c: Choice, s': State)
    requires Ready(s, t, s') && s.threads[t].pc.Start? && StartStep(s, t, c, s')
    ensures Promises(s, s', t)
  {
    hide ConnsOk, FwdsOk, HandOk, ListenersOk, RebindOk, OwnersOk, ShutDownOk;
  }

  lemma StartTouches(s: State, t: Tid, c: Choice, s': State)
    requires Ready(s, t, s') && s.threads[t].pc.Start? && StartStep(s, t, c, s')
    ensures TouchesGate(s, s', t)
  {
    hide ConnsOk, FwdsOk, HandOk, ListenersOk, RebindOk, OwnersOk;
  }

  lemma StartKeeps(s: State, t: Tid, c: Choice, s': State)
    requires Ready(s, t, s') && s.threads[t].pc.Start? && StartStep(s, t, c, s')
    ensures Promises(s, s', t) && Global(s')
  {
    StartPromises(s, t, c, s');
    StartTouches(s, t, c, s');
    hide StartStep, Promises, TouchesGate, ThreadOk, Locks, Global;
    assert Global(s);
    GateKeepsGlobal(s, s', t);
  }

  lemma StartKeepsThread(s: State, t: Tid, c: Choice, s': State)
    requires Ready(s, t, s') && s.threads[t].pc.Start? && StartStep(s, t, c, s')
    ensures ThreadOk(s', t)
  {
    StartKeepsPath(s, t, c, s');
    StartKeepsGate(s, t, c, s');
    hide StartStep, ConnsOk, FwdsOk, HandOk, ListenersOk, PathOk, GateThreadOk, OwnersOk, Locks;
    ListenersAway(s.fwds, t, s.threads[t].pc, s'.threads[t].pc);
    SameHands(s.conns.place, t, s.threads[t].pc, s'.threads[t].pc);
  }

  lemma SameHands(place: map<Res, Place>, t: Tid, pc: PC, pc': PC)
    requires HandOk(place, t, pc) && Hand(pc') == Hand(pc)
    ensures HandOk(place, t, pc')
  {
  }

  lemma StartKeepsPath(s: State, t: Tid, c: Choice, s': State)
    requires Ready(s, t, s') && s.threads[t].pc.Start? && StartStep(s, t, c, s')
    ensures t in s'.threads && PathOk(s', t) && (s'.threads[t].pc.Done? || s'.threads[t].pc.Start?)
    ensures s'.conns == s.conns && s'.fwds == s.fwds
  {
    hide ConnsOk, FwdsOk, HandOk, ListenersOk, RebindOk, OwnersOk, BuildOk;
  }

  lemma StartKeepsGate(s: State, t: Tid, c: Choice, s': State)
    requires Ready(s, t, s') && s.threads[t].pc.Start? && StartStep(s, t, c, s')
    ensures t in s'.threads && GateThreadOk(s'.gate, t, s'.threads[t])
  {
    hide ConnsOk, FwdsOk, HandOk, ListenersOk, RebindOk, OwnersOk, BuildOk;
  }

  lemma IdleKeeps(s: State, t: Tid, c: Choice, s': State)
    requires Ready(s, t, s') && s.threads[t].pc.Idle? && IdleStep(s, t, c, s')
    ensures Promises(s, s', t) && Global(s')
  {
  }

  lemma IdleKeepsThread(s: State, t: Tid, c: Choice, s': State)
    requires Ready(s, t, s') && s.threads[t].pc.Idle? && IdleStep(s, t, c, s')
    ensures ThreadOk(s', t)
  {
  }

  lemma ClearParts(s: State, t: Tid, c: Choice, s': State)
    requires t in s.threads && s.threads[t].pc.Clear? && ClearStep(s, t, c, s')
    requires ConnsOk(s.conns) && HandOk(s.conns.place, t, s.threads[t].pc)
    ensures t in s'.threads && ConnsPart(s, s', t)
  {
    assert t in s'.threads;
    var pc := s.threads[t].pc;
    if pc.clear.WaitMu? {
      DetachOk(s.conns, t, pc, s'.threads[t].pc.after);
    }
  }

  lemma ClearPromises(s: State, t: Tid, c: Choice, s': State)
    requires Ready(s, t, s') && s.threads[t].pc.Clear? && ClearStep(s, t, c, s')
    requires OtherHands(s.conns.place, s'.conns.place, t)
    ensures Promises(s, s', t) && GateOk(s'.gate) && ShutDownOk(s')
    ensures s'.fwds == s.fwds && s'.gate.closedBy == s.gate.closedBy && SameRoles(s, s')
  {
    hide ConnsOk, FwdsOk, OtherHands, HandOk, ListenersOk, RebindOk, OwnersOk, Move;
  }

  lemma ClearKeeps(s: State, t: Tid, c: Choice, s': State)
    requires Ready(s, t, s') && s.threads[t].pc.Clear? && ClearStep(s, t, c, s')
    ensures Promises(s, s', t) && Global(s')
  {
    ClearParts(s, t, c, s');
    ClearPromises(s, t, c, s');
    hide ClearStep, ThreadOk, Locks, ConnsOk, FwdsOk, HandOk, ShutDownOk, GateOk, Promises, Move;
    StillOwned(s, s', t);
  }

  lemma ClearKeepsPath(s: State, t: Tid, c: Choice, s': State)
    requires Ready(s, t, s') && s.threads[t].pc.Clear? && ClearStep(s, t, c, s')
    ensures t in s'.threads && PathOk(s', t) && BuildOk(s'.conns, s'.threads[t].pc)
    ensures AwayFromForwards(s'.threads[t].pc) && s'.fwds == s.fwds
  {
    hide ConnsOk, FwdsOk, HandOk, ListenersOk, RebindOk, OwnersOk, Move;
  }

  lemma ClearKeepsGate(s: State, t: Tid, c: Choice, s': State)
    requires Ready(s, t, s') && s.threads[t].pc.Clear? && ClearStep(s, t, c, s')
    ensures t in s'.threads && GateThreadOk(s'.gate, t, s'.threads[t]) && RebindOk(s', s'.threads[t].pc)
  {
    hide ConnsOk, FwdsOk, HandOk, ListenersOk, OwnersOk, BuildOk, Move;
  }

  lemma ClearKeepsThread(s: State, t: Tid, c: Choice, s': State)
    requires Ready(s, t, s') && s.threads[t].pc.Clear? && ClearStep(s, t, c, s')
    ensures ThreadOk(s', t)
  {
    ClearParts(s, t, c, s');
    ClearKeepsPath(s, t, c, s');
    ClearKeepsGate(s, t, c, s');
    hide ClearStep, ConnsOk, FwdsOk, HandOk, OtherHands, ListenersOk;
    hide PathOk, BuildOk, GateThreadOk, RebindOk, OwnersOk, Locks;
    ListenersAway(s.fwds, t, s.threads[t].pc, s'.threads[t].pc);
  }

  lemma DropParts(s: State, t: Tid, c: Choice, s': State)
    requires t in s.threads && s.threads[t].pc.Drop? && DropStep(s, t, c, s')
    requires ConnsOk(s.conns) && HandOk(s.conns.place, t, s.threads[t].pc)
    ensures t in s'.threads && ConnsPart(s, s', t)
  {
    var pc := s.threads[t].pc;
    if pc.rest != [] {
      DropOk(s.conns, t, pc.rest, pc.after);
    }
  }

  lemma DropPromises(s: State, t: Tid, c: Choice, s': State)
    requires Ready(s, t, s') && s.threads[t].pc.Drop? && DropStep(s, t, c, s')
    requires OtherHands(s.conns.place, s'.conns.place, t)
    ensures Promises(s, s', t)
  {
    hide ConnsOk, FwdsOk, OtherHands, HandOk, ListenersOk, RebindOk, OwnersOk, ShutDownOk, Move;
  }

  lemma DropLeaves(s: State, t: Tid, c: Choice, s': State)
    requires Ready(s, t, s') && s.threads[t].pc.Drop? && DropStep(s, t, c, s')
    ensures GateOk(s'.gate) && ShutDownOk(s')
    ensures s'.fwds == s.fwds && s'.gate.closedBy == s.gate.closedBy && SameRoles(s, s')
  {
    hide ConnsOk, FwdsOk, OtherHands, HandOk, ListenersOk, RebindOk, OwnersOk, Move;
  }

  lemma DropKeeps(s: State, t: Tid, c: Choice, s': State)
    requires Ready(s, t, s') && s.threads[t].pc.Drop? && DropStep(s, t, c, s')
    ensures Promises(s, s', t) && Global(s')
  {
    DropParts(s, t, c, s');
    DropPromises(s, t, c, s');
    DropLeaves(s, t, c, s');
    hide DropStep, ThreadOk, Locks, ConnsOk, FwdsOk, HandOk, ShutDownOk, GateOk, Promises, Move;
    StillOwned(s, s', t);
  }

  lemma DropKeepsPath(s: State, t: Tid, c: Choice, s': State)
    requires Ready(s, t, s') && s.threads[t].pc.Drop? && DropStep(s, t, c, s')
    ensures t in s'.threads && PathOk(s', t) && BuildOk(s'.conns, s'.threads[t].pc)
    ensures AwayFromForwards(s'.threads[t].pc) && s'.fwds == s.fwds
  {
    hide ConnsOk, FwdsOk, HandOk, ListenersOk, RebindOk, OwnersOk, Move;
  }

  lemma DropKeepsGate(s: State, t: Tid, c: Choice, s': State)
    requires Ready(s, t, s') && s.threads[t].pc.Drop? && DropStep(s, t, c, s')
    ensures t in s'.threads && GateThreadOk(s'.gate, t, s'.threads[t]) && RebindOk(s', s'.threads[t].pc)
  {
    hide ConnsOk, FwdsOk, HandOk, ListenersOk, OwnersOk, BuildOk, Move;
  }

  lemma DropKeepsThread(s: State, t: Tid, c: Choice, s': State)
    requires Ready(s, t, s') && s.threads[t].pc.Drop? && DropStep(s, t, c, s')
    ensures ThreadOk(s', t)
  {
    DropParts(s, t, c, s');
    DropKeepsPath(s, t, c, s');
    DropKeepsGate(s, t, c, s');
    hide DropStep, ConnsOk, FwdsOk, HandOk, OtherHands, ListenersOk;
    hide PathOk, BuildOk, GateThreadOk, RebindOk, OwnersOk, Locks;
    ListenersAway(s.fwds, t, s.threads[t].pc, s'.threads[t].pc);
  }

  lemma SnapKeeps(s: State, t: Tid, c: Choice, s': State)
    requires Ready(s, t, s') && s.threads[t].pc.RebindSnap? && SnapStep(s, t, c, s')
    ensures Promises(s, s', t) && Global(s')
  {
    hide ConnsOk, FwdsOk, HandOk, ListenersOk, RebindOk, GateOk;
  }

  lemma SnapKeepsThread(s: State, t: Tid, c: Choice, s': State)
    requires Ready(s, t, s') && s.threads[t].pc.RebindSnap? && SnapStep(s, t, c, s')
    ensures ThreadOk(s', t)
  {
    forall f | f in c.fs ensures f in s.fwds.all {
      assert f in (set g | g in c.fs);
      assert f in s.fwds.named.Values;
      var n :| n in s.fwds.named && s.fwds.named[n] == f;
      assert NamedOk(s.fwds, n);
    }
    hide ConnsOk, FwdsOk, ListenersOk, OwnersOk;
    ListenersAway(s.fwds, t, s.threads[t].pc, s'.threads[t].pc);
  }

  lemma BuildParts(s: State, t: Tid, c: Choice, s': State)
    requires t in s.threads && s.threads[t].pc.Build? && BuildStep(s, t, c, s')
    requires ConnsOk(s.conns) && HandOk(s.conns.place, t, s.threads[t].pc) && BuildOk(s.conns, s.threads[t].pc)
    ensures t in s'.threads && ConnsPart(s, s', t)
  {
    assert t in s'.threads;
    var pc, pc' := s.threads[t].pc, s'.threads[t].pc;
    if pc.build.SftpPut? {
      SftpOk(s.conns, t, pc.build.sftp);
    } else if pc.build.SftpNew? && pc'.Build? {
      HoldOk(s.conns, t, pc, pc');
    }
  }

  lemma BuildTouches(s: State, t: Tid, c: Choice, s': State)
    requires Ready(s, t, s') && s.threads[t].pc.Build? && BuildStep(s, t, c, s')
    requires OtherHands(s.conns.place, s'.conns.place, t)
    ensures TouchesConns(s, s', t)
  {
    hide ConnsOk, FwdsOk, OtherHands, HandOk, ListenersOk, RebindOk, OwnersOk, ShutDownOk, Move;
  }

  lemma BuildKeeps(s: State, t: Tid, c: Choice, s': State)
    requires Ready(s, t, s') && s.threads[t].pc.Build? && BuildStep(s, t, c, s')
    ensures Promises(s, s', t) && Global(s')
  {
    BuildParts(s, t, c, s');
    BuildTouches(s, t, c, s');
    hide BuildStep, ThreadOk, Locks, Move;
    ConnsOnly(s, s', t);
  }

  lemma BuildKeepsPath(s: State, t: Tid, c: Choice, s': State)
    requires Ready(s, t, s') && s.threads[t].pc.Build? && BuildStep(s, t, c, s')
    ensures t in s'.threads && PathOk(s', t) && BuildOk(s'.conns, s'.threads[t].pc)
    ensures AwayFromForwards(s'.threads[t].pc) && s'.fwds == s.fwds
  {
    hide ConnsOk, FwdsOk, HandOk, ListenersOk, RebindOk, OwnersOk, Move;
  }

  lemma BuildKeepsGate(s: State, t: Tid, c: Choice, s': State)
    requires Ready(s, t, s') && s.threads[t].pc.Build? && BuildStep(s, t, c, s')
    ensures t in s'.threads && GateThreadOk(s'.gate, t, s'.threads[t]) && RebindOk(s', s'.threads[t].pc)
  {
    hide ConnsOk, FwdsOk, HandOk, ListenersOk, OwnersOk, BuildOk, Move;
  }

  lemma BuildKeepsThread(s: State, t: Tid, c: Choice, s': State)
    requires Ready(s, t, s') && s.threads[t].pc.Build? && BuildStep(s, t, c, s')
    ensures ThreadOk(s', t)
  {
    BuildParts(s, t, c, s');
    BuildKeepsPath(s, t, c, s');
    BuildKeepsGate(s, t, c, s');
    hide BuildStep, ConnsOk, FwdsOk, HandOk, OtherHands, ListenersOk;
    hide PathOk, BuildOk, GateThreadOk, RebindOk, OwnersOk, Locks;
    ListenersAway(s.fwds, t, s.threads[t].pc, s'.threads[t].pc);
  }

  lemma ShellKeeps(s: State, t: Tid, c: Choice, s': State)
    requires Ready(s, t, s') && s.threads[t].pc.Shell? && ShellStep(s, t, c, s')
    ensures Promises(s, s', t) && Global(s')
  {
  }

  lemma ShellKeepsThread(s: State, t: Tid, c: Choice, s': State)
    requires Ready(s, t, s') && s.threads[t].pc.Shell? && ShellStep(s, t, c, s')
    ensures ThreadOk(s', t)
  {
  }

  /** The forwards after a step that holds or hands over a listener, or closes a forward. */
  ghost predicate FwdsPart(s: State, s': State, t: Tid)
    requires t in s'.threads
  {
    && FwdsOk(s'.fwds) && ListenersOk(s'.fwds, t, s'.threads[t].pc) && PromisesFwds(s, s', t)
  }

  /** A step that touches only the forwards and its own thread owes nothing more. */
  lemma ForwardsOnly(s: State, s': State, t: Tid)
    requires t in s.threads && !s.threads[t].pc.Done? && t in s'.threads && Global(s) && FwdsPart(s, s', t)
    requires s' == s.(fwds := s'.fwds, threads := s.threads[t := s.threads[t].(pc := s'.threads[t].pc)])
    requires s.gate.phase >= 4 ==> s'.fwds.named == map[]
    ensures Promises(s, s', t) && Global(s')
  {
    assert OwnersOk(s');
  }

  /** Program counters at which a thread holds no connection and builds none. */
  predicate Calm(pc: PC) {
    pc.Open? || pc.Cancel? || pc.Rebind? || pc.Done? || pc.Idle?
  }

  /** The thread stays calm, and the step leaves the connections and the gate alone. */
  ghost predicate StaysCalm(s: State, s': State, t: Tid) {
    && t in s.threads && t in s'.threads && s'.threads[t].role == s.threads[t].role
    && s'.conns == s.conns && s'.gate == s.gate
    && (0 in s.threads && t != 0 ==> 0 in s'.threads && s'.threads[0] == s.threads[0])
    && !s.threads[t].pc.Done? && !s.threads[t].pc.Idle?
    && Calm(s.threads[t].pc) && Calm(s'.threads[t].pc) && RoleOk(s'.threads[t])
    && (s'.threads[t].pc.Open? && s'.threads[t].pc.open.OpenPut? ==> s.gate.phase < 3)
  }

  lemma CalmThread(s: State, s': State, t: Tid)
    requires StaysCalm(s, s', t) && ThreadOk(s, t)
    requires ListenersOk(s'.fwds, t, s'.threads[t].pc) && RebindOk(s', s'.threads[t].pc)
    ensures ThreadOk(s', t)
  {
    hide ListenersOk, RebindOk;
  }

  lemma OpenStaysCalm(s: State, t: Tid, c: Choice, s': State)
    requires t in s.threads && RoleOk(s.threads[t]) && GateOk(s.gate)
    requires s.threads[t].pc.Open? && OpenStep(s, t, c, s')
    ensures StaysCalm(s, s', t)
  {
  }

  lemma CancelStaysCalm(s: State, t: Tid, c: Choice, s': State)
    requires t in s.threads && RoleOk(s.threads[t]) && s.threads[t].pc.Cancel? && CancelStep(s, t, c, s')
    ensures StaysCalm(s, s', t)
  {
  }

  lemma RebindStaysCalm(s: State, t: Tid, c: Choice, s': State)
    requires t in s.threads && RoleOk(s.threads[t]) && s.threads[t].pc.Rebind? && RebindStep(s, t, c, s')
    ensures StaysCalm(s, s', t)
  {
  }

  lemma SameForwards(s: State, t: Tid, s': State)
    requires t in s.threads && t in s'.threads && s'.fwds == s.fwds && s'.gate == s.gate
    requires FwdsOk(s.fwds) && ListenersOk(s.fwds, t, s.threads[t].pc)
    requires HandListener(s'.threads[t].pc) == HandListener(s.threads[t].pc)
    requires Clean(s.threads[t].pc) && Clean(s'.threads[t].pc)
    ensures FwdsPart(s, s', t)
  {
    hide FwdsOk;
  }

  lemma RegisterParts(s: State, t: Tid, c: Choice, s': State)
    requires Ready(s, t, s') && s.threads[t].pc.Open? && s.threads[t].pc.open.OpenPut? && OpenStep(s, t, c, s')
    ensures FwdsPart(s, s', t)
  {
    hide FwdsOk, ListenersOk, ConnsOk, HandOk, OwnersOk, Move, FwdsKept, SameListeners, ShutsNone;
    var pc := s.threads[t].pc;
    if s'.threads[t].pc.Done? {
      var fw := Forward(pc.name, pc.remote, pc.open.ln, Live);
      RegisterOkKept(s.fwds, t, pc, c.f, fw);
      RegisterOk(s.fwds, t, c.f, fw);
    } else {
      SameForwards(s, t, s');
    }
  }

  lemma OpenParts(s: State, t: Tid, c: Choice, s': State)
    requires Ready(s, t, s') && s.threads[t].pc.Open? && OpenStep(s, t, c, s')
    ensures FwdsPart(s, s', t)
  {
    hide FwdsOk, ListenersOk, ConnsOk, HandOk, OwnersOk, Move, FwdsKept, SameListeners, ShutsNone;
    var pc, pc' := s.threads[t].pc, s'.threads[t].pc;
    if pc.open.OpenPut? {
      RegisterParts(s, t, c, s');
    } else if pc.open.OpenListen? && pc'.Open? {
      GrabOk(s.fwds, t, c.r);
      GrabOkKept(s.fwds, t, pc, pc', c.r);
    } else if pc.open.OpenDrop? {
      DropListenerOkKept(s.fwds, t, pc, pc', pc.open.ln.id);
      DropListenerOk(s.fwds, t, pc.open.ln.id);
    } else {
      SameForwards(s, t, s');
    }
  }

  lemma OpenKeeps(s: State, t: Tid, c: Choice, s': State)
    requires Ready(s, t, s') && s.threads[t].pc.Open? && OpenStep(s, t, c, s')
    ensures Promises(s, s', t) && Global(s')
  {
    OpenParts(s, t, c, s');
    ForwardsOnly(s, s', t);
  }

  lemma OpenKeepsThread(s: State, t: Tid, c: Choice, s': State)
    requires Ready(s, t, s') && s.threads[t].pc.Open? && OpenStep(s, t, c, s')
    ensures ThreadOk(s', t)
  {
    OpenParts(s, t, c, s');
    OpenStaysCalm(s, t, c, s');
    hide OpenStep, FwdsOk, PromisesFwds, ListenersOk, Locks;
    CalmThread(s, s', t);
  }

  /** A forward's listener shut under its bindMu, by the thread that won its flag. */
  lemma ShutsPart(s: State, t: Tid, f: Fid, s': State)
    requires t in s.threads && t in s'.threads && f in s.fwds.all
    requires FwdsOk(s.fwds) && ListenersOk(s.fwds, t, s.threads[t].pc) && Shutting(s.threads[t].pc, f)
    requires s'.fwds == ShutForward(s.fwds, f) && Free(s, BindMu(f))
    requires HandListener(s.threads[t].pc).None? && HandListener(s'.threads[t].pc).None?
    requires var pc, pc' := s.threads[t].pc, s'.threads[t].pc;
      pc'.Done? || (pc.Close? && pc' == Close(CloseFwdDel(pc.close.n)))
    ensures FwdsPart(s, s', t)
  {
    assert s.fwds.all[f].flag == Won(t);
    ShutOk(s.fwds, f);
    ShutOkKept(s.fwds, t, s.threads[t].pc, s'.threads[t].pc, f);
    hide FwdsOk, ListenersOk, FwdsKept, SameListeners, Move, Free;
  }

  lemma CancelParts(s: State, t: Tid, c: Choice, s': State)
    requires Ready(s, t, s') && s.threads[t].pc.Cancel? && CancelStep(s, t, c, s')
    ensures FwdsPart(s, s', t)
  {
    hide ConnsOk, HandOk, OwnersOk, GateThreadOk, BuildOk, Move;
    var pc, pc' := s.threads[t].pc, s'.threads[t].pc;
    if pc.cancel.CancelLook? && pc'.Cancel? {
      TakeOk(s.fwds, t, pc.cancel.n);
      TakeOkKept(s.fwds, t, pc.cancel.n);
    } else if pc.cancel.CancelCas? && pc'.Cancel? {
      WinOk(s.fwds, t, pc.cancel.f);
      WinOkKept(s.fwds, t, pc, pc', pc.cancel.f);
    } else if pc.cancel.CancelBind? {
      ShutsPart(s, t, pc.cancel.f, s');
    }
  }

  lemma CancelKeeps(s: State, t: Tid, c: Choice, s': State)
    requires Ready(s, t, s') && s.threads[t].pc.Cancel? && CancelStep(s, t, c, s')
    ensures Promises(s, s', t) && Global(s')
  {
    CancelParts(s, t, c, s');
    ForwardsOnly(s, s', t);
  }

  lemma CancelKeepsThread(s: State, t: Tid, c: Choice, s': State)
    requires Ready(s, t, s') && s.threads[t].pc.Cancel? && CancelStep(s, t, c, s')
    ensures ThreadOk(s', t)
  {
    CancelParts(s, t, c, s');
    CancelStaysCalm(s, t, c, s');
    hide CancelStep, FwdsOk, PromisesFwds, ListenersOk, Locks;
    CalmThread(s, s', t);
  }

  /** The closer at work on the forwards, under forwardsMu. */
  predicate OnForwards(s: State, t: Tid)
    requires t in s.threads
  {
    var pc := s.threads[t].pc;
    && pc.Close?
    && (pc.close.CloseFwdBind? || pc.close.CloseFwdDel? || (pc.close.CloseFwd? && s.fwds.named != map[]))
  }

  lemma CloseParts(s: State, t: Tid, c: Choice, s': State)
    requires Ready(s, t, s') && OnForwards(s, t) && CloseStep(s, t, c, s')
    ensures FwdsPart(s, s', t)
  {
    var pc := s.threads[t].pc;
    if pc.close.CloseFwd? {
      CloseWins(s, t, c, s');
    } else if pc.close.CloseFwdBind? {
      CloseShuts(s, t, c, s');
    } else {
      CloseDeletes(s, t, c, s');
    }
  }

  lemma CloseWins(s: State, t: Tid, c: Choice, s': State)
    requires Ready(s, t, s') && OnForwards(s, t) && s.threads[t].pc.close.CloseFwd? && CloseStep(s, t, c, s')
    ensures FwdsPart(s, s', t)
  {
    hide ConnsOk, HandOk, GateThreadOk, Move, OwnersOk;
    assert NamedOk(s.fwds, c.n);
    var f := s.fwds.named[c.n];
    if !Closed(s.fwds.all[f]) {
      WinOk(s.fwds, t, f);
      WinOkKept(s.fwds, t, s.threads[t].pc, s'.threads[t].pc, f);
    }
  }

  lemma CloseShuts(s: State, t: Tid, c: Choice, s': State)
    requires Ready(s, t, s') && OnForwards(s, t) && s.threads[t].pc.close.CloseFwdBind? && CloseStep(s, t, c, s')
    ensures FwdsPart(s, s', t)
  {
    hide FwdsOk, ListenersOk, ConnsOk, HandOk, Move, Free, OwnersOk;
    ShutsPart(s, t, s.threads[t].pc.close.f, s');
  }

  /** A shut forward deleted from the map under forwardsMu. */
  lemma DeletesPart(s: State, t: Tid, n: Name, s': State)
    requires t in s.threads && t in s'.threads && s'.fwds == s.fwds.(named := s.fwds.named - {n})
    requires FwdsOk(s.fwds) && ListenersOk(s.fwds, t, Close(CloseFwdDel(n))) && s'.threads[t].pc == Close(CloseFwd)
    requires Owns(s, t, ForwardsMu)
    ensures FwdsPart(s, s', t)
  {
    DeleteOk(s.fwds, t, n);
    hide FwdsOk, ListenersOk, FwdsKept, SameListeners, ShutsNone, Owns;
  }

  lemma CloseDeletes(s: State, t: Tid, c: Choice, s': State)
    requires Ready(s, t, s') && OnForwards(s, t) && s.threads[t].pc.close.CloseFwdDel? && CloseStep(s, t, c, s')
    ensures FwdsPart(s, s', t)
  {
    hide FwdsOk, ListenersOk, ConnsOk, HandOk, OwnersOk;
    DeletesPart(s, t, s.threads[t].pc.close.n, s');
  }

  lemma CloseFwdKeeps(s: State, t: Tid, c: Choice, s': State)
    requires Ready(s, t, s') && OnForwards(s, t) && CloseStep(s, t, c, s')
    ensures Promises(s, s', t) && Global(s')
  {
    CloseParts(s, t, c, s');
    ForwardsOnly(s, s', t);
  }

  lemma CloseFwdKeepsThread(s: State, t: Tid, c: Choice, s': State)
    requires Ready(s, t, s') && OnForwards(s, t) && CloseStep(s, t, c, s')
    ensures ThreadOk(s', t)
  {
    CloseParts(s, t, c, s');
    CloseFwdShape(s, t, c, s');
    StillClosing(s, s', t);
  }

  /** The closer stays under forwardsMu, in the same phase. */
  ghost predicate SamePhase(s: State, s': State, t: Tid) {
    && t in s.threads && t in s'.threads && s'.threads[t].role == s.threads[t].role
    && s'.conns == s.conns && s'.gate == s.gate
    && s.threads[t].pc.Close? && PhaseAt(s.threads[t].pc) == 3
    && s'.threads[t].pc.Close? && PhaseAt(s'.threads[t].pc) == 3
  }

  lemma StillClosing(s: State, s': State, t: Tid)
    requires SamePhase(s, s', t) && ThreadOk(s, t) && ListenersOk(s'.fwds, t, s'.threads[t].pc)
    ensures ThreadOk(s', t)
  {
  }

  lemma CloseFwdShape(s: State, t: Tid, c: Choice, s': State)
    requires t in s.threads && OnForwards(s, t) && CloseStep(s, t, c, s')
    ensures SamePhase(s, s', t)
  {
  }

  lemma ClosePromises(s: State, t: Tid, c: Choice, s': State)
    requires Ready(s, t, s') && s.threads[t].pc.Close? && !OnForwards(s, t) && CloseStep(s, t, c, s')
    ensures Promises(s, s', t)
  {
    hide ConnsOk, FwdsOk, HandOk, ListenersOk, RebindOk, OwnersOk, ShutDownOk;
  }

  lemma CloseTouches(s: State, t: Tid, c: Choice, s': State)
    requires Ready(s, t, s') && s.threads[t].pc.Close? && !OnForwards(s, t) && CloseStep(s, t, c, s')
    ensures TouchesGate(s, s', t)
  {
    hide ConnsOk, FwdsOk, HandOk, ListenersOk, RebindOk, OwnersOk;
  }

  lemma CloseKeeps(s: State, t: Tid, c: Choice, s': State)
    requires Ready(s, t, s') && s.threads[t].pc.Close? && !OnForwards(s, t) && CloseStep(s, t, c, s')
    ensures Promises(s, s', t) && Global(s')
  {
    ClosePromises(s, t, c, s');
    CloseTouches(s, t, c, s');
    hide CloseStep, Promises, TouchesGate, ThreadOk, Locks, Global;
    assert Global(s);
    GateKeepsGlobal(s, s', t);
  }

  /** The closer before it reaches the forwards. */
  predicate Early(pc: PC) {
    pc.Close? && PhaseAt(pc) < 3
  }

  lemma EarlyGate(s: State, t: Tid, c: Choice, s': State)
    requires Ready(s, t, s') && Early(s.threads[t].pc) && CloseStep(s, t, c, s')
    ensures GateThreadOk(s'.gate, t, s'.threads[t])
  {
    hide FwdsOk, ConnsOk, HandOk, ListenersOk, BuildOk, RebindOk, OwnersOk, ShutDownOk;
  }

  /** The closer touches only the gate, and is not yet at a forward. */
  ghost predicate GateOnly(s: State, s': State, t: Tid) {
    && t in s.threads && t in s'.threads && s'.threads[t].role == s.threads[t].role
    && s'.conns == s.conns && s'.fwds == s.fwds
    && Early(s.threads[t].pc)
    && (s'.threads[t].pc.Done? || Early(s'.threads[t].pc) || s'.threads[t].pc == Close(CloseFwd))
  }

  lemma EarlyShape(s: State, t: Tid, c: Choice, s': State)
    requires t in s.threads && Early(s.threads[t].pc) && CloseStep(s, t, c, s')
    ensures GateOnly(s, s', t)
  {
  }

  lemma EarlyThread(s: State, s': State, t: Tid)
    requires GateOnly(s, s', t) && ThreadOk(s, t) && GateThreadOk(s'.gate, t, s'.threads[t])
    ensures ThreadOk(s', t)
  {
    hide GateThreadOk;
  }

  lemma EarlyKeepsThread(s: State, t: Tid, c: Choice, s': State)
    requires Ready(s, t, s') && Early(s.threads[t].pc) && CloseStep(s, t, c, s')
    ensures ThreadOk(s', t)
  {
    EarlyGate(s, t, c, s');
    EarlyShape(s, t, c, s');
    EarlyThread(s, s', t);
  }

  lemma CloseKeepsThread(s: State, t: Tid, c: Choice, s': State)
    requires Ready(s, t, s') && s.threads[t].pc.Close? && CloseStep(s, t, c, s')
    requires !OnForwards(s, t) && !Early(s.threads[t].pc)
    ensures ThreadOk(s', t)
  {
    hide ConnsOk, FwdsOk, OwnersOk;
  }

  /** The rebind takes, swaps or drops a listener. */
  predicate OnListener(pc: PC) {
    pc.Rebind? && pc.rb.next < |pc.rb.snapshot| && (pc.rebind.RbListen? || pc.rebind.RbSwap? || pc.rebind.RbDrop?)
  }

  lemma SwapParts(s: State, t: Tid, c: Choice, s': State)
    requires Ready(s, t, s') && OnListener(s.threads[t].pc) && s.threads[t].pc.rebind.RbSwap? && RebindStep(s, t, c, s')
    ensures FwdsPart(s, s', t)
  {
    hide FwdsOk, ListenersOk, Move;
    var pc, pc' := s.threads[t].pc, s'.threads[t].pc;
    var f := pc.rb.snapshot[pc.rb.next];
    SwapOkKept(s.fwds, t, pc, pc', f, pc.rebind.ln);
    SwapOk(s.fwds, t, f, pc.rebind.ln);
  }

  lemma RebindListenerParts(s: State, t: Tid, c: Choice, s': State)
    requires Ready(s, t, s') && OnListener(s.threads[t].pc) && RebindStep(s, t, c, s')
    ensures FwdsPart(s, s', t)
  {
    hide FwdsOk, ListenersOk, ConnsOk, HandOk, OwnersOk, Move, FwdsKept, SameListeners, ShutsNone;
    var pc, pc' := s.threads[t].pc, s'.threads[t].pc;
    if pc.rebind.RbSwap? {
      SwapParts(s, t, c, s');
    } else if pc.rebind.RbListen? && pc'.rebind.RbBind? {
      GrabOk(s.fwds, t, c.r);
      GrabOkKept(s.fwds, t, pc, pc', c.r);
    } else if pc.rebind.RbDrop? {
      DropListenerOkKept(s.fwds, t, pc, pc', pc.rebind.ln.id);
      DropListenerOk(s.fwds, t, pc.rebind.ln.id);
    } else {
      SameForwards(s, t, s');
    }
  }

  lemma RebindParts(s: State, t: Tid, c: Choice, s': State)
    requires Ready(s, t, s') && s.threads[t].pc.Rebind? && RebindStep(s, t, c, s')
    ensures FwdsPart(s, s', t)
  {
    if OnListener(s.threads[t].pc) {
      RebindListenerParts(s, t, c, s');
    } else {
      RebindElsewhere(s, t, c, s');
    }
  }

  lemma RebindElsewhere(s: State, t: Tid, c: Choice, s': State)
    requires Ready(s, t, s') && s.threads[t].pc.Rebind? && !OnListener(s.threads[t].pc) && RebindStep(s, t, c, s')
    ensures FwdsPart(s, s', t)
  {
    hide FwdsOk, ConnsOk, HandOk, OwnersOk, ListenersOk;
    SameForwards(s, t, s');
  }

  lemma RebindListenerProgress(s: State, t: Tid, c: Choice, s': State)
    requires Ready(s, t, s') && OnListener(s.threads[t].pc) && RebindStep(s, t, c, s')
    ensures RebindOk(s', s'.threads[t].pc)
  {
    hide ConnsOk, FwdsOk, HandOk, ListenersOk, OwnersOk, GateThreadOk, BuildOk, Move;
    var pc, pc' := s.threads[t].pc, s'.threads[t].pc;
    if pc.rebind.RbSwap? {
      MovedOk(s.fwds, s.gate, pc.rb, t, pc.rebind.ln);
    } else if pc'.rb.next == pc.rb.next + 1 {
      SkipOk(s.fwds, s.gate, pc.rb, pc'.rb);
    }
  }

  lemma RebindProgress(s: State, t: Tid, c: Choice, s': State)
    requires Ready(s, t, s') && s.threads[t].pc.Rebind? && !OnListener(s.threads[t].pc) && RebindStep(s, t, c, s')
    ensures RebindOk(s', s'.threads[t].pc)
  {
    hide ConnsOk, FwdsOk, HandOk, ListenersOk, OwnersOk, GateThreadOk, BuildOk;
    var rb, pc' := s.threads[t].pc.rb, s'.threads[t].pc;
    if rb.next < |rb.snapshot| && pc'.rb.next == rb.next + 1 {
      SkipOk(s.fwds, s.gate, rb, pc'.rb);
    }
  }

  lemma RebindKeeps(s: State, t: Tid, c: Choice, s': State)
    requires Ready(s, t, s') && s.threads[t].pc.Rebind? && RebindStep(s, t, c, s')
    ensures Promises(s, s', t) && Global(s')
  {
    RebindParts(s, t, c, s');
    RebindTouches(s, t, c, s');
    hide RebindStep, ThreadOk, Locks, FwdsPart;
    ForwardsOnly(s, s', t);
  }

  lemma RebindTouches(s: State, t: Tid, c: Choice, s': State)
    requires t in s.threads && s.threads[t].pc.Rebind? && RebindStep(s, t, c, s')
    ensures t in s'.threads && s'.fwds.named == s.fwds.named
    ensures s' == s.(fwds := s'.fwds, threads := s.threads[t := s.threads[t].(pc := s'.threads[t].pc)])
  {
    hide Move;
  }

  lemma RebindListenerKeepsThread(s: State, t: Tid, c: Choice, s': State)
    requires Ready(s, t, s') && OnListener(s.threads[t].pc) && RebindStep(s, t, c, s')
    ensures ThreadOk(s', t)
  {
    RebindListenerParts(s, t, c, s');
    RebindListenerProgress(s, t, c, s');
    RebindStaysCalm(s, t, c, s');
    hide RebindStep, FwdsOk, PromisesFwds, ListenersOk, RebindOk, Locks;
    CalmThread(s, s', t);
  }

  lemma RebindKeepsThread(s: State, t: Tid, c: Choice, s': State)
    requires Ready(s, t, s') && s.threads[t].pc.Rebind? && !OnListener(s.threads[t].pc) && RebindStep(s, t, c, s')
    ensures ThreadOk(s', t)
  {
    RebindParts(s, t, c, s');
    RebindProgress(s, t, c, s');
    RebindStaysCalm(s, t, c, s');
    hide RebindStep, FwdsOk, PromisesFwds, ListenersOk, RebindOk, Locks;
    CalmThread(s, s', t);
  }

  // ---------------------------------------------------------- all together

  /** Whatever thread `t` does, it keeps its promise, the shared invariant and its own part. */
  lemma StepKeeps(s: State, t: Tid, c: Choice, s': State)
    requires Global(s) && t in s.threads && ThreadOk(s, t) && Step(s, t, c, s')
    ensures Kept(s, s', t)
  {
    match s.threads[t].pc
    case Done =>
    case Drop(_, _) => DropKeeps(s, t, c, s'); DropKeepsThread(s, t, c, s');
    case Install(_) => InstallKeeps(s, t, c, s'); InstallKeepsThread(s, t, c, s');
    case Start(_) => StartKeeps(s, t, c, s'); StartKeepsThread(s, t, c, s');
    case Idle => IdleKeeps(s, t, c, s'); IdleKeepsThread(s, t, c, s');
    case Clear(_) => ClearKeeps(s, t, c, s'); ClearKeepsThread(s, t, c, s');
    case RebindSnap(_) => SnapKeeps(s, t, c, s'); SnapKeepsThread(s, t, c, s');
    case Rebind(_, _) =>
      RebindKeeps(s, t, c, s');
      if OnListener(s.threads[t].pc) {
        RebindListenerKeepsThread(s, t, c, s');
      } else {
        RebindKeepsThread(s, t, c, s');
      }
    case Close(_) =>
      if OnForwards(s, t) {
        CloseFwdKeeps(s, t, c, s');
        CloseFwdKeepsThread(s, t, c, s');
      } else {
        CloseKeeps(s, t, c, s');
        if Early(s.threads[t].pc) { EarlyKeepsThread(s, t, c, s'); } else { CloseKeepsThread(s, t, c, s'); }
      }
    case Build(_) => BuildKeeps(s, t, c, s'); BuildKeepsThread(s, t, c, s');
    case Open(_, _, _) => OpenKeeps(s, t, c, s'); OpenKeepsThread(s, t, c, s');
    case Cancel(_) => CancelKeeps(s, t, c, s'); CancelKeepsThread(s, t, c, s');
    case Shell(_, _) => ShellKeeps(s, t, c, s'); ShellKeepsThread(s, t, c, s');
  }

  lemma StepHere(s: State, t: Tid, c: Choice, s': State)
    requires Step(s, t, c, s')
    ensures t in s.threads && t in s'.threads && !s.threads[t].pc.Done? && Locks(s, t, s')
  {
  }

  /** The step changes no thread but its own; Connect may start the keepalive thread. */
  lemma StepThreads(s: State, t: Tid, c: Choice, s': State, u: Tid)
    requires Step(s, t, c, s') && u in s'.threads && u !in s.threads
    ensures s.threads[t].pc.Start? && s.threads[t].pc.start.KaGo?
    ensures s'.threads[u] == Thread(Keepalive(s.threads[t].pc.start.ctx), Idle)
  {
    var pc := s.threads[t].pc;
    if pc.Open? || pc.Cancel? || pc.Rebind? || pc.RebindSnap? || pc.Close? {
      SameThreads(s, t, c, s', u);
    }
  }

  lemma SameThreads(s: State, t: Tid, c: Choice, s': State, u: Tid)
    requires Step(s, t, c, s')
    requires var pc := s.threads[t].pc; pc.Open? || pc.Cancel? || pc.Rebind? || pc.RebindSnap? || pc.Close?
    ensures u in s'.threads <==> u in s.threads
  {
  }

  lemma NewKeepalive(s: State, t: Tid, c: Choice, s': State, u: Tid)
    requires Global(s) && t in s.threads && ThreadOk(s, t) && Step(s, t, c, s') && u in s'.threads && u !in s.threads
    ensures ThreadOk(s', u)
  {
    StepThreads(s, t, c, s', u);
    assert StartStep(s, t, c, s');
    Quiet(s, s', u);
  }

  /** A thread that has only just begun holds nothing and is owed nothing. */
  lemma Quiet(s: State, s': State, u: Tid)
    requires Global(s) && s'.conns == s.conns && s'.fwds == s.fwds && s'.gate == s.gate
    requires u !in s.threads && u in s'.threads
    requires var th := s'.threads[u];
      && (th.pc.Idle? || th.pc == Clear(WaitReconnect) || th.pc == Close(CloseCas) || th.pc == Build(SftpWait)
          || (th.pc.Open? && th.pc.open.OpenGet?) || (th.pc.Cancel? && th.pc.cancel.CancelLook?)
          || (th.pc.Shell? && (th.pc.at.ShWait? || th.pc.at.ShRemove?)))
      && RoleOk(th) && !th.role.Connector?
      && (MayReconnect(th.role) ==> 0 in s'.threads && s'.threads[0].pc.Done?)
      && (th.role.Keepalive? ==> Tracked(s.gate, th.role.ctx))
    ensures ThreadOk(s', u)
  {
  }

  /** Mutual exclusion survives a step that takes only free mutexes. */
  lemma StillExclusive(s: State, s': State, t: Tid)
    requires Exclusive(s) && Locks(s, t, s')
    requires forall u :: u in s.threads && u != t ==> u in s'.threads && s'.threads[u] == s.threads[u]
    requires forall u, l :: u in s'.threads && u !in s.threads ==> !Holds(s'.threads[u], l)
    ensures Exclusive(s')
  {
  }

  lemma StepExclusive(s: State, t: Tid, c: Choice, s': State)
    requires Exclusive(s) && t in s.threads && Step(s, t, c, s') && Promises(s, s', t)
    ensures Exclusive(s')
  {
    forall u, l | u in s'.threads && u !in s.threads ensures !Holds(s'.threads[u], l) {
      StepThreads(s, t, c, s', u);
    }
    StillExclusive(s, s', t);
  }

  lemma StepInv(s: State, t: Tid, c: Choice, s': State)
    requires Inv(s) && Step(s, t, c, s')
    ensures Inv(s')
  {
    assert ThreadOk(s, t);
    StepKeeps(s, t, c, s');
    StepExclusive(s, t, c, s');
    forall u | u in s'.threads ensures ThreadOk(s', u) {
      if u !in s.threads {
        NewKeepalive(s, t, c, s', u);
      } else if u != t {
        Stable(s, s', t, u);
      }
    }
  }

  /** A new thread disturbs no other. */
  lemma BeginOther(s: State, t: Tid, th: Thread, s': State, u: Tid)
    requires t !in s.threads && s' == s.(threads := s.threads[t := th]) && u in s.threads && ThreadOk(s, u)
    ensures ThreadOk(s', u)
  {
  }

  lemma BeginInv(s: State, t: Tid, th: Thread, s': State)
    requires Inv(s) && Begin(s, t, th, true, s')
    ensures Inv(s')
  {
    Quiet(s, s', t);
    forall u | u in s.threads ensures ThreadOk(s', u) {
      BeginOther(s, t, th, s', u);
    }
    BeginGlobal(s, t, th, s');
  }

  lemma BeginGlobal(s: State, t: Tid, th: Thread, s': State)
    requires Global(s) && Exclusive(s) && Begin(s, t, th, true, s')
    ensures Global(s') && Exclusive(s')
  {
    assert forall l :: !Holds(th, l);
  }

  /** The invariant holds in every state of every run in which user reconnects wait for Connect. */
  lemma {:induction false} RunInv(run: seq<State>, i: nat)
    requires IsRun(run, true) && i < |run|
    ensures Inv(run[i])
  {
    if i > 0 {
      RunInv(run, i - 1);
      var s, s' := run[i - 1], run[i];
      assert Next(s, s', true);
      if t, c :| Step(s, t, c, s') {
        StepInv(s, t, c, s');
      } else {
        var t, th :| Begin(s, t, th, true, s');
        BeginInv(s, t, th, s');
      }
    }
  }
}

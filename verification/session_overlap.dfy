/**
  Runs in which a user's Reconnect may overlap Connect.  Only the ownership of the
  connections is kept there, and it is kept exactly until setClient stores over a
  client that is still installed.
*/
module SessionOverlap {
  import opened Wrappers
  import opened SessionProtocol
  import opened SessionInvariants
  import opened SessionUpdates
  import opened SessionSteps
  import opened SessionTheorems

  /** Connections owned as the histories say, mutual exclusion, and nobody building on a client that has gone. */
  ghost predicate InOrder(s: State) {
    && Owned(s) && Exclusive(s)
    && forall t :: t in s.threads ==> BuildOk(s.conns, s.threads[t].pc)
  }

  /** The step stores a dialed client over one that is still installed. */
  ghost predicate Overwrites(s: State, s': State) {
    exists t, c :: OverwritesAs(s, t, c, s')
  }

  ghost predicate OverwritesAs(s: State, t: Tid, c: Choice, s': State) {
    Step(s, t, c, s') && Storing(s.threads[t].pc) && s.conns.client.Some?
  }

  /** Program counters whose steps leave the connections alone. */
  predicate Elsewhere(pc: PC) {
    !pc.Install? && !pc.Clear? && !pc.Drop? && !pc.Build?
  }

  /** The step moves its own thread only, apart from threads it starts. */
  ghost predicate OwnThread(s: State, s': State, t: Tid) {
    && t in s'.threads
    && forall u :: u in s.threads && u != t ==> u in s'.threads && s'.threads[u] == s.threads[u]
  }

  /** The step leaves the connections alone, and its thread holds none and builds none. */
  ghost predicate Leaves(s: State, s': State, t: Tid) {
    OwnThread(s, s', t) && s'.conns == s.conns && !s'.threads[t].pc.Build? && Hand(s'.threads[t].pc) == []
  }

  lemma StartLeaves(s: State, t: Tid, c: Choice, s': State)
    requires t in s.threads && s.threads[t].pc.Start? && StartStep(s, t, c, s')
    ensures Leaves(s, s', t)
  {
  }

  lemma IdleLeaves(s: State, t: Tid, c: Choice, s': State)
    requires t in s.threads && s.threads[t].pc.Idle? && IdleStep(s, t, c, s')
    ensures Leaves(s, s', t)
  {
  }

  lemma SnapLeaves(s: State, t: Tid, c: Choice, s': State)
    requires t in s.threads && s.threads[t].pc.RebindSnap? && SnapStep(s, t, c, s')
    ensures Leaves(s, s', t)
  {
  }

  lemma RebindLeaves(s: State, t: Tid, c: Choice, s': State)
    requires t in s.threads && s.threads[t].pc.Rebind? && RebindStep(s, t, c, s')
    ensures Leaves(s, s', t)
  {
  }

  lemma CloseLeaves(s: State, t: Tid, c: Choice, s': State)
    requires t in s.threads && s.threads[t].pc.Close? && CloseStep(s, t, c, s')
    ensures Leaves(s, s', t)
  {
  }

  lemma OpenLeaves(s: State, t: Tid, c: Choice, s': State)
    requires t in s.threads && s.threads[t].pc.Open? && OpenStep(s, t, c, s')
    ensures Leaves(s, s', t)
  {
  }

  lemma CancelLeaves(s: State, t: Tid, c: Choice, s': State)
    requires t in s.threads && s.threads[t].pc.Cancel? && CancelStep(s, t, c, s')
    ensures Leaves(s, s', t)
  {
  }

  lemma ShellLeaves(s: State, t: Tid, c: Choice, s': State)
    requires t in s.threads && s.threads[t].pc.Shell? && ShellStep(s, t, c, s')
    ensures Leaves(s, s', t)
  {
  }

  lemma InstallOwn(s: State, t: Tid, c: Choice, s': State)
    requires t in s.threads && s.threads[t].pc.Install? && InstallStep(s, t, c, s')
    ensures OwnThread(s, s', t)
  {
  }

  lemma ClearOwn(s: State, t: Tid, c: Choice, s': State)
    requires t in s.threads && s.threads[t].pc.Clear? && ClearStep(s, t, c, s')
    ensures OwnThread(s, s', t)
  {
  }

  lemma DropOwn(s: State, t: Tid, c: Choice, s': State)
    requires t in s.threads && s.threads[t].pc.Drop? && DropStep(s, t, c, s')
    ensures OwnThread(s, s', t)
  {
  }

  lemma BuildOwn(s: State, t: Tid, c: Choice, s': State)
    requires t in s.threads && s.threads[t].pc.Build? && BuildStep(s, t, c, s')
    ensures OwnThread(s, s', t)
  {
  }

  lemma ElsewhereLeaves(s: State, t: Tid, c: Choice, s': State)
    requires Step(s, t, c, s') && Elsewhere(s.threads[t].pc)
    ensures Leaves(s, s', t)
  {
    hide Leaves;
    match s.threads[t].pc
    case Start(_) => StartLeaves(s, t, c, s');
    case Idle => IdleLeaves(s, t, c, s');
    case RebindSnap(_) => SnapLeaves(s, t, c, s');
    case Rebind(_, _) => RebindLeaves(s, t, c, s');
    case Close(_) => CloseLeaves(s, t, c, s');
    case Open(_, _, _) => OpenLeaves(s, t, c, s');
    case Cancel(_) => CancelLeaves(s, t, c, s');
    case Shell(_, _) => ShellLeaves(s, t, c, s');
    case _ =>
  }

  lemma StepOwn(s: State, t: Tid, c: Choice, s': State)
    requires Step(s, t, c, s')
    ensures OwnThread(s, s', t)
  {
    hide OwnThread;
    match s.threads[t].pc
    case Install(_) => InstallOwn(s, t, c, s');
    case Clear(_) => ClearOwn(s, t, c, s');
    case Drop(_, _) => DropOwn(s, t, c, s');
    case Build(_) => BuildOwn(s, t, c, s');
    case _ =>
      ElsewhereLeaves(s, t, c, s');
      LeavesOwn(s, s', t);
  }

  lemma LeavesOwn(s: State, s': State, t: Tid)
    requires Leaves(s, s', t)
    ensures OwnThread(s, s', t)
  {
  }

  lemma SameHand(c: Conns, t: Tid, pc: PC, pc': PC)
    requires HandOk(c.place, t, pc) && Hand(pc) == [] == Hand(pc')
    ensures HandOk(c.place, t, pc') && OtherHands(c.place, c.place, t)
  {
  }

  lemma ElsewhereParts(s: State, t: Tid, c: Choice, s': State)
    requires Step(s, t, c, s') && Elsewhere(s.threads[t].pc)
    requires ConnsOk(s.conns) && HandOk(s.conns.place, t, s.threads[t].pc)
    ensures s'.conns == s.conns && ConnsPart(s, s', t)
  {
    ElsewhereLeaves(s, t, c, s');
    hide Step, ConnsOk, HandOk, OtherHands;
    SameHand(s.conns, t, s.threads[t].pc, s'.threads[t].pc);
  }

  lemma StepParts(s: State, t: Tid, c: Choice, s': State)
    requires Step(s, t, c, s') && (Storing(s.threads[t].pc) ==> s.conns.client.None?)
    requires ConnsOk(s.conns) && HandOk(s.conns.place, t, s.threads[t].pc) && BuildOk(s.conns, s.threads[t].pc)
    ensures ConnsPart(s, s', t)
  {
    hide ConnsOk, HandOk, OtherHands, BuildOk;
    match s.threads[t].pc
    case Install(_) => InstallParts(s, t, c, s');
    case Clear(_) => ClearParts(s, t, c, s');
    case Drop(_, _) => DropParts(s, t, c, s');
    case Build(_) => BuildParts(s, t, c, s');
    case _ => ElsewhereParts(s, t, c, s');
  }

  /** The client in place changes only where there is none, or with the SFTP mutex held, and
      whoever builds on it has it before it. */
  ghost predicate Careful(s: State, s': State, t: Tid)
    requires t in s.threads && t in s'.threads
  {
    && (s'.conns.client != s.conns.client ==> s.conns.client.None? || Holds(s.threads[t], SftpMu))
    && (s'.conns.sftp != s.conns.sftp ==> Holds(s.threads[t], SftpMu))
    && BuildOk(s'.conns, s'.threads[t].pc)
  }

  lemma LeavesCareful(s: State, s': State, t: Tid)
    requires t in s.threads && Leaves(s, s', t)
    ensures Careful(s, s', t)
  {
  }

  lemma InstallCareful(s: State, t: Tid, c: Choice, s': State)
    requires t in s.threads && s.threads[t].pc.Install? && InstallStep(s, t, c, s')
    requires Storing(s.threads[t].pc) ==> s.conns.client.None?
    ensures t in s'.threads && Careful(s, s', t)
  {
  }

  lemma ClearCareful(s: State, t: Tid, c: Choice, s': State)
    requires t in s.threads && s.threads[t].pc.Clear? && ClearStep(s, t, c, s')
    ensures t in s'.threads && Careful(s, s', t)
  {
  }

  lemma DropCareful(s: State, t: Tid, c: Choice, s': State)
    requires t in s.threads && s.threads[t].pc.Drop? && DropStep(s, t, c, s')
    ensures t in s'.threads && Careful(s, s', t)
  {
  }

  lemma BuildCareful(s: State, t: Tid, c: Choice, s': State)
    requires t in s.threads && s.threads[t].pc.Build? && BuildStep(s, t, c, s') && BuildOk(s.conns, s.threads[t].pc)
    ensures t in s'.threads && Careful(s, s', t)
  {
  }

  lemma StepCareful(s: State, t: Tid, c: Choice, s': State)
    requires Step(s, t, c, s') && (Storing(s.threads[t].pc) ==> s.conns.client.None?)
    requires BuildOk(s.conns, s.threads[t].pc)
    ensures t in s'.threads && Careful(s, s', t)
  {
    assert t in s.threads && t in s'.threads;
    hide Careful, Leaves, BuildOk, Locks;
    match s.threads[t].pc
    case Install(_) => InstallCareful(s, t, c, s');
    case Clear(_) => ClearCareful(s, t, c, s');
    case Drop(_, _) => DropCareful(s, t, c, s');
    case Build(_) => BuildCareful(s, t, c, s');
    case _ =>
      ElsewhereLeaves(s, t, c, s');
      LeavesCareful(s, s', t);
  }

  lemma NewOnesIdle(s: State, t: Tid, c: Choice, s': State)
    requires Step(s, t, c, s')
    ensures forall u :: u in s'.threads && u !in s.threads ==> s'.threads[u].pc.Idle?
  {
    hide Step;
    forall u | u in s'.threads && u !in s.threads ensures s'.threads[u].pc.Idle? {
      StepThreads(s, t, c, s', u);
    }
  }

  lemma StepInOrder(s: State, t: Tid, c: Choice, s': State)
    requires InOrder(s) && Step(s, t, c, s') && (Storing(s.threads[t].pc) ==> s.conns.client.None?)
    ensures InOrder(s')
  {
    hide Step, ConnsOk, BuildOk, Careful, HandOk, OtherHands;
    StepHere(s, t, c, s');
    StepParts(s, t, c, s');
    StepCareful(s, t, c, s');
    StepOwn(s, t, c, s');
    NewOnesIdle(s, t, c, s');
    StillExclusive(s, s', t);
    OthersInOrder(s, t, s');
  }

  lemma OthersInOrder(s: State, t: Tid, s': State)
    requires InOrder(s) && t in s.threads && OwnThread(s, s', t)
    requires ConnsPart(s, s', t) && Exclusive(s') && Careful(s, s', t)
    requires forall u :: u in s'.threads && u !in s.threads ==> s'.threads[u].pc.Idle?
    ensures InOrder(s')
  {
    hide ConnsOk;
    forall u | u in s'.threads ensures HandOk(s'.conns.place, u, s'.threads[u].pc) && BuildOk(s'.conns, s'.threads[u].pc) {
      if u in s.threads && u != t {
        assert HandOk(s.conns.place, u, s.threads[u].pc) && BuildOk(s.conns, s.threads[u].pc);
        assert Holds(s.threads[u], SftpMu) ==> !Holds(s.threads[t], SftpMu);
      }
    }
  }

  lemma BeginInOrder(s: State, t: Tid, th: Thread, s': State)
    requires InOrder(s) && Begin(s, t, th, false, s')
    ensures InOrder(s')
  {
    hide ConnsOk;
    assert forall l :: !Holds(th, l);
    forall u | u in s'.threads ensures HandOk(s'.conns.place, u, s'.threads[u].pc) && BuildOk(s'.conns, s'.threads[u].pc) {
      if u != t {
        assert HandOk(s.conns.place, u, s.threads[u].pc) && BuildOk(s.conns, s.threads[u].pc);
      }
    }
  }

  lemma {:induction false} RunInOrder(run: seq<State>, i: nat)
    requires IsRun(run, false) && i < |run|
    requires forall k :: 0 <= k < i ==> !Overwrites(run[k], run[k + 1])
    ensures InOrder(run[i])
  {
    if i > 0 {
      RunInOrder(run, i - 1);
      var s, s' := run[i - 1], run[i];
      assert Next(s, s', false) && !Overwrites(s, s');
      if t, c :| Step(s, t, c, s') {
        assert !OverwritesAs(s, t, c, s');
        StepInOrder(s, t, c, s');
      } else {
        var t, th :| Begin(s, t, th, false, s');
        BeginInOrder(s, t, th, s');
      }
    }
  }

  lemma OverwriteLoses(s: State, s': State)
    requires InOrder(s) && Overwrites(s, s')
    ensures !ConnectionsConserved(s')
  {
    var t, c :| OverwritesAs(s, t, c, s');
    InstallLosesExactly(s, t, c, s');
  }

  /** In a run that overwrites at some step, the state after the first such step has lost a connection. */
  lemma {:induction false} FirstOverwriteLoses(run: seq<State>, i: nat)
    requires IsRun(run, false) && i + 1 < |run| && Overwrites(run[i], run[i + 1])
    ensures exists k :: 0 <= k < |run| && !ConnectionsConserved(run[k])
  {
    hide IsRun, Overwrites, ConnectionsConserved, InOrder;
    if k :| 0 <= k < i && Overwrites(run[k], run[k + 1]) {
      FirstOverwriteLoses(run, k);
    } else {
      RunInOrder(run, i);
      OverwriteLoses(run[i], run[i + 1]);
    }
  }

  /** In every run, guarded or not, every connection stays accounted for exactly when no step
      stores a client over one that is still installed. */
  lemma ConservedExactly(run: seq<State>)
    requires IsRun(run, false)
    ensures (forall i :: 0 <= i < |run| ==> ConnectionsConserved(run[i]))
       <==> (forall i :: 0 <= i < |run| - 1 ==> !Overwrites(run[i], run[i + 1]))
  {
    hide IsRun, Overwrites, ConnectionsConserved;
    if forall i :: 0 <= i < |run| - 1 ==> !Overwrites(run[i], run[i + 1]) {
      forall i | 0 <= i < |run| ensures ConnectionsConserved(run[i]) {
        RunInOrder(run, i);
        OwnedConserves(run[i]);
      }
    } else {
      var i :| 0 <= i < |run| - 1 && Overwrites(run[i], run[i + 1]);
      FirstOverwriteLoses(run, i);
    }
  }
}

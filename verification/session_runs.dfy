/** Runs of the session protocol, built a step at a time: what can happen. */
module SessionRuns {
  import opened Wrappers
  import opened SessionProtocol
  import opened SessionInvariants
  import opened SessionTheorems

  function Last(run: seq<State>): State {
    if run == [] then Initial else run[|run| - 1]
  }

  lemma Extend(run: seq<State>, t: Tid, c: Choice, s': State, guarded: bool) returns (run': seq<State>)
    requires IsRun(run, guarded) && Step(Last(run), t, c, s')
    ensures IsRun(run', guarded) && run' == run + [s'] && Last(run') == s'
  {
    run' := run + [s'];
    assert Next(Last(run), s', guarded);
  }

  lemma Begins(run: seq<State>, t: Tid, th: Thread, guarded: bool) returns (run': seq<State>)
    requires IsRun(run, guarded) && t !in Last(run).threads && MayBegin(Last(run), th, guarded)
    ensures IsRun(run', guarded) && Last(run') == Last(run).(threads := Last(run).threads[t := th])
  {
    var s' := Last(run).(threads := Last(run).threads[t := th]);
    assert Begin(Last(run), t, th, guarded, s');
    run' := run + [s'];
    assert Next(Last(run), s', guarded);
  }

  ghost predicate LockFree(th: Thread) {
    forall l :: !Holds(th, l)
  }

  /** No other thread holds a mutex. */
  ghost predicate Alone(s: State, t: Tid) {
    t in s.threads && forall u :: u in s.threads && u != t ==> LockFree(s.threads[u])
  }

  lemma AloneMoves(s: State, t: Tid, s': State)
    requires Alone(s, t) && t in s'.threads
    ensures Locks(s, t, s')
  {
    forall l | !Holds(s.threads[t], l) ensures Free(s, l) {
      forall u | u in s.threads ensures !Holds(s.threads[u], l) {
        assert u != t ==> LockFree(s.threads[u]);
      }
    }
  }

  lemma AloneFree(s: State, t: Tid, l: Lock)
    requires Alone(s, t) && !Holds(s.threads[t], l)
    ensures Free(s, l)
  {
    forall u | u in s.threads ensures !Holds(s.threads[u], l) {
      assert u != t ==> LockFree(s.threads[u]);
    }
  }

  /** A step of a thread that is alone, to a state in which only its own counter and `s'`'s other parts differ. */
  lemma Moves(run: seq<State>, t: Tid, c: Choice, s': State, guarded: bool) returns (run': seq<State>)
    requires IsRun(run, guarded) && Alone(Last(run), t) && t in s'.threads
    requires Locks(Last(run), t, s') ==> Step(Last(run), t, c, s')
    requires forall u :: u in s'.threads && u != t ==> u in Last(run).threads && s'.threads[u] == Last(run).threads[u]
    ensures IsRun(run', guarded) && Last(run') == s' && Alone(s', t)
  {
    hide IsRun, Step, LockFree, Locks;
    AloneMoves(Last(run), t, s');
    run' := Extend(run, t, c, s', guarded);
  }

  // ------------------------------------------------------------ connecting

  lemma Dials(run: seq<State>, t: Tid, tr: Transport, guarded: bool) returns (run': seq<State>)
    requires IsRun(run, guarded) && Alone(Last(run), t) && Fresh(Last(run).conns.place, All(tr))
    requires Last(run).threads[t].pc == Install(Dial)
    ensures IsRun(run', guarded) && Alone(Last(run'), t)
    ensures Last(run') == Go(Last(run), t, Install(Dialed(tr))).(conns := Hold(Last(run).conns, t, All(tr)))
  {
    hide IsRun, LockFree, Move, Locks;
    var s := Last(run);
    run' := Moves(run, t, NewTransport(tr), Go(s, t, Install(Dialed(tr))).(conns := Hold(s.conns, t, All(tr))), guarded);
  }

  function AfterInstall(role: Role, client: Res): PC {
    if role.Connector? then Start(KaNew) else RebindSnap(client)
  }

  /** A thread holding a dialed client installs it on an open session. */
  lemma Installs(run: seq<State>, t: Tid, tr: Transport, guarded: bool) returns (run': seq<State>)
    requires IsRun(run, guarded) && Alone(Last(run), t)
    requires Last(run).threads[t].pc == Install(Dialed(tr)) && Last(run).gate.closedBy.None?
    ensures IsRun(run', guarded) && Alone(Last(run'), t)
    ensures
      var s := Last(run);
      Last(run') == Go(s, t, AfterInstall(s.threads[t].role, tr.client)).(conns := InstallClient(s.conns, tr))
  {
    hide IsRun, LockFree, Move, Locks;
    var s := Last(run);
    run' := Moves(run, t, Plain, Go(s, t, Install(SetLoad(tr))), guarded);
    run' := Moves(run', t, Plain, Go(s, t, Install(SetStore(tr))), guarded);
    var next := AfterInstall(s.threads[t].role, tr.client);
    run' := Moves(run', t, Plain, Go(s, t, next).(conns := InstallClient(s.conns, tr)), guarded);
  }

  /** Connect alone, with client 1, to its return. */
  lemma Connects() returns (run: seq<State>)
    ensures IsRun(run, true) && Last(run) == Connected
  {
    var a := Transport(1, []);
    assert All(a) == [1];
    run := [Initial];
    assert Alone(Initial, 0);
    run := Dials(run, 0, a, true);
    run := Installs(run, 0, a, true);
    var s := Last(run);
    run := Moves(run, 0, Plain, Go(s, 0, Done), true);
    assert Last(run).threads == map[0 := Thread(Connector, Done)];
  }

  ghost const Connected: State := Initial.(
    conns := InstallClient(Hold(Initial.conns, 0, [1]), Transport(1, [])),
    threads := map[0 := Thread(Connector, Done)])

  // ---------------------------------------------------------- reconnecting

  /** A reconnect takes its mutexes and detaches what is installed. */
  lemma Detaches(run: seq<State>, t: Tid, guarded: bool) returns (run': seq<State>)
    requires IsRun(run, guarded) && Alone(Last(run), t)
    requires Last(run).threads[t] == Thread(Reconnector, Clear(WaitReconnect))
    ensures IsRun(run', guarded) && Alone(Last(run'), t)
    ensures
      var s := Last(run);
      Last(run') == Go(s, t, Drop(Detached(s.conns), ToDial)).(conns := Detach(s.conns, t))
  {
    hide IsRun, LockFree, Move, Locks;
    var s := Last(run);
    run' := Moves(run, t, Plain, Go(s, t, Clear(WaitSftp)), guarded);
    run' := Moves(run', t, Plain, Go(s, t, Clear(WaitMu)), guarded);
    AloneFree(Last(run'), t, Mu);
    run' := Moves(run', t, Plain, Go(s, t, Drop(Detached(s.conns), ToDial)).(conns := Detach(s.conns, t)), guarded);
  }

  /** Closing one connection in hand. */
  lemma Drops(run: seq<State>, t: Tid, r: Res, after: After, guarded: bool) returns (run': seq<State>)
    requires IsRun(run, guarded) && Alone(Last(run), t) && Last(run).threads[t].pc == Drop([r], after)
    ensures IsRun(run', guarded) && Alone(Last(run'), t)
    ensures Last(run') == Go(Last(run), t, Drop([], after)).(conns := Drop1(Last(run).conns, r))
  {
    hide IsRun, LockFree, Move, Locks;
    var s := Last(run);
    assert [r][1..] == [];
    run' := Moves(run, t, Plain, Go(s, t, Drop([], after)).(conns := Drop1(s.conns, r)), guarded);
  }

  lemma ToDialing(run: seq<State>, t: Tid, guarded: bool) returns (run': seq<State>)
    requires IsRun(run, guarded) && Alone(Last(run), t) && Last(run).threads[t].pc == Drop([], ToDial)
    ensures IsRun(run', guarded) && Alone(Last(run'), t) && Last(run') == Go(Last(run), t, Install(Dial))
  {
    hide IsRun, LockFree, Move, Locks;
    run' := Moves(run, t, Plain, Go(Last(run), t, Install(Dial)), guarded);
  }

  /** A reconnect on a session with client `was` and no SFTP client, to the point where it is about to dial. */
  lemma Clears(run: seq<State>, t: Tid, was: Res, guarded: bool) returns (run': seq<State>)
    requires IsRun(run, guarded) && Alone(Last(run), t)
    requires Last(run).threads[t] == Thread(Reconnector, Clear(WaitReconnect)) && Detached(Last(run).conns) == [was]
    ensures IsRun(run', guarded) && Alone(Last(run'), t)
    ensures Last(run') == Go(Last(run), t, Install(Dial)).(conns := Drop1(Detach(Last(run).conns, t), was))
  {
    hide IsRun, LockFree, Locks, Step, Detach, Drop1;
    run' := Detaches(run, t, guarded);
    run' := Drops(run', t, was, ToDial, guarded);
    run' := ToDialing(run', t, guarded);
  }

  lemma Redials(run: seq<State>, t: Tid, c: Res, guarded: bool) returns (run': seq<State>)
    requires IsRun(run, guarded) && Alone(Last(run), t) && c !in Last(run).conns.place
    requires Last(run).threads[t] == Thread(Reconnector, Install(Dial)) && Last(run).gate.closedBy.None?
    ensures IsRun(run', guarded) && Alone(Last(run'), t)
    ensures
      var s := Last(run);
      Last(run') == Go(s, t, RebindSnap(c)).(conns := InstallClient(Hold(s.conns, t, [c]), Transport(c, [])))
  {
    hide IsRun, LockFree, Locks, Step;
    assert All(Transport(c, [])) == [c];
    run' := Dials(run, t, Transport(c, []), guarded);
    run' := Installs(run', t, Transport(c, []), guarded);
  }

  /** A reconnect on a session with client `was` and no SFTP client, to the point where client `c` is installed. */
  lemma Reconnects(run: seq<State>, t: Tid, was: Res, c: Res, guarded: bool) returns (run': seq<State>)
    requires IsRun(run, guarded) && Alone(Last(run), t)
    requires Last(run).threads[t] == Thread(Reconnector, Clear(WaitReconnect))
    requires Last(run).gate.closedBy.None?
    requires Last(run).conns.client == Some(Transport(was, [])) && Last(run).conns.sftp.None?
    requires c !in Last(run).conns.place && c != was
    ensures IsRun(run', guarded) && Alone(Last(run'), t)
    ensures Last(run') == Go(Last(run), t, RebindSnap(c)).(conns := Last(run').conns)
    ensures Last(run').conns.client == Some(Transport(c, []))
  {
    hide IsRun, LockFree, Locks, Step;
    var s := Last(run);
    assert All(Transport(was, [])) == [was];
    assert Detached(s.conns) == [was];
    run' := Clears(run, t, was, guarded);
    run' := Redials(run', t, c, guarded);
    assert Last(run').threads == Go(s, t, RebindSnap(c)).threads;
  }

  // ------------------------------------------------------------- forwards

  /** An opener of a remote forward reads the client and listens on it. */
  lemma ListensOn(run: seq<State>, t: Tid, n: Name, r: Res, guarded: bool) returns (run': seq<State>)
    requires IsRun(run, guarded) && Alone(Last(run), t) && Last(run).threads[t].pc == Open(n, true, OpenGet)
    requires Last(run).conns.client.Some? && r !in Last(run).fwds.place
    ensures IsRun(run', guarded) && Alone(Last(run'), t)
    ensures
      var s := Last(run);
      var ln := Listener(r, Some(s.conns.client.value.client));
      Last(run') == Go(s, t, Open(n, true, OpenReg(ln))).(fwds := Grab(s.fwds, t, r))
  {
    hide IsRun, LockFree, Move, Locks;
    var s := Last(run);
    var on := s.conns.client.value.client;
    AloneFree(s, t, Mu);
    run' := Moves(run, t, Plain, Go(s, t, Open(n, true, OpenListen(on))), guarded);
    assert Fresh(s.fwds.place, [r]);
    run' := Moves(run', t, NewRes(r), Go(s, t, Open(n, true, OpenReg(Listener(r, Some(on))))).(fwds := Grab(s.fwds, t, r)), guarded);
  }

  /** It registers the forward, on an open session and under a free name. */
  lemma Registers(run: seq<State>, t: Tid, n: Name, f: Fid, ln: Listener, guarded: bool) returns (run': seq<State>)
    requires IsRun(run, guarded) && t in Last(run).threads && Last(run).threads[t].pc == Open(n, true, OpenReg(ln))
    requires Last(run).gate.closedBy.None? && n !in Last(run).fwds.named && f !in Last(run).fwds.all
    requires Free(Last(run), ForwardsMu)
    ensures IsRun(run', guarded)
    ensures
      var s := Last(run);
      Last(run') == Go(s, t, Done).(fwds := Register(s.fwds, f, Forward(n, true, ln, Live)))
  {
    hide IsRun, Move;
    var s := Last(run);
    run' := Extend(run, t, Plain, Go(s, t, Open(n, true, OpenLoad(ln))), guarded);
    run' := Extend(run', t, Plain, Go(s, t, Open(n, true, OpenPut(ln))), guarded);
    run' := Extend(run', t, NewFid(f), Go(s, t, Done).(fwds := Register(s.fwds, f, Forward(n, true, ln, Live))), guarded);
  }

  /** A rebind snapshots the map. */
  lemma Snaps(run: seq<State>, t: Tid, target: Res, fs: seq<Fid>, guarded: bool) returns (run': seq<State>)
    requires IsRun(run, guarded) && Alone(Last(run), t) && Last(run).threads[t].pc == RebindSnap(target)
    requires (set f | f in fs) == Last(run).fwds.named.Values && NoDup(fs) && MayReconnect(Last(run).threads[t].role)
    ensures IsRun(run', guarded) && Alone(Last(run'), t)
    ensures Last(run') == Go(Last(run), t, Rebind(Rebinding(target, fs, 0, {}, {}), RbTop))
  {
    hide IsRun, LockFree, Locks;
    var s := Last(run);
    AloneFree(s, t, ForwardsMu);
    run' := Moves(run, t, Order(fs), Go(s, t, Rebind(Rebinding(target, fs, 0, {}, {}), RbTop)), guarded);
  }

  /** A rebind obtains a listener for its first forward on the client now installed. */
  lemma ToBind(run: seq<State>, t: Tid, rb: Rebinding, r: Res, guarded: bool) returns (run': seq<State>)
    requires IsRun(run, guarded) && Alone(Last(run), t) && Last(run).threads[t].pc == Rebind(rb, RbTop)
    requires rb.next < |rb.snapshot| && rb.snapshot[rb.next] in Last(run).fwds.all
    requires
      var fw := Last(run).fwds.all[rb.snapshot[rb.next]];
      fw.remote && !Closed(fw)
    requires Last(run).conns.client.Some? && r !in Last(run).fwds.place
    ensures IsRun(run', guarded) && Alone(Last(run'), t)
    ensures
      var s := Last(run);
      var ln := Listener(r, Some(s.conns.client.value.client));
      Last(run') == Go(s, t, Rebind(rb, RbBind(ln))).(fwds := Grab(s.fwds, t, r))
  {
    hide IsRun, LockFree, Move, Locks;
    var s := Last(run);
    var on := s.conns.client.value.client;
    run' := Moves(run, t, Plain, Go(s, t, Rebind(rb, RbGet)), guarded);
    AloneFree(Last(run'), t, Mu);
    run' := Moves(run', t, Plain, Go(s, t, Rebind(rb, RbListen(on))), guarded);
    assert Fresh(s.fwds.place, [r]);
    run' := Moves(run', t, NewRes(r), Go(s, t, Rebind(rb, RbBind(Listener(r, Some(on))))).(fwds := Grab(s.fwds, t, r)), guarded);
  }

  /** It takes bindMu and finds the forward's closed flag not set: it stands before the swap. */
  lemma ToSwap(run: seq<State>, t: Tid, rb: Rebinding, ln: Listener, guarded: bool) returns (run': seq<State>)
    requires IsRun(run, guarded) && Alone(Last(run), t) && Last(run).threads[t].pc == Rebind(rb, RbBind(ln))
    requires rb.next < |rb.snapshot| && rb.snapshot[rb.next] in Last(run).fwds.all
    requires !Closed(Last(run).fwds.all[rb.snapshot[rb.next]])
    ensures IsRun(run', guarded) && Alone(Last(run'), t)
    ensures Last(run') == Go(Last(run), t, Rebind(rb, RbSwap(ln)))
  {
    hide IsRun, LockFree, Move, Locks;
    var s := Last(run);
    run' := Moves(run, t, Plain, Go(s, t, Rebind(rb, RbLoad(ln))), guarded);
    run' := Moves(run', t, Plain, Go(s, t, Rebind(rb, RbSwap(ln))), guarded);
  }

  /** The swap. */
  lemma Swaps(run: seq<State>, t: Tid, rb: Rebinding, ln: Listener, guarded: bool) returns (run': seq<State>)
    requires IsRun(run, guarded) && t in Last(run).threads && Last(run).threads[t].pc == Rebind(rb, RbSwap(ln))
    requires rb.next < |rb.snapshot| && rb.snapshot[rb.next] in Last(run).fwds.all
    ensures IsRun(run', guarded)
    ensures
      var s := Last(run);
      var f := rb.snapshot[rb.next];
      var pc := Rebind(rb.(moved := rb.moved + {f}), RbDrop(s.fwds.all[f].listener));
      run' == run + [Go(s, t, pc).(fwds := Swap(s.fwds, f, t, ln))]
  {
    hide IsRun, Move;
    var s := Last(run);
    var f := rb.snapshot[rb.next];
    var pc := Rebind(rb.(moved := rb.moved + {f}), RbDrop(s.fwds.all[f].listener));
    run' := Extend(run, t, Plain, Go(s, t, pc).(fwds := Swap(s.fwds, f, t, ln)), guarded);
  }

  /** A canceller takes the live forward called `n` out of the map and wins its flag. */
  lemma Wins(run: seq<State>, t: Tid, n: Name, guarded: bool) returns (run': seq<State>)
    requires IsRun(run, guarded) && t in Last(run).threads
    requires Last(run).threads[t] == Thread(ForwardUser, Cancel(CancelLook(n)))
    requires Free(Last(run), ForwardsMu) && n in Last(run).fwds.named && Last(run).fwds.named[n] in Last(run).fwds.all
    requires Last(run).fwds.all[Last(run).fwds.named[n]].flag.Live?
    ensures IsRun(run', guarded)
    ensures
      var s := Last(run);
      var f := s.fwds.named[n];
      Last(run') == Go(s, t, Cancel(CancelBind(f))).(fwds := Last(run').fwds)
      && Last(run').fwds.all == s.fwds.all[f := s.fwds.all[f].(flag := Won(t))]
      && Last(run').fwds.place == s.fwds.place
  {
    hide IsRun, Move;
    var s := Last(run);
    var f := s.fwds.named[n];
    var w := SetFlag(s.fwds.(named := s.fwds.named - {n}), f, Taken(t));
    run' := Extend(run, t, Plain, Go(s, t, Cancel(CancelCas(f))).(fwds := w), guarded);
    run' := Extend(run', t, Plain, Go(s, t, Cancel(CancelBind(f))).(fwds := SetFlag(w, f, Won(t))), guarded);
  }

  // -------------------------------------------------------- what can happen

  lemma DoneIsFree(th: Thread)
    requires th.pc.Done? || (th.role.ForwardUser? && th.pc.Open? && (th.pc.open.OpenGet? || th.pc.open.OpenReg?))
    ensures LockFree(th)
  {
  }

  /** After Connect, a remote forward opened by thread 2 as forward 0 on listener 5. */
  lemma OpensForward() returns (run: seq<State>)
    ensures IsRun(run, true) && Last(run).threads == map[0 := Thread(Connector, Done), 2 := Thread(ForwardUser, Done)]
    ensures Last(run).conns == Connected.conns && Last(run).gate == Initial.gate
    ensures Last(run).fwds == Register(Grab(Initial.fwds, 2, 5), 0, Forward(0, true, Listener(5, Some(1)), Live))
  {
    hide IsRun, LockFree, Locks, Move, Step;
    run := Connects();
    run := Begins(run, 2, Thread(ForwardUser, Open(0, true, OpenGet)), true);
    DoneIsFree(Last(run).threads[0]);
    run := ListensOn(run, 2, 0, 5, true);
    AloneFree(Last(run), 2, ForwardsMu);
    run := Registers(run, 2, 0, 0, Listener(5, Some(1)), true);
    assert Last(run).threads == map[0 := Thread(Connector, Done), 2 := Thread(ForwardUser, Done)];
  }

  /** The same forward with a Reconnect about to rebind it: client 3 is installed and listener 6 obtained on it,
      and the rebind stands between looking at the forward's closed flag and the swap. */
  lemma BeforeSwap() returns (run: seq<State>)
    ensures IsRun(run, true) && Last(run).gate == Initial.gate
    ensures
      var rb := Rebinding(3, [0], 0, {}, {});
      Last(run).threads == map[0 := Thread(Connector, Done), 2 := Thread(ForwardUser, Done),
                               1 := Thread(Reconnector, Rebind(rb, RbSwap(Listener(6, Some(3)))))]
    ensures Last(run).fwds == Grab(Register(Grab(Initial.fwds, 2, 5), 0, Forward(0, true, Listener(5, Some(1)), Live)), 1, 6)
  {
    hide IsRun, LockFree, Locks, Move, Step;
    var rb := Rebinding(3, [0], 0, {}, {});
    run := OpensForward();
    var w := Last(run).fwds;
    run := Begins(run, 1, Thread(Reconnector, Clear(WaitReconnect)), true);
    DoneIsFree(Last(run).threads[0]);
    DoneIsFree(Last(run).threads[2]);
    OnlyFive(w, Last(run).conns);
    run := Reconnects(run, 1, 1, 3, true);
    assert w.named == map[0 := 0] && w.named.Values == {0};
    run := Snaps(run, 1, 3, [0], true);
    run := ToBind(run, 1, rb, 6, true);
    run := ToSwap(run, 1, rb, Listener(6, Some(3)), true);
    assert Last(run).threads == map[0 := Thread(Connector, Done), 2 := Thread(ForwardUser, Done),
                                    1 := Thread(Reconnector, Rebind(rb, RbSwap(Listener(6, Some(3)))))];
  }

  lemma OnlyFive(w: Fwds, c: Conns)
    requires w == Register(Grab(Initial.fwds, 2, 5), 0, Forward(0, true, Listener(5, Some(1)), Live))
    requires c == Connected.conns
    ensures 6 !in w.place && 3 !in c.place
  {
    assert All(Transport(1, [])) == [1];
  }

  /** A forward's closed flag is set, and a rebind still swaps a new listener in: it had looked at the
      flag before.  The run ends with the flag set, and `s'` is the next state. */
  lemma SwapAfterFlag() returns (run: seq<State>, s': State)
    ensures IsRun(run, true) && IsRun(run + [s'], true)
    ensures 0 in Last(run).fwds.all && Closed(Last(run).fwds.all[0])
    ensures 0 in s'.fwds.all && s'.fwds.all[0].listener != Last(run).fwds.all[0].listener
  {
    hide IsRun, Move, Step;
    run := BeforeSwap();
    run := Begins(run, 3, Thread(ForwardUser, Cancel(CancelLook(0))), true);
    run := Wins(run, 3, 0, true);
    var run' := Swaps(run, 1, Rebinding(3, [0], 0, {}, {}), Listener(6, Some(3)), true);
    s' := Last(run');
  }

  /** A forward whose opener listened before a Reconnect and registers after its snapshot: the rebind
      finishes on an open session, and the forward, live and in the map, listens on the closed client. */
  lemma RegisteredTooLate() returns (run: seq<State>)
    ensures IsRun(run, true) && Last(run).gate.closedBy.None?
    ensures 1 in Last(run).threads && Last(run).threads[1] == Thread(Reconnector, Done)
    ensures
      var s := Last(run);
      && s.conns.client == Some(Transport(3, []))
      && s.fwds.named == map[0 := 0] && 0 in s.fwds.all
      && s.fwds.all[0] == Forward(0, true, Listener(5, Some(1)), Live)
  {
    hide IsRun, LockFree, Move;
    run := Connects();
    run := Begins(run, 2, Thread(ForwardUser, Open(0, true, OpenGet)), true);
    DoneIsFree(Last(run).threads[0]);
    run := ListensOn(run, 2, 0, 5, true);
    run := Begins(run, 1, Thread(Reconnector, Clear(WaitReconnect)), true);
    DoneIsFree(Last(run).threads[2]);
    OnlyOne(Last(run).conns);
    run := Reconnects(run, 1, 1, 3, true);
    run := Snaps(run, 1, 3, [], true);
    AloneFree(Last(run), 1, ForwardsMu);
    run := Registers(run, 2, 0, 0, Listener(5, Some(1)), true);
    run := Extend(run, 1, Plain, Go(Last(run), 1, Done), true);
  }

  lemma OnlyOne(c: Conns)
    requires c == Connected.conns
    ensures 3 !in c.place
  {
    assert All(Transport(1, [])) == [1];
  }

  /** A Reconnect that begins while Connect is dialing installs client 10. */
  lemma ReconnectOvertakes() returns (run: seq<State>)
    ensures IsRun(run, false) && Last(run).gate == Initial.gate
    ensures Last(run).threads == map[0 := Thread(Connector, Install(Dial)), 1 := Thread(Reconnector, RebindSnap(10))]
    ensures Last(run).conns == InstallClient(Hold(Initial.conns, 1, [10]), Transport(10, []))
  {
    hide IsRun, LockFree, Locks, Move, Step;
    assert All(Transport(10, [])) == [10];
    run := [Initial];
    assert IsRun(run, false) by {
      FirstState(false);
    }
    run := Begins(run, 1, Thread(Reconnector, Clear(WaitReconnect)), false);
    DialingIsFree(Last(run).threads[0]);
    assert Detached(Initial.conns) == [] && Detach(Initial.conns, 1) == Initial.conns by {
      NothingDetached(Initial.conns, 1);
    }
    run := Detaches(run, 1, false);
    run := ToDialing(run, 1, false);
    run := Dials(run, 1, Transport(10, []), false);
    run := Installs(run, 1, Transport(10, []), false);
    assert Last(run).threads == map[0 := Thread(Connector, Install(Dial)), 1 := Thread(Reconnector, RebindSnap(10))];
  }

  lemma FirstState(guarded: bool)
    ensures IsRun([Initial], guarded)
  {
  }

  lemma DialingIsFree(th: Thread)
    requires th == Thread(Connector, Install(Dial))
    ensures LockFree(th)
  {
  }

  lemma NothingDetached(c: Conns, t: Tid)
    requires c.client.None? && c.sftp.None?
    ensures Detached(c) == [] && Detach(c, t) == c
  {
    assert Move(c.place, [], InHand(t)) == c.place;
  }

  /** What is left when a second client is stored over the first. */
  lemma FirstIsLost(s: State)
    requires s.threads == map[0 := Thread(Connector, Start(KaNew)), 1 := Thread(Reconnector, RebindSnap(10))]
    requires
      var first := InstallClient(Hold(Initial.conns, 1, [10]), Transport(10, []));
      s.conns == InstallClient(Hold(first, 0, [20]), Transport(20, []))
    ensures 10 in s.conns.place && s.conns.closes[10] == 0
    ensures !HeldBySome(s, 10) && !Installed(s, 10) && !ConnectionsConserved(s)
  {
    assert All(Transport(20, [])) == [20];
    assert s.conns.closes[10] == 0 && !Installed(s, 10) && !Cached(s, 10);
    assert !HeldBySome(s, 10) && !InOnePlace(s, 10);
  }

  lemma GoFree(s: State, t: Tid, pc: PC, l: Lock)
    requires t in s.threads && Free(s, l) && !Holds(s.threads[t].(pc := pc), l)
    ensures Free(Go(s, t, pc), l)
  {
  }

  lemma SeesOpen(run: seq<State>, t: Tid, tr: Transport, guarded: bool) returns (run': seq<State>)
    requires IsRun(run, guarded) && t in Last(run).threads && Last(run).threads[t].pc == Install(Dialed(tr))
    requires Last(run).gate.closedBy.None? && Free(Last(run), Mu)
    ensures IsRun(run', guarded) && Last(run') == Go(Last(run), t, Install(SetStore(tr)))
  {
    hide IsRun, Move;
    var s := Last(run);
    run' := Extend(run, t, Plain, Go(s, t, Install(SetLoad(tr))), guarded);
    run' := Extend(run', t, Plain, Go(s, t, Install(SetStore(tr))), guarded);
  }

  /** Connect stores a dialed client, whoever else is in the middle of what. */
  lemma StoresDialed(run: seq<State>, t: Tid, tr: Transport, guarded: bool) returns (run': seq<State>)
    requires IsRun(run, guarded) && t in Last(run).threads
    requires Last(run).threads[t] == Thread(Connector, Install(Dialed(tr)))
    requires Last(run).gate.closedBy.None? && Free(Last(run), Mu)
    ensures IsRun(run', guarded)
    ensures Last(run') == Go(Last(run), t, Start(KaNew)).(conns := InstallClient(Last(run).conns, tr))
  {
    hide IsRun, Move;
    var s := Last(run);
    run' := SeesOpen(run, t, tr, guarded);
    run' := Extend(run', t, Plain, Go(s, t, Start(KaNew)).(conns := InstallClient(s.conns, tr)), guarded);
  }

  lemma DialsAndStores(run: seq<State>, t: Tid, tr: Transport, guarded: bool) returns (run': seq<State>)
    requires IsRun(run, guarded) && t in Last(run).threads && Last(run).threads[t] == Thread(Connector, Install(Dial))
    requires Last(run).gate.closedBy.None? && Free(Last(run), Mu) && Fresh(Last(run).conns.place, All(tr))
    ensures IsRun(run', guarded)
    ensures
      var s := Last(run);
      Last(run') == Go(s, t, Start(KaNew)).(conns := InstallClient(Hold(s.conns, t, All(tr)), tr))
  {
    hide IsRun, Move;
    var s := Last(run).(conns := Hold(Last(run).conns, t, All(tr)));
    run' := Extend(run, t, NewTransport(tr), Go(s, t, Install(Dialed(tr))), guarded);
    GoFree(Last(run), t, Install(Dialed(tr)), Mu);
    hide Free, Step;
    run' := StoresDialed(run', t, tr, guarded);
  }

  /** Connect's setClient then replaces that client: nobody holds it, and nobody has closed it. */
  lemma ReconnectDuringConnectLeaks() returns (run: seq<State>)
    ensures IsRun(run, false) && !ConnectionsConserved(Last(run))
    ensures 10 in Last(run).conns.place && Last(run).conns.closes[10] == 0
    ensures !HeldBySome(Last(run), 10) && !Installed(Last(run), 10)
  {
    hide IsRun, ConnectionsConserved, HeldBySome, Move;
    var b := Transport(20, []);
    assert All(b) == [20];
    run := ReconnectOvertakes();
    FreshTwenty(Last(run).conns);
    run := DialsAndStores(run, 0, b, false);
    FirstIsLost(Last(run));
  }

  lemma FreshTwenty(c: Conns)
    requires c == InstallClient(Hold(Initial.conns, 1, [10]), Transport(10, []))
    ensures Fresh(c.place, [20])
  {
    assert All(Transport(10, [])) == [10];
  }

  // ---------------------------------------------------------------- closing

  /** close on a session with client 1 and nothing else, up to the forwards. */
  lemma CloseStarts() returns (run: seq<State>)
    ensures IsRun(run, true) && Alone(Last(run), 1) && Last(run).threads[1] == Thread(Closer, Close(CloseFwd))
    ensures Last(run).gate.closedBy == Some(1)
    ensures Last(run).conns == Connected.conns && Last(run).fwds == Initial.fwds && Last(run).shells == {}
  {
    hide IsRun, LockFree, Locks, Move;
    run := Connects();
    run := Begins(run, 1, Thread(Closer, Close(CloseCas)), true);
    DoneIsFree(Last(run).threads[0]);
    var s := Last(run);
    var g1 := s.gate.(closedBy := Some(1), phase := 1);
    run := Moves(run, 1, Plain, Go(s, 1, Close(CloseCancel)).(gate := g1), true);
    run := CancelsNothing(run, true);
  }

  /** With no keepalive to cancel, the closer goes on to the forwards. */
  lemma CancelsNothing(run: seq<State>, guarded: bool) returns (run': seq<State>)
    requires IsRun(run, guarded) && Alone(Last(run), 1) && Last(run).threads[1] == Thread(Closer, Close(CloseCancel))
    requires Last(run).gate.cancel.None? && Last(run).gate.firing.None?
    ensures IsRun(run', guarded) && Alone(Last(run'), 1)
    ensures Last(run') == Go(Last(run), 1, Close(CloseFwd)).(gate := Last(run).gate.(phase := 3))
  {
    hide IsRun, LockFree, Locks, Move;
    var s := Last(run);
    AloneFree(Last(run), 1, Mu);
    run' := Moves(run, 1, Plain, Go(s, 1, Close(CloseFire)).(gate := s.gate.(phase := 2)), guarded);
    run' := Moves(run', 1, Plain, Go(s, 1, Close(CloseFwdMu)).(gate := s.gate.(phase := 2)), guarded);
    run' := Moves(run', 1, Plain, Go(s, 1, Close(CloseFwd)).(gate := s.gate.(phase := 3)), guarded);
  }

  /** And on to the point where it has taken the client out. */
  lemma CloseDetaches() returns (run: seq<State>)
    ensures IsRun(run, true) && Alone(Last(run), 1) && Last(run).threads[1] == Thread(Closer, Drop([1], ToClosed))
    ensures Last(run).gate.closedBy == Some(1)
  {
    hide IsRun, LockFree, Locks, Move;
    run := CloseStarts();
    run := ClosesMaps(run, true);
    AloneFree(Last(run), 1, Mu);
    assert All(Transport(1, [])) == [1];
    var s := Last(run);
    assert Detached(s.conns) == [1];
    run := Moves(run, 1, Plain, Go(s, 1, Drop([1], ToClosed)).(conns := Detach(s.conns, 1), gate := s.gate.(phase := 7)), true);
  }

  lemma ClosesMaps(run: seq<State>, guarded: bool) returns (run': seq<State>)
    requires IsRun(run, guarded) && Alone(Last(run), 1) && Last(run).threads[1] == Thread(Closer, Close(CloseFwd))
    requires Last(run).fwds.named == map[] && Last(run).shells == {}
    ensures IsRun(run', guarded) && Alone(Last(run'), 1)
    ensures Last(run') == Go(Last(run), 1, Clear(WaitMu)).(gate := Last(run).gate.(phase := 6))
  {
    hide IsRun, LockFree, Locks, Move;
    var s := Last(run);
    var g := s.gate;
    run' := Moves(run, 1, Plain, Go(s, 1, Close(CloseShMu)).(gate := g.(phase := 4)), guarded);
    run' := Moves(run', 1, Plain, Go(s, 1, Close(CloseSh)).(gate := g.(phase := 5)), guarded);
    run' := Moves(run', 1, Plain, Go(s, 1, Clear(WaitSftp)).(gate := g.(phase := 6)), guarded);
    run' := Moves(run', 1, Plain, Go(s, 1, Clear(WaitMu)).(gate := g.(phase := 6)), guarded);
  }

  /** A close can complete. */
  lemma CloseCanComplete() returns (run: seq<State>)
    ensures IsRun(run, true) && CloseCompleted(Last(run))
  {
    hide IsRun, LockFree, Locks, Move;
    run := CloseDetaches();
    run := Drops(run, 1, 1, ToClosed, true);
    var s := Last(run);
    run := Moves(run, 1, Plain, Go(s, 1, Done).(gate := s.gate.(phase := 8)), true);
  }
}

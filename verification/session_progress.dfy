/**
  The session protocol does not get stuck: while a call is unfinished some thread can
  step.  A thread waits only for the mutex its next step takes, and whoever holds that
  mutex waits, if at all, for one of higher rank in the lock order.
*/
module SessionProgress {
  import opened Wrappers
  import opened SessionProtocol
  import opened SessionInvariants
  import opened SessionSteps
  import LockOrder

  /** The mutex that a thread's next step has to find free. */
  function Needs(pc: PC): Option<Lock> {
    match pc
    case Install(p) => if p.Dialed? then Some(Mu) else None
    case Clear(p) => Some(if p.WaitReconnect? then ReconnectMu else if p.WaitSftp? then SftpMu else Mu)
    case RebindSnap(_) => Some(ForwardsMu)
    case Rebind(rb, p) =>
      if rb.next >= |rb.snapshot| then None
      else if p.RbGet? then Some(Mu)
      else if p.RbBind? then Some(BindMu(rb.snapshot[rb.next]))
      else None
    case Close(p) =>
      (match p
       case CloseCancel => Some(Mu)
       case CloseFwdMu => Some(ForwardsMu)
       case CloseFwdBind(_, f) => Some(BindMu(f))
       case CloseShMu => Some(ShellsMu)
       case _ => None)
    case Build(p) => if p.SftpWait? then Some(SftpMu) else if p.SftpGet? then Some(Mu) else None
    case Open(_, _, p) => if p.OpenGet? then Some(Mu) else if p.OpenReg? then Some(ForwardsMu) else None
    case Cancel(p) =>
      if p.CancelLook? then Some(ForwardsMu) else if p.CancelBind? then Some(BindMu(p.f)) else None
    case Shell(_, p) => if p.ShWait? || p.ShRemove? then Some(ShellsMu) else None
    case _ => None
  }

  /** The session's mutexes in the lock order of all sessions. */
  function InOrder(l: Lock): LockOrder.Mutex {
    match l
    case ReconnectMu => LockOrder.ReconnectMu(0)
    case ForwardsMu => LockOrder.ForwardsMu(0)
    case BindMu(f) => LockOrder.BindMu(0, f)
    case ShellsMu => LockOrder.ShellsMu(0)
    case SftpMu => LockOrder.SftpMu(0)
    case Mu => LockOrder.Mu(0)
  }

  function Rank(l: Lock): int {
    LockOrder.Rank(InOrder(l))
  }

  /** The mutexes read off a program counter are taken along the rank. */
  lemma HoldersNeedMore(th: Thread, l: Lock)
    requires Holds(th, l) && Needs(th.pc).Some?
    ensures Rank(l) < Rank(Needs(th.pc).value)
  {
  }

  /** The thread can take a step that changes something. */
  ghost predicate CanStep(s: State, t: Tid) {
    exists c, s' :: Step(s, t, c, s') && s' != s
  }

  /** The thread is in the middle of a call: not returned, and not a keepalive waiting for its tick. */
  predicate Busy(s: State, t: Tid) {
    t in s.threads && !s.threads[t].pc.Done? && !s.threads[t].pc.Idle?
  }

  /** What the thread waits for is free. */
  ghost predicate Unblocked(s: State, t: Tid)
    requires t in s.threads
  {
    Needs(s.threads[t].pc).Some? ==> Free(s, Needs(s.threads[t].pc).value)
  }

  // --------------------------------------------------------- choices to make

  lemma {:induction false} Unused(used: set<nat>) returns (n: nat)
    ensures n !in used
  {
    n := Above(used);
  }

  lemma {:induction false} Above(used: set<nat>) returns (n: nat)
    ensures forall k :: k in used ==> k < n
  {
    if used == {} {
      n := 0;
    } else {
      var k :| k in used;
      var m := Above(used - {k});
      n := if m > k then m else k + 1;
      forall j | j in used ensures j < n {
        assert j == k || j in used - {k};
      }
    }
  }

  lemma {:induction false} Listed(fs: set<Fid>) returns (order: seq<Fid>)
    ensures (forall f :: f in order <==> f in fs) && NoDup(order)
  {
    if fs == {} {
      order := [];
    } else {
      var f :| f in fs;
      var rest := Listed(fs - {f});
      order := [f] + rest;
      forall i, j | 0 <= i < j < |order| ensures order[i] != order[j] {
        assert order[j] in rest;
      }
    }
  }

  // ------------------------------------------------------- group by group

  lemma InstallCan(s: State, t: Tid) returns (c: Choice, s': State)
    requires Busy(s, t) && s.threads[t].pc.Install? && Unblocked(s, t)
    ensures Locks(s, t, s') && InstallStep(s, t, c, s') && s' != s
  {
    hide Move, Free;
    var role := s.threads[t].role;
    match s.threads[t].pc.install
    case Dial =>
      var r := Unused(s.conns.place.Keys);
      var tr := Transport(r, []);
      assert All(tr) == [r];
      c, s' := NewTransport(tr), Go(s, t, Install(Dialed(tr))).(conns := Hold(s.conns, t, All(tr)));
    case Dialed(tr) => c, s' := Plain, Go(s, t, Install(SetLoad(tr)));
    case SetLoad(tr) =>
      c, s' := Plain, if s.gate.closedBy.Some? then Go(s, t, Drop(All(tr), ToEnd)) else Go(s, t, Install(SetStore(tr)));
    case SetStore(tr) =>
      var next := if role.Connector? then Start(KaNew) else RebindSnap(tr.client);
      c, s' := Plain, Go(s, t, next).(conns := InstallClient(s.conns, tr));
  }

  lemma StartCan(s: State, t: Tid) returns (c: Choice, s': State)
    requires Busy(s, t) && s.threads[t].pc.Start?
    ensures Locks(s, t, s') && StartStep(s, t, c, s') && s' != s
  {
    c := Plain;
    match s.threads[t].pc.start
    case KaNew => s' := Go(s, t, Done);
    case KaLoad(x) =>
      s' := if s.gate.closedBy.Some?
            then Go(s, t, Done).(gate := s.gate.(cancelled := s.gate.cancelled + {x}))
            else Go(s, t, Start(KaStore(x)));
    case KaStore(x) => s' := Go(s, t, Start(KaGo(x))).(gate := s.gate.(cancel := Some(x)));
    case KaGo(x) =>
      var u := Unused(s.threads.Keys);
      var s1 := Go(s, t, Done);
      c, s' := NewThread(u, x), s1.(threads := s1.threads[u := Thread(Keepalive(x), Idle)]);
  }

  lemma ClearCan(s: State, t: Tid) returns (c: Choice, s': State)
    requires Busy(s, t) && s.threads[t].pc.Clear? && Unblocked(s, t)
    ensures Locks(s, t, s') && ClearStep(s, t, c, s') && s' != s
  {
    hide Move, Free;
    c := Plain;
    match s.threads[t].pc.clear
    case WaitReconnect => s' := Go(s, t, Clear(WaitSftp));
    case WaitSftp => s' := Go(s, t, Clear(WaitMu));
    case WaitMu =>
      var closing := s.threads[t].role.Closer?;
      s' := Go(s, t, Drop(Detached(s.conns), if closing then ToClosed else ToDial)).(
              conns := Detach(s.conns, t), gate := if closing then s.gate.(phase := 7) else s.gate);
  }

  lemma DropCan(s: State, t: Tid) returns (c: Choice, s': State)
    requires Busy(s, t) && s.threads[t].pc.Drop?
    ensures Locks(s, t, s') && DropStep(s, t, c, s') && s' != s
  {
    hide Move, Free;
    c := Plain;
    var rest, after := s.threads[t].pc.rest, s.threads[t].pc.after;
    if rest != [] {
      s' := Go(s, t, Drop(rest[1..], after)).(conns := Drop1(s.conns, rest[0]));
    } else {
      s' := match after
            case ToDial => Go(s, t, Install(Dial))
            case ToEnd => End(s, t)
            case ToClosed => Go(s, t, Done).(gate := s.gate.(phase := 8));
    }
  }

  lemma SnapCan(s: State, t: Tid) returns (c: Choice, s': State)
    requires Busy(s, t) && s.threads[t].pc.RebindSnap? && Unblocked(s, t)
    ensures Locks(s, t, s') && SnapStep(s, t, c, s') && s' != s
  {
    hide Free;
    var fs := Listed(s.fwds.named.Values);
    c, s' := Order(fs), Go(s, t, Rebind(Rebinding(s.threads[t].pc.target, fs, 0, {}, {}), RbTop));
  }

  lemma RebindCan(s: State, t: Tid) returns (c: Choice, s': State)
    requires Busy(s, t) && s.threads[t].pc.Rebind? && Unblocked(s, t) && RebindOk(s, s.threads[t].pc)
    ensures Locks(s, t, s') && RebindStep(s, t, c, s') && s' != s
  {
    hide Move, Free;
    var rb := s.threads[t].pc.rb;
    c := Fail;
    if rb.next >= |rb.snapshot| {
      s' := End(s, t);
    } else {
      var f := rb.snapshot[rb.next];
      assert f in s.fwds.all;
      hide RebindOk;
      var fw := s.fwds.all[f];
      if HandListener(s.threads[t].pc).Some? {
        s' := ListenerCan(s, t, f);
        return;
      }
      s' := match s.threads[t].pc.rebind
            case RbTop => Go(s, t, if !fw.remote || Closed(fw) then Rebind(Skip(rb), RbTop) else Rebind(rb, RbGet))
            case RbGet =>
              Go(s, t, if s.conns.client.None? then Rebind(Skip(rb), RbTop)
                       else Rebind(rb, RbListen(s.conns.client.value.client)))
            case RbListen(_) => Go(s, t, Rebind(Skip(rb).(failed := rb.failed + {f}), RbTop));
    }
  }

  /** The rebind with a listener in hand, or one to close. */
  lemma ListenerCan(s: State, t: Tid, f: Fid) returns (s': State)
    requires Busy(s, t) && s.threads[t].pc.Rebind? && HandListener(s.threads[t].pc).Some? && Unblocked(s, t)
    requires Working(s.threads[t].pc.rb, f) && f in s.fwds.all
    ensures Locks(s, t, s') && RebindStep(s, t, Fail, s') && s' != s
  {
    hide Move, Free;
    var rb, fw := s.threads[t].pc.rb, s.fwds.all[f];
    s' := match s.threads[t].pc.rebind
          case RbBind(ln) => Go(s, t, Rebind(rb, RbLoad(ln)))
          case RbLoad(ln) => if Closed(fw) then Go(s, t, Rebind(rb, RbDrop(ln))) else Go(s, t, Rebind(rb, RbSwap(ln)))
          case RbSwap(ln) =>
            Go(s, t, Rebind(rb.(moved := rb.moved + {f}), RbDrop(fw.listener))).(fwds := Swap(s.fwds, f, t, ln))
          case RbDrop(ln) => Go(s, t, Rebind(Skip(rb), RbTop)).(fwds := DropListener(s.fwds, ln.id));
  }

  /** The closer before the forwards and after them. */
  lemma CloseOutsideCan(s: State, t: Tid) returns (c: Choice, s': State)
    requires Busy(s, t) && s.threads[t].pc.Close? && !OnForwards(s, t) && Unblocked(s, t)
    ensures Locks(s, t, s') && CloseStep(s, t, c, s') && s' != s
  {
    hide Free;
    var g := s.gate;
    c := Plain;
    match s.threads[t].pc.close
    case CloseCas =>
      s' := if g.closedBy.Some? then Go(s, t, Done)
            else Go(s, t, Close(CloseCancel)).(gate := g.(closedBy := Some(t), phase := 1));
    case CloseCancel => s' := Go(s, t, Close(CloseFire)).(gate := g.(cancel := None, firing := g.cancel, phase := 2));
    case CloseFire =>
      s' := Go(s, t, Close(CloseFwdMu)).(
              gate := g.(cancelled := if g.firing.Some? then g.cancelled + {g.firing.value} else g.cancelled));
    case CloseFwdMu => s' := Go(s, t, Close(CloseFwd)).(gate := g.(phase := 3));
    case CloseFwd => s' := Go(s, t, Close(CloseShMu)).(gate := g.(phase := 4));
    case CloseShMu => s' := Go(s, t, Close(CloseSh)).(gate := g.(phase := 5));
    case CloseSh =>
      if s.shells == {} {
        s' := Go(s, t, Clear(WaitSftp)).(gate := g.(phase := 6));
      } else {
        var n :| n in s.shells;
        c, s' := Pick(n), s.(shells := s.shells - {n});
      }
    case _ => s' := s;
  }

  lemma ShuttingIsThere(w: Fwds, t: Tid, pc: PC, f: Fid)
    requires ListenersOk(w, t, pc) && Shutting(pc, f)
    ensures f in w.all
  {
  }

  lemma CloseCan(s: State, t: Tid) returns (c: Choice, s': State)
    requires Busy(s, t) && s.threads[t].pc.Close? && Unblocked(s, t)
    requires FwdsOk(s.fwds) && ListenersOk(s.fwds, t, s.threads[t].pc)
    ensures Locks(s, t, s') && CloseStep(s, t, c, s') && s' != s
  {
    hide FwdsOk, ListenersOk, Move, Free;
    var pc := s.threads[t].pc;
    if !OnForwards(s, t) {
      c, s' := CloseOutsideCan(s, t);
    } else if pc.close.CloseFwd? {
      c, s' := CloseFwdCan(s, t);
    } else if pc.close.CloseFwdBind? {
      ShuttingIsThere(s.fwds, t, pc, pc.close.f);
      c, s' := Plain, Go(s, t, Close(CloseFwdDel(pc.close.n))).(fwds := ShutForward(s.fwds, pc.close.f));
    } else {
      c, s' := Plain, Go(s, t, Close(CloseFwd)).(fwds := s.fwds.(named := s.fwds.named - {pc.close.n}));
    }
  }

  lemma CloseFwdCan(s: State, t: Tid) returns (c: Choice, s': State)
    requires Busy(s, t) && s.threads[t].pc == Close(CloseFwd) && s.fwds.named != map[] && FwdsOk(s.fwds)
    ensures Locks(s, t, s') && CloseStep(s, t, c, s') && s' != s
  {
    var w := s.fwds;
    var n :| n in w.named;
    assert NamedOk(w, n);
    hide FwdsOk;
    var f := w.named[n];
    c := Pick(n);
    s' := if Closed(w.all[f]) then Go(s, t, Close(CloseFwdDel(n)))
          else Go(s, t, Close(CloseFwdBind(n, f))).(fwds := SetFlag(w, f, Won(t)));
  }

  lemma BuildCan(s: State, t: Tid) returns (c: Choice, s': State)
    requires Busy(s, t) && s.threads[t].pc.Build? && Unblocked(s, t)
    ensures Locks(s, t, s') && BuildStep(s, t, c, s') && s' != s
  {
    hide Move, Free;
    c := Fail;
    s' := match s.threads[t].pc.build
          case SftpWait => Go(s, t, Build(SftpLook))
          case SftpLook => if s.conns.sftp.Some? then Go(s, t, Done) else Go(s, t, Build(SftpGet))
          case SftpGet =>
            if s.conns.client.None? then Go(s, t, Done) else Go(s, t, Build(SftpNew(s.conns.client.value.client)))
          case SftpNew(_) => Go(s, t, Done)
          case SftpPut(x) => Go(s, t, Done).(conns := InstallSftp(s.conns, x));
  }

  lemma OpenCan(s: State, t: Tid) returns (c: Choice, s': State)
    requires Busy(s, t) && s.threads[t].pc.Open? && Unblocked(s, t)
    ensures Locks(s, t, s') && OpenStep(s, t, c, s') && s' != s
  {
    hide Move, Free;
    var n, remote := s.threads[t].pc.name, s.threads[t].pc.remote;
    c := Fail;
    match s.threads[t].pc.open
    case OpenGet =>
      s' := Go(s, t, if s.conns.client.None? then Done else Open(n, remote, OpenListen(s.conns.client.value.client)));
    case OpenListen(_) => s' := Go(s, t, Done);
    case OpenReg(ln) => s' := Go(s, t, Open(n, remote, OpenLoad(ln)));
    case OpenLoad(ln) => s' := Go(s, t, Open(n, remote, if s.gate.closedBy.Some? then OpenDrop(ln) else OpenPut(ln)));
    case OpenPut(ln) =>
      if n in s.fwds.named {
        s' := Go(s, t, Open(n, remote, OpenDrop(ln)));
      } else {
        var f := Unused(s.fwds.all.Keys);
        c, s' := NewFid(f), Go(s, t, Done).(fwds := Register(s.fwds, f, Forward(n, remote, ln, Live)));
      }
    case OpenDrop(ln) => s' := Go(s, t, Done).(fwds := DropListener(s.fwds, ln.id));
  }

  lemma LookCan(s: State, t: Tid) returns (c: Choice, s': State)
    requires Busy(s, t) && s.threads[t].pc.Cancel? && s.threads[t].pc.cancel.CancelLook? && Unblocked(s, t)
    requires FwdsOk(s.fwds)
    ensures Locks(s, t, s') && CancelStep(s, t, c, s') && s' != s
  {
    var w, n := s.fwds, s.threads[t].pc.cancel.n;
    c := Plain;
    if n !in w.named {
      s' := Go(s, t, Done);
    } else {
      assert NamedOk(w, n);
      hide FwdsOk;
      var f := w.named[n];
      var w1 := w.(named := w.named - {n});
      s' := Go(s, t, Cancel(CancelCas(f))).(fwds := if Closed(w.all[f]) then w1 else SetFlag(w1, f, Taken(t)));
    }
  }

  lemma CancelledIsThere(w: Fwds, t: Tid, pc: PC)
    requires ListenersOk(w, t, pc) && pc.Cancel? && !pc.cancel.CancelLook?
    ensures pc.cancel.f in w.all
  {
    if pc.cancel.CancelBind? {
      assert Shutting(pc, pc.cancel.f);
    }
  }

  lemma CancelCan(s: State, t: Tid) returns (c: Choice, s': State)
    requires Busy(s, t) && s.threads[t].pc.Cancel? && Unblocked(s, t)
    requires FwdsOk(s.fwds) && ListenersOk(s.fwds, t, s.threads[t].pc)
    ensures Locks(s, t, s') && CancelStep(s, t, c, s') && s' != s
  {
    hide FwdsOk, ListenersOk, Move, Free;
    var w, pc := s.fwds, s.threads[t].pc;
    if pc.cancel.CancelLook? {
      c, s' := LookCan(s, t);
    } else {
      CancelledIsThere(w, t, pc);
      var f := pc.cancel.f;
      c := Plain;
      s' := if pc.cancel.CancelBind? then Go(s, t, Done).(fwds := ShutForward(w, f))
            else if Closed(w.all[f]) then Go(s, t, Done)
            else Go(s, t, Cancel(CancelBind(f))).(fwds := SetFlag(w, f, Won(t)));
    }
  }

  lemma ShellCan(s: State, t: Tid) returns (c: Choice, s': State)
    requires Busy(s, t) && s.threads[t].pc.Shell? && Unblocked(s, t)
    ensures Locks(s, t, s') && ShellStep(s, t, c, s') && s' != s
  {
    var n := s.threads[t].pc.shell;
    c := Plain;
    s' := match s.threads[t].pc.at
          case ShWait => Go(s, t, Shell(n, ShLoad))
          case ShLoad => if s.gate.closedBy.Some? then Go(s, t, Done) else Go(s, t, Shell(n, ShPut))
          case ShPut => Go(s, t, Done).(shells := s.shells + {n})
          case ShRemove => Go(s, t, Done).(shells := s.shells - {n});
  }

  /** A busy thread that does not wait for a mutex somebody holds can step. */
  lemma UnblockedCan(s: State, t: Tid)
    requires FwdsOk(s.fwds) && Busy(s, t) && Unblocked(s, t)
    requires ListenersOk(s.fwds, t, s.threads[t].pc) && RebindOk(s, s.threads[t].pc)
    ensures CanStep(s, t)
  {
    hide FwdsOk, ListenersOk, RebindOk, Locks, Unblocked;
    var c, s';
    match s.threads[t].pc {
      case Install(_) => c, s' := InstallCan(s, t);
      case Start(_) => c, s' := StartCan(s, t);
      case Clear(_) => c, s' := ClearCan(s, t);
      case Drop(_, _) => c, s' := DropCan(s, t);
      case RebindSnap(_) => c, s' := SnapCan(s, t);
      case Rebind(_, _) => c, s' := RebindCan(s, t);
      case Close(_) => c, s' := CloseCan(s, t);
      case Build(_) => c, s' := BuildCan(s, t);
      case Open(_, _, _) => c, s' := OpenCan(s, t);
      case Cancel(_) => c, s' := CancelCan(s, t);
      case Shell(_, _) => c, s' := ShellCan(s, t);
    }
    assert Step(s, t, c, s') && s' != s;
  }

  // ------------------------------------------------------------ never stuck

  /** How many mutexes can still rank above the one waited for. */
  function RankLeft(pc: PC): nat {
    if Needs(pc).Some? then 8 - Rank(Needs(pc).value) else 0
  }

  lemma HolderIsBusy(s: State, t: Tid) returns (h: Tid)
    requires Busy(s, t) && !Unblocked(s, t)
    ensures Busy(s, h) && RankLeft(s.threads[h].pc) < RankLeft(s.threads[t].pc)
  {
    var l := Needs(s.threads[t].pc).value;
    h :| h in s.threads && Holds(s.threads[h], l);
    if Needs(s.threads[h].pc).Some? {
      HoldersNeedMore(s.threads[h], l);
    }
  }

  lemma InvUnblockedCan(s: State, t: Tid)
    requires Inv(s) && Busy(s, t) && Unblocked(s, t)
    ensures CanStep(s, t)
  {
    hide CanStep, FwdsOk, ListenersOk, RebindOk, Unblocked;
    assert ThreadOk(s, t);
    UnblockedCan(s, t);
  }

  /** Following who holds what a thread waits for ends at a thread that can step. */
  lemma {:induction false} FollowWaits(s: State, t: Tid) returns (u: Tid)
    requires Inv(s) && Busy(s, t)
    ensures Busy(s, u) && CanStep(s, u)
    decreases RankLeft(s.threads[t].pc)
  {
    hide CanStep, Inv, Unblocked, RankLeft;
    if Unblocked(s, t) {
      InvUnblockedCan(s, t);
      u := t;
    } else {
      var h := HolderIsBusy(s, t);
      u := FollowWaits(s, h);
    }
  }

  /** In a guarded run, while some call is unfinished, some unfinished call can go on. */
  lemma NeverStuck(run: seq<State>, i: nat, t: Tid)
    requires IsRun(run, true) && i < |run| && Busy(run[i], t)
    ensures exists u :: Busy(run[i], u) && CanStep(run[i], u)
  {
    hide IsRun, Inv, CanStep;
    RunInv(run, i);
    var u := FollowWaits(run[i], t);
  }
}

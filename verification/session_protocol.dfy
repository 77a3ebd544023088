/**
  The shared life of one SSH session as a step relation over any number of
  threads: one connecting thread, user reconnects, the keepalive thread with its
  own reconnects, closers, forward openers and cancellers, lazy SFTP openers and
  shell openers.

  Each thread carries a program counter, and the mutexes it holds are read off it;
  a thread moves on to hold a mutex only when nobody else does.  Every load of an
  atomic `closed` flag is a step of its own, separate from the write it guards,
  and dialing, listening and closing one connection are separate steps with every
  possible outcome.
*/
module SessionProtocol {
  import opened Wrappers

  /** A connection (an SSH client or an SFTP client), or a listener. */
  type Res = nat
  type Tid = nat
  type Fid = nat
  type Name = nat
  type Ctx = nat

  /** A dialed client with the jump clients it rides on. */
  datatype Transport = Transport(client: Res, jumps: seq<Res>)

  datatype Sftp = Sftp(id: Res, on: Res)

  /** A remote forward listens on some SSH client; other forwards listen locally. */
  datatype Listener = Listener(id: Res, on: Option<Res>)

  /** A forward's atomic closed flag, with the history of who is closing it:
      taken out of the map by a canceller, the flag won, the listener shut. */
  datatype Flag = Live | Taken(t: Tid) | Won(t: Tid) | Over

  datatype Forward = Forward(name: Name, remote: bool, listener: Listener, flag: Flag)

  predicate Closed(f: Forward) {
    f.flag.Won? || f.flag.Over?
  }

  /** Where a resource is: history kept beside the program's own variables. */
  datatype Place = InHand(t: Tid) | InTransport | InSftp | Bound(f: Fid) | Shut

  /** The session's connections: its fields, and where every one ever dialed is. */
  datatype Conns = Conns(client: Option<Transport>, sftp: Option<Sftp>, place: map<Res, Place>, closes: multiset<Res>)

  /** The session's forwards: the map, the objects, and where every listener is. */
  datatype Fwds = Fwds(named: map<Name, Fid>, all: map<Fid, Forward>, place: map<Res, Place>, closes: multiset<Res>)

  /** The closed flag with the thread that set it, how far that thread has come, and the keepalive contexts. */
  datatype Gate = Gate(closedBy: Option<Tid>, phase: nat, cancel: Option<Ctx>, firing: Option<Ctx>, cancelled: set<Ctx>)

  datatype Lock = ReconnectMu | ForwardsMu | BindMu(f: Fid) | ShellsMu | SftpMu | Mu

  datatype Role = Connector | Reconnector | Keepalive(ctx: Ctx) | Closer | SftpUser | ForwardUser | ShellUser

  /** The local variables of a running rebindForwards. */
  datatype Rebinding = Rebinding(
    target: Res, snapshot: seq<Fid>, next: nat, moved: set<Fid>, failed: set<Fid>)

  /** What a thread does after closing the connections it holds. */
  datatype After = ToDial | ToEnd | ToClosed

  /** dialFinal and setClient. */
  datatype InstallPC = Dial | Dialed(t: Transport) | SetLoad(t: Transport) | SetStore(t: Transport)

  /** startKeepalive. */
  datatype StartPC = KaNew | KaLoad(ctx: Ctx) | KaStore(ctx: Ctx) | KaGo(ctx: Ctx)

  /** Reconnect before the dial, and clearClient. */
  datatype ClearPC = WaitReconnect | WaitSftp | WaitMu

  /** The body of rebindForwards' loop. */
  datatype RebindPC =
    | RbTop
    | RbGet
    | RbListen(on: Res)
    | RbBind(ln: Listener)
    | RbLoad(ln: Listener)
    | RbSwap(ln: Listener)
    | RbDrop(ln: Listener)

  /** close, before it reaches clearClient. */
  datatype ClosePC =
    | CloseCas
    | CloseCancel
    | CloseFire
    | CloseFwdMu
    | CloseFwd
    | CloseFwdBind(n: Name, f: Fid)
    | CloseFwdDel(n: Name)
    | CloseShMu
    | CloseSh

  /** sftpClient. */
  datatype SftpPC = SftpWait | SftpLook | SftpGet | SftpNew(on: Res) | SftpPut(sftp: Sftp)

  /** Open*Forward and registerForward. */
  datatype OpenPC =
    | OpenGet
    | OpenListen(on: Res)
    | OpenReg(ln: Listener)
    | OpenLoad(ln: Listener)
    | OpenPut(ln: Listener)
    | OpenDrop(ln: Listener)

  /** CloseForward. */
  datatype CancelPC = CancelLook(n: Name) | CancelCas(f: Fid) | CancelBind(f: Fid)

  /** The registration tail of OpenShell; ShRemove is CloseShell and the exit watcher. */
  datatype ShellPC = ShWait | ShLoad | ShPut | ShRemove

  datatype PC =
    | Done
    | Drop(rest: seq<Res>, after: After)
    | Install(install: InstallPC)
    | Start(start: StartPC)
    | Idle
    | Clear(clear: ClearPC)
    | RebindSnap(target: Res)
    | Rebind(rb: Rebinding, rebind: RebindPC)
    | Close(close: ClosePC)
    | Build(build: SftpPC)
    | Open(name: Name, remote: bool, open: OpenPC)
    | Cancel(cancel: CancelPC)
    | Shell(shell: Name, at: ShellPC)

  datatype Thread = Thread(role: Role, pc: PC)

  datatype State = State(
    conns: Conns, fwds: Fwds, gate: Gate, shells: set<Name>, threads: map<Tid, Thread>)

  function All(t: Transport): seq<Res> {
    [t.client] + t.jumps
  }

  ghost predicate NoDup(s: seq<nat>) {
    forall i, j :: 0 <= i < j < |s| ==> s[i] != s[j]
  }

  /** The connections a thread at `pc` is holding and has to hand over or close. */
  function Hand(pc: PC): seq<Res> {
    if pc.Drop? then pc.rest
    else if pc.Install? && !pc.install.Dial? then All(pc.install.t)
    else if pc.Build? && pc.build.SftpPut? then [pc.build.sftp.id]
    else []
  }

  /** The listener a thread at `pc` is holding. */
  function HandListener(pc: PC): Option<Res> {
    if pc.Rebind? && (pc.rebind.RbBind? || pc.rebind.RbLoad? || pc.rebind.RbSwap? || pc.rebind.RbDrop?) then
      Some(pc.rebind.ln.id)
    else if pc.Open? && !pc.open.OpenGet? && !pc.open.OpenListen? then Some(pc.open.ln.id)
    else None
  }

  predicate MayReconnect(role: Role) {
    role.Reconnector? || role.Keepalive?
  }

  /** The forward a rebind is working on. */
  predicate Working(rb: Rebinding, f: Fid) {
    rb.next < |rb.snapshot| && rb.snapshot[rb.next] == f
  }

  /** The mutexes a thread holds, read off its program counter. */
  predicate Holds(th: Thread, l: Lock) {
    match l
    case ReconnectMu =>
      MayReconnect(th.role) && !th.pc.Done? && th.pc != Clear(WaitReconnect) && !th.pc.Idle?
    case ForwardsMu =>
      || (th.pc.Open? && (th.pc.open.OpenLoad? || th.pc.open.OpenPut?))
      || (th.pc.Close? && (th.pc.close.CloseFwd? || th.pc.close.CloseFwdBind? || th.pc.close.CloseFwdDel?))
    case BindMu(f) => th.pc.Rebind? && (th.pc.rebind.RbLoad? || th.pc.rebind.RbSwap?) && Working(th.pc.rb, f)
    case ShellsMu => (th.pc.Shell? && (th.pc.at.ShLoad? || th.pc.at.ShPut?)) || (th.pc.Close? && th.pc.close.CloseSh?)
    case SftpMu => (th.pc.Clear? && th.pc.clear.WaitMu?) || (th.pc.Build? && !th.pc.build.SftpWait?)
    case Mu =>
      || (th.pc.Install? && (th.pc.install.SetLoad? || th.pc.install.SetStore?))
      || (th.pc.Start? && (th.pc.start.KaLoad? || th.pc.start.KaStore?))
  }

  // ------------------------------------------------------------------ updates

  predicate At(place: map<Res, Place>, r: Res, p: Place) {
    r in place && place[r] == p
  }

  function Move(place: map<Res, Place>, rs: seq<Res>, p: Place): (m: map<Res, Place>)
    ensures forall r, q :: At(m, r, q) <==> if r in rs then q == p else At(place, r, q)
  {
    map r | r in place.Keys + (set x | x in rs) :: if r in rs then p else place[r]
  }

  function Go(s: State, t: Tid, pc: PC): State
    requires t in s.threads
  {
    s.(threads := s.threads[t := s.threads[t].(pc := pc)])
  }

  predicate Free(s: State, l: Lock) {
    forall t :: t in s.threads ==> !Holds(s.threads[t], l)
  }

  ghost predicate Fresh(place: map<Res, Place>, rs: seq<Res>) {
    NoDup(rs) && forall r :: r in rs ==> r !in place
  }

  function Hold(c: Conns, t: Tid, rs: seq<Res>): Conns {
    c.(place := Move(c.place, rs, InHand(t)))
  }

  function Drop1(c: Conns, r: Res): Conns {
    c.(place := Move(c.place, [r], Shut), closes := c.closes + multiset{r})
  }

  function InstallClient(c: Conns, t: Transport): Conns {
    c.(client := Some(t), place := Move(c.place, All(t), InTransport))
  }

  function InstallSftp(c: Conns, x: Sftp): Conns {
    c.(sftp := Some(x), place := Move(c.place, [x.id], InSftp))
  }

  /** What clearClient takes out of the session, in the order it closes it. */
  function Detached(c: Conns): seq<Res> {
    (if c.sftp.Some? then [c.sftp.value.id] else []) + (if c.client.Some? then All(c.client.value) else [])
  }

  function Detach(c: Conns, t: Tid): Conns {
    Hold(c, t, Detached(c)).(sftp := None, client := None)
  }

  function Grab(w: Fwds, t: Tid, r: Res): Fwds {
    w.(place := Move(w.place, [r], InHand(t)))
  }

  function DropListener(w: Fwds, r: Res): Fwds {
    w.(place := Move(w.place, [r], Shut), closes := w.closes + multiset{r})
  }

  function SetFlag(w: Fwds, f: Fid, flag: Flag): Fwds
    requires f in w.all
  {
    w.(all := w.all[f := w.all[f].(flag := flag)])
  }

  /** Forward.Close once the atomic flag has been won: the listener shut under bindMu. */
  function ShutForward(w: Fwds, f: Fid): Fwds
    requires f in w.all
  {
    SetFlag(DropListener(w, w.all[f].listener.id), f, Over)
  }

  /** The new listener in, the previous one in the thread's hand. */
  function Swap(w: Fwds, f: Fid, t: Tid, ln: Listener): Fwds
    requires f in w.all
  {
    var place := Move(Move(w.place, [w.all[f].listener.id], InHand(t)), [ln.id], Bound(f));
    w.(all := w.all[f := w.all[f].(listener := ln)], place := place)
  }

  function Register(w: Fwds, f: Fid, fw: Forward): Fwds {
    w.(named := w.named[fw.name := f], all := w.all[f := fw], place := Move(w.place, [fw.listener.id], Bound(f)))
  }

  /** The thread leaves Connect, Reconnect or attemptReconnect. */
  function End(s: State, t: Tid): State
    requires t in s.threads
  {
    var role := s.threads[t].role;
    if MayReconnect(role) then
      Go(s, t, if role.Keepalive? then Idle else Done)
    else
      Go(s, t, Done)
  }

  function Skip(rb: Rebinding): Rebinding {
    rb.(next := rb.next + 1)
  }

  /** A thread's free choices: outcomes of I/O and of map iteration. */
  datatype Choice =
    | Plain
    | Fail
    | NewTransport(t: Transport)
    | NewRes(r: Res)
    | NewFid(f: Fid)
    | NewThread(u: Tid, ctx: Ctx)
    | Order(fs: seq<Fid>)
    | Pick(n: Name)

  // ------------------------------------------------------------------ actions

  /** dialFinal and setClient. */
  ghost predicate InstallStep(s: State, t: Tid, c: Choice, s': State)
    requires t in s.threads && s.threads[t].pc.Install?
  {
    var role := s.threads[t].role;
    match s.threads[t].pc.install
    case Dial =>
      || (&& c.NewTransport? && Fresh(s.conns.place, All(c.t))
          && s' == Go(s, t, Install(Dialed(c.t))).(conns := Hold(s.conns, t, All(c.t))))
      || (c.Fail? && s' == if role.Keepalive? then s else End(s, t))
      || (c.Plain? && role.Keepalive? && role.ctx in s.gate.cancelled && s' == End(s, t))
    case Dialed(tr) => s' == Go(s, t, Install(SetLoad(tr)))
    case SetLoad(tr) =>
      s' == if s.gate.closedBy.Some?
            then Go(s, t, Drop(All(tr), ToEnd))
            else Go(s, t, Install(SetStore(tr)))
    case SetStore(tr) =>
      var next := if role.Connector? then Start(KaNew) else RebindSnap(tr.client);
      s' == Go(s, t, next).(conns := InstallClient(s.conns, tr))
  }

  /** startKeepalive, reached only by Connect. */
  ghost predicate StartStep(s: State, t: Tid, c: Choice, s': State)
    requires t in s.threads && s.threads[t].pc.Start?
  {
    match s.threads[t].pc.start
    case KaNew =>
      || (c.Plain? && s' == Go(s, t, Done))
      || (c.NewThread? && s' == Go(s, t, Start(KaLoad(c.ctx))))
    case KaLoad(x) =>
      s' == if s.gate.closedBy.Some?
            then Go(s, t, Done).(gate := s.gate.(cancelled := s.gate.cancelled + {x}))
            else Go(s, t, Start(KaStore(x)))
    case KaStore(x) => s' == Go(s, t, Start(KaGo(x))).(gate := s.gate.(cancel := Some(x)))
    case KaGo(x) =>
      && c.NewThread? && c.u !in s.threads
      && s' == (var s1 := Go(s, t, Done); s1.(threads := s1.threads[c.u := Thread(Keepalive(x), Idle)]))
  }

  /** One turn of runKeepalive: its context is done, or a tick tries to reconnect. */
  ghost predicate IdleStep(s: State, t: Tid, c: Choice, s': State)
    requires t in s.threads && s.threads[t].pc.Idle?
  {
    || (c.Plain? && s.threads[t].role.Keepalive? && s.threads[t].role.ctx in s.gate.cancelled && s' == Go(s, t, Done))
    || (c.Fail? && s' == if Free(s, ReconnectMu) then Go(s, t, Clear(WaitSftp)) else s)
  }

  /** Waiting for reconnectMu, and clearClient. */
  ghost predicate ClearStep(s: State, t: Tid, c: Choice, s': State)
    requires t in s.threads && s.threads[t].pc.Clear?
  {
    match s.threads[t].pc.clear
    case WaitReconnect => s' == Go(s, t, Clear(WaitSftp))
    case WaitSftp => s' == Go(s, t, Clear(WaitMu))
    case WaitMu =>
      && Free(s, Mu)
      && var closing := s.threads[t].role.Closer?;
      s' == Go(s, t, Drop(Detached(s.conns), if closing then ToClosed else ToDial)).(
              conns := Detach(s.conns, t),
              gate := if closing then s.gate.(phase := 7) else s.gate)
  }

  /** Closing the connections in hand, one a step, then going on. */
  ghost predicate DropStep(s: State, t: Tid, c: Choice, s': State)
    requires t in s.threads && s.threads[t].pc.Drop?
  {
    var rest, after := s.threads[t].pc.rest, s.threads[t].pc.after;
    if rest != [] then
      s' == Go(s, t, Drop(rest[1..], after)).(conns := Drop1(s.conns, rest[0]))
    else
      match after {
        case ToDial => s' == Go(s, t, Install(Dial))
        case ToEnd => s' == End(s, t)
        case ToClosed => s' == Go(s, t, Done).(gate := s.gate.(phase := 8))
      }
  }

  /** rebindForwards copies the map, in any order, under forwardsMu. */
  ghost predicate SnapStep(s: State, t: Tid, c: Choice, s': State)
    requires t in s.threads && s.threads[t].pc.RebindSnap?
  {
    && c.Order? && (set f | f in c.fs) == s.fwds.named.Values && NoDup(c.fs)
    && Free(s, ForwardsMu)
    && s' == Go(s, t, Rebind(Rebinding(s.threads[t].pc.target, c.fs, 0, {}, {}), RbTop))
  }

  /** The loop of rebindForwards. */
  ghost predicate RebindStep(s: State, t: Tid, c: Choice, s': State)
    requires t in s.threads && s.threads[t].pc.Rebind?
  {
    var rb := s.threads[t].pc.rb;
    if rb.next >= |rb.snapshot| then s' == End(s, t)
    else
      var f := rb.snapshot[rb.next];
      f in s.fwds.all && WorkStep(s, t, rb, f, c, s')
  }

  ghost predicate WorkStep(s: State, t: Tid, rb: Rebinding, f: Fid, c: Choice, s': State)
    requires t in s.threads && s.threads[t].pc.Rebind? && f in s.fwds.all
  {
    var fw := s.fwds.all[f];
    match s.threads[t].pc.rebind
    case RbTop => s' == Go(s, t, if !fw.remote || Closed(fw) then Rebind(Skip(rb), RbTop) else Rebind(rb, RbGet))
    case RbGet =>
      && Free(s, Mu)
      && s' == Go(s, t,
                  if s.conns.client.None? then Rebind(Skip(rb), RbTop) else Rebind(rb, RbListen(s.conns.client.value.client)))
    case RbListen(on) =>
      || (c.Fail? && s' == Go(s, t, Rebind(Skip(rb).(failed := rb.failed + {f}), RbTop)))
      || (&& c.NewRes? && Fresh(s.fwds.place, [c.r])
          && s' == Go(s, t, Rebind(rb, RbBind(Listener(c.r, Some(on))))).(fwds := Grab(s.fwds, t, c.r)))
    case RbBind(ln) => s' == Go(s, t, Rebind(rb, RbLoad(ln)))
    case RbLoad(ln) =>
      s' == if Closed(fw)
            then Go(s, t, Rebind(rb, RbDrop(ln)))
            else Go(s, t, Rebind(rb, RbSwap(ln)))
    case RbSwap(ln) =>
      s' == Go(s, t, Rebind(rb.(moved := rb.moved + {f}), RbDrop(fw.listener))).(
              fwds := Swap(s.fwds, f, t, ln))
    case RbDrop(ln) =>
      s' == Go(s, t, Rebind(Skip(rb), RbTop)).(fwds := DropListener(s.fwds, ln.id))
  }

  /** Session.close up to clearClient. */
  ghost predicate CloseStep(s: State, t: Tid, c: Choice, s': State)
    requires t in s.threads && s.threads[t].pc.Close?
  {
    var g, w := s.gate, s.fwds;
    match s.threads[t].pc.close
    case CloseCas =>
      s' == if g.closedBy.Some? then Go(s, t, Done)
            else Go(s, t, Close(CloseCancel)).(gate := g.(closedBy := Some(t), phase := 1))
    case CloseCancel =>
      && Free(s, Mu)
      && s' == Go(s, t, Close(CloseFire)).(gate := g.(cancel := None, firing := g.cancel, phase := 2))
    case CloseFire =>
      s' == Go(s, t, Close(CloseFwdMu)).(
              gate := g.(cancelled := if g.firing.Some? then g.cancelled + {g.firing.value} else g.cancelled))
    case CloseFwdMu =>
      s' == Go(s, t, Close(CloseFwd)).(gate := g.(phase := 3))
    case CloseFwd =>
      if w.named == map[] then s' == Go(s, t, Close(CloseShMu)).(gate := g.(phase := 4))
      else
        && c.Pick? && c.n in w.named && w.named[c.n] in w.all
        && var f := w.named[c.n];
        s' == if Closed(w.all[f])
              then Go(s, t, Close(CloseFwdDel(c.n)))
              else Go(s, t, Close(CloseFwdBind(c.n, f))).(fwds := SetFlag(w, f, Won(t)))
    case CloseFwdBind(n, f) =>
      Free(s, BindMu(f)) && f in w.all && s' == Go(s, t, Close(CloseFwdDel(n))).(fwds := ShutForward(w, f))
    case CloseFwdDel(n) => s' == Go(s, t, Close(CloseFwd)).(fwds := w.(named := w.named - {n}))
    case CloseShMu =>
      s' == Go(s, t, Close(CloseSh)).(gate := g.(phase := 5))
    case CloseSh =>
      if s.shells == {} then s' == Go(s, t, Clear(WaitSftp)).(gate := g.(phase := 6))
      else c.Pick? && c.n in s.shells && s' == s.(shells := s.shells - {c.n})
  }

  /** sftpClient. */
  ghost predicate BuildStep(s: State, t: Tid, c: Choice, s': State)
    requires t in s.threads && s.threads[t].pc.Build?
  {
    match s.threads[t].pc.build
    case SftpWait => s' == Go(s, t, Build(SftpLook))
    case SftpLook => s' == if s.conns.sftp.Some? then Go(s, t, Done) else Go(s, t, Build(SftpGet))
    case SftpGet =>
      && Free(s, Mu)
      && s' == if s.conns.client.None? then Go(s, t, Done)
               else Go(s, t, Build(SftpNew(s.conns.client.value.client)))
    case SftpNew(on) =>
      || (c.Fail? && s' == Go(s, t, Done))
      || (&& c.NewRes? && Fresh(s.conns.place, [c.r])
          && s' == Go(s, t, Build(SftpPut(Sftp(c.r, on)))).(conns := Hold(s.conns, t, [c.r])))
    case SftpPut(x) => s' == Go(s, t, Done).(conns := InstallSftp(s.conns, x))
  }

  /** Open*Forward with registerForward. */
  ghost predicate OpenStep(s: State, t: Tid, c: Choice, s': State)
    requires t in s.threads && s.threads[t].pc.Open?
  {
    var n, remote := s.threads[t].pc.name, s.threads[t].pc.remote;
    match s.threads[t].pc.open
    case OpenGet =>
      && Free(s, Mu)
      && s' == Go(s, t, if s.conns.client.None? then Done else Open(n, remote, OpenListen(s.conns.client.value.client)))
    case OpenListen(on) =>
      || (c.Fail? && s' == Go(s, t, Done))
      || (&& c.NewRes? && Fresh(s.fwds.place, [c.r])
          && var ln := Listener(c.r, if remote then Some(on) else None);
          s' == Go(s, t, Open(n, remote, OpenReg(ln))).(fwds := Grab(s.fwds, t, c.r)))
    case OpenReg(ln) => s' == Go(s, t, Open(n, remote, OpenLoad(ln)))
    case OpenLoad(ln) =>
      s' == if s.gate.closedBy.Some?
            then Go(s, t, Open(n, remote, OpenDrop(ln)))
            else Go(s, t, Open(n, remote, OpenPut(ln)))
    case OpenPut(ln) =>
      if n in s.fwds.named then s' == Go(s, t, Open(n, remote, OpenDrop(ln)))
      else
        && c.NewFid? && c.f !in s.fwds.all
        && s' == Go(s, t, Done).(fwds := Register(s.fwds, c.f, Forward(n, remote, ln, Live)))
    case OpenDrop(ln) => s' == Go(s, t, Done).(fwds := DropListener(s.fwds, ln.id))
  }

  /** CloseForward. */
  ghost predicate CancelStep(s: State, t: Tid, c: Choice, s': State)
    requires t in s.threads && s.threads[t].pc.Cancel?
  {
    var w := s.fwds;
    match s.threads[t].pc.cancel
    case CancelLook(n) =>
      && Free(s, ForwardsMu)
      && if n !in w.named then s' == Go(s, t, Done)
         else
           && w.named[n] in w.all
           && var f := w.named[n];
           var w1 := w.(named := w.named - {n});
           s' == Go(s, t, Cancel(CancelCas(f))).(fwds := if Closed(w.all[f]) then w1 else SetFlag(w1, f, Taken(t)))
    case CancelCas(f) =>
      && f in w.all
      && s' == if Closed(w.all[f]) then Go(s, t, Done) else Go(s, t, Cancel(CancelBind(f))).(fwds := SetFlag(w, f, Won(t)))
    case CancelBind(f) =>
      Free(s, BindMu(f)) && f in w.all && s' == Go(s, t, Done).(fwds := ShutForward(w, f))
  }

  /** The registration tail of OpenShell, and removal from the map. */
  ghost predicate ShellStep(s: State, t: Tid, c: Choice, s': State)
    requires t in s.threads && s.threads[t].pc.Shell?
  {
    var n := s.threads[t].pc.shell;
    match s.threads[t].pc.at
    case ShWait => s' == Go(s, t, Shell(n, ShLoad))
    case ShLoad => s' == if s.gate.closedBy.Some? then Go(s, t, Done) else Go(s, t, Shell(n, ShPut))
    case ShPut => s' == Go(s, t, Done).(shells := s.shells + {n})
    case ShRemove => Free(s, ShellsMu) && s' == Go(s, t, Done).(shells := if c.Fail? then s.shells else s.shells - {n})
  }

  /** Every mutex the thread holds after the step it held before, or nobody did. */
  ghost predicate Locks(s: State, t: Tid, s': State) {
    && t in s.threads && t in s'.threads
    && forall l :: Holds(s'.threads[t], l) ==> Holds(s.threads[t], l) || Free(s, l)
  }

  /** One step of thread `t`. */
  ghost predicate Step(s: State, t: Tid, c: Choice, s': State) {
    && Locks(s, t, s')
    && match s.threads[t].pc {
         case Done => false
         case Drop(_, _) => DropStep(s, t, c, s')
         case Install(_) => InstallStep(s, t, c, s')
         case Start(_) => StartStep(s, t, c, s')
         case Idle => IdleStep(s, t, c, s')
         case Clear(_) => ClearStep(s, t, c, s')
         case RebindSnap(_) => SnapStep(s, t, c, s')
         case Rebind(_, _) => RebindStep(s, t, c, s')
         case Close(_) => CloseStep(s, t, c, s')
         case Build(_) => BuildStep(s, t, c, s')
         case Open(_, _, _) => OpenStep(s, t, c, s')
         case Cancel(_) => CancelStep(s, t, c, s')
         case Shell(_, _) => ShellStep(s, t, c, s')
       }
  }

  /** How a call begins.  Under `guarded`, a user's Reconnect begins only after Connect has returned. */
  predicate MayBegin(s: State, th: Thread, guarded: bool) {
    match th.role
    case Reconnector => th.pc == Clear(WaitReconnect) && (guarded ==> 0 in s.threads && s.threads[0].pc.Done?)
    case Closer => th.pc == Close(CloseCas)
    case SftpUser => th.pc == Build(SftpWait)
    case ForwardUser => (th.pc.Open? && th.pc.open.OpenGet?) || (th.pc.Cancel? && th.pc.cancel.CancelLook?)
    case ShellUser => th.pc.Shell? && (th.pc.at.ShWait? || th.pc.at.ShRemove?)
    case _ => false
  }

  ghost predicate Begin(s: State, t: Tid, th: Thread, guarded: bool, s': State) {
    t !in s.threads && MayBegin(s, th, guarded) && s' == s.(threads := s.threads[t := th])
  }

  ghost predicate Next(s: State, s': State, guarded: bool) {
    || (exists t, c :: Step(s, t, c, s'))
    || (exists t, th :: Begin(s, t, th, guarded, s'))
  }

  /** A new session, its connecting thread (number 0) about to dial. */
  const Initial: State := State(
    Conns(None, None, map[], multiset{}),
    Fwds(map[], map[], map[], multiset{}),
    Gate(None, 0, None, None, {}),
    {}, map[0 := Thread(Connector, Install(Dial))])

  ghost predicate IsRun(run: seq<State>, guarded: bool) {
    && |run| > 0
    && run[0] == Initial
    && forall i :: 0 <= i < |run| - 1 ==> Next(run[i], run[i + 1], guarded)
  }
}

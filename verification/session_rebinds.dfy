/**
  Which forwards a rebind leaves behind.  A rebind begins when its thread stores the client it has
  dialed.  Whatever refers to a client by then refers to another one, so a forward is on the new
  client exactly when the rebind has moved it or its opener read the client afterwards.
*/
module SessionRebinds {
  import opened Wrappers
  import opened SessionProtocol
  import opened SessionInvariants
  import opened SessionSteps
  import opened SessionTheorems
  import opened SessionOverlap
  import opened SessionListeners

  // ------------------------------------------------- who refers to a client

  /** The client a thread is listening on, or the one under the new listener in its hand. */
  function PcRef(pc: PC): Option<Res> {
    match pc
    case Open(_, _, OpenListen(on)) => Some(on)
    case Open(_, _, OpenReg(ln)) => ln.on
    case Open(_, _, OpenLoad(ln)) => ln.on
    case Open(_, _, OpenPut(ln)) => ln.on
    case Open(_, _, OpenDrop(ln)) => ln.on
    case Rebind(_, RbListen(on)) => Some(on)
    case Rebind(_, RbBind(ln)) => ln.on
    case Rebind(_, RbLoad(ln)) => ln.on
    case Rebind(_, RbSwap(ln)) => ln.on
    case _ => None
  }

  /** An opener that has read the client. */
  predicate PastGet(pc: PC) {
    pc.Open? && !pc.open.OpenGet?
  }

  ghost predicate Refers(s: State, r: Res) {
    || (exists f :: f in s.fwds.all && s.fwds.all[f].listener.on == Some(r))
    || (exists t :: t in s.threads && PcRef(s.threads[t].pc) == Some(r))
  }

  /** The thread holds a dialed client that it has not installed yet. */
  predicate HoldsDialed(pc: PC) {
    pc.Install? && !pc.install.Dial?
  }

  /** `r` has been dialed, and nobody is still about to install it. */
  ghost predicate Offered(s: State, r: Res) {
    && r in s.conns.place
    && forall t :: t in s.threads && HoldsDialed(s.threads[t].pc) ==> r !in All(s.threads[t].pc.install.t)
  }

  ghost predicate RefsOffered(s: State) {
    forall r :: Refers(s, r) ==> Offered(s, r)
  }

  ghost predicate IsClient(s: State, r: Option<Res>) {
    s.conns.client.Some? && r == Some(s.conns.client.value.client)
  }

  /** What a step of `t` makes its thread refer to, and the forwards it adds and changes. */
  ghost predicate RefStep(s: State, s': State, t: Tid)
    requires t in s.threads && t in s'.threads
  {
    var pc, pc' := s.threads[t].pc, s'.threads[t].pc;
    && (PcRef(pc').None? || PcRef(pc') == PcRef(pc) || IsClient(s, PcRef(pc')))
    && ForwardStep(s, s', t)
  }

  ghost predicate ForwardStep(s: State, s': State, t: Tid)
    requires t in s.threads && t in s'.threads
  {
    var pc, pc' := s.threads[t].pc, s'.threads[t].pc;
    && (forall f :: f in s'.fwds.all && f !in s.fwds.all ==>
          && pc.Open? && pc.open.OpenPut? && pc'.Done?
          && s'.fwds.all[f].remote == pc.remote && s'.fwds.all[f].listener.on == PcRef(pc))
    && (forall f :: f in s'.fwds.all && f in s.fwds.all && s'.fwds.all[f].listener != s.fwds.all[f].listener ==>
          s'.fwds.all[f].listener.on == PcRef(pc) && Swapping(s, t, f))
  }

  /** An opener past its load keeps what it read, and one that comes past it has read the client. */
  ghost predicate OpenerStep(s: State, s': State, t: Tid)
    requires t in s.threads && t in s'.threads
  {
    var pc, pc' := s.threads[t].pc, s'.threads[t].pc;
    && (PastGet(pc) ==>
          pc'.Done? || (PastGet(pc') && pc'.remote == pc.remote && (pc.remote ==> PcRef(pc') == PcRef(pc))))
    && (PastGet(pc') && !PastGet(pc) ==> IsClient(s, PcRef(pc')))
  }

  lemma OpenRefs(s: State, t: Tid, c: Choice, s': State)
    requires t in s.threads && s.threads[t].pc.Open? && OpenStep(s, t, c, s')
    ensures t in s'.threads && RefStep(s, s', t)
  {
  }

  lemma OpenOpener(s: State, t: Tid, c: Choice, s': State)
    requires t in s.threads && s.threads[t].pc.Open? && OpenStep(s, t, c, s')
    ensures t in s'.threads && OpenerStep(s, s', t)
  {
  }

  lemma RebindRefs(s: State, t: Tid, c: Choice, s': State)
    requires t in s.threads && s.threads[t].pc.Rebind? && RebindStep(s, t, c, s')
    ensures t in s'.threads && RefStep(s, s', t)
  {
    RebindForwards(s, t, c, s');
    RebindPcRef(s, t, c, s');
    hide RebindStep, ForwardStep, PcRef;
  }

  lemma RebindPcRef(s: State, t: Tid, c: Choice, s': State)
    requires t in s.threads && s.threads[t].pc.Rebind? && RebindStep(s, t, c, s')
    ensures t in s'.threads
    ensures
      var ref, ref' := PcRef(s.threads[t].pc), PcRef(s'.threads[t].pc);
      ref'.None? || ref' == ref || IsClient(s, ref')
  {
    hide Free, Swap, Grab, DropListener;
  }

  lemma RebindForwards(s: State, t: Tid, c: Choice, s': State)
    requires t in s.threads && s.threads[t].pc.Rebind? && RebindStep(s, t, c, s')
    ensures t in s'.threads && ForwardStep(s, s', t)
  {
    if s.threads[t].pc.rb.next < |s.threads[t].pc.rb.snapshot| && s.threads[t].pc.rebind.RbSwap? {
      hide Move, Free;
    } else {
      RebindChangesNone(s, t, c, s');
    }
  }

  lemma RebindChangesNone(s: State, t: Tid, c: Choice, s': State)
    requires t in s.threads && s.threads[t].pc.Rebind? && RebindStep(s, t, c, s')
    requires s.threads[t].pc.rb.next < |s.threads[t].pc.rb.snapshot| ==> !s.threads[t].pc.rebind.RbSwap?
    ensures t in s'.threads && s'.fwds.all == s.fwds.all
  {
    hide Free;
  }

  lemma RebindOpener(s: State, t: Tid, c: Choice, s': State)
    requires t in s.threads && s.threads[t].pc.Rebind? && RebindStep(s, t, c, s')
    ensures t in s'.threads && OpenerStep(s, s', t)
  {
  }

  lemma CloseRefs(s: State, t: Tid, c: Choice, s': State)
    requires t in s.threads && s.threads[t].pc.Close? && CloseStep(s, t, c, s')
    ensures t in s'.threads && RefStep(s, s', t) && OpenerStep(s, s', t)
  {
  }

  lemma CancelRefs(s: State, t: Tid, c: Choice, s': State)
    requires t in s.threads && s.threads[t].pc.Cancel? && CancelStep(s, t, c, s')
    ensures t in s'.threads && RefStep(s, s', t) && OpenerStep(s, s', t)
  {
  }

  lemma RestRefs(s: State, t: Tid, c: Choice, s': State)
    requires Step(s, t, c, s') && !s.threads[t].pc.Rebind? && !s.threads[t].pc.Close? && !s.threads[t].pc.Open?
    requires !s.threads[t].pc.Cancel?
    ensures t in s'.threads && RefStep(s, s', t) && OpenerStep(s, s', t)
  {
    RestAside(s, t, c, s');
    hide Step;
  }

  lemma RestAside(s: State, t: Tid, c: Choice, s': State)
    requires Step(s, t, c, s') && !s.threads[t].pc.Rebind? && !s.threads[t].pc.Close? && !s.threads[t].pc.Open?
    requires !s.threads[t].pc.Cancel?
    ensures t in s.threads && t in s'.threads && s'.fwds == s.fwds
    ensures PcRef(s'.threads[t].pc).None? && !s'.threads[t].pc.Open?
  {
  }

  lemma StepRefs(s: State, t: Tid, c: Choice, s': State)
    requires Step(s, t, c, s')
    ensures t in s.threads && t in s'.threads && RefStep(s, s', t) && OpenerStep(s, s', t)
  {
    hide RefStep, OpenerStep;
    match s.threads[t].pc
    case Close(_) => CloseRefs(s, t, c, s');
    case Open(_, _, _) =>
      OpenRefs(s, t, c, s');
      OpenOpener(s, t, c, s');
    case Cancel(_) => CancelRefs(s, t, c, s');
    case Rebind(_, _) =>
      RebindRefs(s, t, c, s');
      RebindOpener(s, t, c, s');
    case _ => RestRefs(s, t, c, s');
  }

  /** No connection is forgotten, and a client newly in hand is a new one. */
  ghost predicate HandStep(s: State, s': State, t: Tid)
    requires t in s.threads && t in s'.threads
  {
    var pc, pc' := s.threads[t].pc, s'.threads[t].pc;
    && s.conns.place.Keys <= s'.conns.place.Keys
    && (HoldsDialed(pc') ==>
          || (HoldsDialed(pc) && pc'.install.t == pc.install.t)
          || forall r :: r in All(pc'.install.t) ==> r !in s.conns.place)
  }

  lemma InstallHand(s: State, t: Tid, c: Choice, s': State)
    requires t in s.threads && s.threads[t].pc.Install? && InstallStep(s, t, c, s')
    ensures t in s'.threads && HandStep(s, s', t)
  {
  }

  lemma ClearHand(s: State, t: Tid, c: Choice, s': State)
    requires t in s.threads && s.threads[t].pc.Clear? && ClearStep(s, t, c, s')
    ensures t in s'.threads && HandStep(s, s', t)
  {
  }

  lemma DropHand(s: State, t: Tid, c: Choice, s': State)
    requires t in s.threads && s.threads[t].pc.Drop? && DropStep(s, t, c, s')
    ensures t in s'.threads && HandStep(s, s', t)
  {
  }

  lemma BuildHand(s: State, t: Tid, c: Choice, s': State)
    requires t in s.threads && s.threads[t].pc.Build? && BuildStep(s, t, c, s')
    ensures t in s'.threads && HandStep(s, s', t)
  {
  }

  lemma LeavesHand(s: State, s': State, t: Tid)
    requires t in s.threads && Leaves(s, s', t)
    ensures HandStep(s, s', t)
  {
  }

  lemma StepHand(s: State, t: Tid, c: Choice, s': State)
    requires Step(s, t, c, s')
    ensures t in s.threads && t in s'.threads && HandStep(s, s', t)
  {
    hide HandStep, Leaves;
    match s.threads[t].pc
    case Install(_) => InstallHand(s, t, c, s');
    case Clear(_) => ClearHand(s, t, c, s');
    case Drop(_, _) => DropHand(s, t, c, s');
    case Build(_) => BuildHand(s, t, c, s');
    case _ =>
      ElsewhereLeaves(s, t, c, s');
      LeavesHand(s, s', t);
  }

  // -------------------------------------- nothing refers to a client too early

  lemma ClientOffered(s: State)
    requires Inv(s) && s.conns.client.Some?
    ensures Offered(s, s.conns.client.value.client)
  {
    var r := s.conns.client.value.client;
    assert r in All(s.conns.client.value) && At(s.conns.place, r, InTransport);
    forall t | t in s.threads && HoldsDialed(s.threads[t].pc) ensures r !in All(s.threads[t].pc.install.t) {
      assert ThreadOk(s, t) && Hand(s.threads[t].pc) == All(s.threads[t].pc.install.t);
      assert !At(s.conns.place, r, InHand(t));
    }
  }

  lemma StillOffered(s: State, t: Tid, s': State, r: Res)
    requires Offered(s, r) && t in s.threads && OwnThread(s, s', t) && HandStep(s, s', t)
    requires forall u :: u in s'.threads && u !in s.threads ==> s'.threads[u].pc.Idle?
    ensures Offered(s', r)
  {
  }

  /** A step makes nothing refer to a client but what did, and what has the one installed. */
  lemma OldRefs(s: State, t: Tid, s': State, r: Res)
    requires t in s.threads && OwnThread(s, s', t) && RefStep(s, s', t) && Refers(s', r)
    requires forall u :: u in s'.threads && u !in s.threads ==> s'.threads[u].pc.Idle?
    ensures Refers(s, r) || IsClient(s, Some(r))
  {
    hide Swapping, IsClient;
    if f :| f in s'.fwds.all && s'.fwds.all[f].listener.on == Some(r) {
      if f !in s.fwds.all || s'.fwds.all[f].listener != s.fwds.all[f].listener {
        assert PcRef(s.threads[t].pc) == Some(r);
      }
    } else {
      var u :| u in s'.threads && PcRef(s'.threads[u].pc) == Some(r);
      assert u in s.threads;
    }
  }

  lemma StepOffers(s: State, t: Tid, c: Choice, s': State)
    requires Inv(s) && RefsOffered(s) && Step(s, t, c, s')
    ensures RefsOffered(s')
  {
    StepRefs(s, t, c, s');
    StepHand(s, t, c, s');
    StepOwn(s, t, c, s');
    NewOnesIdle(s, t, c, s');
    hide Inv, Step, RefStep, OpenerStep, HandStep, OwnThread, Refers, Offered;
    if s.conns.client.Some? {
      ClientOffered(s);
    }
    forall r | Refers(s', r) ensures Offered(s', r) {
      OldRefs(s, t, s', r);
      StillOffered(s, t, s', r);
    }
  }

  lemma BeginOffers(s: State, t: Tid, th: Thread, s': State)
    requires RefsOffered(s) && Begin(s, t, th, true, s')
    ensures RefsOffered(s')
  {
    forall r | Refers(s', r) ensures Offered(s', r) {
      assert Refers(s, r);
    }
  }

  lemma FirstOffers()
    ensures RefsOffered(Initial)
  {
    assert PcRef(Initial.threads[0].pc).None?;
  }

  /** In a guarded run whatever is referred to has been dialed and offered to the session. */
  lemma {:induction false} RunOffers(run: seq<State>, i: nat)
    requires IsRun(run, true) && i < |run|
    ensures RefsOffered(run[i])
  {
    hide Inv, Step, RefsOffered, Begin;
    FirstOffers();
    if i > 0 {
      RunOffers(run, i - 1);
      RunInv(run, i - 1);
      var s, s' := run[i - 1], run[i];
      assert Next(s, s', true);
      if t, c :| Step(s, t, c, s') {
        StepOffers(s, t, c, s');
      } else {
        var t, th :| Begin(s, t, th, true, s');
        BeginOffers(s, t, th, s');
      }
    }
  }

  // ------------------------------------------------------ along one rebind

  /** The thread is in the rebind onto `target`. */
  predicate Rebinds(s: State, t: Tid, target: Res) {
    && t in s.threads
    && (s.threads[t].pc == RebindSnap(target) || (s.threads[t].pc.Rebind? && s.threads[t].pc.rb.target == target))
  }

  predicate Before(rb: Rebinding, f: Fid) {
    rb.next <= |rb.snapshot| && exists i :: 0 <= i < rb.next && rb.snapshot[i] == f
  }

  /** A rebind moves, or fails to move, each forward of its snapshot when its turn comes. */
  ghost predicate InTurn(pc: PC) {
    pc.Rebind? ==>
      && NoDup(pc.rb.snapshot) && pc.rb.next <= |pc.rb.snapshot|
      && (forall f :: f in pc.rb.failed ==> Before(pc.rb, f))
      && (forall f :: f in pc.rb.moved ==> Before(pc.rb, f) || (pc.rebind.RbDrop? && Working(pc.rb, f)))
      && pc.rb.moved !! pc.rb.failed
  }

  predicate Moved(pc: PC, f: Fid) {
    pc.Rebind? && f in pc.rb.moved
  }

  /** The openers in `past` are on other clients, and the others that have read the client on `target`. */
  ghost predicate OpenersApart(s: State, target: Res, past: set<Tid>) {
    && (forall u :: u in past ==> u in s.threads && (s.threads[u].pc.Done? || PastGet(s.threads[u].pc)))
    && (forall u :: u in s.threads && PastGet(s.threads[u].pc) && s.threads[u].pc.remote ==>
          (u in past <==> PcRef(s.threads[u].pc) != Some(target)))
  }

  /** Of the remote forwards not moved the early ones are on other clients, and the others on `target`. */
  ghost predicate ForwardsApart(s: State, pc: PC, target: Res, early: set<Fid>) {
    && early <= s.fwds.all.Keys
    && forall f :: f in s.fwds.all && s.fwds.all[f].remote && !Moved(pc, f) ==>
         (f in early <==> s.fwds.all[f].listener.on != Some(target))
  }

  ghost predicate Apart(s: State, t: Tid, target: Res, past: set<Tid>, early: set<Fid>)
    requires t in s.threads
  {
    OpenersApart(s, target, past) && ForwardsApart(s, s.threads[t].pc, target, early) && InTurn(s.threads[t].pc)
  }

  lemma OpenersStayApart(s: State, u: Tid, s': State, target: Res, past: set<Tid>)
    requires u in s.threads && OwnThread(s, s', u) && OpenerStep(s, s', u) && !s.threads[u].pc.Done?
    requires forall v :: v in s'.threads && v !in s.threads ==> !PastGet(s'.threads[v].pc)
    requires OpenersApart(s, target, past) && (s.conns.client.Some? ==> s.conns.client.value.client == target)
    ensures OpenersApart(s', target, past)
  {
    hide PcRef;
  }

  /** One step of the loop: within a turn; to the next one, when the forward is local or closed, the session
      has no client, or the listener not needed has been closed; a Listen that failed; or the swap. */
  ghost predicate NextTurn(s: State, pc: PC, pc': PC)
    requires pc.Rebind? && pc'.Rebind?
  {
    var rb, rb' := pc.rb, pc'.rb;
    && rb.next < |rb.snapshot|
    && var f := rb.snapshot[rb.next];
    && f in s.fwds.all
    && (|| (rb' == rb && !pc.rebind.RbDrop?)
        || (&& rb' == Skip(rb)
            && (|| (pc.rebind.RbTop? && (!s.fwds.all[f].remote || Closed(s.fwds.all[f])))
                || (pc.rebind.RbGet? && s.conns.client.None?)
                || pc.rebind.RbDrop?))
        || (rb' == Skip(rb).(failed := rb.failed + {f}) && pc.rebind.RbListen?)
        || (rb' == rb.(moved := rb.moved + {f}) && pc.rebind.RbSwap? && pc'.rebind.RbDrop?))
  }

  lemma Turns(s: State, t: Tid, c: Choice, s': State)
    requires t in s.threads && s.threads[t].pc.Rebind? && RebindStep(s, t, c, s')
    requires t in s'.threads && s'.threads[t].pc.Rebind?
    ensures NextTurn(s, s.threads[t].pc, s'.threads[t].pc)
  {
  }

  lemma NextInTurn(s: State, pc: PC, pc': PC)
    requires pc.Rebind? && pc'.Rebind? && NextTurn(s, pc, pc') && InTurn(pc)
    ensures InTurn(pc')
  {
    assert forall f :: Before(pc.rb, f) ==> Before(pc'.rb, f);
    assert pc'.rb.next == pc.rb.next + 1 ==> Before(pc'.rb, pc.rb.snapshot[pc.rb.next]);
  }

  lemma MovesOn(s: State, t: Tid, c: Choice, s': State, target: Res)
    requires Rebinds(s, t, target) && Rebinds(s', t, target) && Step(s, t, c, s') && InTurn(s.threads[t].pc)
    ensures InTurn(s'.threads[t].pc)
    ensures forall f :: Moved(s.threads[t].pc, f) ==> Moved(s'.threads[t].pc, f)
    ensures forall f :: Swapping(s, t, f) ==> Moved(s'.threads[t].pc, f)
  {
    if s.threads[t].pc.Rebind? {
      Turns(s, t, c, s');
      NextInTurn(s, s.threads[t].pc, s'.threads[t].pc);
      hide InTurn, Before;
    }
  }

  /** Two threads that rebind are one. */
  lemma OneRebind(s: State, t: Tid, u: Tid, target: Res)
    requires Inv(s) && Rebinds(s, t, target) && u in s.threads && s.threads[u].pc.Rebind?
    ensures u == t
  {
    assert ThreadOk(s, t) && ThreadOk(s, u);
    assert Holds(s.threads[t], ReconnectMu) && Holds(s.threads[u], ReconnectMu);
  }

  /** The forwards a step of `u` adds are early when its opener is one of `past`. */
  ghost predicate Grown(s: State, u: Tid, s': State, past: set<Tid>, early: set<Fid>, early': set<Fid>) {
    && early' <= s'.fwds.all.Keys
    && forall f :: f in s'.fwds.all ==> (f in early' <==> if f in s.fwds.all then f in early else u in past)
  }

  lemma ForwardsStayApart(
    s: State, u: Tid, s': State, pc: PC, pc': PC, target: Res,
    past: set<Tid>, early: set<Fid>, early': set<Fid>)
    requires u in s.threads && u in s'.threads && RefStep(s, s', u)
    requires s'.fwds == s.fwds || FwdsKept(s.fwds, s'.fwds, u)
    requires OpenersApart(s, target, past) && ForwardsApart(s, pc, target, early)
    requires Grown(s, u, s', past, early, early')
    requires forall f :: Moved(pc, f) || Swapping(s, u, f) ==> Moved(pc', f)
    ensures ForwardsApart(s', pc', target, early')
  {
    hide Swapping, Moved, PcRef;
  }

  lemma StepApart(
    s: State, u: Tid, c: Choice, s': State, t: Tid, target: Res, past: set<Tid>, early: set<Fid>, early': set<Fid>)
    requires Inv(s) && Step(s, u, c, s') && s.gate.closedBy.None?
    requires Rebinds(s, t, target) && Rebinds(s', t, target)
    requires Apart(s, t, target, past, early) && Grown(s, u, s', past, early, early')
    ensures Apart(s', t, target, past, early')
  {
    StepHere(s, u, c, s');
    StepRefs(s, u, c, s');
    StepOwn(s, u, c, s');
    NewOnesIdle(s, u, c, s');
    OnTargetNow(s, t, target);
    assert ThreadOk(s, u);
    StepFwds(s, u, c, s');
    if u == t {
      MovesOn(s, t, c, s', target);
    } else if s.threads[u].pc.Rebind? {
      OneRebind(s, t, u, target);
    }
    hide Inv, Step, RefStep, OpenerStep, InTurn, Moved, Grown, FwdsKept, OpenersApart, ForwardsApart;
    OpenersStayApart(s, u, s', target, past);
    ForwardsStayApart(s, u, s', s.threads[t].pc, s'.threads[t].pc, target, past, early, early');
  }

  lemma OnTargetNow(s: State, t: Tid, target: Res)
    requires Inv(s) && s.gate.closedBy.None? && Rebinds(s, t, target)
    ensures s.conns.client.Some? && s.conns.client.value.client == target
  {
    assert ThreadOk(s, t);
  }

  lemma BeginApart(s: State, u: Tid, th: Thread, s': State, t: Tid, target: Res, past: set<Tid>, early: set<Fid>)
    requires Begin(s, u, th, true, s') && t in s.threads && Apart(s, t, target, past, early)
    ensures t in s'.threads && Apart(s', t, target, past, early)
  {
  }

  // ---------------------------------------------------------- over a run

  /** In state `k` the thread has just stored the client it dialed, and goes on to rebind. */
  predicate JustStored(run: seq<State>, k: nat, t: Tid, target: Res) {
    && 0 < k < |run| && t in run[k - 1].threads && t in run[k].threads
    && Storing(run[k - 1].threads[t].pc) && run[k - 1].threads[t].pc.install.t.client == target
    && run[k].threads[t].pc == RebindSnap(target)
  }

  /** It stays in that rebind up to state `i`. */
  predicate StaysIn(run: seq<State>, k: nat, i: nat, t: Tid, target: Res)
    requires i < |run|
  {
    forall j :: k <= j <= i ==> Rebinds(run[j], t, target)
  }

  /** The opener `u` registers its forward as `f`. */
  predicate RegistersAs(s: State, s': State, u: Tid, f: Fid) {
    && u in s.threads && s.threads[u].pc.Open? && s.threads[u].pc.open.OpenPut?
    && u in s'.threads && s'.threads[u].pc.Done?
    && f !in s.fwds.all && f in s'.fwds.all
  }

  /** The openers that have read the client. */
  function Past(s: State): set<Tid> {
    set u | u in s.threads && PastGet(s.threads[u].pc)
  }

  /** `f` was registered when state `k` was reached, or has been since by an opener that had read the client by then. */
  ghost predicate Early(run: seq<State>, k: nat, i: nat, f: Fid)
    requires k <= i < |run|
  {
    || f in run[k].fwds.all
    || exists j, u :: k <= j < i && u in Past(run[k]) && RegistersAs(run[j], run[j + 1], u, f)
  }

  ghost function EarlyOnes(run: seq<State>, k: nat, i: nat): set<Fid>
    requires k <= i < |run|
  {
    set f | f in run[i].fwds.all && Early(run, k, i, f)
  }

  lemma StepAdds(s: State, s': State)
    requires Inv(s) && Next(s, s', true)
    ensures s.fwds.all.Keys <= s'.fwds.all.Keys
    ensures s.gate.closedBy.Some? ==> s'.gate.closedBy.Some?
  {
    hide Step;
    if t, c :| Step(s, t, c, s') {
      StepHere(s, t, c, s');
      assert ThreadOk(s, t) && Global(s);
      hide Inv, ThreadOk, Global, Locks;
      StepFwds(s, t, c, s');
      StepStaysClosed(s, t, c, s');
    }
  }

  lemma StepStaysClosed(s: State, t: Tid, c: Choice, s': State)
    requires Global(s) && t in s.threads && ThreadOk(s, t) && Step(s, t, c, s')
    ensures s.gate.closedBy.Some? ==> s'.gate.closedBy.Some?
  {
    hide Step, Global, ThreadOk, PromisesConns, PromisesFwds, PromisesThreads, Tracked, Owns;
    StepKeeps(s, t, c, s');
  }

  lemma {:induction false} Persists(run: seq<State>, j: nat, i: nat)
    requires IsRun(run, true) && j <= i < |run|
    ensures run[j].fwds.all.Keys <= run[i].fwds.all.Keys
    ensures run[j].gate.closedBy.Some? ==> run[i].gate.closedBy.Some?
    decreases i - j
  {
    hide IsRun, Inv, Next;
    if j < i {
      Persists(run, j, i - 1);
      RunInv(run, i - 1);
      Follows(run, i - 1);
      StepAdds(run[i - 1], run[i]);
    }
  }

  /** When the client is stored, nothing refers to it yet. */
  lemma StoredApart(s: State, t: Tid, c: Choice, s': State, target: Res)
    requires RefsOffered(s) && Step(s, t, c, s') && t in s'.threads
    requires Storing(s.threads[t].pc) && s.threads[t].pc.install.t.client == target
    requires s'.threads[t].pc == RebindSnap(target)
    ensures Apart(s', t, target, Past(s'), s'.fwds.all.Keys)
  {
    StepRefs(s, t, c, s');
    StepOwn(s, t, c, s');
    NewOnesIdle(s, t, c, s');
    hide Step, Refers, PcRef;
    assert target in All(s.threads[t].pc.install.t);
    assert !Offered(s, target);
    assert !Refers(s, target);
    NotReferred(s, target);
  }

  lemma NotReferred(s: State, r: Res)
    requires !Refers(s, r)
    ensures forall f :: f in s.fwds.all ==> s.fwds.all[f].listener.on != Some(r)
    ensures forall u :: u in s.threads ==> PcRef(s.threads[u].pc) != Some(r)
  {
  }

  lemma FirstEarly(run: seq<State>, k: nat)
    requires k < |run|
    ensures EarlyOnes(run, k, k) == run[k].fwds.all.Keys
  {
  }

  lemma BeginsApart(run: seq<State>, k: nat, t: Tid, target: Res)
    requires IsRun(run, true) && JustStored(run, k, t, target)
    ensures Apart(run[k], t, target, Past(run[k]), EarlyOnes(run, k, k))
  {
    RunOffers(run, k - 1);
    Follows(run, k - 1);
    FirstEarly(run, k);
    hide IsRun, Step, RefsOffered, Apart, EarlyOnes, Past;
    var s, s' := run[k - 1], run[k];
    if u, c :| Step(s, u, c, s') {
      StepHere(s, u, c, s');
      StepOwn(s, u, c, s');
      StoredApart(s, u, c, s', target);
    }
  }

  /** The early ones grow by what the openers past their load at `k` register. */
  lemma EarlyGrow(run: seq<State>, k: nat, j: nat, u: Tid, c: Choice)
    requires IsRun(run, true) && k <= j && j + 1 < |run| && Step(run[j], u, c, run[j + 1])
    ensures Grown(run[j], u, run[j + 1], Past(run[k]), EarlyOnes(run, k, j), EarlyOnes(run, k, j + 1))
  {
    var s, s' := run[j], run[j + 1];
    StepRefs(s, u, c, s');
    StepOwn(s, u, c, s');
    hide IsRun, Step;
    Persists(run, k, j);
    forall f | f in s'.fwds.all
      ensures f in EarlyOnes(run, k, j + 1) <==>
        if f in s.fwds.all then f in EarlyOnes(run, k, j) else u in Past(run[k])
    {
      EarlierStep(run, k, j, u, f);
    }
  }

  lemma EarlierStep(run: seq<State>, k: nat, j: nat, u: Tid, f: Fid)
    requires IsRun(run, true) && k <= j && j + 1 < |run| && u in run[j].threads && f in run[j + 1].fwds.all
    requires OwnThread(run[j], run[j + 1], u) && RefStep(run[j], run[j + 1], u)
    ensures Early(run, k, j + 1, f) <==> if f in run[j].fwds.all then Early(run, k, j, f) else u in Past(run[k])
  {
    hide IsRun, Past, Swapping, PcRef;
    if f in run[j].fwds.all {
      forall m, v | k <= m < j + 1 && v in Past(run[k]) && RegistersAs(run[m], run[m + 1], v, f) ensures m < j {
      }
    } else {
      Persists(run, k, j);
      assert RegistersAs(run[j], run[j + 1], u, f);
      forall m, v | k <= m < j + 1 && v in Past(run[k]) && RegistersAs(run[m], run[m + 1], v, f) ensures v == u {
        if m < j {
          Persists(run, m + 1, j);
        }
      }
    }
  }

  lemma NextApart(run: seq<State>, k: nat, j: nat, t: Tid, target: Res)
    requires IsRun(run, true) && k <= j && j + 1 < |run| && run[j].gate.closedBy.None?
    requires Rebinds(run[j], t, target) && Rebinds(run[j + 1], t, target)
    requires Apart(run[j], t, target, Past(run[k]), EarlyOnes(run, k, j))
    ensures Apart(run[j + 1], t, target, Past(run[k]), EarlyOnes(run, k, j + 1))
  {
    RunInv(run, j);
    Follows(run, j);
    hide IsRun, Inv, Step, Apart, Grown, EarlyOnes, Past, Rebinds;
    var s, s' := run[j], run[j + 1];
    if u, c :| Step(s, u, c, s') {
      EarlyGrow(run, k, j, u, c);
      StepApart(s, u, c, s', t, target, Past(run[k]), EarlyOnes(run, k, j), EarlyOnes(run, k, j + 1));
    } else {
      var u, th :| Begin(s, u, th, true, s');
      SameEarly(run, k, j);
      assert t in s.threads;
      BeginApart(s, u, th, s', t, target, Past(run[k]), EarlyOnes(run, k, j));
    }
  }

  lemma SameEarly(run: seq<State>, k: nat, j: nat)
    requires k <= j && j + 1 < |run| && run[j + 1].fwds == run[j].fwds
    ensures EarlyOnes(run, k, j + 1) == EarlyOnes(run, k, j)
  {
    hide Past;
    forall f | f in run[j].fwds.all ensures Early(run, k, j + 1, f) <==> Early(run, k, j, f) {
      forall m, v | k <= m < j + 1 && v in Past(run[k]) && RegistersAs(run[m], run[m + 1], v, f) ensures m < j {
      }
    }
  }

  lemma {:induction false} StaysApart(run: seq<State>, k: nat, i: nat, t: Tid, target: Res)
    requires IsRun(run, true) && k <= i < |run| && JustStored(run, k, t, target) && StaysIn(run, k, i, t, target)
    requires run[i].gate.closedBy.None?
    ensures t in run[i].threads && Apart(run[i], t, target, Past(run[k]), EarlyOnes(run, k, i))
    decreases i - k
  {
    hide IsRun, Apart, EarlyOnes, Past;
    if i == k {
      BeginsApart(run, k, t, target);
    } else {
      Persists(run, i - 1, i);
      assert Rebinds(run[i - 1], t, target) && Rebinds(run[i], t, target);
      StaysApart(run, k, i - 1, t, target);
      NextApart(run, k, i - 1, t, target);
    }
  }

  lemma OffTargetExactly(run: seq<State>, k: nat, i: nat, t: Tid, target: Res, f: Fid)
    requires IsRun(run, true) && k <= i < |run| && JustStored(run, k, t, target) && StaysIn(run, k, i, t, target)
    requires run[i].threads[t].pc.Rebind? && run[i].threads[t].pc.rb.next == |run[i].threads[t].pc.rb.snapshot|
    requires run[i].gate.closedBy.None?
    requires f in run[i].fwds.all && run[i].fwds.all[f].remote && !Closed(run[i].fwds.all[f])
    ensures run[i].conns.client.Some? && run[i].conns.client.value.client == target
    ensures
      var rb := run[i].threads[t].pc.rb;
      run[i].fwds.all[f].listener.on != Some(target)
      <==> Early(run, k, i, f) && (f in rb.failed || f !in rb.snapshot)
  {
    StaysApart(run, k, i, t, target);
    RunInv(run, i);
    assert Rebinds(run[i], t, target);
    OnTargetNow(run[i], t, target);
    hide IsRun, Inv, Early;
    var rb := run[i].threads[t].pc.rb;
    if f in rb.snapshot && f !in rb.failed {
      RebindLands(run, i, t, f);
    } else {
      assert !Moved(run[i].threads[t].pc, f);
      assert f in EarlyOnes(run, k, i) <==> Early(run, k, i, f);
    }
  }

  lemma StepCopies(s: State, u: Tid, c: Choice, s': State, t: Tid, target: Res)
    requires Step(s, u, c, s') && Rebinds(s, t, target) && t in s'.threads && s'.threads[t].pc.Rebind?
    ensures
      var pc, rb' := s.threads[t].pc, s'.threads[t].pc.rb;
      if pc.Rebind? then rb'.snapshot == pc.rb.snapshot
      else (set f | f in rb'.snapshot) == s.fwds.named.Values
  {
    StepOwn(s, u, c, s');
    if u == t {
      if s.threads[t].pc.Rebind? {
        Turns(s, t, c, s');
      } else {
        assert SnapStep(s, t, c, s');
      }
    }
  }

  /** The snapshot of a rebind has what the map had when it was copied. */
  lemma {:induction false} SnapshotIsMap(run: seq<State>, k: nat, i: nat, t: Tid, target: Res) returns (m: nat)
    requires IsRun(run, true) && k <= i < |run| && StaysIn(run, k, i, t, target)
    requires run[k].threads[t].pc.RebindSnap? && run[i].threads[t].pc.Rebind?
    ensures k <= m < i && run[m].threads[t].pc.RebindSnap? && run[m + 1].threads[t].pc.Rebind?
    ensures (set f | f in run[i].threads[t].pc.rb.snapshot) == run[m].fwds.named.Values
    decreases i - k
  {
    hide IsRun, Step;
    Follows(run, i - 1);
    assert Rebinds(run[i - 1], t, target);
    if run[i - 1].threads[t].pc.Rebind? {
      m := SnapshotIsMap(run, k, i - 1, t, target);
    } else {
      m := i - 1;
    }
    var s, s' := run[i - 1], run[i];
    if u, c :| Step(s, u, c, s') {
      StepCopies(s, u, c, s', t, target);
    }
  }

  /** After a rebind has come to the end of its snapshot on an open session, a live remote forward is not on the new
      client exactly when it was registered, or its opener had read the client, by the time that client was stored,
      and its Listen failed or it was not in the map when the rebind copied it, in state `m`. */
  lemma LeftBehindExactly(run: seq<State>, k: nat, i: nat, t: Tid, target: Res) returns (m: nat)
    requires IsRun(run, true) && k <= i < |run| && JustStored(run, k, t, target) && StaysIn(run, k, i, t, target)
    requires run[i].threads[t].pc.Rebind? && run[i].threads[t].pc.rb.next == |run[i].threads[t].pc.rb.snapshot|
    requires run[i].gate.closedBy.None?
    ensures k <= m < i && run[m].threads[t].pc.RebindSnap? && run[m + 1].threads[t].pc.Rebind?
    ensures run[i].conns.client.Some? && run[i].conns.client.value.client == target
    ensures forall f :: f in run[i].fwds.all && run[i].fwds.all[f].remote && !Closed(run[i].fwds.all[f]) ==>
      (run[i].fwds.all[f].listener.on != Some(target)
       <==> Early(run, k, i, f) && (f in run[i].threads[t].pc.rb.failed || f !in run[m].fwds.named.Values))
  {
    m := SnapshotIsMap(run, k, i, t, target);
    RunInv(run, i);
    assert Rebinds(run[i], t, target);
    OnTargetNow(run[i], t, target);
    hide IsRun, Inv, Early, JustStored, StaysIn;
    var snapshot := run[i].threads[t].pc.rb.snapshot;
    forall f | f in run[i].fwds.all && run[i].fwds.all[f].remote && !Closed(run[i].fwds.all[f])
      ensures run[i].fwds.all[f].listener.on != Some(target)
         <==> Early(run, k, i, f) && (f in run[i].threads[t].pc.rb.failed || f !in run[m].fwds.named.Values)
    {
      OffTargetExactly(run, k, i, t, target, f);
      assert f in snapshot <==> f in (set g | g in snapshot);
    }
  }
}

/**
  The order in which the manager's and the sessions' mutexes are taken.  An
  operation is a list of nested critical sections; any number of threads run any
  operations on any number of sessions, forwards and shells, and may leave out a
  section (an error return, a branch not taken) at any point.  A read lock counts
  as a lock.
*/
module LockOrder {
  type Tid = nat

  /** A session, a forward or a shell. */
  type Id = int

  datatype Mutex =
    | ManagerMu
    | ReconnectMu(s: Id)
    | ForwardsMu(s: Id)
    | BindMu(s: Id, f: Id)
    | ShellsMu(s: Id)
    | BufMu(s: Id, sh: Id)
    | SftpMu(s: Id)
    | Mu(s: Id)

  function Rank(l: Mutex): int {
    match l
    case ManagerMu => 0
    case ReconnectMu(_) => 1
    case ForwardsMu(_) => 2
    case BindMu(_, _) => 3
    case ShellsMu(_) => 4
    case BufMu(_, _) => 5
    case SftpMu(_) => 6
    case Mu(_) => 7
  }

  /** A critical section: `l` held over `body`.  With `try` it is passed over when `l` is not free. */
  datatype Section = Under(l: Mutex, try: bool, body: seq<Section>)

  // ------------------------------------------------------- the operations

  function Brief(l: Mutex): Section {
    Under(l, false, [])
  }

  function Over(l: Mutex, body: seq<Section>): Section {
    Under(l, false, body)
  }

  function GetClient(s: Id): Section {
    Brief(Mu(s))
  }

  function ClearClient(s: Id): Section {
    Over(SftpMu(s), [Brief(Mu(s))])
  }

  /** A loop of `n` rounds. */
  function Repeat(n: nat, round: Id -> seq<Section>): seq<Section> {
    if n == 0 then [] else Repeat(n - 1, round) + round(n - 1)
  }

  /** Session.close with `nf` forwards in the map. */
  function CloseSession(s: Id, nf: nat): seq<Section> {
    [Brief(Mu(s)), Over(ForwardsMu(s), Repeat(nf, f => [Brief(BindMu(s, f))])), Brief(ShellsMu(s)),
     ClearClient(s), Brief(Mu(s))]
  }

  /** One forward of rebindForwards' snapshot. */
  function RebindOne(s: Id, f: Id): seq<Section> {
    [GetClient(s), Brief(BindMu(s, f))]
  }

  /** What Reconnect and attemptReconnect do under reconnectMu, with `tries` failed dials. */
  function Reconnecting(s: Id, tries: nat, nf: nat): seq<Section> {
    [ClearClient(s), Brief(Mu(s))] + Repeat(tries, i => [Brief(Mu(s))])
    + [Brief(Mu(s)), Brief(ForwardsMu(s))] + Repeat(nf, f => RebindOne(s, f))
  }

  /** Session.Info. */
  function Info(s: Id): seq<Section> {
    [Brief(Mu(s)), Brief(ForwardsMu(s)), Brief(ShellsMu(s))]
  }

  datatype Op =
    | Connect(s: Id)
    | Disconnect(s: Id, nf: nat)
    | Reconnect(s: Id, nf: nat)
    | AttemptReconnect(s: Id, tries: nat, nf: nat)
    | KeepaliveTick(s: Id)
    | CloseAll(n: nat, nf: nat)
    | List(n: nat)
    | ListAllForwards(n: nat)
    | OpenForward(s: Id)
    | CloseForward(s: Id, f: Id)
    | SftpClient(s: Id)
    | OpenShell(s: Id)
    | RemoveShell(s: Id)
    | ListShells(s: Id, n: nat)
    | ReadShell(s: Id, sh: Id, wakes: nat)
    | Capture(n: nat)

  function Program(op: Op): seq<Section> {
    match op
    case Connect(s) => [Brief(ManagerMu), Brief(Mu(s)), Brief(Mu(s)), Brief(Mu(s)), Brief(Mu(s)), Brief(ManagerMu)]
    case Disconnect(s, nf) => [Brief(ManagerMu)] + CloseSession(s, nf)
    case Reconnect(s, nf) => [Brief(ManagerMu), Over(ReconnectMu(s), Reconnecting(s, 0, nf))]
    case AttemptReconnect(s, tries, nf) => [Under(ReconnectMu(s), true, Reconnecting(s, tries, nf))]
    case KeepaliveTick(s) => [GetClient(s), Brief(Mu(s))]
    case CloseAll(n, nf) => [Over(ManagerMu, Repeat(n, s => CloseSession(s, nf)))]
    case List(n) => [Over(ManagerMu, Repeat(n, s => Info(s)))]
    case ListAllForwards(n) => [Over(ManagerMu, Repeat(n, s => [Brief(ForwardsMu(s))]))]
    case OpenForward(s) => [Brief(ManagerMu), GetClient(s), Brief(ForwardsMu(s))]
    case CloseForward(s, f) => [Brief(ManagerMu), Brief(ForwardsMu(s)), Brief(BindMu(s, f))]
    case SftpClient(s) => [Over(SftpMu(s), [GetClient(s)])]
    case OpenShell(s) => [GetClient(s), Brief(Mu(s)), Brief(ShellsMu(s)), Brief(ShellsMu(s))]
    case RemoveShell(s) => [Brief(ShellsMu(s))]
    case ListShells(s, n) => [Over(ShellsMu(s), Repeat(n, sh => [Brief(BufMu(s, sh))]))]
    case ReadShell(s, sh, wakes) => Repeat(wakes, i => [Brief(BufMu(s, sh))])
    case Capture(n) => [Brief(ManagerMu)] + Repeat(n, s => [Brief(ManagerMu), Brief(ForwardsMu(s))])
  }

  // ------------------------------------------------------- the machine

  /** A thread's nested levels: the sections still to come at each, and the mutex held there. */
  datatype Stack = Outer(rest: seq<Section>) | Level(l: Mutex, rest: seq<Section>, below: Stack)

  type State = map<Tid, Stack>

  predicate HeldIn(st: Stack, l: Mutex) {
    st.Level? && (st.l == l || HeldIn(st.below, l))
  }

  predicate Holding(s: State, t: Tid, l: Mutex) {
    t in s && HeldIn(s[t], l)
  }

  predicate Taken(s: State, l: Mutex) {
    exists t :: t in s && Holding(s, t, l)
  }

  /** The thread cannot go on into its next section before it has `l`. */
  predicate Wants(s: State, t: Tid, l: Mutex) {
    t in s && s[t].rest != [] && !s[t].rest[0].try && s[t].rest[0].l == l
  }

  /** What a thread can do: enter the next section, pass it over, or leave its level. */
  ghost predicate Advance(s: State, st: Stack, st': Stack) {
    if st.rest == [] then st.Level? && st' == st.below
    else
      var b, after := st.rest[0], st.(rest := st.rest[1..]);
      (!Taken(s, b.l) && st' == Level(b.l, b.body, after)) || st' == after
  }

  ghost predicate Next(s: State, s': State) {
    || (exists t, st' :: t in s && Advance(s, s[t], st') && s' == s[t := st'])
    || (exists t: Tid, op :: t !in s && s' == s[t := Outer(Program(op))])
  }

  ghost predicate IsRun(run: seq<State>) {
    && |run| > 0 && run[0] == map[]
    && forall i :: 0 <= i < |run| - 1 ==> Next(run[i], run[i + 1])
  }

  // ------------------------------------------------------- ranks

  /** Every section nested in another has a higher rank than the one around it. */
  ghost predicate Ranked(b: Section) {
    forall c :: c in b.body ==> Rank(b.l) < Rank(c.l) && Ranked(c)
  }

  ghost predicate AllAbove(bs: seq<Section>, rank: int) {
    forall b :: b in bs ==> rank < Rank(b.l) && Ranked(b)
  }

  lemma {:induction false} RepeatAbove(n: nat, round: Id -> seq<Section>, rank: int)
    requires forall i :: AllAbove(round(i), rank)
    ensures AllAbove(Repeat(n, round), rank)
  {
    if n > 0 {
      RepeatAbove(n - 1, round, rank);
      assert AllAbove(round(n - 1), rank);
    }
  }

  lemma ForwardsRanked(s: Id, nf: nat)
    ensures Ranked(Over(ForwardsMu(s), Repeat(nf, f => [Brief(BindMu(s, f))])))
  {
    RepeatAbove(nf, f => [Brief(BindMu(s, f))], 2);
  }

  lemma ClearRanked(s: Id)
    ensures Ranked(ClearClient(s))
  {
  }

  lemma CloseAbove(s: Id, nf: nat)
    ensures AllAbove(CloseSession(s, nf), 0)
  {
    ForwardsRanked(s, nf);
    ClearRanked(s);
    assert ClearClient(s).l == SftpMu(s);
    hide Repeat, ClearClient;
  }

  lemma CloseAllAbove(n: nat, nf: nat)
    ensures AllAbove(Repeat(n, s => CloseSession(s, nf)), 0)
  {
    var round := (s: Id) => CloseSession(s, nf);
    forall s ensures AllAbove(round(s), 0) {
      CloseAbove(s, nf);
    }
    RepeatAbove(n, round, 0);
  }

  lemma ReconnectingAbove(s: Id, tries: nat, nf: nat)
    ensures AllAbove(Reconnecting(s, tries, nf), 1)
  {
    RepeatAbove(tries, i => [Brief(Mu(s))], 1);
    RepeatAbove(nf, f => RebindOne(s, f), 1);
  }

  lemma InfoAbove(s: Id)
    ensures AllAbove(Info(s), 0)
  {
  }

  lemma ListingRanked(n: nat)
    ensures AllAbove(Program(List(n)), -1)
  {
    var round := (s: Id) => Info(s);
    forall s ensures AllAbove(round(s), 0) {
      InfoAbove(s);
    }
    RepeatAbove(n, round, 0);
  }

  lemma ForwardListingRanked(n: nat)
    ensures AllAbove(Program(ListAllForwards(n)), -1)
  {
    RepeatAbove(n, s => [Brief(ForwardsMu(s))], 0);
  }

  lemma ShellListingRanked(s: Id, n: nat)
    ensures AllAbove(Program(ListShells(s, n)), -1)
  {
    RepeatAbove(n, sh => [Brief(BufMu(s, sh))], 4);
  }

  lemma ReadRanked(s: Id, sh: Id, wakes: nat)
    ensures AllAbove(Program(ReadShell(s, sh, wakes)), -1)
  {
    RepeatAbove(wakes, i => [Brief(BufMu(s, sh))], -1);
  }

  lemma CaptureRanked(n: nat)
    ensures AllAbove(Program(Capture(n)), -1)
  {
    RepeatAbove(n, s => [Brief(ManagerMu), Brief(ForwardsMu(s))], -1);
  }

  lemma ShortsRanked(op: Op)
    requires op.Connect? || op.KeepaliveTick? || op.SftpClient? || op.RemoveShell?
    ensures AllAbove(Program(op), -1)
  {
  }

  lemma OpensRanked(op: Op)
    requires op.OpenForward? || op.CloseForward? || op.OpenShell?
    ensures AllAbove(Program(op), -1)
  {
  }

  lemma ClosesRanked(op: Op)
    requires op.Disconnect? || op.CloseAll?
    ensures AllAbove(Program(op), -1)
  {
    match op
    case Disconnect(s, nf) => CloseAbove(s, nf);
    case CloseAll(n, nf) => CloseAllAbove(n, nf);
  }

  lemma ReconnectsRanked(op: Op)
    requires op.Reconnect? || op.AttemptReconnect?
    ensures AllAbove(Program(op), -1)
  {
    match op
    case Reconnect(s, nf) => ReconnectingAbove(s, 0, nf);
    case AttemptReconnect(s, tries, nf) => ReconnectingAbove(s, tries, nf);
  }

  /** Every operation takes its mutexes along the rank. */
  lemma ProgramsRanked(op: Op)
    ensures AllAbove(Program(op), -1)
  {
    hide AllAbove, Program;
    match op
    case Disconnect(_, _) => ClosesRanked(op);
    case CloseAll(_, _) => ClosesRanked(op);
    case Reconnect(_, _) => ReconnectsRanked(op);
    case AttemptReconnect(_, _, _) => ReconnectsRanked(op);
    case Capture(n) => CaptureRanked(n);
    case List(n) => ListingRanked(n);
    case ListAllForwards(n) => ForwardListingRanked(n);
    case ListShells(s, n) => ShellListingRanked(s, n);
    case ReadShell(s, sh, wakes) => ReadRanked(s, sh, wakes);
    case OpenForward(_) => OpensRanked(op);
    case CloseForward(_, _) => OpensRanked(op);
    case OpenShell(_) => OpensRanked(op);
    case _ => ShortsRanked(op);
  }

  function TopRank(st: Stack): int {
    if st.Outer? then -1 else Rank(st.l)
  }

  /** Each mutex ranks above those held below it, and so does every section to come. */
  ghost predicate StackOk(st: Stack) {
    && AllAbove(st.rest, TopRank(st))
    && (st.Level? ==> TopRank(st.below) < TopRank(st) && StackOk(st.below))
  }

  ghost predicate Inv(s: State) {
    && (forall t :: t in s ==> StackOk(s[t]))
    && (forall t, u, l :: Holding(s, t, l) && Holding(s, u, l) ==> t == u)
  }

  lemma {:induction false} HeldBelowTop(st: Stack, l: Mutex)
    requires StackOk(st) && HeldIn(st, l)
    ensures Rank(l) <= TopRank(st)
  {
    if st.l != l {
      HeldBelowTop(st.below, l);
    }
  }

  lemma AdvanceOk(s: State, t: Tid, st': Stack)
    requires Inv(s) && t in s && Advance(s, s[t], st')
    ensures Inv(s[t := st'])
  {
    var s' := s[t := st'];
    assert StackOk(s[t]);
    assert s[t].rest != [] ==> s[t].rest[0] in s[t].rest;
    assert StackOk(st');
    forall l | HeldIn(st', l) ensures HeldIn(s[t], l) || !Taken(s, l) {
      if s[t].rest != [] {
        assert HeldIn(s[t].(rest := s[t].rest[1..]), l) <==> HeldIn(s[t], l);
      }
    }
    forall u, v, l | Holding(s', u, l) && Holding(s', v, l) ensures u == v {
      assert u != t ==> Holding(s, u, l) && Taken(s, l);
      assert v != t ==> Holding(s, v, l) && Taken(s, l);
      assert u != t || v != t ==> Holding(s, t, l) || (u != t && v != t);
    }
  }

  lemma {:induction false} RunInv(run: seq<State>, i: nat)
    requires IsRun(run) && i < |run|
    ensures Inv(run[i])
  {
    if i > 0 {
      RunInv(run, i - 1);
      var s, s' := run[i - 1], run[i];
      assert Next(s, s');
      if t, st' :| t in s && Advance(s, s[t], st') && s' == s[t := st'] {
        AdvanceOk(s, t, st');
      } else {
        var t: Tid, op :| t !in s && s' == s[t := Outer(Program(op))];
        ProgramsRanked(op);
        assert forall u, l :: Holding(s', u, l) ==> Holding(s, u, l);
      }
    }
  }

  // ------------------------------------------------------- no deadlock

  /** `t` waits for a mutex that `u` holds. */
  predicate WaitsFor(s: State, t: Tid, u: Tid) {
    t in s && s[t].rest != [] && Wants(s, t, s[t].rest[0].l) && Holding(s, u, s[t].rest[0].l)
  }

  lemma WaitingRises(s: State, t: Tid, u: Tid)
    requires Inv(s) && WaitsFor(s, t, u) && u in s && s[u].rest != []
    ensures Rank(s[t].rest[0].l) < Rank(s[u].rest[0].l)
  {
    HeldBelowTop(s[u], s[t].rest[0].l);
    assert StackOk(s[u]) && s[u].rest[0] in s[u].rest;
  }

  /** Threads each waiting for a mutex the next one holds. */
  ghost predicate WaitChain(s: State, ts: seq<Tid>) {
    forall k :: 0 <= k < |ts| - 1 ==> WaitsFor(s, ts[k], ts[k + 1])
  }

  lemma {:induction false} ChainRises(s: State, ts: seq<Tid>, k: nat)
    requires Inv(s) && WaitChain(s, ts) && 0 < k < |ts| - 1
    ensures WaitsFor(s, ts[0], ts[1]) && WaitsFor(s, ts[k], ts[k + 1])
    ensures Rank(s[ts[0]].rest[0].l) < Rank(s[ts[k]].rest[0].l)
  {
    assert WaitsFor(s, ts[k - 1], ts[k]) && WaitsFor(s, ts[k], ts[k + 1]);
    WaitingRises(s, ts[k - 1], ts[k]);
    if k > 1 {
      ChainRises(s, ts, k - 1);
    }
  }

  /** No reachable state has a cycle of threads each waiting for a mutex the next one holds. */
  lemma NoWaitCycle(run: seq<State>, i: nat, ts: seq<Tid>)
    requires IsRun(run) && i < |run| && |ts| >= 2 && ts[0] == ts[|ts| - 1]
    ensures !WaitChain(run[i], ts)
  {
    RunInv(run, i);
    var s := run[i];
    if WaitChain(s, ts) {
      var n := |ts| - 1;
      assert WaitsFor(s, ts[n - 1], ts[n]) && WaitsFor(s, ts[0], ts[1]);
      WaitingRises(s, ts[n - 1], ts[n]);
      if n > 1 {
        ChainRises(s, ts, n - 1);
      }
    }
  }

  predicate Finished(st: Stack) {
    st.Outer? && st.rest == []
  }

  /** The thread can go on without passing a section over for want of its mutex. */
  predicate CanProceed(s: State, t: Tid) {
    && t in s && !Finished(s[t])
    && (s[t].rest == [] || s[t].rest[0].try || !Taken(s, s[t].rest[0].l))
  }

  lemma {:induction false} FollowWaits(s: State, t: Tid) returns (u: Tid)
    requires Inv(s) && t in s && !Finished(s[t])
    ensures CanProceed(s, u)
    decreases 7 - (if s[t].rest == [] then 8 else Rank(s[t].rest[0].l))
  {
    if CanProceed(s, t) {
      u := t;
    } else {
      var h :| h in s && Holding(s, h, s[t].rest[0].l);
      if s[h].rest == [] {
        u := h;
      } else {
        WaitingRises(s, t, h);
        u := FollowWaits(s, h);
      }
    }
  }

  /** Whenever some operation has not finished, some thread can proceed. */
  lemma NoDeadlock(run: seq<State>, i: nat, t: Tid)
    requires IsRun(run) && i < |run| && t in run[i] && !Finished(run[i][t])
    ensures exists u :: CanProceed(run[i], u)
  {
    RunInv(run, i);
    var u := FollowWaits(run[i], t);
  }
}

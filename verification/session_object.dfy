/**
  The session as the object its methods update, one call at a time.  Each method is
  stated by the updates of the session protocol, keeps the protocol's invariants of
  the connections and the forwards, and closes what it takes out exactly once.
*/
module SessionObject {
  import opened Wrappers
  import opened SessionProtocol
  import opened SessionInvariants
  import opened SessionUpdates

  /** Exactly `rs` have been closed, and nothing else has changed. */
  ghost predicate Closing(before: Conns, after: Conns, rs: seq<Res>) {
    && after.client == before.client && after.sftp == before.sftp
    && after.closes == before.closes + multiset(rs)
    && forall r, p :: At(after.place, r, p) <==> if r in rs then p == Shut else At(before.place, r, p)
  }

  /** A thread is part of the way through closing the connections it holds. */
  ghost predicate Draining(before: Conns, now: Conns, t: Tid, rs: seq<Res>, i: nat) {
    && i <= |rs|
    && ConnsOk(now) && HandOk(now.place, t, Drop(rs[i..], ToEnd))
    && OtherHands(before.place, now.place, t) && Closing(before, now, rs[..i])
  }

  lemma DrainStart(c: Conns, t: Tid, rs: seq<Res>)
    requires ConnsOk(c) && HandOk(c.place, t, Drop(rs, ToEnd))
    ensures Draining(c, c, t, rs, 0)
  {
    assert rs[0..] == rs && rs[..0] == [];
  }

  lemma DrainMore(before: Conns, now: Conns, t: Tid, rs: seq<Res>, i: nat)
    requires Draining(before, now, t, rs, i) && i < |rs|
    ensures Draining(before, Drop1(now, rs[i]), t, rs, i + 1)
  {
    hide Move, ConnsOk, HandOk;
    DropOk(now, t, rs[i..], ToEnd);
    ClosingMore(before, now, rs, i);
    hide Closing;
    assert rs[i..][1..] == rs[i + 1..];
  }

  lemma ClosingMore(before: Conns, now: Conns, rs: seq<Res>, i: nat)
    requires i < |rs| && Closing(before, now, rs[..i])
    ensures Closing(before, Drop1(now, rs[i]), rs[..i + 1])
  {
    hide Move;
    assert rs[..i + 1] == rs[..i] + [rs[i]];
  }

  lemma DetachedPlaced(c: Conns, t: Tid)
    requires ConnsOk(c)
    ensures Detach(c, t).place.Keys == c.place.Keys
  {
    forall r | r in Detached(c) ensures r in c.place {
      assert At(c.place, r, InTransport) || At(c.place, r, InSftp);
    }
  }

  lemma Drained(before: Conns, now: Conns, t: Tid, rs: seq<Res>)
    requires HandOk(before.place, t, Drop(rs, ToEnd)) && Draining(before, now, t, rs, |rs|)
    ensures HandOk(now.place, t, Done) && Closing(before, now, rs)
    ensures ConnsOk(now) && OtherHands(before.place, now.place, t) && now.place.Keys == before.place.Keys
  {
    hide Move, ConnsOk;
    assert rs[..|rs|] == rs && rs[|rs|..] == [];
    forall r | r in rs ensures r in before.place {
      assert r in Hand(Drop(rs, ToEnd)) && At(before.place, r, InHand(t));
    }
    forall r | r in now.place ensures r in before.place {
      assert At(now.place, r, now.place[r]);
    }
    forall r | r in before.place ensures r in now.place {
      assert At(before.place, r, before.place[r]);
      assert At(now.place, r, if r in rs then Shut else before.place[r]);
    }
  }

  /** The connections of `t` are counted as installed, are not, and have not been closed. */
  ghost predicate Lost(t: Transport, c: Conns) {
    && c.client.Some?
    && forall r :: r in All(t) ==> At(c.place, r, InTransport) && r !in All(c.client.value) && c.closes[r] == 0
  }

  lemma InstallOver(c: Conns, t: Tid, dialed: Transport)
    requires ConnsOk(c) && HandOk(c.place, t, Install(SetStore(dialed))) && c.client.Some?
    ensures
      var c' := InstallClient(c, dialed);
      !ConnsOk(c') && HandOk(c'.place, t, Done) && OtherHands(c.place, c'.place, t) && Lost(c.client.value, c')
  {
    var was := c.client.value;
    assert Hand(Install(SetStore(dialed))) == All(dialed);
    forall r | r in All(was)
      ensures At(c.place, r, InTransport) && r !in All(dialed) && c.closes[r] == 0
    {
      assert At(c.place, r, InTransport);
      assert !At(c.place, r, InHand(t)) && !At(c.place, r, Shut);
    }
    assert was.client in All(was);
  }

  lemma DialedIsPlaced(c: Conns, t: Tid, dialed: Transport)
    requires HandOk(c.place, t, Install(SetStore(dialed)))
    ensures InstallClient(c, dialed).place.Keys == c.place.Keys
  {
    forall r | r in All(dialed) ensures r in c.place {
      assert r in Hand(Install(SetStore(dialed))) && At(c.place, r, InHand(t));
    }
  }

  /** Connections and forwards are in order, and `next` is yet to be opened. */
  ghost predicate AllInOrder(c: Conns, w: Fwds, next: Res) {
    && ConnsOk(c) && FwdsOk(w)
    && forall r :: r in c.place || r in w.place ==> r < next
  }

  class Session {
    var client: Option<Transport>
    var sftp: Option<Sftp>
    var closed: bool
    var keepaliveCancel: Option<Ctx>
    var cancelled: set<Ctx>
    var named: map<Name, Fid>
    /** The forward objects by identity. */
    var all: map<Fid, Forward>
    var shells: set<Name>
    /** The next connection or listener to be opened. */
    var next: Res
    /** Where every connection and every listener is, and how often each was closed. */
    ghost var place: map<Res, Place>
    ghost var closes: multiset<Res>
    ghost var bound: map<Res, Place>
    ghost var shuts: multiset<Res>

    ghost function Connections(): Conns
      reads this
    {
      Conns(client, sftp, place, closes)
    }

    ghost function Forwards(): Fwds
      reads this
    {
      Fwds(named, all, bound, shuts)
    }

    ghost predicate Valid()
      reads this
    {
      AllInOrder(Connections(), Forwards(), next)
    }

    constructor ()
      ensures Valid() && !closed && client.None? && sftp.None? && named == map[] && shells == {}
      ensures place == map[] && bound == map[]
    {
      client, sftp, closed, keepaliveCancel, cancelled := None, None, false, None, {};
      named, all, shells, next := map[], map[], {}, 0;
      place, closes, bound, shuts := map[], multiset{}, map[], multiset{};
    }

    // ------------------------------------------------------- connections

    /** Closes the connections in hand, one after the other. */
    method CloseConnections(ghost t: Tid, rs: seq<Res>)
      requires Valid() && HandOk(place, t, Drop(rs, ToEnd))
      modifies this`place, this`closes
      ensures Valid() && HandOk(place, t, Done) && OtherHands(old(place), place, t)
      ensures Closing(old(Connections()), Connections(), rs)
    {
      hide Draining, ConnsOk, FwdsOk, HandOk, Closing, OtherHands, Move;
      ghost var before := Connections();
      DrainStart(before, t, rs);
      for i := 0 to |rs|
        invariant Draining(before, Connections(), t, rs, i)
      {
        DrainMore(before, Connections(), t, rs, i);
        place, closes := Drop1(Connections(), rs[i]).place, Drop1(Connections(), rs[i]).closes;
      }
      Drained(before, Connections(), t, rs);
    }

    /** Installs a dialed client, or closes it when the session has been closed.  The session stays in
        order exactly when that did not replace a client: one replaced is neither installed nor closed. */
    method SetClient(ghost t: Tid, dialed: Transport) returns (installed: bool)
      requires Valid() && HandOk(place, t, Install(SetStore(dialed)))
      modifies this`client, this`place, this`closes
      ensures installed <==> !closed
      ensures HandOk(place, t, Done) && OtherHands(old(place), place, t)
      ensures Valid() <==> !installed || old(client).None?
      ensures installed ==> Connections() == InstallClient(old(Connections()), dialed)
      ensures installed && old(client).Some? ==> Lost(old(client).value, Connections())
      ensures !installed ==> client == old(client) && Closing(old(Connections()), Connections(), All(dialed))
    {
      if closed {
        assert Hand(Install(SetStore(dialed))) == Hand(Drop(All(dialed), ToEnd));
        CloseConnections(t, All(dialed));
        return false;
      }
      ghost var c := Connections();
      if client.None? {
        InstallOk(c, t, dialed, Done);
      } else {
        InstallOver(c, t, dialed);
      }
      DialedIsPlaced(c, t, dialed);
      client := Some(dialed);
      place := Move(place, All(dialed), InTransport);
      hide ConnsOk, FwdsOk, HandOk, OtherHands, Move, Lost;
      installed := true;
    }

    /** Takes out the transport and the SFTP client that rides on it together, then closes both. */
    method ClearClient(ghost t: Tid)
      requires Valid() && HandOk(place, t, Done)
      modifies this`client, this`sftp, this`place, this`closes
      ensures Valid() && HandOk(place, t, Done) && OtherHands(old(place), place, t)
      ensures client.None? && sftp.None?
      ensures closes == old(closes) + multiset(Detached(old(Connections())))
    {
      hide FwdsOk, ConnsOk, Move;
      ghost var c := Connections();
      DetachOk(c, t, Done, ToEnd);
      var took := (if sftp.Some? then [sftp.value.id] else []) + (if client.Some? then All(client.value) else []);
      assert took == Detached(c);
      DetachedPlaced(c, t);
      place := Detach(c, t).place;
      sftp, client := None, None;
      CloseConnections(t, took);
    }

    /** The cached SFTP client, or a new one on the client now installed, if that `answers`. */
    method SftpClient(ghost t: Tid, answers: bool) returns (r: Option<Sftp>)
      requires Valid() && HandOk(place, t, Done)
      modifies this`sftp, this`place, this`next
      ensures Valid() && HandOk(place, t, Done) && OtherHands(old(place), place, t)
      ensures r.Some? <==> old(sftp).Some? || (client.Some? && answers)
      ensures r.Some? ==> sftp == r && client.Some? && r.value.on == client.value.client
      ensures old(sftp).Some? ==> r == old(sftp) && place == old(place)
      ensures old(sftp).None? && r.Some? ==> Connections() == InstallSftp(old(Connections()), r.value)
      ensures r.None? ==> sftp.None? && place == old(place)
    {
      hide FwdsOk, Move;
      if sftp.Some? {
        return sftp;
      }
      if client.None? {
        return None;
      }
      if !answers {
        return None;
      }
      var x := Sftp(next, client.value.client);
      ghost var c := Connections();
      MovedOnce(c.place, x.id, InHand(t), InSftp);
      HoldOk(c, t, Done, Build(SftpPut(x)));
      SftpOk(Hold(c, t, [x.id]), t, x);
      place := InstallSftp(Hold(c, t, [x.id]), x).place;
      sftp, next := Some(x), next + 1;
      r := sftp;
    }

    // ---------------------------------------------------------- forwards

    /** Forward.Close: a forward closed before is left alone; otherwise its flag is set and its listener,
        and no other, is closed. */
    method Shut(f: Fid)
      requires f in all && !all[f].flag.Won? && !all[f].flag.Taken?
      modifies this`all, this`bound, this`shuts
      ensures Closed(old(all)[f]) ==> Forwards() == old(Forwards())
      ensures !Closed(old(all)[f]) ==> ShutNow(old(Forwards()), Forwards(), f)
      ensures old(Valid()) ==> Valid()
    {
      if Closed(all[f]) {
        return;
      }
      hide AllInOrder, ShutNow, ShutForward;
      ghost var w := Forwards();
      ShutShuts(w, f);
      LiveShut(Connections(), w, next, f);
      bound, shuts := ShutForward(w, f).place, ShutForward(w, f).closes;
      all := all[f := all[f].(flag := Over)];
      assert Forwards() == ShutForward(w, f);
    }

    /** Registers a forward whose listener the caller holds, unless the session is closed or
        the name taken; then the listener is closed again. */
    method RegisterForward(ghost t: Tid, f: Fid, n: Name, remote: bool, ln: Listener) returns (registered: bool)
      requires Valid() && At(bound, ln.id, InHand(t)) && f !in all
      modifies this`named, this`all, this`bound, this`shuts
      ensures Valid()
      ensures registered <==> !closed && n !in old(named)
      ensures Forwards() == if registered then Register(old(Forwards()), f, Forward(n, remote, ln, Live))
                            else DropListener(old(Forwards()), ln.id)
    {
      ghost var w := Forwards();
      if closed || n in named {
        DropListenerOk(w, t, ln.id);
        bound, shuts := DropListener(w, ln.id).place, DropListener(w, ln.id).closes;
        return false;
      }
      RegisterOk(w, t, f, Forward(n, remote, ln, Live));
      bound := Register(w, f, Forward(n, remote, ln, Live)).place;
      named, all := named[n := f], all[f := Forward(n, remote, ln, Live)];
      registered := true;
    }

    method CloseForward(ghost t: Tid, n: Name) returns (found: bool)
      requires Valid() && AtRest()
      modifies this`named, this`all, this`bound, this`shuts
      ensures Valid() && AtRest()
      ensures found <==> n in old(named)
      ensures !found ==> Forwards() == old(Forwards())
      ensures found ==>
        && old(named)[n] in old(all)
        && Forwards() == ShutOnce(Unnamed(old(Forwards()), n), old(named)[n])
    {
      hide AllInOrder, Move;
      if n !in named {
        return false;
      }
      var f := named[n];
      TakenInOrder(Connections(), Forwards(), next, t, n);
      named := named - {n};
      ghost var w := Forwards();
      Shut(f);
      ShutNowIsOnce(w, Forwards(), f);
      found := true;
    }

    /** No forward is in the middle of being closed. */
    ghost predicate AtRest()
      reads this`all
    {
      forall f :: f in all ==> all[f].flag.Live? || all[f].flag.Over?
    }

    /** Moves each live remote forward of the map onto the client now installed; one whose Listen is not
        among `answers` keeps its listener, and the listeners replaced are closed. */
    method RebindForwards(ghost t: Tid, answers: set<Fid>) returns (failed: set<Fid>)
      requires Valid() && AtRest() && EmptyHand(bound, t)
      modifies this`all, this`bound, this`shuts, this`next
      ensures Valid() && AtRest() && Rebound(old(Forwards()), Forwards(), {}, answers, On())
      ensures forall f :: f in failed <==>
        f in old(named).Values && f in old(all) && Wanted(old(all)[f]) && client.Some? && f !in answers
      ensures LeavesNone(old(bound), bound, t)
    {
      hide AllInOrder, Rebound, EmptyHand, LeavesNone, FailedAmong, NamedOk, ForwardOk;
      failed := {};
      var left := named.Values;
      ghost var w := Forwards();
      InOrderNamed(Connections(), w, next);
      ReboundStart(w, answers, On());
      LeavesNoneYet(w.place, t);
      while left != {}
        invariant named == w.named && left <= named.Values && FailedAmong(w, left, failed, answers, On())
        invariant Valid() && AtRest() && Rebound(w, Forwards(), left, answers, On())
        invariant LeavesNone(w.place, bound, t) && EmptyHand(bound, t)
        decreases |left|
      {
        var f :| f in left;
        ghost var c, v, n := Connections(), Forwards(), next;
        assert left == left - {f} + {f};
        LeftIsThere(w, v, left, f, answers, On());
        left := left - {f};
        if !all[f].remote || Closed(all[f]) || client.None? {
          ReboundSkip(w, v, left, f, answers, On());
          FailedMore(w, left, f, failed, answers, On());
          continue;
        }
        if f !in answers {
          ReboundSkip(w, v, left, f, answers, On());
          FailedMore(w, left, f, failed, answers, On());
          failed := failed + {f};
          continue;
        }
        var ln := SwapListener(t, f, client.value.client);
        InOrderNamed(c, v, n);
        ReboundSwap(w, v, Forwards(), t, left, f, answers, ln);
        FailedMore(w, left, f, failed, answers, On());
        LeavesNoneStill(w.place, v.place, bound, t);
      }
      FailedIn(w, failed, answers, On());
    }

    /** A new listener on `on` takes the place of the forward's, which is closed; nothing else changes. */
    method SwapListener(ghost t: Tid, f: Fid, on: Res) returns (ln: Listener)
      requires Valid() && f in all && all[f].flag.Live? && EmptyHand(bound, t)
      modifies this`all, this`bound, this`shuts, this`next
      ensures Valid() && LeavesNone(old(bound), bound, t)
      ensures ln.on == Some(on) && Swapped(old(Forwards()), Forwards(), f, ln)
    {
      hide FwdsOk, ConnsOk, SwapAndDrop, LeavesNone, Swapped;
      ln := Listener(next, Some(on));
      next := next + 1;
      ghost var w := Forwards();
      LeavesNoneYet(w.place, t);
      SwappedAndDropped(w, t, f, ln);
      SwappedIs(w, t, f, ln);
      HandStaysEmpty(w.place, w, t, f, ln);
      bound, shuts := SwapAndDrop(w, f, t, ln).place, SwapAndDrop(w, f, t, ln).closes;
      all := all[f := all[f].(listener := ln)];
      assert Forwards() == SwapAndDrop(w, f, t, ln);
    }

    ghost function On(): Option<Res>
      reads this`client
    {
      if client.Some? then Some(client.value.client) else None
    }

    // ------------------------------------------------------------- close

    /** After close nothing is left on the session; a second close does nothing. */
    method Close(ghost t: Tid)
      requires Valid() && AtRest() && HandOk(place, t, Done)
      modifies this
      ensures Valid() && AtRest() && HandOk(place, t, Done) && closed
      ensures old(closed) ==>
        && Connections() == old(Connections()) && Forwards() == old(Forwards())
        && shells == old(shells) && keepaliveCancel == old(keepaliveCancel) && cancelled == old(cancelled)
      ensures !old(closed) ==>
        && client.None? && sftp.None? && named == map[] && shells == {} && keepaliveCancel.None?
        && cancelled == old(cancelled) + (if old(keepaliveCancel).Some? then {old(keepaliveCancel).value} else {})
        && closes == old(closes) + multiset(Detached(old(Connections())))
        && Emptying(old(Forwards()), map[], all)
    {
      hide FwdsOk, ConnsOk, HandOk, Emptying, OtherHands, Detached;
      if closed {
        return;
      }
      closed := true;
      var cancel := keepaliveCancel;
      keepaliveCancel := None;
      if cancel.Some? {
        cancelled := cancelled + {cancel.value};
      }
      CloseForwards(t);
      shells := {};
      ClearClient(t);
    }

    /** The loop of close over the forwards. */
    method CloseForwards(ghost t: Tid)
      requires Valid() && AtRest()
      modifies this`named, this`all, this`bound, this`shuts
      ensures Valid() && AtRest() && named == map[] && Emptying(old(Forwards()), map[], all)
    {
      hide AllInOrder, Move, Emptying;
      ghost var w := Forwards();
      EmptyingStart(w);
      while named != map[]
        invariant Valid() && AtRest() && Emptying(w, named, all)
        decreases |named|
      {
        var n :| n in named;
        var f := named[n];
        TakenInOrder(Connections(), Forwards(), next, t, n);
        EmptyingMore(w, named, all, n);
        ghost var before := Forwards();
        Shut(f);
        ShutNowIsOnce(before, Forwards(), f);
        named := named - {n};
      }
    }
  }

  /** Of the forwards in `w`'s map those no longer in `named` have been shut; the rest are as they were. */
  ghost predicate Emptying(w: Fwds, named: map<Name, Fid>, all: map<Fid, Forward>) {
    && all.Keys == w.all.Keys
    && (forall n :: n in named ==> n in w.named && named[n] == w.named[n])
    && (forall n :: n in w.named && n !in named ==> w.named[n] in all && all[w.named[n]].flag.Over?)
    && (forall f :: f in w.all && f !in w.named.Values ==> all[f] == w.all[f])
  }

  lemma EmptyingStart(w: Fwds)
    ensures Emptying(w, w.named, w.all)
  {
  }

  lemma EmptyingMore(w: Fwds, named: map<Name, Fid>, all: map<Fid, Forward>, n: Name)
    requires Emptying(w, named, all) && n in named && named[n] in all
    requires all[named[n]].flag.Live? || all[named[n]].flag.Over?
    ensures Emptying(w, named - {n}, all) || !all[named[n]].flag.Over?
    ensures Emptying(w, named - {n}, all[named[n] := all[named[n]].(flag := Over)])
  {
    assert named[n] in w.named.Values;
  }

  /** Every forward of the map outside `left` has been dealt with. */
  ghost predicate Rebound(w: Fwds, w': Fwds, left: set<Fid>, answers: set<Fid>, on: Option<Res>) {
    && w'.named == w.named && w'.all.Keys == w.all.Keys
    && forall f :: f in w.all ==>
         if f in w.named.Values && f !in left && f in answers && Wanted(w.all[f]) && on.Some?
         then Moved(w, w', f, on) else Unmoved(w, w', f)
  }

  /** The forward has a new listener on `on`, and its previous one is closed. */
  ghost predicate Moved(w: Fwds, w': Fwds, f: Fid, on: Option<Res>)
    requires f in w.all && f in w'.all
  {
    var ln := w'.all[f].listener;
    && w'.all[f] == w.all[f].(listener := ln) && ln.on == on && ln.id !in w.place
    && At(w'.place, ln.id, Bound(f)) && At(w'.place, w.all[f].listener.id, SessionProtocol.Shut)
  }

  ghost predicate Unmoved(w: Fwds, w': Fwds, f: Fid)
    requires f in w.all && f in w'.all
  {
    w'.all[f] == w.all[f] && forall p :: At(w'.place, w.all[f].listener.id, p) <==> At(w.place, w.all[f].listener.id, p)
  }

  /** The new listener is bound to `f`, its previous one is closed, and nothing else has changed. */
  ghost predicate Swapped(w: Fwds, w': Fwds, f: Fid, ln: Listener)
    requires f in w.all
  {
    var r := w.all[f].listener.id;
    && w'.named == w.named && w'.all == w.all[f := w.all[f].(listener := ln)]
    && ln.id !in w.place && At(w'.place, ln.id, Bound(f)) && At(w'.place, r, SessionProtocol.Shut)
    && w'.closes == w.closes + multiset{r}
    && forall q, p :: q != r && q != ln.id ==> (At(w'.place, q, p) <==> At(w.place, q, p))
  }

  lemma SwappedIs(w: Fwds, t: Tid, f: Fid, ln: Listener)
    requires f in w.all && At(w.place, w.all[f].listener.id, Bound(f)) && ln.id !in w.place
    ensures Swapped(w, SwapAndDrop(w, f, t, ln), f, ln)
  {
    hide Move;
  }

  /** The forwards of the map outside `left` that were wanted and did not answer. */
  ghost predicate FailedAmong(w: Fwds, left: set<Fid>, failed: set<Fid>, answers: set<Fid>, on: Option<Res>) {
    forall f :: f in failed <==>
      f in w.named.Values && f in w.all && Wanted(w.all[f]) && on.Some? && f !in answers && f !in left
  }

  lemma FailedMore(w: Fwds, left: set<Fid>, f: Fid, failed: set<Fid>, answers: set<Fid>, on: Option<Res>)
    requires FailedAmong(w, left + {f}, failed, answers, on) && f in w.named.Values && f in w.all && f !in left
    ensures
      var fails := Wanted(w.all[f]) && on.Some? && f !in answers;
      FailedAmong(w, left, if fails then failed + {f} else failed, answers, on)
  {
  }

  lemma FailedIn(w: Fwds, failed: set<Fid>, answers: set<Fid>, on: Option<Res>)
    requires FailedAmong(w, {}, failed, answers, on)
    ensures forall f :: f in failed <==>
      f in w.named.Values && f in w.all && Wanted(w.all[f]) && on.Some? && f !in answers
  {
  }

  lemma InOrderNamed(c: Conns, w: Fwds, next: Res)
    requires AllInOrder(c, w, next)
    ensures FwdsOk(w) && w.named.Values <= w.all.Keys
  {
    NamedInAll(w);
  }

  lemma LeftIsThere(w: Fwds, v: Fwds, left: set<Fid>, f: Fid, answers: set<Fid>, on: Option<Res>)
    requires Rebound(w, v, left, answers, on) && f in left && f in w.named.Values && w.named.Values <= w.all.Keys
    ensures f in w.all && f in v.all && v.all[f] == w.all[f]
  {
  }

  lemma ReboundStart(w: Fwds, answers: set<Fid>, on: Option<Res>)
    ensures Rebound(w, w, w.named.Values, answers, on) && FailedAmong(w, w.named.Values, {}, answers, on)
  {
  }

  lemma ReboundSkip(w: Fwds, v: Fwds, left: set<Fid>, f: Fid, answers: set<Fid>, on: Option<Res>)
    requires Rebound(w, v, left + {f}, answers, on) && f !in left && f in w.all
    requires !Wanted(w.all[f]) || on.None? || f !in answers
    ensures Rebound(w, v, left, answers, on)
  {
    hide Moved, Unmoved;
    forall g | g in w.all
      ensures if g in w.named.Values && g !in left && g in answers && Wanted(w.all[g]) && on.Some?
              then Moved(w, v, g, on) else Unmoved(w, v, g)
    {
    }
  }

  lemma ReboundSwap(
    w: Fwds, v: Fwds, v': Fwds, t: Tid, left: set<Fid>, f: Fid, answers: set<Fid>, ln: Listener)
    requires Rebound(w, v, left + {f}, answers, ln.on) && FwdsOk(v) && LeavesNone(w.place, v.place, t)
    requires f in w.all && f in w.named.Values && f !in left && f in answers && ln.on.Some?
    requires v.all[f] == w.all[f] && Wanted(w.all[f]) && v.all[f].flag.Live? && Swapped(v, v', f, ln)
    ensures Rebound(w, v', left, answers, ln.on)
    ensures forall g :: g in w.all && g != f ==> v'.all[g] == v.all[g]
  {
    forall g | g in w.all
      ensures if g in w.named.Values && g !in left && g in answers && Wanted(w.all[g]) && ln.on.Some?
              then Moved(w, v', g, ln.on) else Unmoved(w, v', g)
    {
      if g != f {
        ApartFromSwap(v, v', f, ln, g);
        if !Unmoved(w, v, g) {
          OldApartFromSwap(w, v, v', f, ln, g);
        }
      }
    }
  }

  /** The swap leaves another forward's listener where it is, and one it had closed before. */
  lemma ApartFromSwap(v: Fwds, v': Fwds, f: Fid, ln: Listener, g: Fid)
    requires FwdsOk(v) && f in v.all && g in v.all && g != f && v.all[f].flag.Live? && Swapped(v, v', f, ln)
    ensures v'.all[g] == v.all[g]
    ensures forall p :: At(v'.place, v.all[g].listener.id, p) <==> At(v.place, v.all[g].listener.id, p)
  {
    assert ForwardOk(v, f) && ForwardOk(v, g);
  }

  lemma OldApartFromSwap(w: Fwds, v: Fwds, v': Fwds, f: Fid, ln: Listener, g: Fid)
    requires FwdsOk(v) && f in v.all && g in w.all && v.all[f].flag.Live? && Swapped(v, v', f, ln)
    requires At(v.place, w.all[g].listener.id, SessionProtocol.Shut)
    ensures At(v'.place, w.all[g].listener.id, SessionProtocol.Shut)
  {
    assert ForwardOk(v, f);
  }

  // ------------------------------------------------------------ the updates

  function Unnamed(w: Fwds, n: Name): Fwds {
    w.(named := w.named - {n})
  }

  function ShutOnce(w: Fwds, f: Fid): Fwds
    requires f in w.all
  {
    if Closed(w.all[f]) then w else ShutForward(w, f)
  }

  /** The listener of `f` has been closed and `f` marked so; nothing else has changed. */
  ghost predicate ShutNow(w: Fwds, w': Fwds, f: Fid)
    requires f in w.all
  {
    var r := w.all[f].listener.id;
    && w'.named == w.named && w'.all == w.all[f := w.all[f].(flag := Over)]
    && At(w'.place, r, SessionProtocol.Shut) && w'.closes == w.closes + multiset{r}
    && forall q, p :: q != r ==> (At(w'.place, q, p) <==> At(w.place, q, p))
  }

  /** That is the protocol's update. */
  lemma ShutNowIsOnce(w: Fwds, w': Fwds, f: Fid)
    requires f in w.all
    requires if Closed(w.all[f]) then w' == w else ShutNow(w, w', f)
    ensures w' == ShutOnce(w, f)
  {
    if !Closed(w.all[f]) {
      var m := ShutForward(w, f).place;
      forall q, p ensures At(w'.place, q, p) <==> At(m, q, p) {
      }
      hide Move;
      SamePlaces(w'.place, m);
    }
  }

  lemma SamePlaces(m: map<Res, Place>, m': map<Res, Place>)
    requires forall q, p :: At(m, q, p) <==> At(m', q, p)
    ensures m == m'
  {
    forall q ensures q in m <==> q in m' {
      if q in m {
        assert At(m, q, m[q]);
      }
      if q in m' {
        assert At(m', q, m'[q]);
      }
    }
    forall q | q in m ensures m[q] == m'[q] {
      assert At(m, q, m[q]);
    }
  }

  /** Closing a live forward that is still in the map keeps the forwards in order. */
  lemma LiveShut(c: Conns, w: Fwds, next: Res, f: Fid)
    requires f in w.all && w.all[f].flag.Live?
    ensures AllInOrder(c, w, next) ==> AllInOrder(c, ShutForward(w, f), next)
  {
    if AllInOrder(c, w, next) {
      assert ForwardOk(w, f);
      hide FwdsOk, ForwardOk, ConnsOk;
      ShutPlaces(w, f);
      ShutOk(w, f);
    }
  }

  lemma ShutShuts(w: Fwds, f: Fid)
    requires f in w.all
    ensures ShutNow(w, ShutForward(w, f), f)
    ensures ShutForward(w, f).named == w.named && ShutForward(w, f).all == w.all[f := w.all[f].(flag := Over)]
  {
    hide Move;
  }

  predicate Wanted(f: Forward) {
    f.remote && !Closed(f)
  }

  lemma NamedInAll(w: Fwds)
    requires FwdsOk(w)
    ensures w.named.Values <= w.all.Keys
  {
    forall n | n in w.named ensures w.named[n] in w.all {
      assert NamedOk(w, n);
    }
  }

  lemma ShutPlaces(w: Fwds, f: Fid)
    requires f in w.all && ForwardOk(w, f)
    ensures ShutOnce(w, f).place.Keys == w.place.Keys
  {
  }

  /** Shutting a forward forgets who was closing it. */
  lemma FlagForgotten(w: Fwds, f: Fid, x: Flag)
    requires f in w.all
    ensures ShutForward(SetFlag(w, f, x), f) == ShutForward(w, f)
  {
    hide Move;
    assert w.all[f := w.all[f].(flag := x)][f := w.all[f].(flag := Over)] == w.all[f := w.all[f].(flag := Over)];
  }

  lemma NamedPlaces(w: Fwds, n: Name)
    requires FwdsOk(w) && n in w.named
    ensures w.named[n] in w.all && ShutOnce(Unnamed(w, n), w.named[n]).place.Keys == w.place.Keys
  {
    assert NamedOk(w, n) && ForwardOk(w, w.named[n]);
    hide FwdsOk, Move;
    ShutPlaces(w, w.named[n]);
  }

  /** Taking a forward out of the map and closing it keeps the forwards in order. */
  lemma TakenAndShut(w: Fwds, t: Tid, n: Name)
    requires FwdsOk(w) && n in w.named
    requires w.named[n] in w.all ==> w.all[w.named[n]].flag.Live? || w.all[w.named[n]].flag.Over?
    ensures w.named[n] in w.all && FwdsOk(ShutOnce(Unnamed(w, n), w.named[n]))
    ensures ShutOnce(Unnamed(w, n), w.named[n]).place.Keys == w.place.Keys
  {
    hide FwdsOk, ShutForward;
    NamedPlaces(w, n);
    TakeOk(w, t, n);
    var f := w.named[n];
    if !Closed(w.all[f]) {
      ShutOk(SetFlag(Unnamed(w, n), f, Taken(t)), f);
      FlagForgotten(Unnamed(w, n), f, Taken(t));
    }
  }

  lemma TakenInOrder(c: Conns, w: Fwds, next: Res, t: Tid, n: Name)
    requires AllInOrder(c, w, next) && n in w.named
    requires w.named[n] in w.all ==> w.all[w.named[n]].flag.Live? || w.all[w.named[n]].flag.Over?
    ensures w.named[n] in w.all && AllInOrder(c, ShutOnce(Unnamed(w, n), w.named[n]), next)
    ensures Unnamed(ShutOnce(w, w.named[n]), n) == ShutOnce(Unnamed(w, n), w.named[n])
  {
    hide FwdsOk, ConnsOk, Move;
    TakenAndShut(w, t, n);
  }

  /** The thread is holding no listener. */
  ghost predicate EmptyHand(bound: map<Res, Place>, t: Tid) {
    forall r :: !At(bound, r, InHand(t))
  }

  lemma MovedOnce(place: map<Res, Place>, r: Res, p: Place, q: Place)
    ensures Move(Move(place, [r], p), [r], q) == Move(place, [r], q)
    ensures Move(place, [r], q).Keys == place.Keys + {r}
  {
  }

  /** No listener is left in the thread's hand, none is forgotten, and other threads keep theirs. */
  ghost predicate LeavesNone(before: map<Res, Place>, now: map<Res, Place>, t: Tid) {
    EmptyHand(now, t) && before.Keys <= now.Keys && OtherHands(before, now, t)
  }

  lemma LeavesNoneStill(before: map<Res, Place>, held: map<Res, Place>, now: map<Res, Place>, t: Tid)
    requires LeavesNone(before, held, t) && LeavesNone(held, now, t)
    ensures LeavesNone(before, now, t) && EmptyHand(now, t)
  {
  }

  lemma LeavesNoneYet(place: map<Res, Place>, t: Tid)
    requires EmptyHand(place, t)
    ensures LeavesNone(place, place, t)
  {
  }

  /** A forward moved to a new listener leaves none in the thread's hand: the new one is bound, the previous shut. */
  lemma HandStaysEmpty(before: map<Res, Place>, w: Fwds, t: Tid, f: Fid, ln: Listener)
    requires LeavesNone(before, w.place, t)
    requires f in w.all && At(w.place, w.all[f].listener.id, Bound(f)) && ln.id !in w.place
    requires SwapAndDrop(w, f, t, ln).place.Keys == w.place.Keys + {ln.id}
    ensures LeavesNone(before, SwapAndDrop(w, f, t, ln).place, t)
  {
    hide Move;
  }

  /** The new listener in and the previous one closed. */
  function SwapAndDrop(w: Fwds, f: Fid, t: Tid, ln: Listener): Fwds
    requires f in w.all
  {
    DropListener(Swap(Grab(w, t, ln.id), f, t, ln), w.all[f].listener.id)
  }

  lemma SwappedAndDropped(w: Fwds, t: Tid, f: Fid, ln: Listener)
    requires FwdsOk(w) && f in w.all && !w.all[f].flag.Over? && ln.id !in w.place
    ensures FwdsOk(SwapAndDrop(w, f, t, ln)) && At(w.place, w.all[f].listener.id, Bound(f))
    ensures SwapAndDrop(w, f, t, ln).place.Keys == w.place.Keys + {ln.id}
    ensures SwapAndDrop(w, f, t, ln).all == w.all[f := w.all[f].(listener := ln)]
    ensures SwapAndDrop(w, f, t, ln).named == w.named
  {
    assert ForwardOk(w, f);
    hide FwdsOk, ForwardOk, Move;
    GrabOk(w, t, ln.id);
    var held := Grab(w, t, ln.id);
    SwapOk(held, t, f, ln);
    DropListenerOk(Swap(held, f, t, ln), t, w.all[f].listener.id);
    SwapPlaces(w, t, f, ln);
  }

  lemma SwapPlaces(w: Fwds, t: Tid, f: Fid, ln: Listener)
    requires f in w.all && At(w.place, w.all[f].listener.id, Bound(f))
    ensures SwapAndDrop(w, f, t, ln).place.Keys == w.place.Keys + {ln.id}
  {
  }
}

/** What each change to the session's connections or forwards keeps, apart from
    who makes it. */
module SessionUpdates {
  import opened Wrappers
  import opened SessionProtocol
  import opened SessionInvariants

  /** Freshly dialed connections come into an empty hand. */
  lemma HoldOk(c: Conns, t: Tid, pc: PC, pc': PC)
    requires ConnsOk(c) && HandOk(c.place, t, pc) && Hand(pc) == [] && Fresh(c.place, Hand(pc'))
    ensures
      var c' := Hold(c, t, Hand(pc'));
      ConnsOk(c') && HandOk(c'.place, t, pc') && OtherHands(c.place, c'.place, t)
  {
    forall r | r in Hand(pc') ensures !At(c.place, r, Shut) {
    }
  }

  lemma DropOk(c: Conns, t: Tid, rest: seq<Res>, after: After)
    requires ConnsOk(c) && HandOk(c.place, t, Drop(rest, after)) && rest != []
    ensures
      var c' := Drop1(c, rest[0]);
      ConnsOk(c') && HandOk(c'.place, t, Drop(rest[1..], after)) && OtherHands(c.place, c'.place, t)
  {
    hide Move;
    assert rest[0] in Hand(Drop(rest, after));
    assert forall r :: r in rest <==> r == rest[0] || r in rest[1..];
    assert At(c.place, rest[0], InHand(t));
    assert !At(c.place, rest[0], InSftp) && !At(c.place, rest[0], InTransport) && !At(c.place, rest[0], Shut);
    var c' := Drop1(c, rest[0]);
    assert forall r :: At(c'.place, r, InSftp) <==> At(c.place, r, InSftp);
    assert forall r :: At(c'.place, r, InTransport) <==> At(c.place, r, InTransport);
  }

  lemma InstallOk(c: Conns, t: Tid, tr: Transport, pc': PC)
    requires ConnsOk(c) && HandOk(c.place, t, Install(SetStore(tr))) && c.client.None? && Hand(pc') == []
    ensures
      var c' := InstallClient(c, tr);
      ConnsOk(c') && HandOk(c'.place, t, pc') && OtherHands(c.place, c'.place, t)
  {
    assert Hand(Install(SetStore(tr))) == All(tr);
  }

  lemma NoDupCons(x: nat, xs: seq<nat>)
    requires NoDup(xs) && x !in xs
    ensures NoDup([x] + xs)
  {
  }

  lemma DetachOk(c: Conns, t: Tid, pc: PC, after: After)
    requires ConnsOk(c) && HandOk(c.place, t, pc) && Hand(pc) == []
    ensures
      var c' := Detach(c, t);
      ConnsOk(c') && HandOk(c'.place, t, Drop(Detached(c), after)) && OtherHands(c.place, c'.place, t)
  {
    var took := Detached(c);
    if c.sftp.Some? {
      assert At(c.place, c.sftp.value.id, InSftp);
      NoDupCons(c.sftp.value.id, All(c.client.value));
    }
    assert forall r :: r in took <==> At(c.place, r, InTransport) || At(c.place, r, InSftp);
  }

  lemma SftpOk(c: Conns, t: Tid, x: Sftp)
    requires ConnsOk(c) && HandOk(c.place, t, Build(SftpPut(x)))
    requires c.sftp.None? && c.client.Some? && c.client.value.client == x.on
    ensures
      var c' := InstallSftp(c, x);
      ConnsOk(c') && HandOk(c'.place, t, Done) && OtherHands(c.place, c'.place, t)
  {
    assert x.id in Hand(Build(SftpPut(x)));
  }

  /** A thread that is closing no forward and has taken none. */
  predicate Clean(pc: PC) {
    (pc.Cancel? ==> pc.cancel.CancelLook?) && (pc.Close? ==> !pc.close.CloseFwdBind? && !pc.close.CloseFwdDel?)
  }

  lemma GrabOk(w: Fwds, t: Tid, r: Res)
    requires FwdsOk(w) && r !in w.place
    ensures
      var w' := Grab(w, t, r);
      FwdsOk(w') && ShutsNone(w, w')
  {
    hide Move;
  }

  lemma GrabOkKept(w: Fwds, t: Tid, pc: PC, pc': PC, r: Res)
    requires ListenersOk(w, t, pc) && HandListener(pc).None? && Clean(pc)
    requires r !in w.place && HandListener(pc') == Some(r) && Clean(pc')
    ensures
      var w' := Grab(w, t, r);
      ListenersOk(w', t, pc') && FwdsKept(w, w', t) && SameListeners(w, w')
  {
  }

  lemma DropListenerOk(w: Fwds, t: Tid, r: Res)
    requires FwdsOk(w) && At(w.place, r, InHand(t))
    ensures
      var w' := DropListener(w, r);
      FwdsOk(w') && ShutsNone(w, w')
  {
  }

  lemma DropListenerOkKept(w: Fwds, t: Tid, pc: PC, pc': PC, r: Res)
    requires ListenersOk(w, t, pc) && HandListener(pc) == Some(r) && Clean(pc)
    requires HandListener(pc').None? && Clean(pc')
    ensures
      var w' := DropListener(w, r);
      ListenersOk(w', t, pc') && FwdsKept(w, w', t) && SameListeners(w, w') && At(w.place, r, InHand(t))
  {
  }

  lemma SwapEachOk(w: Fwds, t: Tid, f: Fid, ln: Listener, g: Fid)
    requires FwdsOk(w) && At(w.place, ln.id, InHand(t)) && f in w.all && !w.all[f].flag.Over? && g in w.all
    ensures ForwardOk(Swap(w, f, t, ln), g)
  {
    assert ForwardOk(w, f) && ForwardOk(w, g);
  }

  lemma SwapOk(w: Fwds, t: Tid, f: Fid, ln: Listener)
    requires FwdsOk(w) && At(w.place, ln.id, InHand(t)) && f in w.all && !w.all[f].flag.Over?
    ensures
      var w' := Swap(w, f, t, ln);
      FwdsOk(w') && ShutsNone(w, w')
  {
    hide Move;
    var w' := Swap(w, f, t, ln);
    assert At(w.place, w.all[f].listener.id, Bound(f)) by {
      assert ForwardOk(w, f);
    }
    SwapClosesOk(w, t, f, ln);
    SwapBoundOk(w, t, f, ln);
    hide ForwardOk, ClosesOk, At;
    forall g | g in w'.all ensures ForwardOk(w', g) {
      SwapEachOk(w, t, f, ln, g);
    }
    forall n | n in w'.named ensures NamedOk(w', n) {
      assert NamedOk(w, n);
    }
  }

  lemma SwapBoundOk(w: Fwds, t: Tid, f: Fid, ln: Listener)
    requires FwdsOk(w) && f in w.all && At(w.place, w.all[f].listener.id, Bound(f))
    ensures
      var w' := Swap(w, f, t, ln);
      && (forall r, g :: At(w'.place, r, Bound(g)) ==> g in w'.all && w'.all[g].listener.id == r)
      && (forall r :: !At(w'.place, r, InTransport) && !At(w'.place, r, InSftp))
  {
    hide Move, ForwardOk, NamedOk, ClosesOk;
  }

  lemma SwapClosesOk(w: Fwds, t: Tid, f: Fid, ln: Listener)
    requires ClosesOk(w.place, w.closes) && At(w.place, ln.id, InHand(t))
    requires f in w.all && At(w.place, w.all[f].listener.id, Bound(f))
    ensures ClosesOk(Swap(w, f, t, ln).place, w.closes)
  {
    hide Move;
  }

  lemma SwapOkKept(w: Fwds, t: Tid, pc: PC, pc': PC, f: Fid, ln: Listener)
    requires FwdsOk(w) && ListenersOk(w, t, pc) && HandListener(pc) == Some(ln.id) && Clean(pc)
    requires f in w.all && !w.all[f].flag.Over? && HandListener(pc') == Some(w.all[f].listener.id) && Clean(pc')
    ensures
      var w' := Swap(w, f, t, ln);
      ListenersOk(w', t, pc') && FwdsKept(w, w', t) && At(w.place, ln.id, InHand(t))
  {
    hide Move, ClosesOk;
    assert ForwardOk(w, f);
  }

  lemma RegisterEachOk(w: Fwds, t: Tid, f: Fid, fw: Forward, g: Fid)
    requires FwdsOk(w) && At(w.place, fw.listener.id, InHand(t))
    requires f !in w.all && fw.name !in w.named && fw.flag.Live? && (g in w.all || g == f)
    ensures ForwardOk(Register(w, f, fw), g)
  {
    hide Move, NamedOk;
    assert g in w.all ==> ForwardOk(w, g);
  }

  lemma RegisterOk(w: Fwds, t: Tid, f: Fid, fw: Forward)
    requires FwdsOk(w) && At(w.place, fw.listener.id, InHand(t))
    requires f !in w.all && fw.name !in w.named && fw.flag.Live?
    ensures
      var w' := Register(w, f, fw);
      FwdsOk(w') && ShutsNone(w, w')
  {
    hide Move, ForwardOk;
    var w' := Register(w, f, fw);
    forall g | g in w'.all ensures ForwardOk(w', g) {
      RegisterEachOk(w, t, f, fw, g);
    }
    forall n | n in w'.named ensures NamedOk(w', n) {
      assert n in w.named ==> NamedOk(w, n);
    }
  }

  lemma RegisterOkKept(w: Fwds, t: Tid, pc: PC, f: Fid, fw: Forward)
    requires ListenersOk(w, t, pc) && HandListener(pc) == Some(fw.listener.id) && Clean(pc)
    requires f !in w.all && fw.flag.Live?
    ensures
      var w' := Register(w, f, fw);
      ListenersOk(w', t, Done) && FwdsKept(w, w', t) && SameListeners(w, w') && At(w.place, fw.listener.id, InHand(t))
  {
  }

  /** The flag won on a forward that no other thread is taking out. */
  lemma WinOk(w: Fwds, t: Tid, f: Fid)
    requires FwdsOk(w) && f in w.all && !Closed(w.all[f])
    ensures
      var w' := SetFlag(w, f, Won(t));
      FwdsOk(w') && ShutsNone(w, w')
  {
    assert ForwardOk(w, f);
  }

  lemma WinOkKept(w: Fwds, t: Tid, pc: PC, pc': PC, f: Fid)
    requires ListenersOk(w, t, pc) && HandListener(pc).None? && HandListener(pc').None?
    requires f in w.all && !Closed(w.all[f]) && !Foreign(w.all[f], t)
    requires forall g :: !Shutting(pc, g)
    requires forall g :: Shutting(pc', g) <==> g == f
    requires pc.Close? || pc == Cancel(CancelCas(f))
    requires pc'.Close? ==> pc'.close.CloseFwdBind? && pc'.close.n in w.named && w.named[pc'.close.n] == f
    requires pc'.Cancel? ==> pc'.cancel.CancelBind?
    ensures
      var w' := SetFlag(w, f, Won(t));
      ListenersOk(w', t, pc') && FwdsKept(w, w', t) && SameListeners(w, w')
  {
    assert Shutting(pc', f);
    assert forall g :: g in w.all && w.all[g].flag == Won(t) ==> Shutting(pc, g);
  }

  lemma ShutEachOk(w: Fwds, f: Fid, g: Fid)
    requires FwdsOk(w) && f in w.all && !w.all[f].flag.Over? && g in w.all
    ensures ForwardOk(ShutForward(w, f), g)
  {
    hide Move, NamedOk, ClosesOk;
    assert ForwardOk(w, f) && ForwardOk(w, g);
  }

  lemma ShutClosesOk(w: Fwds, f: Fid)
    requires ClosesOk(w.place, w.closes) && f in w.all && At(w.place, w.all[f].listener.id, Bound(f))
    ensures ClosesOk(ShutForward(w, f).place, ShutForward(w, f).closes)
  {
    hide Move;
  }

  /** The listener of a forward that is not over is shut. */
  lemma ShutOk(w: Fwds, f: Fid)
    requires FwdsOk(w) && f in w.all && !w.all[f].flag.Over?
    ensures
      var w' := ShutForward(w, f);
      FwdsOk(w') && At(w.place, w.all[f].listener.id, Bound(f))
  {
    hide Move;
    var w' := ShutForward(w, f);
    assert At(w.place, w.all[f].listener.id, Bound(f)) by {
      assert ForwardOk(w, f);
    }
    ShutClosesOk(w, f);
    hide ForwardOk, ClosesOk;
    forall g | g in w'.all ensures ForwardOk(w', g) {
      ShutEachOk(w, f, g);
    }
    forall n | n in w'.named ensures NamedOk(w', n) {
      assert NamedOk(w, n);
    }
  }

  lemma ShutKeepsOthers(w: Fwds, t: Tid, f: Fid)
    requires f in w.all && w.all[f].flag == Won(t) && At(w.place, w.all[f].listener.id, Bound(f))
    ensures
      var w' := ShutForward(w, f);
      FwdsKept(w, w', t) && SameListeners(w, w')
  {
    hide Move;
  }

  lemma ShutOkKept(w: Fwds, t: Tid, pc: PC, pc': PC, f: Fid)
    requires ListenersOk(w, t, pc) && HandListener(pc).None? && HandListener(pc').None?
    requires Shutting(pc, f) && f in w.all && At(w.place, w.all[f].listener.id, Bound(f))
    requires pc'.Done? || (pc.Close? && pc' == Close(CloseFwdDel(pc.close.n)))
    ensures
      var w' := ShutForward(w, f);
      ListenersOk(w', t, pc') && FwdsKept(w, w', t) && SameListeners(w, w')
  {
    hide Move;
    assert forall g :: Shutting(pc, g) ==> g == f;
    ShutKeepsOthers(w, t, f);
  }

  /** The forward called `n` out of the map, and marked as taken out by `t` unless it was closed before. */
  function TakeOut(w: Fwds, t: Tid, n: Name): Fwds
    requires n in w.named && w.named[n] in w.all
  {
    var w1 := w.(named := w.named - {n});
    if Closed(w.all[w.named[n]]) then w1 else SetFlag(w1, w.named[n], Taken(t))
  }

  lemma TakeEachOk(w: Fwds, t: Tid, n: Name, g: Fid)
    requires FwdsOk(w) && n in w.named && w.named[n] in w.all && g in w.all
    ensures ForwardOk(TakeOut(w, t, n), g)
  {
    assert NamedOk(w, n) && ForwardOk(w, w.named[n]) && ForwardOk(w, g);
  }

  /** A canceller takes the forward called `n` out of the map. */
  lemma TakeOk(w: Fwds, t: Tid, n: Name)
    requires FwdsOk(w) && n in w.named
    ensures w.named[n] in w.all && FwdsOk(TakeOut(w, t, n)) && ShutsNone(w, TakeOut(w, t, n))
  {
    assert NamedOk(w, n);
    hide ForwardOk, ClosesOk;
    var w' := TakeOut(w, t, n);
    forall g | g in w'.all ensures ForwardOk(w', g) {
      TakeEachOk(w, t, n, g);
    }
    forall m | m in w'.named ensures NamedOk(w', m) {
      assert NamedOk(w, m);
    }
  }

  lemma TakeOkKept(w: Fwds, t: Tid, n: Name)
    requires FwdsOk(w) && ListenersOk(w, t, Cancel(CancelLook(n))) && n in w.named
    ensures
      && w.named[n] in w.all
      && var w' := TakeOut(w, t, n);
      ListenersOk(w', t, Cancel(CancelCas(w.named[n]))) && FwdsKept(w, w', t) && SameListeners(w, w')
  {
    hide At, ForwardOk;
    assert NamedOk(w, n) && ForwardOk(w, w.named[n]);
  }

  /** The closer deletes a forward it has closed. */
  lemma DeleteOk(w: Fwds, t: Tid, n: Name)
    requires FwdsOk(w) && ListenersOk(w, t, Close(CloseFwdDel(n)))
    ensures
      var w' := w.(named := w.named - {n});
      FwdsOk(w') && ListenersOk(w', t, Close(CloseFwd)) && FwdsKept(w, w', t) && SameListeners(w, w') && ShutsNone(w, w')
  {
  }

  /** A rebind goes on to the next forward of its snapshot. */
  lemma SkipOk(w: Fwds, g: Gate, rb: Rebinding, rb': Rebinding)
    requires RebindingOk(w, g, rb) && rb.next < |rb.snapshot| && rb' == Skip(rb).(failed := rb'.failed)
    requires rb.failed <= rb'.failed && Settled(w, g, rb', rb.snapshot[rb.next])
    ensures RebindingOk(w, g, rb')
  {
    forall i | 0 <= i < rb'.next ensures Settled(w, g, rb', rb'.snapshot[i]) {
      assert i < rb.next ==> Settled(w, g, rb, rb.snapshot[i]);
    }
  }

  /** The swap puts the forward it works on onto the rebind's target, and disturbs no other. */
  lemma MovedOk(w: Fwds, g: Gate, rb: Rebinding, t: Tid, ln: Listener)
    requires RebindingOk(w, g, rb) && rb.next < |rb.snapshot| && ln.on == Some(rb.target)
    ensures
      var f := rb.snapshot[rb.next];
      var rb' := rb.(moved := rb.moved + {f});
      RebindingOk(Swap(w, f, t, ln), g, rb') && Settled(Swap(w, f, t, ln), g, rb', f)
  {
    var f := rb.snapshot[rb.next];
    var rb' := rb.(moved := rb.moved + {f});
    forall i | 0 <= i < rb'.next ensures Settled(Swap(w, f, t, ln), g, rb', rb'.snapshot[i]) {
      assert Settled(w, g, rb, rb.snapshot[i]);
    }
  }
}

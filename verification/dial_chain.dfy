/**
  Dialing a target through an ordered chain of jump hosts, with fallback over the
  addresses of every hop.  The network is an object that remembers every connection
  ever opened, which of them are open, and every dial attempted; how each attempt ends
  is given.
*/
module DialChain {
  import opened Wrappers

  datatype Auth = Auth(useAgent: bool, keyPath: string, password: string)

  datatype Jump = Jump(user: string, addresses: seq<string>, auth: Auth, knownHosts: string)

  datatype Spec = Spec(addresses: seq<string>, jumps: seq<Jump>, auth: Auth, knownHosts: string)

  /** The address syntax of the standard library (trimming, recognizing a port, adding the default one), and
      what is there on this side: the agent at its socket, a key that can be read, a file of known hosts. */
  datatype Env = Env(
    trim: string -> string, hasPort: string -> bool, withPort: string -> string,
    agent: Auth -> bool, key: Auth -> bool, hosts: string -> bool)

  /** How an attempt ends: nothing listens, the handshake fails, or there is a client. */
  datatype Answer = Refused | Rejected | Up

  datatype Error =
    | NoAddress | BlankAddresses
    | NoAgent | BadKey | NoMethod
    | HostKeys
    | DialFailed
    | JumpFailed(user: string, cause: Error)
    | AllFailed

  type Id = nat

  datatype Conn = Socket | Tunnel(addr: string, parent: Option<Id>)

  datatype Attempt = Attempt(addr: string, parent: Option<Id>, got: Option<Id>)

  // ------------------------------------------------------------ addresses

  function Entry(a: string, x: Env): seq<string> {
    var t := x.trim(a);
    if t == "" then [] else if x.hasPort(t) then [t] else [x.withPort(t)]
  }

  /** The addresses that are not blank, in order, each with a port. */
  function Normal(addrs: seq<string>, x: Env): seq<string> {
    if addrs == [] then [] else Normal(addrs[..|addrs| - 1], x) + Entry(addrs[|addrs| - 1], x)
  }

  /** `out` has, in order, each address that is not blank: at `from` in `addrs`, trimmed, and with the default
      port unless it has one. */
  ghost predicate Picks(addrs: seq<string>, x: Env, from: seq<nat>, out: seq<string>) {
    && |out| == |from|
    && (forall k :: 0 <= k < |from| ==> from[k] < |addrs| && x.trim(addrs[from[k]]) != "")
    && (forall j, k :: 0 <= j < k < |from| ==> from[j] < from[k])
    && (forall i :: 0 <= i < |addrs| && x.trim(addrs[i]) != "" ==> i in from)
    && (forall k :: 0 <= k < |from| ==>
          var a := x.trim(addrs[from[k]]);
          out[k] == if x.hasPort(a) then a else x.withPort(a))
  }

  lemma {:induction false} NormalPicks(addrs: seq<string>, x: Env) returns (from: seq<nat>)
    ensures Picks(addrs, x, from, Normal(addrs, x))
  {
    NothingPicked(x);
    hide Picks, Entry;
    from := [];
    if addrs != [] {
      var n := |addrs| - 1;
      from := NormalPicks(addrs[..n], x);
      if x.trim(addrs[n]) != "" {
        var out := Normal(addrs[..n], x);
        PicksOneMore(addrs, x, from, out);
        from := from + [n];
      } else {
        PicksNoMore(addrs, x, from, Normal(addrs[..n], x));
      }
    }
  }

  lemma NothingPicked(x: Env)
    ensures Picks([], x, [], [])
  {
  }

  lemma PicksOneMore(addrs: seq<string>, x: Env, from: seq<nat>, out: seq<string>)
    requires addrs != [] && x.trim(addrs[|addrs| - 1]) != "" && Picks(addrs[..|addrs| - 1], x, from, out)
    ensures Picks(addrs, x, from + [|addrs| - 1], out + Entry(addrs[|addrs| - 1], x))
  {
    var n := |addrs| - 1;
    var more := from + [n];
    assert forall i :: i in from ==> i in more;
    assert more[|from|] == n && n in more;
  }

  lemma PicksNoMore(addrs: seq<string>, x: Env, from: seq<nat>, out: seq<string>)
    requires addrs != [] && x.trim(addrs[|addrs| - 1]) == "" && Picks(addrs[..|addrs| - 1], x, from, out)
    ensures Picks(addrs, x, from, out + Entry(addrs[|addrs| - 1], x))
  {
    assert out + [] == out;
  }

  method NormalizeAddrs(addrs: seq<string>, x: Env) returns (r: Result<seq<string>, Error>)
    ensures r.Ok? ==> exists from :: Picks(addrs, x, from, r.value)
    ensures r.Ok? ==> r.value == Normal(addrs, x) && r.value != []
    ensures r.Err? <==> AddrError(addrs, x).Some?
    ensures r.Err? ==> Some(r.error) == AddrError(addrs, x)
  {
    hide Picks;
    if |addrs| == 0 {
      return Err(NoAddress);
    }
    var out: seq<string> := [];
    for i := 0 to |addrs|
      invariant out == Normal(addrs[..i], x)
      invariant out == [] <==> forall k :: 0 <= k < i ==> x.trim(addrs[k]) == ""
    {
      assert addrs[..i + 1][..i] == addrs[..i];
      var a := x.trim(addrs[i]);
      if a == "" {
        continue;
      }
      if !x.hasPort(a) {
        a := x.withPort(a);
      }
      out := out + [a];
    }
    assert addrs[..|addrs|] == addrs;
    if |out| == 0 {
      return Err(BlankAddresses);
    }
    ghost var from := NormalPicks(addrs, x);
    return Ok(out);
  }

  // ----------------------------------------------- what can stop a dial early

  function AddrError(addrs: seq<string>, x: Env): (e: Option<Error>)
    ensures e.Some? ==> e.value in {NoAddress, BlankAddresses}
  {
    if addrs == [] then Some(NoAddress)
    else if forall s :: s in addrs ==> x.trim(s) == "" then Some(BlankAddresses)
    else None
  }

  function AuthError(a: Auth, x: Env): (e: Option<Error>)
    ensures e.Some? ==> e.value in {NoAgent, BadKey, NoMethod}
  {
    if a.useAgent && !x.agent(a) then Some(NoAgent)
    else if a.keyPath != "" && !x.key(a) then Some(BadKey)
    else if !a.useAgent && a.keyPath == "" && a.password == "" then Some(NoMethod)
    else None
  }

  /** What keeps a hop, or the target, from being dialed at all. */
  function SetupError(addrs: seq<string>, a: Auth, knownHosts: string, x: Env): Option<Error> {
    if AddrError(addrs, x).Some? then AddrError(addrs, x)
    else if AuthError(a, x).Some? then AuthError(a, x)
    else if !x.hosts(knownHosts) then Some(HostKeys)
    else None
  }

  // ---------------------------------------------------- what a log may say

  function Hop(chain: seq<Id>): Option<Id> {
    if chain == [] then None else Some(chain[|chain| - 1])
  }

  /** `log` is one pass over `addrs` through `parent`: in order, stopping at the first answer. */
  ghost predicate Tried(log: seq<Attempt>, addrs: seq<string>, parent: Option<Id>, got: Option<Id>) {
    && |log| <= |addrs|
    && (forall k :: 0 <= k < |log| ==> log[k].addr == addrs[k] && log[k].parent == parent)
    && match got
       case None => |log| == |addrs| && forall k :: 0 <= k < |log| ==> log[k].got == None
       case Some(_) =>
         && 0 < |log|
         && log[|log| - 1].got == got
         && forall k :: 0 <= k < |log| - 1 ==> log[k].got == None
  }

  /** A hop that failed either never dialed or found no answer at any of its addresses. */
  ghost predicate Exhausted(
    before: seq<Attempt>, after: seq<Attempt>, j: Jump, parent: Option<Id>, error: Error, x: Env)
  {
    && before <= after
    && (if error == DialFailed then Tried(after[|before|..], Normal(j.addresses, x), parent, None) else after == before)
    && SetupError(j.addresses, j.auth, j.knownHosts, x) == (if error == DialFailed then None else Some(error))
  }

  /** Between cuts `i` and `i + 1` the log is a pass over hop `i`'s addresses, answered by its client. */
  ghost predicate Pass(log: seq<Attempt>, cuts: seq<nat>, jumps: seq<Jump>, chain: seq<Id>, x: Env, i: nat)
    requires i < |jumps| == |chain| && |cuts| == |jumps| + 1
  {
    && cuts[i] <= cuts[i + 1] <= |log|
    && Tried(log[cuts[i]..cuts[i + 1]], Normal(jumps[i].addresses, x), Hop(chain[..i]), Some(chain[i]))
  }

  /** `log` falls, at `cuts`, into one answered pass per jump host, each through the client before. */
  ghost predicate Passes(log: seq<Attempt>, cuts: seq<nat>, jumps: seq<Jump>, chain: seq<Id>, x: Env) {
    && |chain| == |jumps| && |cuts| == |jumps| + 1
    && cuts[0] == 0 && cuts[|jumps|] == |log|
    && forall i :: 0 <= i < |jumps| ==> Pass(log, cuts, jumps, chain, x, i)
  }

  ghost predicate Linked(log: seq<Attempt>, jumps: seq<Jump>, chain: seq<Id>, x: Env) {
    exists cuts :: Passes(log, cuts, jumps, chain, x)
  }

  /** The chain broke at hop `i`: up to `cut` one answered pass per earlier hop, and then a pass over
      hop `i`'s addresses that none answered, or no dial at all. */
  ghost predicate BrokenAt(
    log: seq<Attempt>, cut: nat, jumps: seq<Jump>, i: nat, chain: seq<Id>, error: Error, x: Env)
  {
    && i < |jumps| && cut <= |log| && error.JumpFailed? && error.user == jumps[i].user
    && Linked(log[..cut], jumps[..i], chain, x)
    && Exhausted(log[..cut], log, jumps[i], Hop(chain), error.cause, x)
  }

  ghost predicate Broken(log: seq<Attempt>, jumps: seq<Jump>, error: Error, x: Env) {
    exists cut, i, chain :: BrokenAt(log, cut, jumps, i, chain, error, x)
  }

  /** The log of a whole dial: the chain first, then one pass for the target through its last client. */
  ghost predicate Targeted(log: seq<Attempt>, cut: nat, spec: Spec, chain: seq<Id>, got: Option<Id>, x: Env) {
    && cut <= |log|
    && Linked(log[..cut], spec.jumps, chain, x)
    && Tried(log[cut..], Normal(spec.addresses, x), Hop(chain), got)
  }

  ghost predicate Dialed(log: seq<Attempt>, spec: Spec, chain: seq<Id>, got: Option<Id>, x: Env) {
    exists cut :: Targeted(log, cut, spec, chain, got, x)
  }

  ghost predicate First(chain: seq<Id>, i: nat)
    requires i < |chain|
  {
    chain[i] !in chain[..i]
  }

  ghost predicate Distinct(chain: seq<Id>) {
    forall i :: 0 <= i < |chain| ==> First(chain, i)
  }

  /** The `i`-th client is younger than `before` and tunnelled through the one before it. */
  ghost predicate Link(made: seq<Conn>, chain: seq<Id>, before: nat, i: nat)
    requires i < |chain|
  {
    && before <= chain[i] < |made|
    && made[chain[i]].Tunnel?
    && made[chain[i]].parent == (if i == 0 then None else Some(chain[i - 1]))
  }

  ghost predicate Chained(made: seq<Conn>, chain: seq<Id>, before: nat) {
    && Distinct(chain)
    && forall i :: 0 <= i < |chain| ==> Link(made, chain, before, i)
  }

  function Members(chain: seq<Id>): set<Id> {
    set c | c in chain
  }

  lemma ChainedGrows(made: seq<Conn>, made': seq<Conn>, chain: seq<Id>, c: Id, before: nat)
    requires made <= made' && Chained(made, chain, before)
    requires before <= |made| <= c < |made'| && made'[c].Tunnel? && made'[c].parent == Hop(chain)
    ensures Chained(made', chain + [c], before)
    ensures Members(chain + [c]) == Members(chain) + {c}
  {
    forall i | 0 <= i <= |chain|
      ensures Link(made', chain + [c], before, i) && First(chain + [c], i)
    {
      if i < |chain| {
        assert Link(made, chain, before, i) && First(chain, i);
        assert (chain + [c])[..i] == chain[..i];
      } else {
        assert (chain + [c])[..i] == chain;
        forall k | 0 <= k < i
          ensures chain[k] < c
        {
          assert Link(made, chain, before, k);
        }
      }
    }
    MembersGrow(chain, c);
  }

  lemma ChainedSince(made: seq<Conn>, chain: seq<Id>, before: nat, earlier: nat)
    requires Chained(made, chain, before) && earlier <= before
    ensures Chained(made, chain, earlier)
  {
    forall i | 0 <= i < |chain|
      ensures Link(made, chain, earlier, i)
    {
      assert Link(made, chain, before, i);
    }
  }

  lemma MembersGrow(chain: seq<Id>, c: Id)
    ensures Members(chain + [c]) == Members(chain) + {c}
  {
  }

  /** Closing a chain undoes opening it. */
  lemma Undone(made: seq<Conn>, chain: seq<Id>, before: nat, open: set<Id>)
    requires Chained(made, chain, before) && forall c :: c in open ==> c < before
    ensures open + Members(chain) - Members(chain) == open && open !! Members(chain)
  {
    forall i | 0 <= i < |chain|
      ensures before <= chain[i]
    {
      assert Link(made, chain, before, i);
    }
  }

  /** An attempt got a connection when it was answered so, and the one it asked for. */
  ghost predicate Recorded(made: seq<Conn>, a: Attempt, answer: Answer) {
    && (a.got.Some? <==> answer.Up?)
    && (a.got.Some? ==> a.got.value < |made| && made[a.got.value] == Tunnel(a.addr, a.parent))
  }

  // ------------------------------------------------------------- dialing

  class Network {
    var made: seq<Conn>
    var open: set<Id>
    var attempts: seq<Attempt>
    /** How the attempts end, in the order they are made. */
    const answers: nat -> Answer

    ghost predicate Valid()
      reads this
    {
      && (forall c :: c in open ==> c < |made|)
      && (forall k :: 0 <= k < |attempts| ==> Recorded(made, attempts[k], answers(k)))
    }

    constructor (answers: nat -> Answer)
      ensures Valid() && made == [] && open == {} && attempts == [] && this.answers == answers
    {
      made, open, attempts, this.answers := [], {}, [], answers;
    }

    /** `c` is a connection opened since `made` had `before` entries. */
    ghost predicate Tunnels(c: Id, before: nat, addr: string, parent: Option<Id>)
      reads this
    {
      before <= c < |made| && made[c] == Tunnel(addr, parent)
    }

    method Open(conn: Conn) returns (c: Id)
      requires Valid()
      modifies this
      ensures Valid() && attempts == old(attempts)
      ensures made == old(made) + [conn] && c == |old(made)|
      ensures open == old(open) + {c}
    {
      c := |made|;
      made, open := made + [conn], open + {c};
    }

    /** A connection is closed once: a second close is outside this contract. */
    method Close(c: Id)
      requires Valid() && c in open
      modifies this
      ensures Valid() && attempts == old(attempts) && made == old(made)
      ensures open == old(open) - {c}
    {
      open := open - {c};
    }

    method CloseAll(chain: seq<Id>)
      requires Valid() && Distinct(chain) && Members(chain) <= open
      modifies this
      ensures Valid() && attempts == old(attempts) && made == old(made)
      ensures open == old(open) - Members(chain)
    {
      for i := 0 to |chain|
        invariant Valid() && attempts == old(attempts) && made == old(made)
        invariant open == old(open) - Members(chain[..i])
      {
        assert First(chain, i) && chain[i] in chain;
        assert chain[..i + 1] == chain[..i] + [chain[i]];
        Close(chain[i]);
      }
      assert chain[..|chain|] == chain;
    }

    /** Collects the authentication methods.  An agent socket it opened is returned for the caller to close. */
    method Build(auth: Auth, x: Env) returns (r: Result<Option<Id>, Error>)
      requires Valid()
      modifies this
      ensures Valid() && attempts == old(attempts) && old(made) <= made
      ensures r.Err? <==> AuthError(auth, x).Some?
      ensures r.Err? ==> open == old(open) && Some(r.error) == AuthError(auth, x)
      ensures r.Ok? ==> (r.value.Some? <==> auth.useAgent)
      ensures r == Ok(None) ==> open == old(open)
      ensures r.Ok? && r.value.Some? ==> |old(made)| <= r.value.value && open == old(open) + {r.value.value}
      ensures r.Ok? ==> auth.useAgent || auth.keyPath != "" || auth.password != ""
    {
      var socket: Option<Id> := None;
      if auth.useAgent {
        if !x.agent(auth) {
          return Err(NoAgent);
        }
        var c := Open(Socket);
        socket := Some(c);
      }
      if auth.keyPath != "" {
        if !x.key(auth) {
          Release(socket);
          return Err(BadKey);
        }
      }
      if !auth.useAgent && auth.keyPath == "" && auth.password == "" {
        Release(socket);
        return Err(NoMethod);
      }
      return Ok(socket);
    }

    method Release(socket: Option<Id>)
      requires Valid() && (socket.Some? ==> socket.value in open)
      modifies this
      ensures Valid() && attempts == old(attempts) && made == old(made)
      ensures open == if socket.Some? then old(open) - {socket.value} else old(open)
    {
      if socket.Some? {
        Close(socket.value);
      }
    }

    method DialThrough(chain: seq<Id>, addr: string) returns (got: Option<Id>)
      requires Valid()
      modifies this
      ensures Valid() && old(made) <= made
      ensures attempts == old(attempts) + [Attempt(addr, Hop(chain), got)]
      ensures got.Some? <==> answers(|old(attempts)|).Up?
      ensures got.None? ==> open == old(open)
      ensures got.Some? ==> open == old(open) + {got.value} && Tunnels(got.value, |old(made)|, addr, Hop(chain))
    {
      var answer := answers(|attempts|);
      got := None;
      if answer != Refused {
        var c := Open(Tunnel(addr, Hop(chain)));
        if answer == Up {
          got := Some(c);
        } else {
          Close(c);
        }
      }
      attempts := attempts + [Attempt(addr, Hop(chain), got)];
    }

    /** Tries `addrs` in order; the loop that a jump host and the target share. */
    method DialFirst(chain: seq<Id>, addrs: seq<string>) returns (got: Option<Id>, addr: string)
      requires Valid() && addrs != []
      modifies this
      ensures Valid() && old(made) <= made && old(attempts) <= attempts
      ensures Tried(attempts[|old(attempts)|..], addrs, Hop(chain), got)
      ensures got.None? ==> open == old(open)
      ensures got.Some? ==> open == old(open) + {got.value} && Tunnels(got.value, |old(made)|, addr, Hop(chain))
    {
      ghost var start := |attempts|;
      got, addr := None, "";
      for i := 0 to |addrs|
        invariant got == None && Valid() && old(made) <= made && old(attempts) <= attempts && open == old(open)
        invariant |attempts| == start + i
        invariant Tried(attempts[start..], addrs[..i], Hop(chain), None)
      {
        ghost var log := attempts[start..];
        got := DialThrough(chain, addrs[i]);
        assert attempts[start..] == log + [Attempt(addrs[i], Hop(chain), got)];
        if got.Some? {
          addr := addrs[i];
          return;
        }
      }
      assert addrs[..|addrs|] == addrs;
    }

    method DialOneJump(j: Jump, chain: seq<Id>, x: Env) returns (r: Result<Id, Error>)
      requires Valid()
      modifies this
      ensures Valid() && old(made) <= made && old(attempts) <= attempts
      ensures r.Err? ==> open == old(open)
      ensures r.Err? ==> Exhausted(old(attempts), attempts, j, Hop(chain), r.error, x)
      ensures SetupError(j.addresses, j.auth, j.knownHosts, x).Some? ==> r.Err?
      ensures r.Ok? ==>
        && open == old(open) + {r.value}
        && |old(made)| <= r.value < |made| && made[r.value].Tunnel? && made[r.value].parent == Hop(chain)
        && Tried(attempts[|old(attempts)|..], Normal(j.addresses, x), Hop(chain), Some(r.value))
    {
      hide Tried, Normal, Recorded, AddrError, AuthError, Picks;
      var addrs := NormalizeAddrs(j.addresses, x);
      if addrs.Err? {
        return Err(addrs.error);
      }
      var socket := Build(j.auth, x);
      if socket.Err? {
        return Err(socket.error);
      }
      if !x.hosts(j.knownHosts) {
        Release(socket.value);
        return Err(HostKeys);
      }
      var got, _ := DialFirst(chain, addrs.value);
      Release(socket.value);
      r := if got.Some? then Ok(got.value) else Err(DialFailed);
    }

    method DialJumpChain(jumps: seq<Jump>, x: Env) returns (r: Result<seq<Id>, Error>)
      requires Valid()
      modifies this
      ensures Valid() && old(made) <= made && old(attempts) <= attempts
      ensures r.Err? ==> open == old(open) && r.error.JumpFailed?
      ensures r.Err? ==> Broken(attempts[|old(attempts)|..], jumps, r.error, x)
      ensures r.Ok? ==>
        && open == old(open) + Members(r.value)
        && Chained(made, r.value, |old(made)|)
        && Linked(attempts[|old(attempts)|..], jumps, r.value, x)
    {
      hide Linked, Members, Normal, Recorded, Exhausted, Tried, Link, First, Broken;
      if |jumps| == 0 {
        NoHops(x);
        assert attempts[|attempts|..] == [] && jumps == [];
        return Ok([]);
      }
      ghost var start := |attempts|;
      NoHops(x);
      assert attempts[start..] == [] && jumps[..0] == [];
      var chain: seq<Id> := [];
      for i := 0 to |jumps|
        invariant Valid() && old(made) <= made && old(attempts) <= attempts
        invariant |chain| == i && Chained(made, chain, |old(made)|)
        invariant open == old(open) + Members(chain)
        invariant Linked(attempts[start..], jumps[..i], chain, x)
      {
        ghost var log, was := attempts[start..], made;
        ghost var tried := attempts;
        var dialed := DialOneJump(jumps[i], chain, x);
        if dialed.Err? {
          Undone(was, chain, |old(made)|, old(open));
          CloseAll(chain);
          assert attempts[..start + |log|] == tried && attempts[start..start + |log|] == log;
          Breaks(attempts, start, log, jumps, i, chain, dialed.error, x);
          return Err(JumpFailed(jumps[i].user, dialed.error));
        }
        assert attempts[start..][|log|..] == attempts[start + |log|..];
        HopAdded(was, made, log, attempts[start..], jumps, i, chain, dialed.value, |old(made)|, x);
        chain := chain + [dialed.value];
      }
      assert jumps[..|jumps|] == jumps;
      r := Ok(chain);
    }

    /** The address loop of the target, which closes the chain when no address answers. */
    method DialTarget(spec: Spec, chain: seq<Id>, addrs: seq<string>, ghost before: nat, ghost log: seq<Attempt>,
                      x: Env)
      returns (r: Result<(Id, string), Error>)
      requires Valid() && before <= |made| && Chained(made, chain, before) && Members(chain) <= open
      requires addrs != [] && addrs == Normal(spec.addresses, x)
      requires log <= attempts && Linked(attempts[|log|..], spec.jumps, chain, x)
      modifies this
      ensures Valid() && old(made) <= made && log <= attempts
      ensures r.Err? ==> r.error == AllFailed && open == old(open) - Members(chain)
      ensures r.Err? ==> Dialed(attempts[|log|..], spec, chain, None, x)
      ensures r.Ok? ==> open == old(open) + {r.value.0} && Tunnels(r.value.0, |old(made)|, r.value.1, Hop(chain))
      ensures r.Ok? ==> Dialed(attempts[|log|..], spec, chain, Some(r.value.0), x)
    {
      hide Recorded, Tried, Normal, Linked, Dialed, Link, First;
      ghost var start := attempts[|log|..];
      var got, addr := DialFirst(chain, addrs);
      assert attempts[|log|..][|start|..] == attempts[|log| + |start|..];
      DialedAfter(start, attempts[|log|..], spec, chain, got, x);
      if got.None? {
        CloseAll(chain);
        return Err(AllFailed);
      }
      r := Ok((got.value, addr));
    }

    /** On success the clients of the chain and the target are what stays open; on any
        error nothing the call opened, agent sockets included, stays open. */
    method DialFinal(spec: Spec, x: Env) returns (r: Result<(Id, seq<Id>, string), Error>)
      requires Valid()
      modifies this
      ensures Valid() && old(made) <= made && old(attempts) <= attempts
      ensures r.Err? ==> open == old(open)
      ensures r.Err? && !r.error.JumpFailed? && r.error != AllFailed ==>
        attempts == old(attempts) && Some(r.error) == SetupError(spec.addresses, spec.auth, spec.knownHosts, x)
      ensures SetupError(spec.addresses, spec.auth, spec.knownHosts, x).Some? ==>
        r.Err? && !r.error.JumpFailed? && r.error != AllFailed
      ensures r.Err? && r.error.JumpFailed? ==> Broken(attempts[|old(attempts)|..], spec.jumps, r.error, x)
      ensures r == Err(AllFailed) ==>
        exists chain :: Dialed(attempts[|old(attempts)|..], spec, chain, None, x)
      ensures r.Ok? ==>
        var (client, chain, addr) := r.value;
        && Chained(made, chain + [client], |old(made)|)
        && open == old(open) + Members(chain) + {client}
        && made[client] == Tunnel(addr, Hop(chain))
        && Dialed(attempts[|old(attempts)|..], spec, chain, Some(client), x)
    {
      hide Dialed, Linked, Broken, Chained, Members, Normal, Recorded, AddrError, AuthError, Picks;
      ghost var start := attempts;
      var addrs := NormalizeAddrs(spec.addresses, x);
      if addrs.Err? {
        return Err(addrs.error);
      }
      var socket := Build(spec.auth, x);
      if socket.Err? {
        return Err(socket.error);
      }
      if !x.hosts(spec.knownHosts) {
        Release(socket.value);
        return Err(HostKeys);
      }
      ghost var young, held := |made|, open;
      var chain := DialJumpChain(spec.jumps, x);
      if chain.Err? {
        Release(socket.value);
        return Err(chain.error);
      }
      ghost var was := made;
      var target := DialTarget(spec, chain.value, addrs.value, young, start, x);
      Undone(was, chain.value, young, held);
      if target.Err? {
        Release(socket.value);
        return Err(AllFailed);
      }
      ChainedGrows(was, made, chain.value, target.value.0, young);
      ChainedSince(made, chain.value + [target.value.0], young, |old(made)|);
      Release(socket.value);
      r := Ok((target.value.0, chain.value, target.value.1));
    }
  }

  // ---------------------------------------------------------- about logs

  lemma NoHops(x: Env)
    ensures Linked([], [], [], x) && Members([]) == {}
  {
    assert Passes([], [0], [], [], x);
  }

  /** One more answered pass lengthens a chain by one hop. */
  lemma LinkedGrows(log: seq<Attempt>, log': seq<Attempt>, jumps: seq<Jump>, j: Jump,
                    chain: seq<Id>, c: Id, x: Env)
    requires Linked(log, jumps, chain, x) && log <= log'
    requires Tried(log'[|log|..], Normal(j.addresses, x), Hop(chain), Some(c))
    ensures Linked(log', jumps + [j], chain + [c], x)
  {
    var cuts :| Passes(log, cuts, jumps, chain, x);
    PassesGrow(log, cuts, log'[|log|..], jumps, j, chain, c, x);
    assert log' == log + log'[|log|..];
  }

  lemma HopAdded(made: seq<Conn>, made': seq<Conn>, log: seq<Attempt>, log': seq<Attempt>, jumps: seq<Jump>,
                 i: nat, chain: seq<Id>, c: Id, before: nat, x: Env)
    requires i < |jumps|
    requires made <= made' && Chained(made, chain, before)
    requires before <= |made| <= c < |made'| && made'[c].Tunnel? && made'[c].parent == Hop(chain)
    requires Linked(log, jumps[..i], chain, x) && log <= log'
    requires Tried(log'[|log|..], Normal(jumps[i].addresses, x), Hop(chain), Some(c))
    ensures Chained(made', chain + [c], before)
    ensures Members(chain + [c]) == Members(chain) + {c}
    ensures Linked(log', jumps[..i + 1], chain + [c], x)
  {
    ChainedGrows(made, made', chain, c, before);
    LinkedGrows(log, log', jumps[..i], jumps[i], chain, c, x);
    assert jumps[..i + 1] == jumps[..i] + [jumps[i]];
  }

  lemma PassesGrow(log: seq<Attempt>, cuts: seq<nat>, pass: seq<Attempt>, jumps: seq<Jump>, j: Jump,
                   chain: seq<Id>, c: Id, x: Env)
    requires Passes(log, cuts, jumps, chain, x)
    requires Tried(pass, Normal(j.addresses, x), Hop(chain), Some(c))
    ensures Passes(log + pass, cuts + [|log + pass|], jumps + [j], chain + [c], x)
  {
    var n, log', cuts', jumps', chain' := |jumps|, log + pass, cuts + [|log + pass|], jumps + [j], chain + [c];
    forall i | 0 <= i <= n
      ensures Pass(log', cuts', jumps', chain', x, i)
    {
      if i == n {
        assert log'[|log|..|log'|] == pass && chain'[..n] == chain;
      } else {
        assert Pass(log, cuts, jumps, chain, x, i);
        assert log'[cuts[i]..cuts[i + 1]] == log[cuts[i]..cuts[i + 1]] && chain'[..i] == chain[..i];
      }
    }
  }

  lemma DialedAfter(log: seq<Attempt>, log': seq<Attempt>, spec: Spec, chain: seq<Id>, got: Option<Id>, x: Env)
    requires Linked(log, spec.jumps, chain, x) && log <= log'
    requires Tried(log'[|log|..], Normal(spec.addresses, x), Hop(chain), got)
    ensures Dialed(log', spec, chain, got, x)
  {
    assert log'[..|log|] == log;
    assert Targeted(log', |log|, spec, chain, got, x);
  }

  lemma ExhaustedBelow(before: seq<Attempt>, after: seq<Attempt>, start: nat, j: Jump, parent: Option<Id>,
                       error: Error, x: Env)
    requires Exhausted(before, after, j, parent, error, x) && start <= |before|
    ensures Exhausted(before[start..], after[start..], j, parent, error, x)
  {
    hide Tried, Normal, SetupError;
    assert after[start..][|before| - start..] == after[|before|..];
  }

  /** A hop that fails after the log of the answered ones breaks the chain. */
  lemma Breaks(all: seq<Attempt>, start: nat, log: seq<Attempt>, jumps: seq<Jump>, i: nat, chain: seq<Id>,
               cause: Error, x: Env)
    requires i < |jumps| && start + |log| <= |all| && log == all[start..start + |log|]
    requires Linked(log, jumps[..i], chain, x)
    requires Exhausted(all[..start + |log|], all, jumps[i], Hop(chain), cause, x)
    ensures Broken(all[start..], jumps, JumpFailed(jumps[i].user, cause), x)
  {
    var tail := all[start..];
    ExhaustedBelow(all[..start + |log|], all, start, jumps[i], Hop(chain), cause, x);
    hide Exhausted, Linked;
    assert all[..start + |log|][start..] == log && tail[..|log|] == log;
    assert BrokenAt(tail, |log|, jumps, i, chain, JumpFailed(jumps[i].user, cause), x);
  }

  // ------------------------------------ when an address answers or does not

  /** The answer to a dial depends on the address alone. */
  ghost predicate FixedAnswers(log: seq<Attempt>, answers: string -> bool) {
    forall k :: 0 <= k < |log| ==> (log[k].got.Some? <==> answers(log[k].addr))
  }

  function Addrs(log: seq<Attempt>): seq<string> {
    seq(|log|, k requires 0 <= k < |log| => log[k].addr)
  }

  predicate Answered(addrs: seq<string>, answers: string -> bool) {
    exists a :: a in addrs && answers(a)
  }

  /** The addresses up to the first that answers. */
  function Trial(addrs: seq<string>, answers: string -> bool): seq<string> {
    if addrs == [] then []
    else if answers(addrs[0]) then [addrs[0]]
    else [addrs[0]] + Trial(addrs[1..], answers)
  }

  function Trials(jumps: seq<Jump>, answers: string -> bool, x: Env): seq<string> {
    if jumps == [] then []
    else
      var n := |jumps| - 1;
      Trials(jumps[..n], answers, x) + Trial(Normal(jumps[n].addresses, x), answers)
  }

  ghost predicate AllAnswered(jumps: seq<Jump>, answers: string -> bool, x: Env) {
    forall i :: 0 <= i < |jumps| ==> Answered(Normal(jumps[i].addresses, x), answers)
  }

  /** A pass tries the addresses up to the first that answers, and fails exactly when none does. */
  lemma {:induction false} PassFindsFirst(log: seq<Attempt>, addrs: seq<string>, parent: Option<Id>, got: Option<Id>,
                                          answers: string -> bool)
    requires Tried(log, addrs, parent, got) && FixedAnswers(log, answers)
    ensures Addrs(log) == Trial(addrs, answers)
    ensures got.Some? <==> Answered(addrs, answers)
  {
    if log == [] {
      assert addrs == [];
    } else if answers(addrs[0]) {
      assert log[0].got.Some?;
    } else {
      PassFindsFirst(log[1..], addrs[1..], parent, got, answers);
      assert Addrs(log) == [addrs[0]] + Addrs(log[1..]);
      assert forall a :: a in addrs <==> a == addrs[0] || a in addrs[1..];
    }
  }

  lemma AddrsConcat(log: seq<Attempt>, cut: nat)
    requires cut <= |log|
    ensures Addrs(log) == Addrs(log[..cut]) + Addrs(log[cut..])
  {
  }

  /** A linked chain is what the first answering address of every hop makes of it. */
  lemma {:induction false} ChainFindsFirst(log: seq<Attempt>, cuts: seq<nat>, jumps: seq<Jump>, chain: seq<Id>,
                                           x: Env, answers: string -> bool)
    requires Passes(log, cuts, jumps, chain, x) && FixedAnswers(log, answers)
    ensures Addrs(log) == Trials(jumps, answers, x) && AllAnswered(jumps, answers, x)
    decreases |jumps|
  {
    if jumps != [] {
      var n := |jumps| - 1;
      PassesShrink(log, cuts, jumps, chain, x);
      hide Passes, Tried, Trial, Normal, Answered, Addrs, AllAnswered;
      ChainFindsFirst(log[..cuts[n]], cuts[..|cuts| - 1], jumps[..n], chain[..n], x, answers);
      PassFindsFirst(log[cuts[n]..], Normal(jumps[n].addresses, x), Hop(chain[..n]), Some(chain[n]), answers);
      AddrsConcat(log, cuts[n]);
      OneMoreAnswered(jumps, answers, x);
    } else {
      assert Addrs(log) == [];
    }
  }

  lemma OneMoreAnswered(jumps: seq<Jump>, answers: string -> bool, x: Env)
    requires jumps != [] && AllAnswered(jumps[..|jumps| - 1], answers, x)
    requires Answered(Normal(jumps[|jumps| - 1].addresses, x), answers)
    ensures AllAnswered(jumps, answers, x)
  {
    hide Normal, Answered;
    forall i | 0 <= i < |jumps| ensures Answered(Normal(jumps[i].addresses, x), answers) {
      if i < |jumps| - 1 {
        assert jumps[..|jumps| - 1][i] == jumps[i];
      }
    }
  }

  lemma PassesShrink(log: seq<Attempt>, cuts: seq<nat>, jumps: seq<Jump>, chain: seq<Id>, x: Env)
    requires Passes(log, cuts, jumps, chain, x) && jumps != []
    ensures
      var n := |jumps| - 1;
      && |cuts| == n + 2 && |chain| == n + 1 && cuts[n] <= |log|
      && Tried(log[cuts[n]..], Normal(jumps[n].addresses, x), Hop(chain[..n]), Some(chain[n]))
      && Passes(log[..cuts[n]], cuts[..|cuts| - 1], jumps[..n], chain[..n], x)
  {
    var n := |jumps| - 1;
    assert Pass(log, cuts, jumps, chain, x, n);
    assert log[cuts[n]..cuts[n + 1]] == log[cuts[n]..];
    CutsRise(log, cuts, jumps, chain, x, n);
    var log', cuts', jumps', chain' := log[..cuts[n]], cuts[..|cuts| - 1], jumps[..n], chain[..n];
    forall i | 0 <= i < n
      ensures Pass(log', cuts', jumps', chain', x, i)
    {
      assert Pass(log, cuts, jumps, chain, x, i);
      assert log'[cuts[i]..cuts[i + 1]] == log[cuts[i]..cuts[i + 1]] && chain'[..i] == chain[..i];
    }
  }

  lemma {:induction false} CutsRise(log: seq<Attempt>, cuts: seq<nat>, jumps: seq<Jump>, chain: seq<Id>, x: Env,
                                    n: nat)
    requires Passes(log, cuts, jumps, chain, x) && n <= |jumps|
    ensures forall i :: 0 <= i <= n ==> cuts[i] <= cuts[n]
  {
    if n > 0 {
      CutsRise(log, cuts, jumps, chain, x, n - 1);
      assert Pass(log, cuts, jumps, chain, x, n - 1);
    }
  }

  /** When the answer to a dial depends on the address alone, a dial that got as far as the target tried, hop by
      hop and then for the target, the addresses up to the first that answers; every hop has one, and the dial
      succeeded exactly when the target has. */
  lemma DialFindsFirst(log: seq<Attempt>, spec: Spec, chain: seq<Id>, got: Option<Id>, x: Env,
                       answers: string -> bool)
    requires Dialed(log, spec, chain, got, x) && FixedAnswers(log, answers)
    ensures Addrs(log) == Trials(spec.jumps, answers, x) + Trial(Normal(spec.addresses, x), answers)
    ensures AllAnswered(spec.jumps, answers, x)
    ensures got.Some? <==> Answered(Normal(spec.addresses, x), answers)
  {
    var cut: nat :| Targeted(log, cut, spec, chain, got, x);
    var cuts :| Passes(log[..cut], cuts, spec.jumps, chain, x);
    ChainFindsFirst(log[..cut], cuts, spec.jumps, chain, x, answers);
    PassFindsFirst(log[cut..], Normal(spec.addresses, x), Hop(chain), got, answers);
    AddrsConcat(log, cut);
  }

  /** A dial that broke at a hop tried the hops before it, which all have an address that answers; and all the
      addresses of that hop, none of which does, unless it could not dial at all. */
  lemma BreakFindsNone(log: seq<Attempt>, jumps: seq<Jump>, error: Error, x: Env, answers: string -> bool)
    returns (i: nat)
    requires Broken(log, jumps, error, x) && FixedAnswers(log, answers)
    ensures i < |jumps| && error.JumpFailed? && error.user == jumps[i].user && AllAnswered(jumps[..i], answers, x)
    ensures error.cause == DialFailed ==>
      && !Answered(Normal(jumps[i].addresses, x), answers)
      && Addrs(log) == Trials(jumps[..i], answers, x) + Normal(jumps[i].addresses, x)
    ensures error.cause != DialFailed ==> Addrs(log) == Trials(jumps[..i], answers, x)
  {
    var cut: nat, j: nat, chain :| BrokenAt(log, cut, jumps, j, chain, error, x);
    i := j;
    var cuts :| Passes(log[..cut], cuts, jumps[..i], chain, x);
    ChainFindsFirst(log[..cut], cuts, jumps[..i], chain, x, answers);
    AddrsConcat(log, cut);
    if error.cause == DialFailed {
      var addrs := Normal(jumps[i].addresses, x);
      PassFindsFirst(log[cut..], addrs, Hop(chain), None, answers);
      assert Addrs(log[cut..]) == addrs;
    }
  }
}

/**
  Scrubbing secrets from a connection spec.  The list of jump hosts is a slice: the
  copy that is scrubbed shares it with the live spec it was copied from.
*/
module Scrubbing {
  datatype Auth = Auth(keyPath: string, keyPassphrase: string, useAgent: bool, agentSocket: string, password: string)

  datatype Jump = Jump(user: string, addresses: seq<string>, auth: Auth)

  /** `b` is `a` with neither password nor passphrase, and otherwise the same. */
  predicate AuthScrubbed(a: Auth, b: Auth) {
    && b.password == "" && b.keyPassphrase == ""
    && b.keyPath == a.keyPath && b.useAgent == a.useAgent && b.agentSocket == a.agentSocket
  }

  predicate JumpScrubbed(j: Jump, k: Jump) {
    k.user == j.user && k.addresses == j.addresses && AuthScrubbed(j.auth, k.auth)
  }

  predicate JumpsScrubbed(jumps: seq<Jump>, out: seq<Jump>) {
    |out| == |jumps| && forall i :: 0 <= i < |jumps| ==> JumpScrubbed(jumps[i], out[i])
  }

  function ScrubAuth(a: Auth): (b: Auth)
    ensures AuthScrubbed(a, b)
  {
    a.(password := "", keyPassphrase := "")
  }

  predicate Secretless(a: Auth) {
    a.password == "" && a.keyPassphrase == ""
  }

  function ScrubJumps(jumps: seq<Jump>): (r: seq<Jump>)
    ensures JumpsScrubbed(jumps, r)
  {
    if jumps == [] then []
    else [jumps[0].(auth := ScrubAuth(jumps[0].auth))] + ScrubJumps(jumps[1..])
  }

  /** A spec as the program holds it: a copy of it copies the reference to the jump hosts. */
  datatype SpecRef = SpecRef(auth: Auth, jumps: array<Jump>)

  ghost predicate NoSecrets(spec: SpecRef)
    reads spec.jumps
  {
    Secretless(spec.auth) && forall i :: 0 <= i < spec.jumps.Length ==> Secretless(spec.jumps[i].auth)
  }

  /** The scrubbed copy holds no secret and differs in nothing else, and the live spec keeps
      its own secrets; but its jump hosts are left as they were exactly when none of them
      had a password or a passphrase. */
  method ScrubSSH(spec: SpecRef) returns (out: SpecRef)
    modifies spec.jumps
    ensures NoSecrets(out) && AuthScrubbed(spec.auth, out.auth)
    ensures out.jumps == spec.jumps && JumpsScrubbed(old(spec.jumps[..]), spec.jumps[..])
    ensures spec.jumps[..] == old(spec.jumps[..])
       <==> forall i :: 0 <= i < spec.jumps.Length ==> Secretless(old(spec.jumps[i].auth))
  {
    out := spec;
    out := out.(auth := out.auth.(password := ""));
    out := out.(auth := out.auth.(keyPassphrase := ""));
    for i := 0 to out.jumps.Length
      invariant forall k :: 0 <= k < i ==> out.jumps[k] == old(spec.jumps[k]).(auth := ScrubAuth(old(spec.jumps[k].auth)))
      invariant forall k :: i <= k < out.jumps.Length ==> out.jumps[k] == old(spec.jumps[k])
    {
      out.jumps[i] := out.jumps[i].(auth := out.jumps[i].auth.(password := ""));
      out.jumps[i] := out.jumps[i].(auth := out.jumps[i].auth.(keyPassphrase := ""));
    }
    ghost var before := old(spec.jumps[..]);
    forall k | 0 <= k < |before| && !Secretless(before[k].auth)
      ensures spec.jumps[..] != before
    {
      assert spec.jumps[..][k] != before[k];
    }
  }

  /** A jump host's password in a live session, before and after a scrubbed copy is made for the record. */
  method LivePasswordIsErased() returns (spec: SpecRef, before: string, after: string)
    ensures spec.jumps.Length == 1 && after == spec.jumps[0].auth.password
    ensures before != "" && after == ""
  {
    var jumps := new Jump[1](i => Jump("user", ["host"], Auth("", "", false, "", "secret")));
    spec := SpecRef(Auth("key", "", false, "", ""), jumps);
    before := spec.jumps[0].auth.password;
    var scrubbed := ScrubSSH(spec);
    after := spec.jumps[0].auth.password;
  }
}

/**
  Capturing the persistent state of the managers and restoring it.  Maps are walked
  in any order, and whether a dial or a listen succeeds is left open.
*/
module Snapshots {
  import opened Wrappers
  import opened Scrubbing

  datatype SshSpec = SshSpec(
    user: string, addresses: seq<string>, jumps: seq<Jump>, auth: Auth, persistent: bool, disableSSHConfig: bool)

  datatype DockerSpec = DockerSpec(host: string, keyPassphrase: string, password: string, persistent: bool)

  datatype LocalSpec = LocalSpec(bindAddr: string, bindPort: nat, remoteHost: string, remotePort: nat)
  datatype RemoteSpec = RemoteSpec(bindAddr: string, bindPort: nat, localHost: string, localPort: nat)
  datatype DynamicSpec = DynamicSpec(bindAddr: string, bindPort: nat)

  /** A forward's kind with the spec it was asked for; `port` is the one it got. */
  datatype Asked = Asked(
    kind: string, local: Option<LocalSpec>, remote: Option<RemoteSpec>, dynamic: Option<DynamicSpec>)

  datatype Forward = Forward(asked: Asked, port: nat)

  datatype Session = Session(spec: SshSpec, forwards: map<string, Forward>)

  datatype SessionRecord = SessionRecord(id: string, spec: SshSpec)
  datatype ForwardRecord = ForwardRecord(id: string, session: string, asked: Asked)
  datatype HostRecord = HostRecord(id: string, spec: DockerSpec)

  datatype Snapshot = Snapshot(sessions: seq<SessionRecord>, forwards: seq<ForwardRecord>, hosts: seq<HostRecord>)

  datatype Error = NoId | NoUser | Exists | NotFound | DialFailed | NotConnected | NoRemoteHost | ListenFailed
                 | MissingSpec | UnknownKind

  /** What ssh_config says of an address, and of the alias that is its host part: the address
      with Hostname and Port looked up, and for the alias its user, agent socket, key and jump hosts. */
  datatype SshConfig = SshConfig(
    alias: string -> string, address: string -> string, user: string -> string,
    agent: string -> Option<string>, key: string -> string, jumps: string -> seq<Jump>)

  /** The user's ssh_config and environment, and the network: which sessions and Docker hosts can be dialed,
      which sessions have a client, which forwards can listen, and on what port when any will do. */
  datatype World = World(
    config: SshConfig, user: string, dials: string -> bool, clients: string -> bool,
    listens: (string, string) -> bool, freePort: (string, string) -> nat, hosts: string -> bool)

  ghost predicate AllUp(world: World) {
    && (forall id :: world.dials(id) && world.clients(id) && world.hosts(id))
    && forall session, id :: world.listens(session, id)
  }

  const LOOPBACK := "127.0.0.1"

  // ---------------------------------------------------------------- records

  /** What is recorded of a spec: its jump hosts and itself scrubbed, and every other field as it is. */
  predicate SpecScrubbed(spec: SshSpec, out: SshSpec) {
    && out.user == spec.user && out.addresses == spec.addresses
    && out.persistent == spec.persistent && out.disableSSHConfig == spec.disableSSHConfig
    && AuthScrubbed(spec.auth, out.auth) && JumpsScrubbed(spec.jumps, out.jumps)
  }

  predicate DockerScrubbed(spec: DockerSpec, out: DockerSpec) {
    && out.password == "" && out.keyPassphrase == ""
    && out.host == spec.host && out.persistent == spec.persistent
  }

  function ScrubSSHSpec(spec: SshSpec): (out: SshSpec)
    ensures SpecScrubbed(spec, out)
  {
    spec.(auth := ScrubAuth(spec.auth), jumps := ScrubJumps(spec.jumps))
  }

  /** Nothing else is that spec scrubbed. */
  lemma OneScrubbed(spec: SshSpec, out: SshSpec)
    ensures SpecScrubbed(spec, out) <==> out == ScrubSSHSpec(spec)
  {
    if SpecScrubbed(spec, out) {
      var jumps := ScrubSSHSpec(spec).jumps;
      assert forall i :: 0 <= i < |jumps| ==>
        JumpScrubbed(spec.jumps[i], jumps[i]) && JumpScrubbed(spec.jumps[i], out.jumps[i]);
      assert out.jumps == jumps;
    }
  }

  function ScrubDocker(spec: DockerSpec): (out: DockerSpec)
    ensures DockerScrubbed(spec, out)
  {
    spec.(password := "", keyPassphrase := "")
  }

  predicate Clean(spec: SshSpec) {
    Secretless(spec.auth) && forall i :: 0 <= i < |spec.jumps| ==> Secretless(spec.jumps[i].auth)
  }

  /** The records that the persistent sessions and hosts call for. */
  predicate SessionDue(sessions: map<string, Session>, r: SessionRecord) {
    r.id in sessions && sessions[r.id].spec.persistent && SpecScrubbed(sessions[r.id].spec, r.spec)
  }

  predicate ForwardDue(sessions: map<string, Session>, r: ForwardRecord) {
    r.session in sessions && sessions[r.session].spec.persistent && Holds(sessions[r.session].forwards, r)
  }

  predicate Holds(forwards: map<string, Forward>, r: ForwardRecord) {
    r.id in forwards && r.asked == forwards[r.id].asked
  }

  predicate HostDue(hosts: map<string, DockerSpec>, r: HostRecord) {
    r.id in hosts && hosts[r.id].persistent && DockerScrubbed(hosts[r.id], r.spec)
  }

  /** An address that was left out is the loopback address. */
  predicate Default(asked: string, filled: string) {
    filled == if asked == "" then "127.0.0.1" else asked
  }

  predicate FilledLocal(a: LocalSpec, b: LocalSpec) {
    && Default(a.bindAddr, b.bindAddr)
    && b.bindPort == a.bindPort && b.remoteHost == a.remoteHost && b.remotePort == a.remotePort
  }

  predicate FilledRemote(a: RemoteSpec, b: RemoteSpec) {
    && Default(a.bindAddr, b.bindAddr) && Default(a.localHost, b.localHost)
    && b.bindPort == a.bindPort && b.localPort == a.localPort
  }

  /** What a forward is asked for once the defaults are filled in. */
  function Filled(a: Asked): (b: Asked)
    ensures a.kind == "local" && a.local.Some? ==>
      && b.kind == "local" && b.remote.None? && b.dynamic.None? && b.local.Some?
      && FilledLocal(a.local.value, b.local.value)
    ensures a.kind == "remote" && a.remote.Some? ==>
      && b.kind == "remote" && b.local.None? && b.dynamic.None? && b.remote.Some?
      && FilledRemote(a.remote.value, b.remote.value)
    ensures a.kind == "dynamic" && a.dynamic.Some? ==>
      && b.kind == "dynamic" && b.local.None? && b.remote.None? && b.dynamic.Some?
      && Default(a.dynamic.value.bindAddr, b.dynamic.value.bindAddr)
      && b.dynamic.value.bindPort == a.dynamic.value.bindPort
  {
    if a.kind == "local" && a.local.Some? then
      var s := a.local.value;
      Asked("local", Some(if s.bindAddr == "" then s.(bindAddr := LOOPBACK) else s), None, None)
    else if a.kind == "remote" && a.remote.Some? then
      var s := a.remote.value;
      var s1 := if s.bindAddr == "" then s.(bindAddr := LOOPBACK) else s;
      Asked("remote", None, Some(if s1.localHost == "" then s1.(localHost := LOOPBACK) else s1), None)
    else if a.kind == "dynamic" && a.dynamic.Some? then
      var s := a.dynamic.value;
      Asked("dynamic", None, None, Some(if s.bindAddr == "" then s.(bindAddr := LOOPBACK) else s))
    else a
  }

  /** The port a forward was asked to bind; 0 asks for any free one. */
  function AskedPort(a: Asked): nat {
    if a.kind == "local" && a.local.Some? then a.local.value.bindPort
    else if a.kind == "remote" && a.remote.Some? then a.remote.value.bindPort
    else if a.kind == "dynamic" && a.dynamic.Some? then a.dynamic.value.bindPort
    else 0
  }

  /** No way to authenticate is chosen. */
  predicate NoAuth(a: Auth) {
    a.keyPath == "" && !a.useAgent && a.password == ""
  }

  function FillAuth(a: Auth, alias: string, config: SshConfig): Auth {
    if !NoAuth(a) then a
    else if config.agent(alias).Some? then a.(useAgent := true, agentSocket := config.agent(alias).value)
    else a.(keyPath := config.key(alias))
  }

  /** ssh_config has something to say about the spec. */
  predicate Configured(spec: SshSpec, config: SshConfig) {
    !spec.disableSSHConfig && spec.addresses != [] && config.alias(spec.addresses[0]) != ""
  }

  /** The blanks of a spec filled in from ssh_config. */
  function FromConfig(spec: SshSpec, config: SshConfig): SshSpec {
    if !Configured(spec, config) then spec
    else
      var alias := config.alias(spec.addresses[0]);
      spec.(addresses := spec.addresses[0 := config.address(spec.addresses[0])],
            user := if spec.user == "" then config.user(alias) else spec.user,
            auth := FillAuth(spec.auth, alias, config),
            jumps := if spec.jumps == [] then config.jumps(alias) else spec.jumps)
  }

  /** A spec as Connect keeps it; without a user it is refused. */
  function Resolved(spec: SshSpec, world: World): SshSpec {
    var s := FromConfig(spec, world.config);
    if s.user == "" then s.(user := world.user) else s
  }

  /** What the caller set is kept, and each blank is filled in from the first place that has it. */
  lemma ResolvedFills(spec: SshSpec, world: World)
    ensures
      var out := Resolved(spec, world);
      && out.persistent == spec.persistent && out.disableSSHConfig == spec.disableSSHConfig
      && out.auth.password == spec.auth.password && out.auth.keyPassphrase == spec.auth.keyPassphrase
      && |out.addresses| == |spec.addresses|
      && (forall i :: 0 < i < |spec.addresses| ==> out.addresses[i] == spec.addresses[i])
      && (spec.user != "" ==> out.user == spec.user)
      && (spec.jumps != [] ==> out.jumps == spec.jumps)
      && (spec.auth.keyPath != "" || spec.auth.useAgent || spec.auth.password != "" ==> out.auth == spec.auth)
    ensures
      var out := Resolved(spec, world);
      if spec.disableSSHConfig || spec.addresses == [] || world.config.alias(spec.addresses[0]) == "" then
        out == spec.(user := if spec.user == "" then world.user else spec.user)
      else
        var alias := world.config.alias(spec.addresses[0]);
        && out.addresses[0] == world.config.address(spec.addresses[0])
        && (spec.user == "" ==>
              out.user == if world.config.user(alias) != "" then world.config.user(alias) else world.user)
        && (spec.jumps == [] ==> out.jumps == world.config.jumps(alias))
        && (spec.auth.keyPath == "" && !spec.auth.useAgent && spec.auth.password == "" ==>
              match world.config.agent(alias)
              case Some(socket) => out.auth.useAgent && out.auth.agentSocket == socket && out.auth.keyPath == ""
              case None => !out.auth.useAgent && out.auth.keyPath == world.config.key(alias)
                           && out.auth.agentSocket == spec.auth.agentSocket)
  {
  }

  /** What a forward that has been opened was asked for. */
  predicate Opened(a: Asked) {
    && Filled(a) == a
    && ((a.kind == "local" && a.local.Some? && a.local.value.remoteHost != "")
        || (a.kind == "remote" && a.remote.Some?)
        || (a.kind == "dynamic" && a.dynamic.Some?))
  }

  ghost predicate SessionOk(id: string, s: Session) {
    && id != "" && s.spec.user != ""
    && forall f :: f in s.forwards ==> Opened(s.forwards[f].asked)
  }

  ghost predicate SessionsOk(sessions: map<string, Session>) {
    forall id :: id in sessions ==> SessionOk(id, sessions[id])
  }

  /** Forward `f` has come to the session as `id`, and nothing else has changed. */
  ghost predicate Registered(
    before: map<string, Session>, after: map<string, Session>, session: string, id: string, f: Forward)
  {
    && session in before
    && after == before[session := before[session].(forwards := before[session].forwards[id := f])]
  }

  /** Opening a forward asked for as `a`: refused without effect, or registered with the defaults filled in
      and the requested port kept beside the one it got; refused only for want of a session with a client,
      of a sensible request, of a listener or of a free name. */
  ghost predicate Opens(
    before: map<string, Session>, after: map<string, Session>, session: string, id: string, a: Asked,
    world: World, r: Result<Forward, Error>)
  {
    && (r.Err? ==> after == before)
    && (r.Ok? <==> CanOpen(before, session, a, id, world) && id !in before[session].forwards)
    && (r.Ok? ==>
          && Registered(before, after, session, id, r.value)
          && r.value.asked == Filled(a)
          && r.value.port == if AskedPort(a) != 0 then AskedPort(a) else world.freePort(session, id))
  }

  predicate CanOpen(sessions: map<string, Session>, session: string, a: Asked, id: string, world: World) {
    session in sessions && world.clients(session) && Opened(Filled(a)) && world.listens(session, id)
  }

  // --------------------------------------------------------------- managers

  class SshManager {
    var sessions: map<string, Session>

    constructor ()
      ensures sessions == map[]
    {
      sessions := map[];
    }

    method Connect(id: string, spec: SshSpec, world: World) returns (error: Option<Error>)
      requires SessionsOk(sessions)
      modifies this
      ensures SessionsOk(sessions)
      ensures error.Some? ==> sessions == old(sessions)
      ensures error.None? ==> sessions == old(sessions)[id := Session(Resolved(spec, world), map[])]
      ensures error.None? <==>
        id != "" && Resolved(spec, world).user != "" && id !in old(sessions) && world.dials(id)
    {
      if id == "" {
        return Some(NoId);
      }
      var kept := Resolved(spec, world);
      if kept.user == "" {
        return Some(NoUser);
      }
      if id in sessions {
        return Some(Exists);
      }
      if !world.dials(id) {
        return Some(DialFailed);
      }
      sessions := sessions[id := Session(kept, map[])];
      error := None;
    }

    /** The session exists and has a client. */
    method Connected(session: string, world: World) returns (error: Option<Error>)
      ensures error.None? <==> session in sessions && world.clients(session)
    {
      if session !in sessions {
        return Some(NotFound);
      }
      error := if world.clients(session) then None else Some(NotConnected);
    }

    /** Listening on the port asked for, or on any free one, and registering the forward. */
    method Listen(session: string, id: string, asked: Asked, world: World) returns (r: Result<Forward, Error>)
      requires SessionsOk(sessions) && session in sessions && Opened(asked)
      modifies this
      ensures SessionsOk(sessions)
      ensures r.Err? ==> sessions == old(sessions)
      ensures r.Ok? <==> world.listens(session, id) && id !in old(sessions)[session].forwards
      ensures r.Ok? ==> Registered(old(sessions), sessions, session, id, r.value) && r.value.asked == asked
      ensures r.Ok? ==>
        r.value.port == if AskedPort(asked) != 0 then AskedPort(asked) else world.freePort(session, id)
    {
      if !world.listens(session, id) {
        return Err(ListenFailed);
      }
      var port := world.freePort(session, id);
      if AskedPort(asked) != 0 {
        port := AskedPort(asked);
      }
      var s := sessions[session];
      if id in s.forwards {
        return Err(Exists);
      }
      var f := Forward(asked, port);
      sessions := sessions[session := s.(forwards := s.forwards[id := f])];
      r := Ok(f);
    }

    method OpenLocal(session: string, id: string, spec: LocalSpec, world: World) returns (r: Result<Forward, Error>)
      requires SessionsOk(sessions)
      modifies this
      ensures SessionsOk(sessions)
      ensures Opens(old(sessions), sessions, session, id, Asked("local", Some(spec), None, None), world, r)
    {
      var error := Connected(session, world);
      if error.Some? {
        return Err(error.value);
      }
      var s := spec;
      if s.bindAddr == "" {
        s := s.(bindAddr := LOOPBACK);
      }
      if s.remoteHost == "" {
        return Err(NoRemoteHost);
      }
      r := Listen(session, id, Asked("local", Some(s), None, None), world);
    }

    method OpenRemote(session: string, id: string, spec: RemoteSpec, world: World) returns (r: Result<Forward, Error>)
      requires SessionsOk(sessions)
      modifies this
      ensures SessionsOk(sessions)
      ensures Opens(old(sessions), sessions, session, id, Asked("remote", None, Some(spec), None), world, r)
    {
      var error := Connected(session, world);
      if error.Some? {
        return Err(error.value);
      }
      var s := spec;
      if s.bindAddr == "" {
        s := s.(bindAddr := LOOPBACK);
      }
      if s.localHost == "" {
        s := s.(localHost := LOOPBACK);
      }
      r := Listen(session, id, Asked("remote", None, Some(s), None), world);
    }

    method OpenDynamic(session: string, id: string, spec: DynamicSpec, world: World) returns (r: Result<Forward, Error>)
      requires SessionsOk(sessions)
      modifies this
      ensures SessionsOk(sessions)
      ensures Opens(old(sessions), sessions, session, id, Asked("dynamic", None, None, Some(spec)), world, r)
    {
      var error := Connected(session, world);
      if error.Some? {
        return Err(error.value);
      }
      var s := spec;
      if s.bindAddr == "" {
        s := s.(bindAddr := LOOPBACK);
      }
      r := Listen(session, id, Asked("dynamic", None, None, Some(s)), world);
    }

    method RestoreForward(rec: ForwardRecord, world: World) returns (r: Result<Forward, Error>)
      requires SessionsOk(sessions)
      modifies this
      ensures SessionsOk(sessions)
      ensures Opens(old(sessions), sessions, rec.session, rec.id, rec.asked, world, r)
      ensures rec.asked.kind !in {"local", "remote", "dynamic"} ==> r == Err(UnknownKind)
    {
      var a := rec.asked;
      if a.kind == "local" {
        if a.local.None? {
          return Err(MissingSpec);
        }
        r := OpenLocal(rec.session, rec.id, a.local.value, world);
      } else if a.kind == "remote" {
        if a.remote.None? {
          return Err(MissingSpec);
        }
        r := OpenRemote(rec.session, rec.id, a.remote.value, world);
      } else if a.kind == "dynamic" {
        if a.dynamic.None? {
          return Err(MissingSpec);
        }
        r := OpenDynamic(rec.session, rec.id, a.dynamic.value, world);
      } else {
        r := Err(UnknownKind);
      }
    }
  }

  class DockerManager {
    var hosts: map<string, DockerSpec>

    constructor ()
      ensures hosts == map[]
    {
      hosts := map[];
    }

    method Connect(id: string, spec: DockerSpec, world: World) returns (error: Option<Error>)
      requires "" !in hosts
      modifies this
      ensures "" !in hosts
      ensures error.Some? ==> hosts == old(hosts)
      ensures error.None? ==> hosts == old(hosts)[id := spec]
      ensures error.None? <==> id != "" && id !in old(hosts) && world.hosts(id)
    {
      if id == "" {
        return Some(NoId);
      }
      if id in hosts {
        return Some(Exists);
      }
      if !world.hosts(id) {
        return Some(DialFailed);
      }
      hosts := hosts[id := spec];
      error := None;
    }
  }

  // ---------------------------------------------------------------- capture

  ghost predicate DistinctSessions(recs: seq<SessionRecord>) {
    forall i, j :: 0 <= i < j < |recs| ==> recs[i].id != recs[j].id
  }

  ghost predicate DistinctForwards(recs: seq<ForwardRecord>) {
    forall i, j :: 0 <= i < j < |recs| ==> recs[i].session != recs[j].session || recs[i].id != recs[j].id
  }

  ghost predicate DistinctHosts(recs: seq<HostRecord>) {
    forall i, j :: 0 <= i < j < |recs| ==> recs[i].id != recs[j].id
  }

  /** The live session after its jump hosts were scrubbed through the shared slice. */
  function Touched(s: Session): Session {
    if s.spec.persistent then s.(spec := s.spec.(jumps := ScrubJumps(s.spec.jumps))) else s
  }

  function TouchedBut(sessions: map<string, Session>, left: set<string>): map<string, Session> {
    map id | id in sessions :: if id in left then sessions[id] else Touched(sessions[id])
  }

  lemma OneMoreTouched(sessions: map<string, Session>, left: set<string>, id: string)
    requires id in left && left <= sessions.Keys
    ensures id in TouchedBut(sessions, left) && TouchedBut(sessions, left)[id] == sessions[id]
    ensures TouchedBut(sessions, left - {id})
         == if sessions[id].spec.persistent then TouchedBut(sessions, left)[id := Touched(sessions[id])]
            else TouchedBut(sessions, left)
  {
  }

  method CaptureForwards(id: string, forwards: map<string, Forward>) returns (recs: seq<ForwardRecord>)
    ensures forall r :: r in recs <==> r.session == id && Holds(forwards, r)
    ensures DistinctForwards(recs)
  {
    recs := [];
    var left := forwards.Keys;
    while left != {}
      invariant left <= forwards.Keys
      invariant forall r :: r in recs <==> r.session == id && r.id !in left && Holds(forwards, r)
      invariant DistinctForwards(recs)
      decreases |left|
    {
      var f :| f in left;
      assert forall i :: 0 <= i < |recs| ==> recs[i] in recs;
      recs := recs + [ForwardRecord(f, id, forwards[f].asked)];
      left := left - {f};
    }
  }

  method CaptureSessions(ssh: SshManager) returns (recs: seq<SessionRecord>, forwards: seq<ForwardRecord>)
    modifies ssh
    ensures forall r :: r in recs <==> SessionDue(old(ssh.sessions), r)
    ensures forall r :: r in forwards <==> ForwardDue(old(ssh.sessions), r)
    ensures DistinctSessions(recs) && DistinctForwards(forwards)
    ensures ssh.sessions == TouchedBut(old(ssh.sessions), {})
  {
    hide ScrubSSHSpec, SpecScrubbed, Holds, Touched;
    recs, forwards := [], [];
    ghost var sessions := ssh.sessions;
    assert sessions == TouchedBut(sessions, sessions.Keys);
    var left := ssh.sessions.Keys;
    while left != {}
      invariant left <= sessions.Keys
      invariant forall r :: r in recs <==> r.id !in left && SessionDue(sessions, r)
      invariant forall r :: r in forwards <==> r.session !in left && ForwardDue(sessions, r)
      invariant DistinctSessions(recs) && DistinctForwards(forwards)
      invariant ssh.sessions == TouchedBut(sessions, left)
      decreases |left|
    {
      var id :| id in left;
      OneMoreTouched(sessions, left, id);
      var s := ssh.sessions[id];
      left := left - {id};
      if !s.spec.persistent {
        continue;
      }
      assert forall i :: 0 <= i < |recs| ==> recs[i] in recs;
      assert forall i :: 0 <= i < |forwards| ==> forwards[i] in forwards;
      forall out ensures SpecScrubbed(s.spec, out) <==> out == ScrubSSHSpec(s.spec) {
        OneScrubbed(s.spec, out);
      }
      recs := recs + [SessionRecord(id, ScrubSSHSpec(s.spec))];
      ssh.sessions := ssh.sessions[id := Touched(s)];
      var more := CaptureForwards(id, s.forwards);
      assert forall i :: 0 <= i < |more| ==> more[i] in more;
      forwards := forwards + more;
    }
  }

  method CaptureHosts(dk: DockerManager) returns (recs: seq<HostRecord>)
    ensures forall r :: r in recs <==> HostDue(dk.hosts, r)
    ensures DistinctHosts(recs)
  {
    recs := [];
    var left := dk.hosts.Keys;
    while left != {}
      invariant left <= dk.hosts.Keys
      invariant forall r :: r in recs <==> r.id !in left && HostDue(dk.hosts, r)
      invariant DistinctHosts(recs)
      decreases |left|
    {
      var id :| id in left;
      left := left - {id};
      if !dk.hosts[id].persistent {
        continue;
      }
      assert forall i :: 0 <= i < |recs| ==> recs[i] in recs;
      recs := recs + [HostRecord(id, ScrubDocker(dk.hosts[id]))];
    }
  }

  /** No record carries a secret, and every forward names a recorded session. */
  ghost predicate Tidy(snap: Snapshot) {
    && (forall r :: r in snap.sessions ==> Clean(r.spec) && r.spec.persistent)
    && (forall r :: r in snap.hosts ==> r.spec.password == "" && r.spec.keyPassphrase == "" && r.spec.persistent)
    && (forall r :: r in snap.forwards ==> exists q :: q in snap.sessions && q.id == r.session)
    && DistinctSessions(snap.sessions) && DistinctForwards(snap.forwards) && DistinctHosts(snap.hosts)
  }

  /** Exactly the records due, each once and without secrets. */
  ghost predicate Captured(snap: Snapshot, sessions: map<string, Session>, hosts: map<string, DockerSpec>) {
    && Tidy(snap)
    && (forall r :: r in snap.sessions <==> SessionDue(sessions, r))
    && (forall r :: r in snap.forwards <==> ForwardDue(sessions, r))
    && (forall r :: r in snap.hosts <==> HostDue(hosts, r))
  }

  method Capture(ssh: SshManager, dk: DockerManager) returns (snap: Snapshot)
    modifies ssh
    ensures Captured(snap, old(ssh.sessions), dk.hosts)
    ensures ssh.sessions == TouchedBut(old(ssh.sessions), {})
  {
    ghost var sessions := ssh.sessions;
    var recs, forwards := CaptureSessions(ssh);
    var hosts := CaptureHosts(dk);
    snap := Snapshot(recs, forwards, hosts);
    forall r | r in forwards
      ensures exists q :: q in recs && q.id == r.session
    {
      assert SessionDue(sessions, SessionRecord(r.session, ScrubSSHSpec(sessions[r.session].spec)));
    }
  }

  // ---------------------------------------------------------------- restore

  predicate SessionLive(sessions: map<string, Session>, r: SessionRecord) {
    r.id in sessions && r.spec == sessions[r.id].spec
  }

  predicate ForwardLive(sessions: map<string, Session>, r: ForwardRecord) {
    r.session in sessions && Holds(sessions[r.session].forwards, r)
  }

  predicate HostLive(hosts: map<string, DockerSpec>, r: HostRecord) {
    r.id in hosts && r.spec == hosts[r.id]
  }

  /** The records with their specs as Connect keeps them. */
  function Kept(recs: seq<SessionRecord>, world: World): (kept: seq<SessionRecord>)
    ensures |kept| == |recs|
    ensures forall i :: 0 <= i < |recs| ==> kept[i] == SessionRecord(recs[i].id, Resolved(recs[i].spec, world))
  {
    seq(|recs|, i requires 0 <= i < |recs| => SessionRecord(recs[i].id, Resolved(recs[i].spec, world)))
  }

  /** The records with the defaults of their requests filled in. */
  function KeptForwards(recs: seq<ForwardRecord>): (kept: seq<ForwardRecord>)
    ensures |kept| == |recs|
    ensures forall i :: 0 <= i < |recs| ==> kept[i] == recs[i].(asked := Filled(recs[i].asked))
  {
    seq(|recs|, i requires 0 <= i < |recs| => recs[i].(asked := Filled(recs[i].asked)))
  }

  /** Connect does not refuse the record, kept as `r`, when no session has its id. */
  predicate Comes(r: SessionRecord, world: World) {
    r.id != "" && r.spec.user != "" && world.dials(r.id)
  }

  /** The sessions are those of the records that come, and have no forwards. */
  ghost predicate SessionsBack(sessions: map<string, Session>, kept: seq<SessionRecord>, world: World) {
    && (forall r :: SessionLive(sessions, r) <==> r in kept && Comes(r, world))
    && (forall id :: id in sessions ==> sessions[id].forwards == map[])
  }

  lemma NextIsNew(sessions: map<string, Session>, recs: seq<SessionRecord>, i: nat, world: World)
    requires i < |recs| && DistinctSessions(recs) && SessionsBack(sessions, recs[..i], world)
    ensures recs[i].id !in sessions
  {
    if recs[i].id in sessions {
      var r := SessionRecord(recs[i].id, sessions[recs[i].id].spec);
      assert SessionLive(sessions, r);
    }
  }

  lemma NoneYet(recs: seq<SessionRecord>, kept: seq<SessionRecord>, world: World)
    ensures SessionsBack(map[], kept[..0], world) && FromRecords(map[], recs[..0], world)
  {
  }

  lemma SessionComesBack(
    before: map<string, Session>, after: map<string, Session>, recs: seq<SessionRecord>, i: nat, world: World)
    requires i < |recs| && SessionsBack(before, recs[..i], world) && recs[i].id !in before
    requires after == if Comes(recs[i], world) then before[recs[i].id := Session(recs[i].spec, map[])] else before
    ensures SessionsBack(after, recs[..i + 1], world)
  {
    assert recs[..i + 1] == recs[..i] + [recs[i]];
    forall r
      ensures SessionLive(after, r) <==> SessionLive(before, r) || (r == recs[i] && Comes(r, world))
    {
    }
  }

  /** Every session comes from a record, as Connect resolved it. */
  ghost predicate FromRecords(sessions: map<string, Session>, recs: seq<SessionRecord>, world: World) {
    forall id :: id in sessions ==> exists r :: r in recs && r.id == id && sessions[id].spec == Resolved(r.spec, world)
  }

  lemma FromMoreRecords(
    before: map<string, Session>, after: map<string, Session>, recs: seq<SessionRecord>, i: nat, world: World)
    requires i < |recs| && FromRecords(before, recs[..i], world)
    requires after == before || after == before[recs[i].id := Session(Resolved(recs[i].spec, world), map[])]
    ensures FromRecords(after, recs[..i + 1], world)
  {
    assert recs[..i + 1] == recs[..i] + [recs[i]];
    forall id | id in after
      ensures exists r :: r in recs[..i + 1] && r.id == id && after[id].spec == Resolved(r.spec, world)
    {
      if after != before && id == recs[i].id {
        assert recs[i] in recs[..i + 1];
      } else {
        var r :| r in recs[..i] && r.id == id && before[id].spec == Resolved(r.spec, world);
        assert r in recs[..i + 1];
      }
    }
  }

  method RestoreSessions(recs: seq<SessionRecord>, ssh: SshManager, world: World) returns (good: nat, bad: nat)
    requires SessionsOk(ssh.sessions)
    modifies ssh
    ensures SessionsOk(ssh.sessions) && good + bad == |recs|
    ensures old(ssh.sessions) == map[] ==> |ssh.sessions| == good && FromRecords(ssh.sessions, recs, world)
    ensures old(ssh.sessions) == map[] && DistinctSessions(recs) ==> SessionsBack(ssh.sessions, Kept(recs, world), world)
    ensures old(ssh.sessions) == map[] && DistinctSessions(recs) ==>
      (bad == 0 <==> forall r :: r in Kept(recs, world) ==> Comes(r, world))
  {
    hide FromRecords, SessionsBack, SessionsOk, DistinctSessions;
    good, bad := 0, 0;
    ghost var empty := ssh.sessions == map[];
    ghost var kept := Kept(recs, world);
    ghost var anew := empty && DistinctSessions(recs);
    NoneYet(recs, kept, world);
    for i := 0 to |recs|
      invariant SessionsOk(ssh.sessions) && good + bad == i
      invariant empty ==> |ssh.sessions| == good && FromRecords(ssh.sessions, recs[..i], world)
      invariant anew ==> SessionsBack(ssh.sessions, kept[..i], world)
      invariant anew ==> (bad == 0 <==> forall k :: 0 <= k < i ==> Comes(kept[k], world))
    {
      ghost var before := ssh.sessions;
      if anew {
        SameIds(recs, world);
        NextIsNew(before, kept, i, world);
      }
      var error := ssh.Connect(recs[i].id, recs[i].spec, world);
      if error.Some? {
        bad := bad + 1;
      } else {
        good := good + 1;
      }
      if empty {
        FromMoreRecords(before, ssh.sessions, recs, i, world);
      }
      if anew {
        SessionComesBack(before, ssh.sessions, kept, i, world);
      }
    }
    assert recs[..|recs|] == recs && kept[..|recs|] == kept;
  }

  lemma SameIds(recs: seq<SessionRecord>, world: World)
    requires DistinctSessions(recs)
    ensures DistinctSessions(Kept(recs, world))
  {
  }

  /** The forwards are those of the records that can be opened. */
  ghost predicate ForwardsBack(sessions: map<string, Session>, kept: seq<ForwardRecord>, world: World) {
    forall r :: ForwardLive(sessions, r) <==> r in kept && CanOpen(sessions, r.session, r.asked, r.id, world)
  }

  ghost predicate SameSpecs(before: map<string, Session>, after: map<string, Session>) {
    before.Keys == after.Keys && forall id :: id in before ==> before[id].spec == after[id].spec
  }

  lemma NextForwardIsNew(sessions: map<string, Session>, recs: seq<ForwardRecord>, i: nat, world: World)
    requires i < |recs| && DistinctForwards(recs) && ForwardsBack(sessions, recs[..i], world)
    requires recs[i].session in sessions
    ensures recs[i].id !in sessions[recs[i].session].forwards
  {
    var forwards := sessions[recs[i].session].forwards;
    if recs[i].id in forwards {
      var r := ForwardRecord(recs[i].id, recs[i].session, forwards[recs[i].id].asked);
      assert ForwardLive(sessions, r);
    }
  }

  lemma FilledTwice(a: Asked)
    ensures Filled(Filled(a)) == Filled(a)
  {
  }

  lemma ForwardComesBack(
    before: map<string, Session>, after: map<string, Session>, kept: seq<ForwardRecord>, i: nat, a: Asked,
    world: World, r: Result<Forward, Error>)
    requires i < |kept| && ForwardsBack(before, kept[..i], world) && kept[i].asked == Filled(a)
    requires Opens(before, after, kept[i].session, kept[i].id, a, world, r)
    requires kept[i].session in before ==> kept[i].id !in before[kept[i].session].forwards
    ensures ForwardsBack(after, kept[..i + 1], world) && SameSpecs(before, after)
    ensures r.Ok? <==> CanOpen(before, kept[i].session, kept[i].asked, kept[i].id, world)
  {
    hide Filled, AskedPort, Opened;
    FilledTwice(a);
    assert kept[..i + 1] == kept[..i] + [kept[i]];
    forall q
      ensures ForwardLive(after, q) <==> ForwardLive(before, q) || (q == kept[i] && r.Ok?)
    {
    }
  }

  lemma NoForwardsYet(sessions: map<string, Session>, kept: seq<ForwardRecord>, world: World)
    requires forall r :: !ForwardLive(sessions, r)
    ensures ForwardsBack(sessions, kept[..0], world)
  {
  }

  method RestoreForwards(recs: seq<ForwardRecord>, ssh: SshManager, world: World) returns (good: nat, bad: nat)
    requires SessionsOk(ssh.sessions)
    modifies ssh
    ensures SessionsOk(ssh.sessions) && good + bad == |recs| && SameSpecs(old(ssh.sessions), ssh.sessions)
    ensures (DistinctForwards(recs) && forall r :: !ForwardLive(old(ssh.sessions), r)) ==>
      && ForwardsBack(ssh.sessions, KeptForwards(recs), world)
      && (bad == 0 <==>
            forall r :: r in KeptForwards(recs) ==> CanOpen(old(ssh.sessions), r.session, r.asked, r.id, world))
  {
    hide ForwardsBack, Opens, CanOpen, Filled, SessionsOk, DistinctForwards;
    good, bad := 0, 0;
    ghost var sessions := ssh.sessions;
    ghost var kept := KeptForwards(recs);
    ghost var anew := DistinctForwards(recs) && forall r :: !ForwardLive(sessions, r);
    if anew {
      SameNames(recs);
      NoForwardsYet(sessions, kept, world);
    }
    for i := 0 to |recs|
      invariant SessionsOk(ssh.sessions) && good + bad == i && SameSpecs(sessions, ssh.sessions)
      invariant anew ==> ForwardsBack(ssh.sessions, kept[..i], world)
      invariant anew ==>
        (bad == 0 <==>
           forall k :: 0 <= k < i ==> CanOpen(sessions, kept[k].session, kept[k].asked, kept[k].id, world))
    {
      ghost var before := ssh.sessions;
      if anew && kept[i].session in before {
        NextForwardIsNew(before, kept, i, world);
      }
      var r := ssh.RestoreForward(recs[i], world);
      if r.Err? {
        bad := bad + 1;
      } else {
        good := good + 1;
      }
      OpensKeepsSpecs(before, ssh.sessions, recs[i], world, r);
      if anew {
        ForwardComesBack(before, ssh.sessions, kept, i, recs[i].asked, world, r);
        SameCanOpen(sessions, before, kept[i], world);
      }
    }
    assert recs[..|recs|] == recs && kept[..|recs|] == kept;
  }

  lemma SameNames(recs: seq<ForwardRecord>)
    requires DistinctForwards(recs)
    ensures DistinctForwards(KeptForwards(recs))
  {
  }

  lemma OpensKeepsSpecs(
    before: map<string, Session>, after: map<string, Session>, rec: ForwardRecord, world: World, r: Result<Forward, Error>)
    requires Opens(before, after, rec.session, rec.id, rec.asked, world, r)
    ensures SameSpecs(before, after)
  {
  }

  lemma SameCanOpen(before: map<string, Session>, after: map<string, Session>, r: ForwardRecord, world: World)
    requires SameSpecs(before, after)
    ensures CanOpen(before, r.session, r.asked, r.id, world) <==> CanOpen(after, r.session, r.asked, r.id, world)
  {
  }

  ghost predicate HostsBack(hosts: map<string, DockerSpec>, recs: seq<HostRecord>, world: World) {
    forall r :: HostLive(hosts, r) <==> r in recs && r.id != "" && world.hosts(r.id)
  }

  lemma NextHostIsNew(hosts: map<string, DockerSpec>, recs: seq<HostRecord>, i: nat, world: World)
    requires i < |recs| && DistinctHosts(recs) && HostsBack(hosts, recs[..i], world)
    ensures recs[i].id !in hosts
  {
    if recs[i].id in hosts {
      var r := HostRecord(recs[i].id, hosts[recs[i].id]);
      assert HostLive(hosts, r);
    }
  }

  method RestoreHosts(recs: seq<HostRecord>, dk: DockerManager, world: World) returns (good: nat, bad: nat)
    requires "" !in dk.hosts
    modifies dk
    ensures "" !in dk.hosts && good + bad == |recs|
    ensures old(dk.hosts) == map[] && DistinctHosts(recs) ==>
      && HostsBack(dk.hosts, recs, world)
      && (bad == 0 <==> forall r :: r in recs ==> r.id != "" && world.hosts(r.id))
  {
    good, bad := 0, 0;
    ghost var anew := dk.hosts == map[] && DistinctHosts(recs);
    for i := 0 to |recs|
      invariant "" !in dk.hosts && good + bad == i
      invariant anew ==> HostsBack(dk.hosts, recs[..i], world)
      invariant anew ==> (bad == 0 <==> forall k :: 0 <= k < i ==> recs[k].id != "" && world.hosts(recs[k].id))
    {
      if anew {
        NextHostIsNew(dk.hosts, recs, i, world);
      }
      var error := dk.Connect(recs[i].id, recs[i].spec, world);
      if error.Some? {
        bad := bad + 1;
      } else {
        good := good + 1;
      }
      assert recs[..i + 1] == recs[..i] + [recs[i]];
    }
    assert recs[..|recs|] == recs;
  }

  lemma SameSpecsFrom(before: map<string, Session>, after: map<string, Session>, recs: seq<SessionRecord>, world: World)
    requires SameSpecs(before, after)
    ensures |before| == |after| && (FromRecords(before, recs, world) ==> FromRecords(after, recs, world))
  {
    assert |before| == |before.Keys| && |after| == |after.Keys|;
  }

  datatype Counts = Counts(
    sessionsOk: nat, sessionsBad: nat, forwardsOk: nat, forwardsBad: nat, hostsOk: nat, hostsBad: nat)

  /** No two records of the snapshot are for the same thing. */
  ghost predicate Distinct(snap: Snapshot) {
    DistinctSessions(snap.sessions) && DistinctForwards(snap.forwards) && DistinctHosts(snap.hosts)
  }

  /** The managers hold exactly the records that come back in this world: a session when it can be dialed, each
      spec as Connect keeps it; a forward when its session has come back and it can be opened there, with the
      defaults filled in; and a host when it can be dialed. */
  ghost predicate Restored(
    snap: Snapshot, sessions: map<string, Session>, hosts: map<string, DockerSpec>, world: World)
  {
    && (forall r :: SessionLive(sessions, r) <==> r in Kept(snap.sessions, world) && Comes(r, world))
    && (forall r :: ForwardLive(sessions, r) <==>
          r in KeptForwards(snap.forwards) && CanOpen(sessions, r.session, r.asked, r.id, world))
    && (forall r :: HostLive(hosts, r) <==> r in snap.hosts && r.id != "" && world.hosts(r.id))
  }

  lemma NothingOpen(sessions: map<string, Session>, kept: seq<SessionRecord>, world: World)
    requires SessionsBack(sessions, kept, world)
    ensures forall r :: !ForwardLive(sessions, r)
  {
  }

  lemma AllBack(
    snap: Snapshot, middle: map<string, Session>, sessions: map<string, Session>,
    hosts: map<string, DockerSpec>, world: World)
    requires SessionsBack(middle, Kept(snap.sessions, world), world) && SameSpecs(middle, sessions)
    requires ForwardsBack(sessions, KeptForwards(snap.forwards), world) && HostsBack(hosts, snap.hosts, world)
    ensures Restored(snap, sessions, hosts, world)
  {
    hide Kept, KeptForwards, CanOpen;
    forall r
      ensures SessionLive(middle, r) <==> SessionLive(sessions, r)
    {
    }
  }

  /** No record of the snapshot fails to come back. */
  ghost predicate NoneLost(snap: Snapshot, sessions: map<string, Session>, world: World) {
    && (forall r :: r in Kept(snap.sessions, world) ==> Comes(r, world))
    && (forall r :: r in KeptForwards(snap.forwards) ==> CanOpen(sessions, r.session, r.asked, r.id, world))
    && (forall r :: r in snap.hosts ==> r.id != "" && world.hosts(r.id))
  }

  lemma SameLost(before: map<string, Session>, after: map<string, Session>, kept: seq<ForwardRecord>, world: World)
    requires SameSpecs(before, after)
    ensures (forall r :: r in kept ==> CanOpen(before, r.session, r.asked, r.id, world))
       <==> (forall r :: r in kept ==> CanOpen(after, r.session, r.asked, r.id, world))
  {
    hide SameSpecs, CanOpen;
    forall r: ForwardRecord
      ensures CanOpen(before, r.session, r.asked, r.id, world) <==> CanOpen(after, r.session, r.asked, r.id, world)
    {
      SameCanOpen(before, after, r, world);
    }
  }

  method Restore(snap: Snapshot, ssh: SshManager, dk: DockerManager, world: World) returns (counts: Counts)
    requires SessionsOk(ssh.sessions) && "" !in dk.hosts
    modifies ssh, dk
    ensures SessionsOk(ssh.sessions) && "" !in dk.hosts
    ensures counts.sessionsOk + counts.sessionsBad == |snap.sessions|
    ensures counts.forwardsOk + counts.forwardsBad == |snap.forwards|
    ensures counts.hostsOk + counts.hostsBad == |snap.hosts|
    ensures old(ssh.sessions) == map[] ==>
      |ssh.sessions| == counts.sessionsOk && FromRecords(ssh.sessions, snap.sessions, world)
    ensures old(ssh.sessions) == map[] && old(dk.hosts) == map[] && Distinct(snap) ==>
      && Restored(snap, ssh.sessions, dk.hosts, world)
      && (counts.sessionsBad == counts.forwardsBad == counts.hostsBad == 0 <==> NoneLost(snap, ssh.sessions, world))
  {
    hide FromRecords, SessionsOk, SameSpecs, Kept, KeptForwards, Resolved, DistinctSessions, DistinctForwards;
    hide DistinctHosts, SessionsBack, ForwardsBack, HostsBack, Restored, CanOpen, Comes;
    ghost var anew := ssh.sessions == map[] && dk.hosts == map[] && Distinct(snap);
    var sessionsOk, sessionsBad := RestoreSessions(snap.sessions, ssh, world);
    ghost var middle := ssh.sessions;
    if anew {
      NothingOpen(middle, Kept(snap.sessions, world), world);
    }
    var forwardsOk, forwardsBad := RestoreForwards(snap.forwards, ssh, world);
    SameSpecsFrom(middle, ssh.sessions, snap.sessions, world);
    var hostsOk, hostsBad := RestoreHosts(snap.hosts, dk, world);
    if anew {
      AllBack(snap, middle, ssh.sessions, dk.hosts, world);
      SameLost(middle, ssh.sessions, KeptForwards(snap.forwards), world);
    }
    counts := Counts(sessionsOk, sessionsBad, forwardsOk, forwardsBad, hostsOk, hostsBad);
  }

  // ------------------------------------------------------------- a restart

  lemma ScrubTwice(spec: SshSpec)
    ensures ScrubSSHSpec(ScrubSSHSpec(spec)) == ScrubSSHSpec(spec)
  {
    var once := ScrubJumps(spec.jumps);
    assert ScrubJumps(once) == once;
  }

  /** A record as it is captured again after it has come back. */
  function Again(r: SessionRecord, world: World): SessionRecord {
    SessionRecord(r.id, ScrubSSHSpec(Resolved(r.spec, world)))
  }

  /** ssh_config adds nothing to a spec: it leaves the first address alone, and has neither an
      agent nor a key for a spec without authentication, nor jump hosts for one without any. */
  predicate Steady(spec: SshSpec, config: SshConfig) {
    Configured(spec, config) ==>
      && config.address(spec.addresses[0]) == spec.addresses[0]
      && var alias := config.alias(spec.addresses[0]);
      && (NoAuth(spec.auth) ==> config.agent(alias).None? && config.key(alias) == "")
      && (spec.jumps == [] ==> config.jumps(alias) == [])
  }

  lemma SteadyExactly(r: SessionRecord, world: World)
    requires r.spec.user != "" && ScrubSSHSpec(r.spec) == r.spec
    ensures Again(r, world) == r <==> Steady(r.spec, world.config)
  {
    if Configured(r.spec, world.config) {
      assert Again(r, world).spec.addresses[0] == world.config.address(r.spec.addresses[0]);
      assert |Again(r, world).spec.jumps| == |Resolved(r.spec, world).jumps|;
    }
  }

  /** A session that had only a password, and that ssh_config added nothing to, comes back with the
      key that ssh_config has for its host: without the password the record chooses no authentication. */
  lemma PasswordBecomesKey(user: string, host: string, password: string, key: string)
    returns (live: SshSpec, world: World)
    requires user != "" && host != "" && password != "" && key != ""
    ensures live.user == user && live.addresses == [host] && live.auth == Auth("", "", false, "", password)
    ensures live.persistent && Resolved(live, world) == live
    ensures !Steady(ScrubSSHSpec(live), world.config)
    ensures forall id :: Again(SessionRecord(id, ScrubSSHSpec(live)), world).spec.auth.keyPath == key
  {
    live := SshSpec(user, [host], [], Auth("", "", false, "", password), true, false);
    var config := SshConfig(a => a, a => a, a => "", a => None, a => key, a => []);
    world := World(config, "", a => true, a => true, (a, b) => true, (a, b) => 0, a => true);
    assert Resolved(live, world).addresses == live.addresses;
  }

  /** The managers hold what the snapshot says, each spec as Connect keeps it, and nothing else. */
  ghost predicate Mirrors(
    snap: Snapshot, sessions: map<string, Session>, hosts: map<string, DockerSpec>, world: World)
  {
    && (forall r :: SessionLive(sessions, r) <==> r in Kept(snap.sessions, world))
    && (forall r :: ForwardLive(sessions, r) <==> r in snap.forwards)
    && (forall r :: HostLive(hosts, r) <==> r in snap.hosts)
  }

  /** A snapshot with nothing in it that would be refused. */
  ghost predicate Whole(snap: Snapshot, world: World) {
    && (forall r :: r in Kept(snap.sessions, world) ==> r.id != "" && r.spec.user != "")
    && (forall r :: r in snap.forwards ==> Opened(r.asked))
    && (forall r :: r in snap.hosts ==> r.id != "")
  }

  /** With everything up a whole snapshot comes back whole. */
  lemma AllComesBack(snap: Snapshot, sessions: map<string, Session>, hosts: map<string, DockerSpec>, world: World)
    requires AllUp(world) && Tidy(snap) && Whole(snap, world) && Restored(snap, sessions, hosts, world)
    ensures Mirrors(snap, sessions, hosts, world) && NoneLost(snap, sessions, world)
  {
    hide Resolved, Filled, Clean;
    var kept := Kept(snap.sessions, world);
    FilledAlready(snap.forwards);
    assert forall r :: SessionLive(sessions, r) <==> r in kept;
    forall r | r in snap.forwards
      ensures r.session in sessions
    {
      var k :| 0 <= k < |snap.sessions| && snap.sessions[k].id == r.session;
      assert kept[k] in kept && SessionLive(sessions, kept[k]);
    }
    forall r | r in snap.forwards
      ensures CanOpen(sessions, r.session, r.asked, r.id, world)
    {
      assert Opened(r.asked) && Filled(r.asked) == r.asked;
    }
  }

  lemma FilledAlready(recs: seq<ForwardRecord>)
    requires forall r :: r in recs ==> Opened(r.asked)
    ensures KeptForwards(recs) == recs
  {
    hide Filled;
    forall i | 0 <= i < |recs| ensures KeptForwards(recs)[i] == recs[i] {
      assert recs[i] in recs;
    }
  }

  lemma CameBack(
    snap: Snapshot, sessions: map<string, Session>, hosts: map<string, DockerSpec>, q: SessionRecord, world: World)
    requires q in snap.sessions && Mirrors(snap, sessions, hosts, world)
    ensures q.id in sessions && sessions[q.id].spec == Resolved(q.spec, world)
    ensures Resolved(q.spec, world).persistent == q.spec.persistent
  {
    var kept := Kept(snap.sessions, world);
    var k :| 0 <= k < |kept| && snap.sessions[k] == q;
    assert kept[k] in kept;
    assert SessionLive(sessions, kept[k]);
  }

  lemma CameFrom(
    snap: Snapshot, sessions: map<string, Session>, hosts: map<string, DockerSpec>, id: string, world: World)
    requires id in sessions && Mirrors(snap, sessions, hosts, world)
    ensures exists q :: q in snap.sessions && q.id == id && sessions[id].spec == Resolved(q.spec, world)
  {
    var r := SessionRecord(id, sessions[id].spec);
    assert SessionLive(sessions, r);
    var k :| 0 <= k < |snap.sessions| && Kept(snap.sessions, world)[k] == r;
    assert snap.sessions[k] in snap.sessions;
  }

  /** What a fresh daemon captures of its sessions after restoring a snapshot is each of its records again. */
  lemma SessionsAgain(snap: Snapshot, sessions: map<string, Session>, hosts: map<string, DockerSpec>, world: World)
    requires Tidy(snap) && Mirrors(snap, sessions, hosts, world)
    ensures forall r :: SessionDue(sessions, r) <==> exists q :: q in snap.sessions && r == Again(q, world)
  {
    hide Resolved, Kept, ScrubSSHSpec;
    forall id | id in sessions
      ensures exists q :: q in snap.sessions && q.id == id && sessions[id].spec == Resolved(q.spec, world)
    {
      CameFrom(snap, sessions, hosts, id, world);
    }
    forall q | q in snap.sessions
      ensures q.id in sessions && sessions[q.id].spec == Resolved(q.spec, world) && sessions[q.id].spec.persistent
    {
      CameBack(snap, sessions, hosts, q, world);
    }
  }

  /** What it captures of forwards and hosts is those of the snapshot. */
  lemma OthersAgain(snap: Snapshot, sessions: map<string, Session>, hosts: map<string, DockerSpec>, world: World)
    requires Tidy(snap) && Mirrors(snap, sessions, hosts, world)
    ensures forall r :: ForwardDue(sessions, r) <==> r in snap.forwards
    ensures forall r :: HostDue(hosts, r) <==> r in snap.hosts
  {
    hide Resolved, Kept;
    forall r | r in snap.forwards
      ensures ForwardDue(sessions, r)
    {
      assert ForwardLive(sessions, r);
      var q :| q in snap.sessions && q.id == r.session;
      CameBack(snap, sessions, hosts, q, world);
    }
    forall id | id in hosts
      ensures HostRecord(id, hosts[id]) in snap.hosts
    {
      assert HostLive(hosts, HostRecord(id, hosts[id]));
    }
  }

  ghost predicate Same<R(!new)>(first: seq<R>, second: seq<R>) {
    forall r :: r in first <==> r in second
  }

  /** Each record has come back as `Again` says, and nothing else has. */
  ghost predicate EachAgain(first: seq<SessionRecord>, second: seq<SessionRecord>, world: World) {
    forall r :: r in second <==> exists q :: q in first && r == Again(q, world)
  }

  /** Two captures hold the same session records exactly when every record comes back as itself. */
  lemma SameRecords(first: seq<SessionRecord>, second: seq<SessionRecord>, world: World)
    requires DistinctSessions(first) && EachAgain(first, second, world)
    ensures Same(first, second) <==> forall r :: r in first ==> Again(r, world) == r
  {
    if Same(first, second) {
      forall i | 0 <= i < |first|
        ensures Again(first[i], world) == first[i]
      {
        assert first[i] in first && Again(first[i], world) in second;
        var j :| 0 <= j < |first| && first[j] == Again(first[i], world);
        assert first[j].id == first[i].id;
      }
    } else if forall r :: r in first ==> Again(r, world) == r {
      assert forall r :: r in first <==> r in second;
      assert false;
    }
  }

  /** The captured spec of each persistent session is one that ssh_config adds nothing to. */
  ghost predicate AllSteady(sessions: map<string, Session>, config: SshConfig) {
    forall id :: id in sessions && sessions[id].spec.persistent ==> Steady(ScrubSSHSpec(sessions[id].spec), config)
  }

  lemma SteadySessions(sessions: map<string, Session>, recs: seq<SessionRecord>, world: World)
    requires SessionsOk(sessions)
    requires forall r :: r in recs <==> SessionDue(sessions, r)
    ensures (forall r :: r in recs ==> Again(r, world) == r) <==> AllSteady(sessions, world.config)
  {
    forall r | r in recs
      ensures Again(r, world) == r <==> Steady(r.spec, world.config)
    {
      ScrubTwice(sessions[r.id].spec);
      assert SessionOk(r.id, sessions[r.id]);
      SteadyExactly(r, world);
    }
    forall id | id in sessions && sessions[id].spec.persistent
      ensures SessionRecord(id, ScrubSSHSpec(sessions[id].spec)) in recs
    {
      assert SessionDue(sessions, SessionRecord(id, ScrubSSHSpec(sessions[id].spec)));
    }
  }

  lemma CapturedIsWhole(snap: Snapshot, sessions: map<string, Session>, hosts: map<string, DockerSpec>, world: World)
    requires SessionsOk(sessions) && "" !in hosts && Captured(snap, sessions, hosts)
    ensures Whole(snap, world)
  {
    var kept := Kept(snap.sessions, world);
    forall i | 0 <= i < |kept|
      ensures kept[i].id != "" && kept[i].spec.user != ""
    {
      var r := snap.sessions[i];
      assert r in snap.sessions && SessionOk(r.id, sessions[r.id]);
    }
  }

  /** Capturing, restoring into fresh managers and capturing again: hosts and forwards are the same
      records, and so are the sessions exactly when ssh_config adds nothing to what was captured. */
  lemma SessionsMatch(
    first: Snapshot, second: Snapshot, sessions: map<string, Session>, hosts: map<string, DockerSpec>, world: World)
    requires Tidy(first) && Mirrors(first, sessions, hosts, world) && Captured(second, sessions, hosts)
    ensures EachAgain(first.sessions, second.sessions, world)
  {
    SessionsAgain(first, sessions, hosts, world);
    hide Mirrors, Tidy, SessionDue, Again;
  }

  lemma OthersMatch(
    first: Snapshot, second: Snapshot, sessions: map<string, Session>, hosts: map<string, DockerSpec>, world: World)
    requires Tidy(first) && Mirrors(first, sessions, hosts, world) && Captured(second, sessions, hosts)
    ensures Same(first.forwards, second.forwards) && Same(first.hosts, second.hosts)
  {
    OthersAgain(first, sessions, hosts, world);
    hide Mirrors, Tidy, ForwardDue, HostDue;
  }

  lemma CapturedFacts(snap: Snapshot, sessions: map<string, Session>, hosts: map<string, DockerSpec>, world: World)
    requires SessionsOk(sessions) && Captured(snap, sessions, hosts)
    ensures Tidy(snap) && DistinctSessions(snap.sessions)
    ensures (forall r :: r in snap.sessions ==> Again(r, world) == r) <==> AllSteady(sessions, world.config)
  {
    SteadySessions(sessions, snap.sessions, world);
  }

  lemma Recaptured(
    first: Snapshot, sessions: map<string, Session>, hosts: map<string, DockerSpec>,
    second: Snapshot, sessions': map<string, Session>, hosts': map<string, DockerSpec>, world: World)
    requires SessionsOk(sessions) && Captured(first, sessions, hosts)
    requires Mirrors(first, sessions', hosts', world) && Captured(second, sessions', hosts')
    ensures EachAgain(first.sessions, second.sessions, world)
    ensures Same(first.sessions, second.sessions) <==> AllSteady(sessions, world.config)
    ensures Same(first.forwards, second.forwards) && Same(first.hosts, second.hosts)
  {
    CapturedFacts(first, sessions, hosts, world);
    hide Mirrors, AllSteady, Again, SessionsOk, Captured, Tidy, EachAgain, DistinctSessions;
    SessionsMatch(first, second, sessions', hosts', world);
    OthersMatch(first, second, sessions', hosts', world);
    SameRecords(first.sessions, second.sessions, world);
  }

  /** A daemon captures, another restores into fresh managers and captures again: with every dial
      and listen succeeding nothing fails to come back, whatever order the maps were walked in and
      whatever ports were bound. */
  method Restart(ssh: SshManager, dk: DockerManager, ssh': SshManager, dk': DockerManager, world: World)
    returns (first: Snapshot, counts: Counts, second: Snapshot)
    requires ssh != ssh' && dk != dk' && SessionsOk(ssh.sessions) && "" !in dk.hosts
    requires ssh'.sessions == map[] && dk'.hosts == map[] && AllUp(world)
    modifies ssh, ssh', dk'
    ensures counts.sessionsBad == counts.forwardsBad == counts.hostsBad == 0
    ensures EachAgain(first.sessions, second.sessions, world)
    ensures Same(first.sessions, second.sessions) <==> AllSteady(old(ssh.sessions), world.config)
    ensures Same(first.forwards, second.forwards) && Same(first.hosts, second.hosts)
  {
    assert SessionsOk(ssh'.sessions);
    hide SessionsOk, Whole, AllUp, NoneLost, Tidy, Distinct, Mirrors, Restored, EachAgain, Same, AllSteady, FromRecords;
    ghost var sessions := ssh.sessions;
    first := Capture(ssh, dk);
    CapturedIsWhole(first, sessions, dk.hosts, world);
    counts := Restore(first, ssh', dk', world);
    ghost var sessions' := ssh'.sessions;
    AllComesBack(first, sessions', dk'.hosts, world);
    second := Capture(ssh', dk');
    Recaptured(first, sessions, dk.hosts, second, sessions', dk'.hosts, world);
  }
}

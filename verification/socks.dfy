/**
  The SOCKS5 side of a dynamic forward (sections 3 to 6 of RFC 1928): reading a
  greeting and a request off a byte stream, and answering.  The decoder is stated
  against the encoders, which say what a client sends.
*/
module Socks {
  import opened Wrappers
  import opened Basics

  type Port = p: int | 0 <= p < 0x1_0000 witness 0

  datatype Host = V4(ip: seq<Byte>) | Name(name: seq<Byte>) | V6(ip: seq<Byte>)

  datatype Dest = Dest(host: Host, port: Port)

  predicate Encodable(d: Dest) {
    match d.host
    case V4(ip) => |ip| == 4
    case Name(name) => 1 <= |name| <= 255
    case V6(ip) => |ip| == 16
  }

  // ------------------------------------------------------ what a client sends

  function EncodeGreeting(methods: seq<Byte>): seq<Byte>
    requires |methods| <= 255
  {
    [5, |methods|] + methods
  }

  function EncodeHost(h: Host): seq<Byte>
    requires h.Name? ==> |h.name| <= 255
  {
    match h
    case V4(ip) => [1] + ip
    case Name(name) => [3, |name|] + name
    case V6(ip) => [4] + ip
  }

  /** A CONNECT request; the server does not look at the reserved byte. */
  function EncodeRequest(d: Dest, rsv: Byte): seq<Byte>
    requires Encodable(d)
  {
    [5, 1, rsv] + EncodeHost(d.host) + [d.port / 256, d.port % 256]
  }

  predicate Greets(s: seq<Byte>, methods: seq<Byte>) {
    |methods| <= 255 && EncodeGreeting(methods) <= s
  }

  predicate Requests(s: seq<Byte>, d: Dest, rsv: Byte) {
    Encodable(d) && EncodeRequest(d, rsv) <= s
  }

  /** No stream starts with two different greetings. */
  lemma GreetingIsUnique(s: seq<Byte>, m: seq<Byte>, n: seq<Byte>)
    requires Greets(s, m) && Greets(s, n)
    ensures m == n
  {
    assert EncodeGreeting(m) == s[..|m| + 2] && EncodeGreeting(n) == s[..|n| + 2];
    assert EncodeGreeting(m)[1] == s[1] == EncodeGreeting(n)[1];
    assert m == EncodeGreeting(m)[2..] && n == EncodeGreeting(n)[2..];
  }

  /** No stream starts with two different requests: none is the beginning of another. */
  lemma RequestIsUnique(s: seq<Byte>, d: Dest, rsv: Byte, d': Dest, rsv': Byte)
    requires Requests(s, d, rsv) && Requests(s, d', rsv')
    ensures d == d' && rsv == rsv'
  {
    var e, e' := EncodeRequest(d, rsv), EncodeRequest(d', rsv');
    assert e == s[..|e|] && e' == s[..|e'|];
    assert e[2] == s[2] == e'[2];
    assert e[3] == s[3] == e'[3];
    HostAt(d, rsv);
    HostAt(d', rsv');
    assert d.host.Name? ==> e[4] == s[4] == e'[4];
    assert |e| == |e'|;
  }

  lemma HostAt(d: Dest, rsv: Byte)
    requires Encodable(d)
    ensures
      var e := EncodeRequest(d, rsv);
      && e[2] == rsv && e[3] == EncodeHost(d.host)[0]
      && e[|e| - 2] == d.port / 256 && e[|e| - 1] == d.port % 256
      && match d.host
         case V4(ip) => |e| == 10 && ip == e[4..8]
         case Name(name) => |e| == 7 + |name| && e[4] == |name| && name == e[5..5 + |name|]
         case V6(ip) => |e| == 22 && ip == e[4..20]
  {
  }

  // ----------------------------------------------------------- the connection

  datatype Error = ShortRead | BadVersion | BadCommand | EmptyName | BadAddressType | WriteFailed

  class Conn {
    /** What the client will still send. */
    var input: seq<Byte>
    var output: seq<Byte>
    var closed: bool
    /** How many bytes the connection takes in all: the write that would exceed it fails part of the way. */
    const room: nat

    ghost predicate Valid()
      reads this`output
    {
      |output| <= room
    }

    constructor (input: seq<Byte>, room: nat)
      ensures Valid() && this.input == input && this.room == room && output == [] && !closed
    {
      this.input, this.room, output, closed := input, room, [], false;
    }

    /** Exactly `n` bytes, or an error at the end of the stream. */
    method ReadFull(n: nat) returns (r: Result<seq<Byte>, Error>)
      modifies this`input
      ensures r.Ok? <==> n <= |old(input)|
      ensures r.Ok? ==> |r.value| == n && old(input) == r.value + input
      ensures r.Err? ==> r.error == ShortRead && input == []
    {
      if n <= |input| {
        r := Ok(input[..n]);
        input := input[n..];
      } else {
        r := Err(ShortRead);
        input := [];
      }
    }

    method Write(bytes: seq<Byte>) returns (ok: bool)
      requires Valid()
      modifies this`output
      ensures Valid() && output == Clip(old(output) + bytes, room)
      ensures ok <==> |old(output)| + |bytes| <= room
    {
      if |output| + |bytes| > room {
        output := output + bytes[..room - |output|];
        return false;
      }
      output := output + bytes;
      ok := true;
    }

    /** Answers a greeting, and nothing else. */
    method Handshake() returns (ok: bool)
      requires Valid()
      modifies this`input, this`output
      ensures Valid()
      ensures ok <==> Greeted(old(input)) && |old(output)| + 2 <= room
      ensures ok ==> exists m :: Greets(old(input), m) && old(input) == EncodeGreeting(m) + input
      ensures output == if Greeted(old(input)) then Clip(old(output) + [5, 0], room) else old(output)
    {
      ghost var s := input;
      var buf := ReadFull(2);
      if buf.Err? {
        return false;
      }
      if buf.value[0] != 5 {
        assert s[0] != 5;
        return false;
      }
      var methods := ReadFull(buf.value[1]);
      if methods.Err? {
        assert s[1] == buf.value[1];
        return false;
      }
      assert s == EncodeGreeting(methods.value) + input;
      assert Greets(s, methods.value);
      ok := Write([5, 0]);
    }

    method SendReply(rep: Byte) returns (ok: bool)
      requires Valid()
      modifies this`output
      ensures Valid() && output == Clip(old(output) + Reply(rep), room)
      ensures ok <==> |old(output)| + 10 <= room
    {
      ok := Write([5, rep, 0, 1, 0, 0, 0, 0, 0, 0]);
    }

    method ReadRequest() returns (r: Result<Dest, Error>)
      modifies this`input
      ensures r.Ok? ==>
        exists rsv :: Requests(old(input), r.value, rsv) && old(input) == EncodeRequest(r.value, rsv) + input
      ensures r.Err? ==> forall d, rsv :: !Requests(old(input), d, rsv)
    {
      hide Requests, EncodeRequest, Encodable;
      ghost var s := input;
      var hdr := ReadFull(4);
      if hdr.Err? {
        NoRequest(s);
        return Err(ShortRead);
      }
      assert forall i :: 0 <= i < 4 ==> s[i] == hdr.value[i];
      if hdr.value[0] != 5 || hdr.value[1] != 1 {
        NoRequest(s);
        return Err(BadCommand);
      }
      var host: Host;
      ghost var body: seq<Byte>;
      match hdr.value[3] {
        case 1 =>
          var ip := ReadFull(4);
          if ip.Err? {
            NoRequest(s);
            return Err(ShortRead);
          }
          host, body := V4(ip.value), ip.value;
        case 3 =>
          var ln := ReadFull(1);
          if ln.Err? {
            NoRequest(s);
            return Err(ShortRead);
          }
          assert s[4] == ln.value[0];
          if ln.value[0] == 0 {
            NoRequest(s);
            return Err(EmptyName);
          }
          var name := ReadFull(ln.value[0]);
          if name.Err? {
            NoRequest(s);
            return Err(ShortRead);
          }
          host, body := Name(name.value), ln.value + name.value;
        case 4 =>
          var ip := ReadFull(16);
          if ip.Err? {
            NoRequest(s);
            return Err(ShortRead);
          }
          host, body := V6(ip.value), ip.value;
        case _ =>
          NoRequest(s);
          return Err(BadAddressType);
      }
      assert s == hdr.value + body + input;
      var port := ReadFull(2);
      if port.Err? {
        NoRequest(s);
        return Err(ShortRead);
      }
      Decoded(s, hdr.value, body, host, port.value, input);
      r := Ok(Dest(host, (port.value[0] as int) * 256 + port.value[1] as int));
    }
  }

  function Clip(s: seq<Byte>, room: nat): seq<Byte> {
    if |s| <= room then s else s[..room]
  }

  /** A reply without an address bound: version, reply, reserved, an IPv4 address and a port, all zero. */
  function Reply(rep: Byte): (r: seq<Byte>)
    ensures |r| == 10 && r[0] == 5 && r[1] == rep && r[2] == 0 && r[3] == 1
    ensures forall i :: 4 <= i < 10 ==> r[i] == 0
  {
    [5, rep, 0, 1] + [0, 0, 0, 0] + [0, 0]
  }

  /** How long the request is that `s` starts, if it starts one at all: told by its first five bytes. */
  function RequestLength(s: seq<Byte>): Option<nat> {
    if |s| < 4 || s[0] != 5 || s[1] != 1 then None
    else if s[3] == 1 then Some(10)
    else if s[3] == 4 then Some(22)
    else if s[3] == 3 && |s| > 4 && s[4] != 0 then Some(7 + s[4] as int)
    else None
  }

  lemma RequestHasLength(s: seq<Byte>, d: Dest, rsv: Byte)
    requires Requests(s, d, rsv)
    ensures RequestLength(s) == Some(|EncodeRequest(d, rsv)|)
  {
    HostAt(d, rsv);
    var e := EncodeRequest(d, rsv);
    assert forall i :: 0 <= i < |e| ==> e[i] == s[i];
  }

  lemma NoRequest(s: seq<Byte>)
    requires RequestLength(s).None? || |s| < RequestLength(s).value
    ensures forall d, rsv :: !Requests(s, d, rsv)
  {
    forall d, rsv
      ensures !Requests(s, d, rsv)
    {
      if Requests(s, d, rsv) {
        RequestHasLength(s, d, rsv);
      }
    }
  }

  /** What has been read piece by piece is an encoded request. */
  lemma Decoded(s: seq<Byte>, hdr: seq<Byte>, body: seq<Byte>, host: Host, port: seq<Byte>, rest: seq<Byte>)
    requires s == hdr + body + port + rest && |hdr| == 4 && hdr[0] == 5 && hdr[1] == 1 && |port| == 2
    requires match host
             case V4(ip) => |ip| == 4 && hdr[3] == 1 && body == ip
             case Name(name) => 1 <= |name| <= 255 && hdr[3] == 3 && body == [|name|] + name
             case V6(ip) => |ip| == 16 && hdr[3] == 4 && body == ip
    ensures
      var d := Dest(host, (port[0] as int) * 256 + port[1] as int);
      Requests(s, d, hdr[2]) && s == EncodeRequest(d, hdr[2]) + rest
  {
    assert EncodeHost(host) == [hdr[3]] + body;
    assert hdr == [5, 1, hdr[2]] + [hdr[3]];
    var d := Dest(host, (port[0] as int) * 256 + port[1] as int);
    assert port == [d.port / 256, d.port % 256];
    assert s == EncodeRequest(d, hdr[2]) + rest;
  }

  // ------------------------------------------------------------- serving

  /** The stream opens with a greeting and a request for `d`, and `rest` is what follows. */
  ghost predicate Asks(s: seq<Byte>, d: Dest, rest: seq<Byte>) {
    exists m, rsv :: Greets(s, m) && Encodable(d) && s == EncodeGreeting(m) + EncodeRequest(d, rsv) + rest
  }

  ghost predicate Greeted(s: seq<Byte>) {
    exists m :: Greets(s, m)
  }

  ghost predicate AsksSomething(s: seq<Byte>) {
    exists d, rest :: Asks(s, d, rest)
  }

  /** What the client is sent: nothing when it did not greet; else the choice of no authentication, and a reply:
      general failure, network unreachable, connection refused, or succeeded. */
  ghost function Ending(s: seq<Byte>, client: bool, dials: bool): seq<Byte> {
    if !Greeted(s) then []
    else [5, 0] + Reply(if !AsksSomething(s) then 1 else if !client then 3 else if !dials then 5 else 0)
  }

  /** Serves one client.  `client` says whether the session has a client, and `dials` whether it reaches the
      destination.  A tunnel starts exactly when the whole success reply has been sent, to the destination asked
      for, and carries exactly what follows the request; every other ending sends its own reply, as far as the
      connection takes it. */
  method Handle(c: Conn, client: bool, dials: bool) returns (tunnel: Option<Dest>)
    requires c.Valid()
    modifies c
    ensures c.Valid() && c.closed
    ensures c.output == Clip(old(c.output) + Ending(old(c.input), client, dials), c.room)
    ensures tunnel.Some? <==> AsksSomething(old(c.input)) && client && dials && |old(c.output)| + 12 <= c.room
    ensures tunnel.Some? <==> c.output == old(c.output) + [5, 0, 5, 0, 0, 1, 0, 0, 0, 0, 0, 0]
    ensures tunnel.Some? ==> Asks(old(c.input), tunnel.value, c.input)
  {
    hide EncodeRequest, EncodeGreeting, Clip, AsksSomething, Asks, Reply;
    ghost var s, o := c.input, c.output;
    Succeeds(o, s, client, dials, c.room);
    SentInTwo(o, s, client, dials, c.room);
    var ok := c.Handshake();
    if !ok {
      c.closed := true;
      return None;
    }
    ghost var m :| Greets(s, m) && s == EncodeGreeting(m) + c.input;
    ghost var s1 := c.input;
    var dest := c.ReadRequest();
    if dest.Err? {
      NothingAsked(s, m, s1);
      var _ := c.SendReply(1);
      c.closed := true;
      return None;
    }
    ghost var rsv :| Requests(s1, dest.value, rsv) && s1 == EncodeRequest(dest.value, rsv) + c.input;
    assert s == EncodeGreeting(m) + EncodeRequest(dest.value, rsv) + c.input;
    SomethingAsked(s, m, dest.value, rsv, c.input);
    if !client {
      var _ := c.SendReply(3);
      c.closed := true;
      return None;
    }
    if !dials {
      var _ := c.SendReply(5);
      c.closed := true;
      return None;
    }
    ok := c.SendReply(0);
    c.closed := true;
    if !ok {
      return None;
    }
    tunnel := Some(dest.value);
  }

  lemma SomethingAsked(s: seq<Byte>, m: seq<Byte>, d: Dest, rsv: Byte, rest: seq<Byte>)
    requires Greets(s, m) && Encodable(d) && s == EncodeGreeting(m) + EncodeRequest(d, rsv) + rest
    ensures Asks(s, d, rest) && AsksSomething(s)
  {
  }

  /** What two writes send is clipped as one would be. */
  lemma Clipped(o: seq<Byte>, reply: seq<Byte>, room: nat)
    requires |o| <= room
    ensures Clip(Clip(o + [5, 0], room) + reply, room) == Clip(o + ([5, 0] + reply), room)
    ensures |o| + 2 > room ==> Clip(o + [5, 0], room) == Clip(o + ([5, 0] + reply), room)
  {
    assert o + [5, 0] + reply == o + ([5, 0] + reply);
  }

  lemma SentInTwo(o: seq<Byte>, s: seq<Byte>, client: bool, dials: bool, room: nat)
    requires |o| <= room
    ensures AsksSomething(s) ==> Greeted(s)
    ensures !Greeted(s) ==> Clip(o + Ending(s, client, dials), room) == o
    ensures Greeted(s) ==>
      var e := Ending(s, client, dials);
      && Clip(Clip(o + [5, 0], room) + e[2..], room) == Clip(o + e, room)
      && if |o| + 2 > room then Clip(o + [5, 0], room) == Clip(o + e, room) else |Clip(o + [5, 0], room)| == |o| + 2
  {
    if AsksSomething(s) {
      MustGreet(s);
    }
    var e := Ending(s, client, dials);
    if Greeted(s) {
      Clipped(o, e[2..], room);
      assert [5, 0] + e[2..] == e;
    } else {
      assert o + e == o;
    }
  }

  lemma Succeeds(o: seq<Byte>, s: seq<Byte>, client: bool, dials: bool, room: nat)
    requires |o| <= room
    ensures Clip(o + Ending(s, client, dials), room) == o + [5, 0, 5, 0, 0, 1, 0, 0, 0, 0, 0, 0]
       <==> AsksSomething(s) && client && dials && |o| + 12 <= room
  {
    var e, success := Ending(s, client, dials), [5, 0, 5, 0, 0, 1, 0, 0, 0, 0, 0, 0];
    if !AsksSomething(s) {
      if Greeted(s) {
        assert e[3] == 1;
      }
    } else {
      MustGreet(s);
      assert e[3] == if !client then 3 else if !dials then 5 else 0;
    }
    hide Asks, Greets;
    if |o + e| <= room && o + e == o + success {
      assert (o + e)[|o|..] == e && (o + success)[|o|..] == success;
      assert e[3] == success[3];
    }
    if Greeted(s) && AsksSomething(s) && client && dials {
      assert e == success;
    }
  }

  lemma MustGreet(s: seq<Byte>)
    requires AsksSomething(s)
    ensures Greeted(s)
  {
    var d, rest :| Asks(s, d, rest);
  }

  lemma NothingAsked(s: seq<Byte>, m: seq<Byte>, s1: seq<Byte>)
    requires Greets(s, m) && s == EncodeGreeting(m) + s1
    requires forall d, rsv :: !Requests(s1, d, rsv)
    ensures !AsksSomething(s)
  {
    if AsksSomething(s) {
      var d, rest :| Asks(s, d, rest);
      var n, rsv :| Greets(s, n) && Encodable(d) && s == EncodeGreeting(n) + EncodeRequest(d, rsv) + rest;
      assert EncodeGreeting(n) + EncodeRequest(d, rsv) <= s;
      NoneAsked(s, m, s1);
    }
  }

  lemma NoneAsked(s: seq<Byte>, m: seq<Byte>, s1: seq<Byte>)
    requires Greets(s, m) && s == EncodeGreeting(m) + s1
    requires forall d, rsv :: !Requests(s1, d, rsv)
    ensures forall n, d, rsv :: Greets(s, n) && Encodable(d) ==> !(EncodeGreeting(n) + EncodeRequest(d, rsv) <= s)
  {
    forall n, d, rsv | Greets(s, n) && Encodable(d)
      ensures !(EncodeGreeting(n) + EncodeRequest(d, rsv) <= s)
    {
      GreetingIsUnique(s, m, n);
      if EncodeGreeting(n) + EncodeRequest(d, rsv) <= s {
        var g, e := EncodeGreeting(n), EncodeRequest(d, rsv);
        assert (g + e)[|g|..] == e && s[|g|..] == s1;
        assert s[..|g + e|] == g + e;
        assert s1[..|e|] == s[..|g + e|][|g|..];
        assert Requests(s1, d, rsv);
      }
    }
  }

  /** What a stream asks for, and what follows, are determined: a client that sent a greeting, a
      request for `d` and then `rest` can only be tunnelled to `d`, and the tunnel carries `rest`. */
  lemma AsksOneThing(s: seq<Byte>, d: Dest, rest: seq<Byte>, d': Dest, rest': seq<Byte>)
    requires Asks(s, d, rest) && Asks(s, d', rest')
    ensures d == d' && rest == rest'
  {
    var m, rsv :| Greets(s, m) && Encodable(d) && s == EncodeGreeting(m) + EncodeRequest(d, rsv) + rest;
    var m', rsv' :| Greets(s, m') && Encodable(d') && s == EncodeGreeting(m') + EncodeRequest(d', rsv') + rest';
    GreetingIsUnique(s, m, m');
    hide EncodeGreeting, EncodeRequest, Greets;
    var g, e, e' := EncodeGreeting(m), EncodeRequest(d, rsv), EncodeRequest(d', rsv');
    var s1 := s[|g|..];
    AfterGreeting(s, g, e, rest);
    AfterGreeting(s, g, e', rest');
    RequestIsUnique(s1, d, rsv, d', rsv');
    assert rest == s1[|e|..] && rest' == s1[|e|..];
  }

  lemma AfterGreeting(s: seq<Byte>, g: seq<Byte>, e: seq<Byte>, rest: seq<Byte>)
    requires s == g + e + rest
    ensures s[|g|..] == e + rest && e <= s[|g|..]
  {
  }
}

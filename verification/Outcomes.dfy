/** When a configuration succeeds, and what it has told wolfSSL when it does: over the configuration, the
    answers and the recorded calls. */
module Outcomes {
  import opened Platform
  import opened Ledger
  import opened Certificates
  import opened Program
  import opened Config
  import opened Trust
  import opened Lifecycle
  import opened Ownership
  import opened Moves
  import opened Driving

  // ----- success

  lemma FirstCall(ans: Oracle, m: Machine, p: seq<Instr>)
    requires p != [] && p[0].Do?
    ensures var t1 := Exec(ans, m, p).0.trace;
            && |t1| > |m.trace|
            && t1[|m.trace|] == Event(p[0].op, Operand(m, p[0].op), Answer(ans, m.trace, p[0].op))
  {
    var m1 := Issue(ans, m, p[0].op);
    if Succeeds(ans, m, p[0].op) {
      ExecGrows(ans, m1, p[1..]);
    } else {
      assert m1.trace <= DropTmp(ans, m1).trace;
    }
  }

  /** Every call from call n on succeeded. */
  predicate OkFrom(t: Trace, n: nat) {
    forall i :: n <= i < |t| ==> Ok(t[i].op, t[i].ret)
  }

  lemma OkParts(t: Trace, n: nat, t1: Trace)
    requires n <= |t| && t <= t1
    ensures OkFrom(t1, n) <==> OkFrom(t, n) && OkFrom(t1, |t|)
  {
    assert forall i :: 0 <= i < |t| ==> t1[i] == t[i];
  }

  lemma OkSuffix(t: Trace, n: nat)
    requires n <= |t|
    ensures OkFrom(t, n) <==> AllOk(t[n..])
  {
    if AllOk(t[n..]) {
      forall i | n <= i < |t| ensures Ok(t[i].op, t[i].ret) {
        assert t[n..][i - n] == t[i];
      }
    }
  }

  /** A program that refuses nowhere and whose every call succeeded, succeeded. */
  lemma {:induction false} AllOkSucceeds(ans: Oracle, m: Machine, p: seq<Instr>)
    requires Straight(p) && OkFrom(Exec(ans, m, p).0.trace, |m.trace|)
    ensures Exec(ans, m, p).1 == EspOk
    decreases |p|
  {
    if p != [] {
      FirstCall(ans, m, p);
      var m1 := Issue(ans, m, p[0].op);
      if Succeeds(ans, m, p[0].op) {
        ExecGrows(ans, m1, p[1..]);
        AllOkSucceeds(ans, m1, p[1..]);
      }
    }
  }

  lemma {:induction false} StraightAppend(p: seq<Instr>, q: seq<Instr>)
    ensures Straight(p + q) <==> Straight(p) && Straight(q)
  {
    if p == [] {
      assert p + q == q;
    } else {
      assert (p + q)[1..] == p[1..] + q;
      StraightAppend(p[1..], q);
    }
  }

  lemma ShortStraight(p: seq<Instr>)
    requires |p| <= 4
    ensures Straight(p) <==> forall i :: 0 <= i < |p| ==> p[i].Do?
  {
    if p != [] {
      ShortStraight(p[1..]);
      assert forall i :: 0 < i < |p| ==> p[i] == p[1..][i - 1];
    }
  }

  lemma {:induction false} ProtosStraight(protos: seq<cstring>)
    ensures Straight(UseProtos(protos))
  {
    if protos != [] {
      ProtosStraight(protos[1..]);
      assert UseProtos(protos)[1..] == UseProtos(protos[1..]);
    }
  }

  /** Nothing in this client configuration has to be refused: no bundle is asked for, there is a source of
      trust, for PSK the mutex exists, certificate and key come as a pair, and ALPN is built in if asked for. */
  predicate ClientAcceptable(b: Build, cfg: ClientCfg, store: Option<seq<byte>>, lock: bool) {
    && !cfg.bundleAttach
    && ChosenSource(b, cfg, store).Some? && (ChosenSource(b, cfg, store).value.SharedKey? ==> lock)
    && (cfg.cert.Some? <==> cfg.key.Some?)
    && (cfg.alpnProtos.Some? ==> b.alpn)
  }

  lemma TrustStraight(b: Build, cfg: ClientCfg, store: Option<seq<byte>>, lock: bool)
    ensures Straight(TrustProgram(b, cfg, store, lock)) <==>
            ChosenSource(b, cfg, store).Some? && (ChosenSource(b, cfg, store).value.SharedKey? ==> lock)
  {
    ShortStraight(TrustProgram(b, cfg, store, lock));
  }

  lemma PostStraight(b: Build, cfg: ClientCfg, host: seq<byte>, fd: int)
    ensures Straight(ClientPost(b, cfg, host, fd)) <==> (cfg.alpnProtos.Some? ==> b.alpn)
  {
    var (h, a, o, f) := (HostProgram(cfg, host), AlpnProgram(b, cfg), OcspProgram(b), [Do(SetFd(fd), EspFail)]);
    StraightAppend(h, a + (o + f));
    StraightAppend(a, o + f);
    StraightAppend(o, f);
    ShortStraight(h);
    ShortStraight(o);
    ShortStraight(f);
    if cfg.alpnProtos.Some? && b.alpn {
      ProtosStraight(cfg.alpnProtos.value);
    } else {
      ShortStraight(a);
    }
  }

  lemma AssembledStraight(make: Op, pre: seq<Instr>, post: seq<Instr>)
    ensures Straight(Assemble(make, pre, post)) <==> Straight(pre) && Straight(post)
  {
    var tail := [Do(SslNew, SslSetupFailed)] + post;
    assert Assemble(make, pre, post)[1..] == pre + tail && tail[1..] == post;
    StraightAppend(pre, tail);
  }

  lemma PreStraight(b: Build, cfg: ClientCfg, store: Option<seq<byte>>, lock: bool)
    ensures Straight(ClientPre(b, cfg, store, lock)) <==>
            && !cfg.bundleAttach && ChosenSource(b, cfg, store).Some?
            && (ChosenSource(b, cfg, store).value.SharedKey? ==> lock) && (cfg.cert.Some? <==> cfg.key.Some?)
  {
    var (t, i) := (TrustProgram(b, cfg, store, lock), IdentityProgram(cfg.cert, cfg.key, false));
    StraightAppend(BundleProgram(cfg), t + i);
    StraightAppend(t, i);
    ShortStraight(BundleProgram(cfg));
    ShortStraight(i);
    TrustStraight(b, cfg, store, lock);
  }

  lemma ClientStraight(b: Build, cfg: ClientCfg, host: seq<byte>, store: Option<seq<byte>>, lock: bool, fd: int)
    ensures Straight(ClientProgram(b, cfg, host, store, lock, fd)) <==> ClientAcceptable(b, cfg, store, lock)
  {
    AssembledStraight(CtxNew(false, b.tls13), ClientPre(b, cfg, store, lock), ClientPost(b, cfg, host, fd));
    PreStraight(b, cfg, store, lock);
    PostStraight(b, cfg, host, fd);
  }

  lemma ServerStraight(b: Build, cfg: ServerCfg, fd: int)
    ensures Straight(ServerProgram(b, cfg, fd)) <==> cfg.cert.Some? && cfg.key.Some?
  {
    AssembledStraight(CtxNew(true, b.tls13), ServerPre(cfg), ServerPost(fd));
    StraightAppend(ServerTrust(cfg), IdentityProgram(cfg.cert, cfg.key, true));
    if cfg.cacert.Some? {
      StraightAppend(LoadCa(cfg.cacert.value, CertVerifySetupFailed, CertVerifySetupFailed),
                     [Do(SetVerify(VerifyPeerAndRequireCert), EspFail)]);
      ShortStraight(LoadCa(cfg.cacert.value, CertVerifySetupFailed, CertVerifySetupFailed));
      ShortStraight([Do(SetVerify(VerifyPeerAndRequireCert), EspFail)]);
    } else {
      ShortStraight(ServerTrust(cfg));
    }
    ShortStraight(IdentityProgram(cfg.cert, cfg.key, true));
    ShortStraight(ServerPost(fd));
  }

  /** A program with real errors succeeds exactly if it refuses nowhere and every call it made succeeded. */
  lemma SucceedsIff(ans: Oracle, m: Machine, p: seq<Instr>)
    requires RealErrors(p)
    ensures var (m1, err) := Exec(ans, m, p);
            m.trace <= m1.trace && (err == EspOk <==> Straight(p) && OkFrom(m1.trace, |m.trace|))
  {
    ExecGrows(ans, m, p);
    if Exec(ans, m, p).1 == EspOk {
      ExecSuccess(ans, m, p);
      OkSuffix(Exec(ans, m, p).0.trace, |m.trace|);
    } else if Straight(p) && OkFrom(Exec(ans, m, p).0.trace, |m.trace|) {
      AllOkSucceeds(ans, m, p);
    }
  }

  /** set_client_config succeeds if and only if the configuration is acceptable and every call succeeded. */
  lemma ClientSucceedsIff(ans: Oracle, m: Machine, b: Build, cfg: ClientCfg, host: seq<byte>,
                          store: Option<seq<byte>>, lock: bool, fd: int)
    ensures var (m1, err) := Exec(ans, m, ClientProgram(b, cfg, host, store, lock, fd));
            && m.trace <= m1.trace
            && (err == EspOk <==> ClientAcceptable(b, cfg, store, lock) && OkFrom(m1.trace, |m.trace|))
  {
    ClientOwning(b, cfg, host, store, lock, fd);
    ClientStraight(b, cfg, host, store, lock, fd);
    SucceedsIff(ans, m, ClientProgram(b, cfg, host, store, lock, fd));
  }

  /** set_server_config succeeds if and only if certificate and key are there and every call succeeded. */
  lemma ServerSucceedsIff(ans: Oracle, m: Machine, b: Build, cfg: ServerCfg, fd: int)
    ensures var (m1, err) := Exec(ans, m, ServerProgram(b, cfg, fd));
            && m.trace <= m1.trace
            && (err == EspOk <==> cfg.cert.Some? && cfg.key.Some? && OkFrom(m1.trace, |m.trace|))
  {
    ServerOwning(b, cfg, fd, true);
    ServerStraight(b, cfg, fd);
    SucceedsIff(ans, m, ServerProgram(b, cfg, fd));
  }

  /** What create demands of its arguments and of the state before it */
  predicate Acceptable(b: Build, peer: Peer, store: Option<seq<byte>>, lock: bool) {
    match peer
    case AsClient(cfg, _) => ClientAcceptable(b, cfg, store, lock)
    case AsServer(cfg) => cfg.cert.Some? && cfg.key.Some?
    case BadRole => false
  }

  lemma ProgramSucceedsIff(ans: Oracle, m: Machine, b: Build, peer: Peer, store: Option<seq<byte>>, lock: bool, fd: int)
    ensures var (m1, err) := Exec(ans, m, ProgramFor(b, peer, store, lock, fd));
            && m.trace <= m1.trace
            && (err == EspOk <==> Acceptable(b, peer, store, lock) && OkFrom(m1.trace, |m.trace|))
  {
    match peer
    case AsClient(cfg, host) => ClientSucceedsIff(ans, m, b, cfg, host, store, lock, fd);
    case AsServer(cfg) => ServerSucceedsIff(ans, m, b, cfg, fd);
    case BadRole => ExecGrows(ans, m, [Refuse(EspFail)]);
  }

  /** A teardown adds only calls that cannot fail. */
  lemma TeardownOk(ans: Oracle, m: Machine)
    ensures m.trace <= Teardown(ans, m).trace && OkFrom(Teardown(ans, m).trace, |m.trace|)
  {
    TeardownOrder(ans, m);
    var t1 := Teardown(ans, m).trace;
    forall i | |m.trace| <= i < |t1| ensures Ok(t1[i].op, t1[i].ret) {
      assert Ops(t1[|m.trace|..])[i - |m.trace|] == t1[i].op;
    }
  }

  /** The trace of a create, from its three parts */
  lemma CreateTrace(ans: Oracle, t: Trace, e: Event, t2: Trace, t3: Trace, accepted: bool, configured: bool)
    requires if Ok(e.op, e.ret) then
               && t + [e] <= t2 <= t3 && OkFrom(t3, |t2|)
               && (configured <==> accepted && OkFrom(t2, |t| + 1))
             else t + [e] <= t3 && !configured
    ensures configured <==> accepted && OkFrom(t3, |t|)
  {
    assert t3[|t|] == (t + [e])[|t|] == e;
    if Ok(e.op, e.ret) {
      OkParts(t2, |t| + 1, t3);
    }
  }

  /** create succeeds if and only if its arguments are acceptable and every call it made succeeded,
      wolfSSL_Init first. */
  lemma CreateSucceedsIff(ans: Oracle, b: Build, t: Trace, c: Conn, peer: Peer, store: Option<seq<byte>>)
    ensures var (t1, c1, err) := CreateOn(ans, b, t, c, peer, store);
            && t <= t1 && |t1| > |t| && t1[|t|].op == Init && t1[|t|].on == 0
            && (err == EspOk <==> Acceptable(b, peer, store, LockExists(t)) && OkFrom(t1, |t|))
  {
    var e := Event(Init, 0, Answer(ans, t, Init));
    var m1, p := CreateCases(ans, b, t, c, peer, store);
    assert m1.trace == t + [e];
    var m2 := Exec(ans, m1, p).0;
    ProgramSucceedsIff(ans, m1, b, peer, store, LockExists(t), c.fd);
    TeardownOk(ans, m1);
    TeardownOk(ans, m2);
    var (t1, _, err) := CreateOn(ans, b, t, c, peer, store);
    CreateTrace(ans, t, e, m2.trace, t1, Acceptable(b, peer, store, LockExists(t)), err == EspOk);
    assert t1[|t|] == (t + [e])[|t|];
  }

  // ----- the calls of a successful configuration once the SSL is made

  lemma {:induction false} ProgramOpsAppend(p: seq<Instr>, q: seq<Instr>)
    ensures ProgramOps(p + q) == ProgramOps(p) + ProgramOps(q)
  {
    if p == [] {
      assert p + q == q;
    } else {
      assert (p + q)[1..] == p[1..] + q;
      ProgramOpsAppend(p[1..], q);
    }
  }

  function NameCalls(name: seq<byte>): seq<Op> {
    [Malloc(|name| + 1), CheckDomain(name), UseSni(name), HeapFree]
  }

  function AlpnCalls(protos: seq<cstring>): (ops: seq<Op>)
    ensures |ops| == |protos|
  {
    seq(|protos|, i requires 0 <= i < |protos| => UseAlpn(protos[i]))
  }

  function OcspCalls(b: Build): seq<Op> {
    if b.ocsp then [EnableOcsp(b.ocspCheckAll), EnableOcspStapling, UseOcspStapling] else []
  }

  lemma {:induction false} ProtosOps(protos: seq<cstring>)
    ensures ProgramOps(UseProtos(protos)) == AlpnCalls(protos)
  {
    if protos != [] {
      ProtosOps(protos[1..]);
      assert UseProtos(protos)[1..] == UseProtos(protos[1..]);
      assert AlpnCalls(protos) == [UseAlpn(protos[0])] + AlpnCalls(protos[1..]);
    }
  }

  lemma NameOps(name: cstring)
    ensures ProgramOps(UseName(name)) == NameCalls(name)
  {
    var p := UseName(name);
    assert p[1..][1..] == p[2..] && p[2..][1..] == p[3..] && p[3..][1..] == [];
    assert ProgramOps(p[3..]) == [HeapFree];
    assert ProgramOps(p[2..]) == [UseSni(name), HeapFree];
    assert ProgramOps(p[1..]) == [CheckDomain(name), UseSni(name), HeapFree];
  }

  lemma OcspOps(b: Build)
    ensures ProgramOps(OcspProgram(b)) == OcspCalls(b)
  {
    var p := OcspProgram(b);
    if b.ocsp {
      assert p[1..][1..] == p[2..] && p[2..][1..] == [];
      assert ProgramOps(p[2..]) == [UseOcspStapling];
      assert ProgramOps(p[1..]) == [EnableOcspStapling, UseOcspStapling];
    }
  }

  /** What follows the SSL in a client configuration: the name, the protocols, OCSP and the socket. */
  function CallsAfterSsl(b: Build, skipName: bool, name: seq<byte>, protos: seq<cstring>, fd: int): seq<Op> {
    (if skipName then [] else NameCalls(name)) + AlpnCalls(protos) + OcspCalls(b) + [SetFd(fd)]
  }

  function Protos(cfg: ClientCfg): seq<cstring> {
    if cfg.alpnProtos.Some? then cfg.alpnProtos.value else []
  }

  lemma Associate(a: seq<Op>, b: seq<Op>, c: seq<Op>, d: seq<Op>)
    ensures a + (b + (c + d)) == a + b + c + d
  {
  }

  lemma PostOps(b: Build, cfg: ClientCfg, host: seq<byte>, fd: int)
    requires cfg.alpnProtos.Some? ==> b.alpn
    ensures ProgramOps(ClientPost(b, cfg, host, fd))
            == CallsAfterSsl(b, cfg.skipCommonName, HostName(cfg, host), Protos(cfg), fd)
  {
    var (h, a, o, f) := (HostProgram(cfg, host), AlpnProgram(b, cfg), OcspProgram(b), [Do(SetFd(fd), EspFail)]);
    ProgramOpsAppend(h, a + (o + f));
    ProgramOpsAppend(a, o + f);
    ProgramOpsAppend(o, f);
    assert f[1..] == [] && ProgramOps(f) == [SetFd(fd)];
    OcspOps(b);
    NameOps(HostName(cfg, host));
    ProtosOps(Protos(cfg));
    Associate(ProgramOps(h), ProgramOps(a), ProgramOps(o), ProgramOps(f));
  }

  /** A call on an SSL or a CTX is one on the connection's own. */
  predicate OnOwn(e: Event, ctx: nat, ssl: nat) {
    && (WorksOn(e.op) == SslObject ==> e.on == ssl)
    && (WorksOn(e.op) == CtxObject ==> e.on == ctx)
  }

  predicate AllOnOwn(t: Trace, ctx: nat, ssl: nat) {
    forall j :: 0 <= j < |t| ==> OnOwn(t[j], ctx, ssl)
  }

  lemma OwnCons(t: Trace, e: Event, t1: Trace, ctx: nat, ssl: nat)
    requires t + [e] <= t1 && OnOwn(e, ctx, ssl) && AllOnOwn(t1[|t| + 1..], ctx, ssl)
    ensures AllOnOwn(t1[|t|..], ctx, ssl)
  {
    assert t1[|t|] == (t + [e])[|t|];
    assert t1[|t|..] == [e] + t1[|t| + 1..];
  }

  lemma DropTmpOwn(ans: Oracle, m: Machine, ctx: nat, ssl: nat)
    ensures var m1 := DropTmp(ans, m);
            m1.ctx == m.ctx && m1.ssl == m.ssl && m.trace <= m1.trace && AllOnOwn(m1.trace[|m.trace|..], ctx, ssl)
  {
  }

  /** Once a program has both its objects, it works on no others. */
  lemma {:induction false} OperandsFixed(ans: Oracle, m: Machine, p: seq<Instr>, k: Known)
    requires Check(p, k).Some? && k.held.ctx && k.held.ssl
    ensures var m1 := Exec(ans, m, p).0;
            m1.ctx == m.ctx && m1.ssl == m.ssl && m.trace <= m1.trace && AllOnOwn(m1.trace[|m.trace|..], m.ctx, m.ssl)
    decreases |p|
  {
    if p == [] || p[0].Refuse? {
      DropTmpOwn(ans, m, m.ctx, m.ssl);
    } else {
      var m1 := Issue(ans, m, p[0].op);
      var e := Event(p[0].op, Operand(m, p[0].op), Answer(ans, m.trace, p[0].op));
      assert m1.trace == m.trace + [e];
      if Succeeds(ans, m, p[0].op) {
        OperandsFixed(ans, m1, p[1..], After(p[0].op, k).value);
      } else {
        DropTmpOwn(ans, m1, m.ctx, m.ssl);
      }
      OwnCons(m.trace, e, Exec(ans, m, p).0.trace, m.ctx, m.ssl);
    }
  }

  lemma PostOperands(ans: Oracle, m: Machine, p: seq<Instr>, h: Held)
    requires Keeps(p, h) && h.ctx && h.ssl
    ensures var m1 := Exec(ans, m, p).0;
            m.trace <= m1.trace && m1.ctx == m.ctx && m1.ssl == m.ssl
            && AllOnOwn(m1.trace[|m.trace|..], m.ctx, m.ssl)
  {
    assert KeepsFrom(p, Known(h, Other));
    OperandsFixed(ans, m, p, Known(h, Other));
  }

  /** Exactly these calls were made, all successful, on no other SSL or CTX. */
  predicate Made(t: Trace, ctx: nat, ssl: nat, ops: seq<Op>) {
    Ops(t) == ops && AllOk(t) && AllOnOwn(t, ctx, ssl)
  }

  /** `ctx` was made by `make`, `ssl` from it, and since then exactly these calls were made. */
  predicate Opened(t: Trace, ctx: nat, ssl: nat, make: Op, ops: seq<Op>) {
    && 1 <= ctx < ssl <= |t|
    && t[ctx - 1].op == make && t[ssl - 1].op == SslNew && t[ssl - 1].on == ctx
    && Made(t[ssl..], ctx, ssl, ops)
  }

  lemma StationsCtx(ans: Oracle, make: Op, pre: seq<Instr>, lock: bool, m: Machine, mc: Machine, mp: Machine)
    requires mc == Issue(ans, m, make) && Succeeds(ans, m, make) && Exec(ans, mc, pre) == (mp, EspOk)
    requires make.CtxNew? && Keeps(pre, WithCtx(lock))
    ensures mc.ctx == |m.trace| + 1 == |mc.trace| && mp.ctx == mc.ctx && mc.trace <= mp.trace
    ensures mc.trace[|m.trace|].op == make
  {
    SettingsKept(ans, mc, pre, WithCtx(lock));
    ExecGrows(ans, mc, pre);
  }

  lemma StationsSsl(ans: Oracle, mp: Machine, ms: Machine)
    requires ms == Issue(ans, mp, SslNew) && Succeeds(ans, mp, SslNew)
    ensures ms.ssl == |mp.trace| + 1 == |ms.trace| && ms.ctx == mp.ctx && mp.trace <= ms.trace
    ensures ms.trace[|mp.trace|].op == SslNew && ms.trace[|mp.trace|].on == mp.ctx
  {
  }

  lemma StationsMake(ans: Oracle, make: Op, pre: seq<Instr>, post: seq<Instr>, lock: bool,
                     m: Machine, mc: Machine, mp: Machine, ms: Machine, m1: Machine)
    requires Stations(ans, make, pre, post, m, mc, mp, ms, m1) && make.CtxNew? && Keeps(pre, WithCtx(lock))
    ensures mc.ctx == |m.trace| + 1 < ms.ssl == |ms.trace| <= |m1.trace| && ms.ctx == mc.ctx
    ensures m1.trace[mc.ctx - 1].op == make
    ensures m1.trace[ms.ssl - 1].op == SslNew && m1.trace[ms.ssl - 1].on == mc.ctx
  {
    StationsCtx(ans, make, pre, lock, m, mc, mp);
    StationsSsl(ans, mp, ms);
    ExecGrows(ans, ms, post);
    assert m1.trace[|m.trace|] == mc.trace[|m.trace|];
    assert m1.trace[|mp.trace|] == ms.trace[|mp.trace|];
  }

  lemma StationsTail(ans: Oracle, post: seq<Instr>, lock: bool, ms: Machine, m1: Machine)
    requires Exec(ans, ms, post) == (m1, EspOk) && Keeps(post, WithSsl(lock)) && ms.ssl == |ms.trace|
    ensures m1.ctx == ms.ctx && m1.ssl == ms.ssl <= |m1.trace|
    ensures Made(m1.trace[m1.ssl..], m1.ctx, m1.ssl, ProgramOps(post))
  {
    ExecSuccess(ans, ms, post);
    PostOperands(ans, ms, post, WithSsl(lock));
  }

  lemma StationsOpen(ans: Oracle, make: Op, pre: seq<Instr>, post: seq<Instr>, lock: bool,
                     m: Machine, mc: Machine, mp: Machine, ms: Machine, m1: Machine)
    requires Stations(ans, make, pre, post, m, mc, mp, ms, m1)
    requires make.CtxNew? && Keeps(pre, WithCtx(lock)) && Keeps(post, WithSsl(lock))
    ensures m1.ctx == |m.trace| + 1 && Opened(m1.trace, m1.ctx, m1.ssl, make, ProgramOps(post))
  {
    StationsMake(ans, make, pre, post, lock, m, mc, mp, ms, m1);
    StationsTail(ans, post, lock, ms, m1);
  }

  /** The two creations and what follows them in a successful program of the common shape */
  lemma AssembledCalls(ans: Oracle, m: Machine, make: Op, pre: seq<Instr>, post: seq<Instr>, lock: bool, m1: Machine)
    requires make.CtxNew? && Keeps(pre, WithCtx(lock)) && Keeps(post, WithSsl(lock))
    requires Exec(ans, m, Assemble(make, pre, post)) == (m1, EspOk)
    ensures m1.ctx == |m.trace| + 1 && Opened(m1.trace, m1.ctx, m1.ssl, make, ProgramOps(post))
  {
    var mc, mp, ms, m' := VisitStations(ans, m, make, pre, post);
    StationsOpen(ans, make, pre, post, lock, m, mc, mp, ms, m1);
  }

  lemma ClientOpened(ans: Oracle, m: Machine, b: Build, cfg: ClientCfg, host: seq<byte>,
                     store: Option<seq<byte>>, lock: bool, fd: int, m1: Machine)
    requires Exec(ans, m, ClientProgram(b, cfg, host, store, lock, fd)) == (m1, EspOk)
    ensures Opened(m1.trace, m1.ctx, m1.ssl, CtxNew(false, b.tls13), ProgramOps(ClientPost(b, cfg, host, fd)))
  {
    PreKeeps(b, cfg, store, lock);
    PostKeeps(b, cfg, host, fd, lock);
    AssembledCalls(ans, m, CtxNew(false, b.tls13), ClientPre(b, cfg, store, lock), ClientPost(b, cfg, host, fd),
                   lock, m1);
  }

  /** A successful client configuration asked for a client CTX of the built-in version, and made exactly these
      calls, in order, on its own SSL and CTX after making the SSL: the name to check and the same name as
      SNI, unless told to skip them; the ALPN protocols in the order of the list; the OCSP options if built
      in; the socket. */
  lemma ClientCalls(ans: Oracle, m: Machine, b: Build, cfg: ClientCfg, host: seq<byte>,
                    store: Option<seq<byte>>, lock: bool, fd: int, m1: Machine) returns (name: seq<byte>)
    requires Exec(ans, m, ClientProgram(b, cfg, host, store, lock, fd)) == (m1, EspOk)
    ensures IsHostName(cfg, host, name)
    ensures Opened(m1.trace, m1.ctx, m1.ssl, CtxNew(false, b.tls13),
                   CallsAfterSsl(b, cfg.skipCommonName, name, Protos(cfg), fd))
  {
    name := HostName(cfg, host);
    ClientOpened(ans, m, b, cfg, host, store, lock, fd, m1);
    assert cfg.alpnProtos.Some? ==> b.alpn by {
      ClientSucceedsIff(ans, m, b, cfg, host, store, lock, fd);
    }
    PostOps(b, cfg, host, fd);
  }

  /** A successful server configuration asked for a server CTX, and attached the socket to its SSL. */
  lemma ServerCalls(ans: Oracle, m: Machine, b: Build, cfg: ServerCfg, fd: int, m1: Machine)
    requires Exec(ans, m, ServerProgram(b, cfg, fd)) == (m1, EspOk)
    ensures Opened(m1.trace, m1.ctx, m1.ssl, CtxNew(true, b.tls13), [SetFd(fd)])
  {
    ServerPreKeeps(cfg, true);
    OneKeeps(Do(SetFd(fd), EspFail), WithSsl(true));
    AssembledCalls(ans, m, CtxNew(true, b.tls13), ServerPre(cfg), ServerPost(fd), true, m1);
    assert ServerPost(fd)[1..] == [] && ProgramOps(ServerPost(fd)) == [SetFd(fd)];
  }

  // ----- ALPN, identity and suites of a successful configuration

  lemma Between(head: seq<Op>, mid: seq<Op>, rest: seq<Op>)
    ensures var ops := head + mid + rest;
            && (forall i :: 0 <= i < |head| ==> ops[i] == head[i])
            && (forall i :: 0 <= i < |mid| ==> ops[|head| + i] == mid[i])
            && (forall i :: |head| + |mid| <= i < |ops| ==> ops[i] == rest[i - |head| - |mid|])
  {
  }

  predicate NoAlpn(ops: seq<Op>) {
    forall i :: 0 <= i < |ops| ==> !ops[i].UseAlpn?
  }

  lemma NameHasNoAlpn(skipName: bool, name: seq<byte>)
    ensures NoAlpn(if skipName then [] else NameCalls(name))
  {
  }

  lemma OcspHasNoAlpn(b: Build, fd: int)
    ensures NoAlpn(OcspCalls(b) + [SetFd(fd)])
  {
  }

  /** Exactly the calls from call k on are the ALPN ones. */
  predicate AlpnAt(ops: seq<Op>, k: nat, protos: seq<cstring>) {
    && k + |protos| <= |ops|
    && (forall i :: 0 <= i < |protos| ==> ops[k + i] == UseAlpn(protos[i]))
    && (forall j :: 0 <= j < |ops| && ops[j].UseAlpn? ==> k <= j < k + |protos|)
  }

  lemma AlpnBetween(head: seq<Op>, protos: seq<cstring>, rest: seq<Op>)
    requires NoAlpn(head) && NoAlpn(rest)
    ensures AlpnAt(head + AlpnCalls(protos) + rest, |head|, protos)
  {
    Between(head, AlpnCalls(protos), rest);
  }

  lemma AlpnAmongCalls(b: Build, skipName: bool, name: seq<byte>, protos: seq<cstring>, fd: int)
    ensures AlpnAt(CallsAfterSsl(b, skipName, name, protos, fd), if skipName then 0 else 4, protos)
  {
    var head := if skipName then [] else NameCalls(name);
    var rest := OcspCalls(b) + [SetFd(fd)];
    NameHasNoAlpn(skipName, name);
    OcspHasNoAlpn(b, fd);
    AlpnBetween(head, protos, rest);
    Associate(head, AlpnCalls(protos), OcspCalls(b), [SetFd(fd)]);
    assert head + AlpnCalls(protos) + rest == head + (AlpnCalls(protos) + rest);
  }

  /** Among these calls, from call k on, exactly these protocols were offered to `ssl`, in order, and no others. */
  predicate OfferedExactly(t: Trace, ssl: nat, k: nat, protos: seq<cstring>) {
    && k + |protos| <= |t|
    && (forall i :: 0 <= i < |protos| ==> t[k + i] == Event(UseAlpn(protos[i]), ssl, WOLFSSL_SUCCESS))
    && (forall j :: 0 <= j < |t| && t[j].op.UseAlpn? ==> k <= j < k + |protos|)
  }

  lemma AlpnEvents(t: Trace, ctx: nat, ssl: nat, ops: seq<Op>, k: nat, protos: seq<cstring>)
    requires Made(t, ctx, ssl, ops) && AlpnAt(ops, k, protos)
    ensures OfferedExactly(t, ssl, k, protos)
  {
    forall i | 0 <= i < |protos| ensures t[k + i] == Event(UseAlpn(protos[i]), ssl, WOLFSSL_SUCCESS) {
      assert ops[k + i] == t[k + i].op;
    }
    forall j | 0 <= j < |t| && t[j].op.UseAlpn? ensures k <= j < k + |protos| {
      assert ops[j] == t[j].op;
    }
  }

  /** A successful client configuration with ALPN protocols offered exactly that list, in order, to its SSL. */
  lemma ClientOffersAlpn(ans: Oracle, m: Machine, b: Build, cfg: ClientCfg, host: seq<byte>,
                         store: Option<seq<byte>>, lock: bool, fd: int, m1: Machine)
    requires Exec(ans, m, ClientProgram(b, cfg, host, store, lock, fd)) == (m1, EspOk) && cfg.alpnProtos.Some?
    ensures m1.ssl <= |m1.trace|
    ensures OfferedExactly(m1.trace[m1.ssl..], m1.ssl, if cfg.skipCommonName then 0 else 4, cfg.alpnProtos.value)
  {
    var name := ClientCalls(ans, m, b, cfg, host, store, lock, fd, m1);
    var protos := cfg.alpnProtos.value;
    AlpnAmongCalls(b, cfg.skipCommonName, name, protos, fd);
    AlpnEvents(m1.trace[m1.ssl..], m1.ctx, m1.ssl, CallsAfterSsl(b, cfg.skipCommonName, name, protos, fd),
               if cfg.skipCommonName then 0 else 4, protos);
  }

  /** The format a file is loaded in is PEM exactly if its header occurs in it: "-----BEGIN CERTIFICATE-----"
      for a certificate, "-----BEGIN " for a private key. */
  ghost predicate FormatsByHeader(ops: seq<Op>, cert: seq<byte>, key: seq<byte>) {
    && (exists i :: 0 <= i < |ops| && ops[i].UseCertChain? && ops[i].cert == cert)
    && (exists i :: 0 <= i < |ops| && ops[i].UsePrivateKey? && ops[i].priv == key)
    && (forall i :: 0 <= i < |ops| && ops[i].UseCertChain? ==>
          ops[i].cert == cert && (ops[i].certFormat == Pem <==> OccursIn(BEGIN_CERTIFICATE, cert)))
    && (forall i :: 0 <= i < |ops| && ops[i].UsePrivateKey? ==>
          ops[i].priv == key && (ops[i].privFormat == Pem <==> OccursIn(BEGIN, key)))
  }

  predicate NoFiles(ops: seq<Op>) {
    forall i :: 0 <= i < |ops| ==> !ops[i].UseCertChain? && !ops[i].UsePrivateKey?
  }

  lemma SourceHasNoFiles(b: Build, s: Source, mode: VerifyMode)
    ensures NoFiles(Establishes(b, s, mode)) && NoFiles(OcspSettings(b))
  {
  }

  lemma IdentityByHeader(first: seq<Op>, cert: seq<byte>, key: seq<byte>, last: seq<Op>)
    requires NoFiles(first) && NoFiles(last)
    ensures FormatsByHeader(first + Identity(Some(cert), Some(key)) + last, cert, key)
  {
    var (id, n) := (Identity(Some(cert), Some(key)), |first|);
    var ops := first + id + last;
    assert ops[n] == id[0] && ops[n + 1] == id[1];
    assert forall i :: n + 2 <= i < |ops| ==> ops[i] == last[i - n - 2];
  }

  lemma ClientSource(ans: Oracle, m: Machine, b: Build, cfg: ClientCfg, host: seq<byte>,
                     store: Option<seq<byte>>, lock: bool, fd: int, m1: Machine) returns (source: Source)
    requires Lawful(m.trace) && Exec(ans, m, ClientProgram(b, cfg, host, store, lock, fd)) == (m1, EspOk)
    ensures Settings(m1.trace, m1.ctx)
            == Establishes(b, source, VerifyPeer) + Identity(cfg.cert, cfg.key) + OcspSettings(b)
  {
    ClientTrust(ans, m, b, cfg, host, store, lock, fd);
    source := ChosenSource(b, cfg, store).value;
  }

  /** The files of a client with an identity of its own reach its CTX whole and in the format their header
      says. */
  lemma ClientLoadsIdentity(ans: Oracle, m: Machine, b: Build, cfg: ClientCfg, host: seq<byte>,
                            store: Option<seq<byte>>, lock: bool, fd: int, m1: Machine)
    requires Lawful(m.trace) && cfg.cert.Some? && cfg.key.Some?
    requires Exec(ans, m, ClientProgram(b, cfg, host, store, lock, fd)) == (m1, EspOk)
    ensures FormatsByHeader(Settings(m1.trace, m1.ctx), cfg.cert.value, cfg.key.value)
  {
    var source := ClientSource(ans, m, b, cfg, host, store, lock, fd, m1);
    SourceHasNoFiles(b, source, VerifyPeer);
    IdentityByHeader(Establishes(b, source, VerifyPeer), cfg.cert.value, cfg.key.value, OcspSettings(b));
  }

  /** ... and so do a server's. */
  lemma ServerLoadsIdentity(ans: Oracle, m: Machine, b: Build, cfg: ServerCfg, fd: int, m1: Machine)
    requires Lawful(m.trace) && Exec(ans, m, ServerProgram(b, cfg, fd)) == (m1, EspOk)
    ensures cfg.cert.Some? && cfg.key.Some?
    ensures FormatsByHeader(Settings(m1.trace, m1.ctx), cfg.cert.value, cfg.key.value)
  {
    ServerTrustSettled(ans, m, b, cfg, fd, true);
    var source := if cfg.cacert.Some? then CaCertificates(cfg.cacert.value) else Nobody;
    var first := Establishes(b, source, VerifyPeerAndRequireCert);
    SourceHasNoFiles(b, source, VerifyPeerAndRequireCert);
    IdentityByHeader(first, cfg.cert.value, cfg.key.value, []);
    assert first + Identity(cfg.cert, cfg.key) + [] == first + Identity(cfg.cert, cfg.key);
  }

  predicate EndsWith(s: string, suffix: string) {
    |suffix| <= |s| && s[|s| - |suffix|..] == suffix
  }

  const DHE := "DHE-PSK-AES128-GCM-SHA256"
  const ECDHE := "ECDHE-PSK-AES128-GCM-SHA256"
  const TLS13 := ":TLS13-AES128-GCM-SHA256"

  lemma Suffixes()
    ensures !EndsWith(DHE, TLS13) && !EndsWith(ECDHE, TLS13)
    ensures !EndsWith("PSK-NULL-SHA256", TLS13) && !EndsWith("PSK-AES128-CBC-SHA256", TLS13)
  {
    assert TLS13[0] == ':' && DHE[|DHE| - |TLS13|..][0] == 'H' && ECDHE[|ECDHE| - |TLS13|..][0] == 'H';
  }

  lemma Extended(s: string)
    ensures EndsWith(s + TLS13, TLS13)
  {
    assert (s + TLS13)[|s|..] == TLS13;
  }

  lemma FirstLetter(s: string)
    ensures DHE <= s ==> s != [] && s[0] == 'D'
    ensures ECDHE <= s ==> s != [] && s[0] == 'E'
  {
    assert DHE[0] == 'D' && ECDHE[0] == 'E';
  }

  lemma Tls13SuiteFits(b: Build)
    ensures EndsWith(CipherList(b), TLS13) <==> b.tls13 && b.aesGcm && (!b.noDh || b.ecc)
  {
    Suffixes();
    Extended(DHE);
    Extended(ECDHE);
  }

  /** The suites asked for are ones the build has: DHE-PSK exactly if there is AES-GCM and DH, ECDHE-PSK exactly
      if there is AES-GCM and ECC but no DH, and the TLS 1.3 suite besides exactly if one of these is asked
      for and TLS 1.3 is built in. */
  lemma SuitesFitBuild(b: Build)
    ensures DHE <= CipherList(b) <==> b.aesGcm && !b.noDh
    ensures ECDHE <= CipherList(b) <==> b.aesGcm && b.noDh && b.ecc
    ensures EndsWith(CipherList(b), TLS13) <==> b.tls13 && b.aesGcm && (!b.noDh || b.ecc)
  {
    Tls13SuiteFits(b);
    FirstLetter(CipherList(b));
  }
}

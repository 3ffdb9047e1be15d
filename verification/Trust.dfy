/** What wolfSSL has been told about a CTX: where trust comes from, which identity is presented, and
    whether all of that was in place when the SSL object was made from it. */
module Trust {
  import opened Platform
  import opened Ledger
  import opened Certificates
  import opened Program
  import opened Config

  /** Calls that change what SSL objects made from a CTX will do. */
  predicate IsSetting(op: Op) {
    op.LoadVerify? || op.UseCertChain? || op.UsePrivateKey? || op.SetVerify? || op.StoreCreds?
    || op.SetPskCallback? || op.SetCipherList? || op.EnableOcsp? || op.EnableOcspStapling?
  }

  /** The settings a CTX has accepted, in order. */
  function Settings(t: Trace, ctx: nat): seq<Op> {
    if t == [] then []
    else
      var e := t[|t| - 1];
      var before := Settings(t[..|t| - 1], ctx);
      if IsSetting(e.op) && e.on == ctx && Ok(e.op, e.ret) then before + [e.op] else before
  }

  /** The settings among the calls of a program. */
  function SettingsIn(p: seq<Instr>): seq<Op> {
    if p == [] then []
    else if p[0].Do? && IsSetting(p[0].op) then [p[0].op] + SettingsIn(p[1..])
    else SettingsIn(p[1..])
  }

  lemma {:induction false} SettingsInAppend(p: seq<Instr>, q: seq<Instr>)
    ensures SettingsIn(p + q) == SettingsIn(p) + SettingsIn(q)
  {
    if p == [] {
      assert p + q == q;
    } else {
      assert (p + q)[1..] == p[1..] + q;
      SettingsInAppend(p[1..], q);
    }
  }

  lemma SettingsSnoc(t: Trace, e: Event, ctx: nat)
    ensures Settings(t + [e], ctx) ==
            if IsSetting(e.op) && e.on == ctx && Ok(e.op, e.ret) then Settings(t, ctx) + [e.op] else Settings(t, ctx)
  {
    assert (t + [e])[..|t|] == t;
  }

  lemma SettingsIssue(ans: Oracle, m: Machine, op: Op, ctx: nat)
    ensures var m1 := Issue(ans, m, op);
            && Settings(m1.trace, ctx) ==
                 (if IsSetting(op) && m.ctx == ctx && Succeeds(ans, m, op) then Settings(m.trace, ctx) + [op]
                  else Settings(m.trace, ctx))
            && (!op.CtxNew? && !op.CtxFree? ==> m1.ctx == m.ctx)
            && (!op.SslNew? && !op.SslFree? ==> m1.ssl == m.ssl)
  {
    SettingsSnoc(m.trace, Event(op, Operand(m, op), Answer(ans, m.trace, op)), ctx);
    assert IsSetting(op) ==> Operand(m, op) == m.ctx;
  }

  /** Nothing was ever set on an object that does not exist yet. */
  lemma {:induction false} NoSettingsBeforeBirth(t: Trace, h: nat)
    requires Lawful(t) && h > |t|
    ensures Settings(t, h) == []
  {
    if t != [] {
      LiveBound(t[..|t| - 1]);
      NoSettingsBeforeBirth(t[..|t| - 1], h);
    }
  }

  /** An SSL once made stays with the program. */
  lemma {:induction false} SslStaysHeld(p: seq<Instr>, k: Known)
    requires Check(p, k).Some? && k.held.ssl
    ensures Check(p, k).value.held.ssl
  {
    if p != [] {
      SslStaysHeld(p[1..], if p[0].Refuse? then k else After(p[0].op, k).value);
    }
  }

  lemma Reassociate(a: seq<Op>, b: seq<Op>, c: seq<Op>)
    ensures (a + b) + c == a + (b + c)
  {
  }

  /** A successful program that makes no new objects has set exactly its settings, in order, on the
      CTX it works on. */
  lemma {:induction false} SettingsAfter(ans: Oracle, m: Machine, p: seq<Instr>, k: Known)
    requires Check(p, k).Some? && k.held.ctx && Check(p, k).value.held.ssl == k.held.ssl
    requires RealErrors(p) && Exec(ans, m, p).1 == EspOk
    ensures var m1 := Exec(ans, m, p).0;
            && m1.ctx == m.ctx && m1.ssl == m.ssl
            && Settings(m1.trace, m.ctx) == Settings(m.trace, m.ctx) + SettingsIn(p)
    decreases |p|
  {
    if p != [] {
      var op := p[0].op;
      var k1 := After(op, k).value;
      if op.SslNew? {
        SslStaysHeld(p[1..], k1);
        assert false;
      }
      SettingsIssue(ans, m, op, m.ctx);
      SettingsAfter(ans, Issue(ans, m, op), p[1..], k1);
      if IsSetting(op) {
        Reassociate(Settings(m.trace, m.ctx), [op], SettingsIn(p[1..]));
      }
    }
  }

  lemma SettingsKept(ans: Oracle, m: Machine, p: seq<Instr>, h: Held)
    requires Keeps(p, h) && h.ctx && Exec(ans, m, p).1 == EspOk
    ensures var m1 := Exec(ans, m, p).0;
            && m1.ctx == m.ctx && m1.ssl == m.ssl
            && Settings(m1.trace, m.ctx) == Settings(m.trace, m.ctx) + SettingsIn(p)
  {
    assert KeepsFrom(p, Known(h, Other));
    SettingsAfter(ans, m, p, Known(h, Other));
  }

  lemma SetOnOwnCtx(t0: Trace, m: Machine, k: Known, op: Op)
    requires Sane(t0, m, k) && After(op, k).Some? && IsSetting(op)
    ensures m.ctx > |t0|
  {
  }

  /** A program sets nothing on a CTX that is not its own. */
  lemma {:induction false} OthersUnset(ans: Oracle, t0: Trace, m: Machine, p: seq<Instr>, k: Known, h: nat)
    requires Sane(t0, m, k) && Check(p, k).Some? && h <= |t0|
    ensures Settings(Exec(ans, m, p).0.trace, h) == Settings(m.trace, h)
    decreases |p|
  {
    SettingsIssue(ans, m, HeapFree, h);
    if p != [] && p[0].Do? {
      var op := p[0].op;
      var m1 := Issue(ans, m, op);
      SettingsIssue(ans, m, op, h);
      SettingsIssue(ans, m1, HeapFree, h);
      if IsSetting(op) {
        SetOnOwnCtx(t0, m, k, op);
      }
      if Succeeds(ans, m, op) {
        IssueSound(ans, t0, m, k, op);
        OthersUnset(ans, t0, m1, p[1..], After(op, k).value, h);
      }
    }
  }

  // ----- sources of trust

  /** Who vouches for the peer. */
  datatype Source = CaCertificates(ca: seq<byte>) | SharedKey(hint: seq<byte>, key: seq<byte>) | Nobody

  /** The documented precedence: global store, then the configured certificate, then PSK, then an
      explicit decision not to verify.  None: nothing usable was configured. */
  function ChosenSource(b: Build, cfg: ClientCfg, store: Option<seq<byte>>): Option<Source> {
    if cfg.useGlobalStore then (if store.Some? then Some(CaCertificates(store.value)) else None)
    else if cfg.cacert.Some? then Some(CaCertificates(cfg.cacert.value))
    else if b.psk && cfg.psk.Some? then
      var p := cfg.psk.value;
      if p.key.Some? && p.hint.Some? && 0 < |p.key.value| <= PSK_MAX_KEY_LEN && |p.hint.value| < b.IdMax()
      then Some(SharedKey(p.hint.value, p.key.value)) else None
    else if b.skipServerVerify then Some(Nobody)
    else None
  }

  /** The settings that put a source in place: a CA certificate as shown to wolfSSL, with the peer
      then required to verify; or the PSK credentials, callback and suites; or no verification. */
  function Establishes(b: Build, s: Source, peerMode: VerifyMode): seq<Op> {
    match s
    case CaCertificates(ca) => [LoadVerify(Shown(ca).0, Shown(ca).1), SetVerify(peerMode)]
    case SharedKey(hint, key) => [StoreCreds(hint, key), SetPskCallback, SetCipherList(CipherList(b))]
    case Nobody => [SetVerify(VerifyNone)]
  }

  function Identity(cert: Option<seq<byte>>, key: Option<seq<byte>>): seq<Op> {
    if cert.Some? && key.Some? then
      [UseCertChain(cert.value, CertFormat(cert.value)), UsePrivateKey(key.value, KeyFormat(key.value))]
    else []
  }

  predicate IsSource(op: Op) {
    op.LoadVerify? || op.SetPskCallback? || op == SetVerify(VerifyNone)
  }

  /** The settings name one source of trust, and only one. */
  ghost predicate ExactlyOneSource(ops: seq<Op>) {
    exists i :: 0 <= i < |ops| && IsSource(ops[i]) && forall j :: 0 <= j < |ops| && j != i ==> !IsSource(ops[j])
  }

  function OcspSettings(b: Build): seq<Op> {
    if b.ocsp then [EnableOcsp(b.ocspCheckAll), EnableOcspStapling] else []
  }

  lemma OneSource(b: Build, s: Source, mode: VerifyMode, rest: seq<Op>)
    requires mode != VerifyNone
    requires forall j :: 0 <= j < |rest| ==> !IsSource(rest[j])
    ensures ExactlyOneSource(Establishes(b, s, mode) + rest)
  {
    var ops := Establishes(b, s, mode) + rest;
    var i := if s.SharedKey? then 1 else 0;
    assert IsSource(ops[i]);
    forall j | 0 <= j < |ops| && j != i ensures !IsSource(ops[j]) {
      if j >= |Establishes(b, s, mode)| {
        assert ops[j] == rest[j - |Establishes(b, s, mode)|];
      }
    }
  }

  lemma OneSourceSettled(b: Build, s: Source, mode: VerifyMode, cert: Option<seq<byte>>, key: Option<seq<byte>>)
    requires mode != VerifyNone
    ensures ExactlyOneSource(Establishes(b, s, mode) + Identity(cert, key))
    ensures ExactlyOneSource(Establishes(b, s, mode) + Identity(cert, key) + OcspSettings(b))
  {
    OneSource(b, s, mode, Identity(cert, key));
    OneSource(b, s, mode, Identity(cert, key) + OcspSettings(b));
    Reassociate(Establishes(b, s, mode), Identity(cert, key), OcspSettings(b));
  }

  // ----- what a successful configuration has set

  lemma {:induction false} StraightParts(p: seq<Instr>, q: seq<Instr>)
    requires Straight(p + q)
    ensures Straight(p) && Straight(q)
  {
    if p == [] {
      assert p + q == q;
    } else {
      assert (p + q)[1..] == p[1..] + q;
      StraightParts(p[1..], q);
    }
  }

  lemma LoadAndVerifySettings(cert: seq<byte>, mode: VerifyMode)
    ensures SettingsIn(LoadAndVerify(cert, mode)) == [LoadVerify(Shown(cert).0, Shown(cert).1), SetVerify(mode)]
  {
    var load := LoadCa(cert, CertVerifySetupFailed, CertVerifySetupFailed);
    SettingsInAppend(load, [Do(SetVerify(mode), EspFail)]);
    assert [Do(SetVerify(mode), EspFail)][1..] == [];
    if |load| == 3 {
      assert load[1..][1..] == load[2..] && load[2..][1..] == [];
      assert SettingsIn(load[2..]) == [];
    } else {
      assert load[1..] == [];
    }
  }

  lemma TrustSettings(b: Build, cfg: ClientCfg, store: Option<seq<byte>>, lock: bool)
    requires Straight(TrustProgram(b, cfg, store, lock))
    ensures ChosenSource(b, cfg, store).Some?
    ensures SettingsIn(TrustProgram(b, cfg, store, lock))
            == Establishes(b, ChosenSource(b, cfg, store).value, VerifyPeer)
  {
    var p := TrustProgram(b, cfg, store, lock);
    if cfg.useGlobalStore {
      assert store.Some?;
      LoadAndVerifySettings(store.value, VerifyPeer);
    } else if cfg.cacert.Some? {
      LoadAndVerifySettings(cfg.cacert.value, VerifyPeer);
    } else if b.psk && cfg.psk.Some? {
      assert |p| == 4;
      assert p[1..][1..] == p[2..] && p[2..][1..] == p[3..] && p[3..][1..] == [];
      assert SettingsIn(p[3..]) == [p[3].op];
      assert SettingsIn(p[2..]) == [p[2].op, p[3].op];
      assert SettingsIn(p[1..]) == [p[1].op, p[2].op, p[3].op];
    } else {
      assert p[1..] == [];
    }
  }

  lemma IdentitySettings(cert: Option<seq<byte>>, key: Option<seq<byte>>, needed: bool)
    requires Straight(IdentityProgram(cert, key, needed))
    ensures SettingsIn(IdentityProgram(cert, key, needed)) == Identity(cert, key)
    ensures (cert.Some? <==> key.Some?) && (needed ==> cert.Some?)
  {
    var p := IdentityProgram(cert, key, needed);
    if |p| == 2 {
      assert p[1..][1..] == [] && SettingsIn(p[1..]) == [p[1].op];
    }
  }

  lemma {:induction false} ProtosSettings(protos: seq<cstring>)
    ensures SettingsIn(UseProtos(protos)) == []
  {
    if protos != [] {
      ProtosSettings(protos[1..]);
      assert UseProtos(protos)[1..] == UseProtos(protos[1..]);
    }
  }

  lemma HostSettings(cfg: ClientCfg, host: seq<byte>)
    ensures SettingsIn(HostProgram(cfg, host)) == []
  {
    var h := HostProgram(cfg, host);
    if |h| == 4 {
      assert h[1..][1..] == h[2..] && h[2..][1..] == h[3..] && h[3..][1..] == [];
      assert SettingsIn(h[3..]) == [] && SettingsIn(h[2..]) == [] && SettingsIn(h[1..]) == [];
    }
  }

  lemma OcspProgramSettings(b: Build)
    ensures SettingsIn(OcspProgram(b)) == OcspSettings(b)
  {
    var o := OcspProgram(b);
    if |o| == 3 {
      assert o[1..][1..] == o[2..] && o[2..][1..] == [];
      assert SettingsIn(o[2..]) == [] && SettingsIn(o[1..]) == [o[1].op];
    }
  }

  lemma PostSettings(b: Build, cfg: ClientCfg, host: seq<byte>, fd: int)
    ensures SettingsIn(ClientPost(b, cfg, host, fd)) == OcspSettings(b)
  {
    var (h, a, o, f) := (HostProgram(cfg, host), AlpnProgram(b, cfg), OcspProgram(b), [Do(SetFd(fd), EspFail)]);
    SettingsInAppend(h, a + (o + f));
    SettingsInAppend(a, o + f);
    SettingsInAppend(o, f);
    assert f[1..] == [] && SettingsIn(f) == [];
    HostSettings(cfg, host);
    OcspProgramSettings(b);
    if cfg.alpnProtos.Some? && b.alpn {
      ProtosSettings(cfg.alpnProtos.value);
    } else if cfg.alpnProtos.Some? {
      assert a[1..] == [];
    }
  }

  /** The stations of a program of the common shape: after making the CTX, after configuring it,
      after making the SSL, at the end. */
  ghost predicate Stations(ans: Oracle, make: Op, pre: seq<Instr>, post: seq<Instr>,
                           m: Machine, mc: Machine, mp: Machine, ms: Machine, m1: Machine)
  {
    && mc == Issue(ans, m, make) && Succeeds(ans, m, make)
    && Exec(ans, mc, pre) == (mp, EspOk)
    && ms == Issue(ans, mp, SslNew) && Succeeds(ans, mp, SslNew)
    && Exec(ans, ms, post) == (m1, EspOk)
  }

  lemma VisitStations(ans: Oracle, m: Machine, make: Op, pre: seq<Instr>, post: seq<Instr>)
      returns (mc: Machine, mp: Machine, ms: Machine, m1: Machine)
    requires RealErrors(pre) && Exec(ans, m, Assemble(make, pre, post)).1 == EspOk
    ensures m1 == Exec(ans, m, Assemble(make, pre, post)).0
    ensures Stations(ans, make, pre, post, m, mc, mp, ms, m1)
  {
    var tail := [Do(SslNew, SslSetupFailed)] + post;
    mc := Issue(ans, m, make);
    ExecOne(ans, m, Do(make, CtxSetupFailed), pre + tail);
    ExecAppend(ans, mc, pre, tail);
    mp := Exec(ans, mc, pre).0;
    ms := Issue(ans, mp, SslNew);
    ExecOne(ans, mp, Do(SslNew, SslSetupFailed), post);
    m1 := Exec(ans, ms, post).0;
  }

  lemma StationSettings(ans: Oracle, make: Op, pre: seq<Instr>, post: seq<Instr>, lock: bool,
                        m: Machine, mc: Machine, mp: Machine, ms: Machine, m1: Machine)
    requires Stations(ans, make, pre, post, m, mc, mp, ms, m1) && Settings(mc.trace, mc.ctx) == []
    requires Keeps(pre, WithCtx(lock)) && Keeps(post, WithSsl(lock))
    ensures mp.ctx == ms.ctx == m1.ctx == mc.ctx && m1.ssl == ms.ssl
    ensures Settings(mp.trace, mc.ctx) == SettingsIn(pre)
    ensures Settings(m1.trace, mc.ctx) == SettingsIn(pre) + SettingsIn(post)
  {
    SettingsKept(ans, mc, pre, WithCtx(lock));
    assert [] + SettingsIn(pre) == SettingsIn(pre);
    SettingsIssue(ans, mp, SslNew, mc.ctx);
    SettingsKept(ans, ms, post, WithSsl(lock));
  }

  lemma StationTraces(ans: Oracle, make: Op, pre: seq<Instr>, post: seq<Instr>,
                      m: Machine, mc: Machine, mp: Machine, ms: Machine, m1: Machine)
    requires Stations(ans, make, pre, post, m, mc, mp, ms, m1) && make.CtxNew?
    ensures mc.ctx == |m.trace| + 1 == |mc.trace| <= |mp.trace| && ms.ssl == |mp.trace| + 1 <= |m1.trace|
    ensures m1.trace[..|mp.trace|] == mp.trace
  {
    ExecGrows(ans, mc, pre);
    ExecGrows(ans, ms, post);
    assert m1.trace[..|mp.trace|] == ms.trace[..|mp.trace|];
  }

  lemma NewCtxIsBlank(ans: Oracle, m: Machine, make: Op)
    requires Lawful(m.trace) && make.CtxNew? && Succeeds(ans, m, make)
    ensures var mc := Issue(ans, m, make); Settings(mc.trace, mc.ctx) == []
  {
    NoSettingsBeforeBirth(m.trace, |m.trace| + 1);
    SettingsIssue(ans, m, make, |m.trace| + 1);
  }

  /** On success both objects are new, and the CTX had exactly the settings of the first part when
      the SSL was made. */
  lemma SettledBeforeSsl(ans: Oracle, m: Machine, make: Op, pre: seq<Instr>, post: seq<Instr>, lock: bool)
      returns (m1: Machine)
    requires Lawful(m.trace) && make.CtxNew?
    requires Keeps(pre, WithCtx(lock)) && Keeps(post, WithSsl(lock))
    requires Exec(ans, m, Assemble(make, pre, post)).1 == EspOk
    ensures m1 == Exec(ans, m, Assemble(make, pre, post)).0
    ensures |m.trace| < m1.ctx < m1.ssl <= |m1.trace|
    ensures Settings(m1.trace[..m1.ssl - 1], m1.ctx) == SettingsIn(pre)
    ensures Settings(m1.trace, m1.ctx) == SettingsIn(pre) + SettingsIn(post)
  {
    var mc, mp, ms;
    mc, mp, ms, m1 := VisitStations(ans, m, make, pre, post);
    NewCtxIsBlank(ans, m, make);
    StationSettings(ans, make, pre, post, lock, m, mc, mp, ms, m1);
    StationTraces(ans, make, pre, post, m, mc, mp, ms, m1);
  }

  lemma PreSettings(b: Build, cfg: ClientCfg, store: Option<seq<byte>>, lock: bool)
    requires Straight(ClientPre(b, cfg, store, lock))
    ensures ChosenSource(b, cfg, store).Some? && !cfg.bundleAttach && (cfg.cert.Some? <==> cfg.key.Some?)
    ensures SettingsIn(ClientPre(b, cfg, store, lock)) ==
            Establishes(b, ChosenSource(b, cfg, store).value, VerifyPeer) + Identity(cfg.cert, cfg.key)
  {
    var (t, i) := (TrustProgram(b, cfg, store, lock), IdentityProgram(cfg.cert, cfg.key, false));
    StraightParts(BundleProgram(cfg), t + i);
    StraightParts(t, i);
    assert BundleProgram(cfg) == [];
    assert ClientPre(b, cfg, store, lock) == t + i;
    SettingsInAppend(t, i);
    TrustSettings(b, cfg, store, lock);
    IdentitySettings(cfg.cert, cfg.key, false);
  }

  /** Nothing in the first part of a successful program refuses. */
  lemma PreIsStraight(ans: Oracle, m: Machine, make: Op, pre: seq<Instr>, post: seq<Instr>, lock: bool)
    requires Owning(Assemble(make, pre, post), lock) && Exec(ans, m, Assemble(make, pre, post)).1 == EspOk
    ensures Straight(pre)
  {
    var tail := [Do(SslNew, SslSetupFailed)] + post;
    ExecSuccess(ans, m, Assemble(make, pre, post));
    StraightParts([Do(make, CtxSetupFailed)], pre + tail);
    StraightParts(pre, tail);
  }

  lemma ClientPreSettings(ans: Oracle, m: Machine, b: Build, cfg: ClientCfg, host: seq<byte>,
                          store: Option<seq<byte>>, lock: bool, fd: int)
    requires Exec(ans, m, ClientProgram(b, cfg, host, store, lock, fd)).1 == EspOk
    ensures ChosenSource(b, cfg, store).Some? && !cfg.bundleAttach && (cfg.cert.Some? <==> cfg.key.Some?)
    ensures SettingsIn(ClientPre(b, cfg, store, lock)) ==
            Establishes(b, ChosenSource(b, cfg, store).value, VerifyPeer) + Identity(cfg.cert, cfg.key)
  {
    ClientOwning(b, cfg, host, store, lock, fd);
    PreIsStraight(ans, m, CtxNew(false, b.tls13), ClientPre(b, cfg, store, lock), ClientPost(b, cfg, host, fd), lock);
    PreSettings(b, cfg, store, lock);
  }

  lemma ClientSettledBeforeSsl(ans: Oracle, m: Machine, b: Build, cfg: ClientCfg, host: seq<byte>,
                               store: Option<seq<byte>>, lock: bool, fd: int) returns (m1: Machine)
    requires Lawful(m.trace)
    requires Exec(ans, m, ClientProgram(b, cfg, host, store, lock, fd)).1 == EspOk
    ensures m1 == Exec(ans, m, ClientProgram(b, cfg, host, store, lock, fd)).0
    ensures |m.trace| < m1.ctx < m1.ssl <= |m1.trace|
    ensures var pre := SettingsIn(ClientPre(b, cfg, store, lock));
            Settings(m1.trace[..m1.ssl - 1], m1.ctx) == pre && Settings(m1.trace, m1.ctx) == pre + OcspSettings(b)
  {
    PreKeeps(b, cfg, store, lock);
    PostKeeps(b, cfg, host, fd, lock);
    m1 := SettledBeforeSsl(ans, m, CtxNew(false, b.tls13), ClientPre(b, cfg, store, lock),
                           ClientPost(b, cfg, host, fd), lock);
    PostSettings(b, cfg, host, fd);
  }

  /** Trust of a successful client configuration: exactly one source, chosen by the documented
      precedence, complete together with the identity pair before the SSL object is made. */
  lemma ClientTrust(ans: Oracle, m: Machine, b: Build, cfg: ClientCfg, host: seq<byte>,
                    store: Option<seq<byte>>, lock: bool, fd: int)
    requires Lawful(m.trace)
    requires Exec(ans, m, ClientProgram(b, cfg, host, store, lock, fd)).1 == EspOk
    ensures ChosenSource(b, cfg, store).Some? && !cfg.bundleAttach && (cfg.cert.Some? <==> cfg.key.Some?)
    ensures var m1 := Exec(ans, m, ClientProgram(b, cfg, host, store, lock, fd)).0;
            var settled := Establishes(b, ChosenSource(b, cfg, store).value, VerifyPeer)
                           + Identity(cfg.cert, cfg.key);
            && |m.trace| < m1.ctx < m1.ssl <= |m1.trace|
            && Settings(m1.trace[..m1.ssl - 1], m1.ctx) == settled
            && Settings(m1.trace, m1.ctx) == settled + OcspSettings(b)
            && ExactlyOneSource(Settings(m1.trace, m1.ctx))
  {
    ClientPreSettings(ans, m, b, cfg, host, store, lock, fd);
    var m1 := ClientSettledBeforeSsl(ans, m, b, cfg, host, store, lock, fd);
    OneSourceSettled(b, ChosenSource(b, cfg, store).value, VerifyPeer, cfg.cert, cfg.key);
  }

  /** The whole CTX is settled when the SSL is made, unless OCSP is built in: the OCSP options are set
      on the CTX only afterwards. */
  lemma SettledUnlessOcsp(ans: Oracle, m: Machine, b: Build, cfg: ClientCfg, host: seq<byte>,
                          store: Option<seq<byte>>, lock: bool, fd: int)
    requires Lawful(m.trace)
    requires Exec(ans, m, ClientProgram(b, cfg, host, store, lock, fd)).1 == EspOk
    ensures var m1 := Exec(ans, m, ClientProgram(b, cfg, host, store, lock, fd)).0;
            && 1 <= m1.ssl <= |m1.trace| && m1.ctx <= |m1.trace| && ExactlyOneSource(Settings(m1.trace, m1.ctx))
            && (Settings(m1.trace[..m1.ssl - 1], m1.ctx) == Settings(m1.trace, m1.ctx) <==> !b.ocsp)
  {
    ClientTrust(ans, m, b, cfg, host, store, lock, fd);
    var settled := Establishes(b, ChosenSource(b, cfg, store).value, VerifyPeer) + Identity(cfg.cert, cfg.key);
    assert |settled + OcspSettings(b)| == |settled| + |OcspSettings(b)|;
  }

  lemma ServerIsStraight(ans: Oracle, m: Machine, b: Build, cfg: ServerCfg, fd: int, lock: bool)
    requires Exec(ans, m, ServerProgram(b, cfg, fd)).1 == EspOk
    ensures Straight(ServerPre(cfg))
  {
    ServerOwning(b, cfg, fd, lock);
    PreIsStraight(ans, m, CtxNew(true, b.tls13), ServerPre(cfg), ServerPost(fd), lock);
  }

  lemma ServerPostSettings(fd: int)
    ensures SettingsIn(ServerPost(fd)) == []
  {
    assert ServerPost(fd)[1..] == [];
  }

  lemma ServerSettledBeforeSsl(ans: Oracle, m: Machine, b: Build, cfg: ServerCfg, fd: int, lock: bool)
      returns (m1: Machine)
    requires Lawful(m.trace)
    requires Exec(ans, m, ServerProgram(b, cfg, fd)).1 == EspOk
    ensures m1 == Exec(ans, m, ServerProgram(b, cfg, fd)).0
    ensures |m.trace| < m1.ctx < m1.ssl <= |m1.trace|
    ensures Settings(m1.trace[..m1.ssl - 1], m1.ctx) == SettingsIn(ServerPre(cfg)) == Settings(m1.trace, m1.ctx)
  {
    ServerPreKeeps(cfg, lock);
    OneKeeps(Do(SetFd(fd), EspFail), WithSsl(lock));
    m1 := SettledBeforeSsl(ans, m, CtxNew(true, b.tls13), ServerPre(cfg), ServerPost(fd), lock);
    ServerPostSettings(fd);
    assert SettingsIn(ServerPre(cfg)) + [] == SettingsIn(ServerPre(cfg));
  }

  lemma ServerPreSettings(b: Build, cfg: ServerCfg)
    requires Straight(ServerPre(cfg))
    ensures cfg.cert.Some? && cfg.key.Some?
    ensures var source := if cfg.cacert.Some? then CaCertificates(cfg.cacert.value) else Nobody;
            SettingsIn(ServerPre(cfg)) == Establishes(b, source, VerifyPeerAndRequireCert) + Identity(cfg.cert, cfg.key)
  {
    var (t, i) := (ServerTrust(cfg), IdentityProgram(cfg.cert, cfg.key, true));
    StraightParts(t, i);
    SettingsInAppend(t, i);
    if cfg.cacert.Some? {
      LoadAndVerifySettings(cfg.cacert.value, VerifyPeerAndRequireCert);
    } else {
      assert t[1..] == [];
    }
    IdentitySettings(cfg.cert, cfg.key, true);
  }

  /** The server path has the same order; its source is the CA buffer, or nobody. */
  lemma ServerTrustSettled(ans: Oracle, m: Machine, b: Build, cfg: ServerCfg, fd: int, lock: bool)
    requires Lawful(m.trace)
    requires Exec(ans, m, ServerProgram(b, cfg, fd)).1 == EspOk
    ensures cfg.cert.Some? && cfg.key.Some?
    ensures var m1 := Exec(ans, m, ServerProgram(b, cfg, fd)).0;
            var source := if cfg.cacert.Some? then CaCertificates(cfg.cacert.value) else Nobody;
            var settled := Establishes(b, source, VerifyPeerAndRequireCert) + Identity(cfg.cert, cfg.key);
            && |m.trace| < m1.ctx < m1.ssl <= |m1.trace|
            && Settings(m1.trace[..m1.ssl - 1], m1.ctx) == settled == Settings(m1.trace, m1.ctx)
            && ExactlyOneSource(settled)
  {
    ServerIsStraight(ans, m, b, cfg, fd, lock);
    ServerPreSettings(b, cfg);
    var m1 := ServerSettledBeforeSsl(ans, m, b, cfg, fd, lock);
    var source := if cfg.cacert.Some? then CaCertificates(cfg.cacert.value) else Nobody;
    OneSourceSettled(b, source, VerifyPeerAndRequireCert, cfg.cert, cfg.key);
  }
}

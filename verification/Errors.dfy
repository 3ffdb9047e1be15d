/** Which error a configuration that fails reports: that of the call that failed, or, if every call
    succeeded, that of the first thing in the configuration that has to be refused. */
module Errors {
  import opened Platform
  import opened Ledger
  import opened Program
  import opened Config
  import opened Lifecycle
  import opened Moves
  import opened Outcomes

  /** The error for a failed call; for memory it depends on whether the SSL is already made: before, memory
      is wanted for a certificate, after, for the host name. */
  function ErrorOf(op: Op, sslMade: bool): EspErr {
    match op
    case CtxNew(_, _) | EnableOcsp(_) | EnableOcspStapling => CtxSetupFailed
    case SslNew | UseOcspStapling => SslSetupFailed
    case LoadVerify(_, _) | UseCertChain(_, _) | UsePrivateKey(_, _) => CertVerifySetupFailed
    case Malloc(_) => if sslMade then NoMem else CertVerifySetupFailed
    case TakeLock => Timeout
    case CheckDomain(_) | UseSni(_) => SetHostnameFailed
    case UseAlpn(_) => AlpnFailed
    case _ => EspFail
  }

  /** Every call of the program carries its error. */
  predicate Coded(p: seq<Instr>, sslMade: bool)
    decreases |p|
  {
    p == [] ||
    (&& (p[0].Do? ==> p[0].err == ErrorOf(p[0].op, sslMade))
     && Coded(p[1..], sslMade || p[0] == Do(SslNew, SslSetupFailed)))
  }

  /** The program makes no SSL. */
  predicate NoSsl(p: seq<Instr>) {
    forall i :: 0 <= i < |p| ==> p[i].Refuse? || !p[i].op.SslNew?
  }

  lemma {:induction false} CodedAppend(p: seq<Instr>, q: seq<Instr>, sslMade: bool)
    requires NoSsl(p) && Coded(p, sslMade) && Coded(q, sslMade)
    ensures Coded(p + q, sslMade)
  {
    if p == [] {
      assert p + q == q;
    } else {
      assert (p + q)[1..] == p[1..] + q;
      assert NoSsl(p[1..]) by {
        assert forall i :: 0 <= i < |p[1..]| ==> p[1..][i] == p[i + 1];
      }
      assert p[0] != Do(SslNew, SslSetupFailed);
      CodedAppend(p[1..], q, sslMade);
    }
  }

  lemma ShortCoded(p: seq<Instr>, sslMade: bool)
    requires |p| <= 4 && NoSsl(p)
    requires forall i :: 0 <= i < |p| && p[i].Do? ==> p[i].err == ErrorOf(p[i].op, sslMade)
    ensures Coded(p, sslMade)
  {
    if p != [] {
      assert forall i :: 0 <= i < |p[1..]| ==> p[1..][i] == p[i + 1];
      assert p[0] != Do(SslNew, SslSetupFailed);
      ShortCoded(p[1..], sslMade);
    }
  }

  lemma {:induction false} ProtosCoded(protos: seq<cstring>)
    ensures Coded(UseProtos(protos), true) && NoSsl(UseProtos(protos))
  {
    if protos != [] {
      ProtosCoded(protos[1..]);
      assert UseProtos(protos)[1..] == UseProtos(protos[1..]);
    }
  }

  lemma NoSslAppend(p: seq<Instr>, q: seq<Instr>)
    requires NoSsl(p) && NoSsl(q)
    ensures NoSsl(p + q)
  {
  }

  lemma LoadCoded(cert: seq<byte>, mode: VerifyMode)
    ensures Coded(LoadAndVerify(cert, mode), false) && NoSsl(LoadAndVerify(cert, mode))
  {
    ShortCoded(LoadAndVerify(cert, mode), false);
  }

  lemma TrustCoded(b: Build, cfg: ClientCfg, store: Option<seq<byte>>, lock: bool)
    ensures Coded(TrustProgram(b, cfg, store, lock), false) && NoSsl(TrustProgram(b, cfg, store, lock))
  {
    if cfg.useGlobalStore && store.Some? {
      LoadCoded(store.value, VerifyPeer);
    } else if !cfg.useGlobalStore && cfg.cacert.Some? {
      LoadCoded(cfg.cacert.value, VerifyPeer);
    } else {
      ShortCoded(TrustProgram(b, cfg, store, lock), false);
    }
  }

  lemma PreCoded(b: Build, cfg: ClientCfg, store: Option<seq<byte>>, lock: bool)
    ensures Coded(ClientPre(b, cfg, store, lock), false) && NoSsl(ClientPre(b, cfg, store, lock))
  {
    var (t, i) := (TrustProgram(b, cfg, store, lock), IdentityProgram(cfg.cert, cfg.key, false));
    TrustCoded(b, cfg, store, lock);
    ShortCoded(i, false);
    CodedAppend(t, i, false);
    NoSslAppend(t, i);
    ShortCoded(BundleProgram(cfg), false);
    CodedAppend(BundleProgram(cfg), t + i, false);
    NoSslAppend(BundleProgram(cfg), t + i);
  }

  lemma AlpnCoded(b: Build, cfg: ClientCfg)
    ensures Coded(AlpnProgram(b, cfg), true)
  {
    if cfg.alpnProtos.Some? && b.alpn {
      ProtosCoded(cfg.alpnProtos.value);
    } else {
      ShortCoded(AlpnProgram(b, cfg), true);
    }
  }

  lemma NameCoded(cfg: ClientCfg, host: seq<byte>)
    ensures Coded(HostProgram(cfg, host), true)
  {
    ShortCoded(HostProgram(cfg, host), true);
  }

  lemma TailCoded(b: Build, fd: int)
    ensures Coded(OcspProgram(b) + [Do(SetFd(fd), EspFail)], true)
  {
    ShortCoded([Do(SetFd(fd), EspFail)], true);
    ShortCoded(OcspProgram(b), true);
    CodedAppend(OcspProgram(b), [Do(SetFd(fd), EspFail)], true);
  }

  lemma PostCoded(b: Build, cfg: ClientCfg, host: seq<byte>, fd: int)
    ensures Coded(ClientPost(b, cfg, host, fd), true)
  {
    var rest := OcspProgram(b) + [Do(SetFd(fd), EspFail)];
    TailCoded(b, fd);
    AlpnCoded(b, cfg);
    CodedAppend(AlpnProgram(b, cfg), rest, true);
    NameCoded(cfg, host);
    CodedAppend(HostProgram(cfg, host), AlpnProgram(b, cfg) + rest, true);
  }

  lemma AssembledCoded(make: Op, pre: seq<Instr>, post: seq<Instr>)
    requires make.CtxNew? && Coded(pre, false) && NoSsl(pre) && Coded(post, true)
    ensures Coded(Assemble(make, pre, post), false)
  {
    var tail := [Do(SslNew, SslSetupFailed)] + post;
    assert tail[1..] == post;
    CodedAppend(pre, tail, false);
    assert Assemble(make, pre, post)[1..] == pre + tail;
  }

  lemma ServerCoded(b: Build, cfg: ServerCfg, fd: int)
    ensures Coded(ServerProgram(b, cfg, fd), false)
  {
    var (t, i) := (ServerTrust(cfg), IdentityProgram(cfg.cert, cfg.key, true));
    if cfg.cacert.Some? {
      LoadCoded(cfg.cacert.value, VerifyPeerAndRequireCert);
    } else {
      ShortCoded(t, false);
    }
    ShortCoded(i, false);
    CodedAppend(t, i, false);
    NoSslAppend(t, i);
    ShortCoded(ServerPost(fd), true);
    AssembledCoded(CtxNew(true, b.tls13), ServerPre(cfg), ServerPost(fd));
  }

  /** Call k is the first from call n on that failed. */
  predicate FirstFailed(t: Trace, n: nat, k: nat) {
    n <= k < |t| && !Ok(t[k].op, t[k].ret) && (forall i :: n <= i < k ==> Ok(t[i].op, t[i].ret))
  }

  /** ... and after it at most a temporary block was freed. */
  predicate FirstFailure(t: Trace, n: nat, k: nat) {
    && FirstFailed(t, n, k)
    && (k + 1 == |t| || (k + 2 == |t| && t[k + 1].op == HeapFree))
  }

  /** Was an SSL made between calls n and k? */
  predicate SslMade(t: Trace, n: nat, k: nat)
    requires k <= |t|
  {
    exists j :: n <= j < k && t[j].op.SslNew?
  }

  lemma FailureLater(t0: Trace, e: Event, t: Trace, k: nat, sslMade: bool)
    requires t0 + [e] <= t && Ok(e.op, e.ret) && FirstFailure(t, |t0| + 1, k)
    ensures FirstFailure(t, |t0|, k)
    ensures (sslMade || SslMade(t, |t0|, k)) <==> (sslMade || e.op.SslNew? || SslMade(t, |t0| + 1, k))
  {
    assert t[|t0|] == (t0 + [e])[|t0|] == e;
  }

  lemma FailureNow(t0: Trace, e: Event, t: Trace)
    requires t0 + [e] <= t && !Ok(e.op, e.ret)
    requires |t| == |t0| + 1 || (|t| == |t0| + 2 && t[|t0| + 1].op == HeapFree)
    ensures FirstFailure(t, |t0|, |t0|) && t[|t0|] == e && !SslMade(t, |t0|, |t0|)
  {
    assert t[|t0|] == (t0 + [e])[|t0|] == e;
  }

  /** A program in which a call fails stops there and reports the error of that call. */
  lemma {:induction false} FailedCall(ans: Oracle, m: Machine, p: seq<Instr>, sslMade: bool) returns (k: nat)
    requires Coded(p, sslMade) && RealErrors(p) && !OkFrom(Exec(ans, m, p).0.trace, |m.trace|)
    ensures var (m1, err) := Exec(ans, m, p);
            && FirstFailure(m1.trace, |m.trace|, k)
            && err == ErrorOf(m1.trace[k].op, sslMade || SslMade(m1.trace, |m.trace|, k))
    decreases |p|
  {
    var t := Exec(ans, m, p).0.trace;
    k := |m.trace|;
    if p != [] && p[0].Do? {
      var m1 := Issue(ans, m, p[0].op);
      var e := Event(p[0].op, Operand(m, p[0].op), Answer(ans, m.trace, p[0].op));
      assert m1.trace == m.trace + [e];
      ExecGrows(ans, m1, p[1..]);
      if Succeeds(ans, m, p[0].op) {
        OkParts(m1.trace, |m.trace|, t);
        k := FailedCall(ans, m1, p[1..], sslMade || p[0].op == SslNew);
        FailureLater(m.trace, e, t, k, sslMade);
      } else {
        FailureNow(m.trace, e, t);
      }
    }
  }

  // ----- refusals

  /** The error of the first refusal in a program */
  function Refusal(p: seq<Instr>): Option<EspErr> {
    if p == [] then None else if p[0].Refuse? then Some(p[0].err) else Refusal(p[1..])
  }

  lemma {:induction false} RefusalAppend(p: seq<Instr>, q: seq<Instr>)
    ensures Refusal(p + q) == if Refusal(p).Some? then Refusal(p) else Refusal(q)
  {
    if p == [] {
      assert p + q == q;
    } else {
      assert (p + q)[1..] == p[1..] + q;
      RefusalAppend(p[1..], q);
    }
  }

  lemma {:induction false} Refused(ans: Oracle, m: Machine, p: seq<Instr>)
    requires OkFrom(Exec(ans, m, p).0.trace, |m.trace|)
    ensures Exec(ans, m, p).1 == if Refusal(p).Some? then Refusal(p).value else EspOk
    decreases |p|
  {
    if p != [] && p[0].Do? {
      FirstCall(ans, m, p);
      var m1 := Issue(ans, m, p[0].op);
      if Succeeds(ans, m, p[0].op) {
        ExecGrows(ans, m1, p[1..]);
        Refused(ans, m1, p[1..]);
      }
    }
  }

  lemma ShortRefusal(p: seq<Instr>)
    requires |p| <= 4 && forall i :: 0 <= i < |p| ==> p[i].Do?
    ensures Refusal(p) == None
  {
    if p != [] {
      ShortRefusal(p[1..]);
    }
  }

  lemma {:induction false} ProtosRefuseNothing(protos: seq<cstring>)
    ensures Refusal(UseProtos(protos)) == None
  {
    if protos != [] {
      ProtosRefuseNothing(protos[1..]);
      assert UseProtos(protos)[1..] == UseProtos(protos[1..]);
    }
  }

  /** What is wrong with the trust options, if anything: no store although it was asked for; a PSK without
      key or hint, without the mutex, or too long; or nothing chosen at all. */
  function TrustRefusal(b: Build, cfg: ClientCfg, store: Option<seq<byte>>, lock: bool): Option<EspErr> {
    if cfg.useGlobalStore then (if store.None? then Some(InvalidState) else None)
    else if cfg.cacert.Some? then None
    else if b.psk && cfg.psk.Some? then
      var p := cfg.psk.value;
      if p.key.None? || p.hint.None? || p.key.value == [] then Some(EspFail)
      else if !lock then Some(InvalidState)
      else if |p.key.value| > PSK_MAX_KEY_LEN || |p.hint.value| >= b.IdMax() then Some(InvalidArg)
      else None
    else if b.skipServerVerify then None
    else Some(SslSetupFailed)
  }

  /** What is wrong with a client configuration, in the order in which it is noticed */
  function ClientRefusal(b: Build, cfg: ClientCfg, store: Option<seq<byte>>, lock: bool): Option<EspErr> {
    if cfg.bundleAttach then Some(NotSupported)
    else if TrustRefusal(b, cfg, store, lock).Some? then TrustRefusal(b, cfg, store, lock)
    else if cfg.cert.Some? != cfg.key.Some? then Some(EspFail)
    else if cfg.alpnProtos.Some? && !b.alpn then Some(EspFail)
    else None
  }

  lemma RefusedTrust(b: Build, cfg: ClientCfg, store: Option<seq<byte>>, lock: bool)
    ensures Refusal(TrustProgram(b, cfg, store, lock)) == TrustRefusal(b, cfg, store, lock)
  {
    var p := TrustProgram(b, cfg, store, lock);
    if |p| == 2 && p[1].Refuse? {
      assert p[1..][0] == p[1];
    } else if forall i :: 0 <= i < |p| ==> p[i].Do? {
      ShortRefusal(p);
    }
  }

  lemma RefusedPre(b: Build, cfg: ClientCfg, store: Option<seq<byte>>, lock: bool)
    ensures Refusal(ClientPre(b, cfg, store, lock)) ==
            if cfg.bundleAttach then Some(NotSupported)
            else if TrustRefusal(b, cfg, store, lock).Some? then TrustRefusal(b, cfg, store, lock)
            else if cfg.cert.Some? != cfg.key.Some? then Some(EspFail) else None
  {
    var (t, i) := (TrustProgram(b, cfg, store, lock), IdentityProgram(cfg.cert, cfg.key, false));
    RefusalAppend(BundleProgram(cfg), t + i);
    RefusalAppend(t, i);
    RefusedTrust(b, cfg, store, lock);
    if cfg.cert.Some? == cfg.key.Some? {
      ShortRefusal(i);
    }
  }

  lemma RefusedPost(b: Build, cfg: ClientCfg, host: seq<byte>, fd: int)
    ensures Refusal(ClientPost(b, cfg, host, fd)) == if cfg.alpnProtos.Some? && !b.alpn then Some(EspFail) else None
  {
    var (h, a, o, f) := (HostProgram(cfg, host), AlpnProgram(b, cfg), OcspProgram(b), [Do(SetFd(fd), EspFail)]);
    RefusalAppend(h, a + (o + f));
    RefusalAppend(a, o + f);
    RefusalAppend(o, f);
    ShortRefusal(h);
    ShortRefusal(o);
    ShortRefusal(f);
    if cfg.alpnProtos.Some? && b.alpn {
      ProtosRefuseNothing(cfg.alpnProtos.value);
    }
  }

  lemma RefusedAssembled(make: Op, pre: seq<Instr>, post: seq<Instr>)
    ensures Refusal(Assemble(make, pre, post)) == if Refusal(pre).Some? then Refusal(pre) else Refusal(post)
  {
    var tail := [Do(SslNew, SslSetupFailed)] + post;
    assert Assemble(make, pre, post)[1..] == pre + tail && tail[1..] == post;
    RefusalAppend(pre, tail);
  }

  /** The error of a client configuration: that of the first call that failed, and the configuration stops
      there; or, if every call succeeded, what is wrong with it first, if anything. */
  lemma ClientErrors(ans: Oracle, m: Machine, b: Build, cfg: ClientCfg, host: seq<byte>,
                     store: Option<seq<byte>>, lock: bool, fd: int, m1: Machine, err: EspErr) returns (k: nat)
    requires Exec(ans, m, ClientProgram(b, cfg, host, store, lock, fd)) == (m1, err)
    ensures var n := |m.trace|;
            if OkFrom(m1.trace, n) then
              var refusal := ClientRefusal(b, cfg, store, lock);
              err == if refusal.Some? then refusal.value else EspOk
            else FirstFailure(m1.trace, n, k) && err == ErrorOf(m1.trace[k].op, SslMade(m1.trace, n, k))
  {
    var p := ClientProgram(b, cfg, host, store, lock, fd);
    k := 0;
    if OkFrom(m1.trace, |m.trace|) {
      Refused(ans, m, p);
      RefusedAssembled(CtxNew(false, b.tls13), ClientPre(b, cfg, store, lock), ClientPost(b, cfg, host, fd));
      RefusedPre(b, cfg, store, lock);
      RefusedPost(b, cfg, host, fd);
    } else {
      PreCoded(b, cfg, store, lock);
      PostCoded(b, cfg, host, fd);
      AssembledCoded(CtxNew(false, b.tls13), ClientPre(b, cfg, store, lock), ClientPost(b, cfg, host, fd));
      ClientOwning(b, cfg, host, store, lock, fd);
      k := FailedCall(ans, m, p, false);
    }
  }

  lemma ServerRefused(ans: Oracle, m: Machine, b: Build, cfg: ServerCfg, fd: int)
    requires OkFrom(Exec(ans, m, ServerProgram(b, cfg, fd)).0.trace, |m.trace|)
    ensures Exec(ans, m, ServerProgram(b, cfg, fd)).1 == if cfg.cert.Some? && cfg.key.Some? then EspOk else EspFail
  {
    var (t, i) := (ServerTrust(cfg), IdentityProgram(cfg.cert, cfg.key, true));
    Refused(ans, m, ServerProgram(b, cfg, fd));
    RefusedAssembled(CtxNew(true, b.tls13), ServerPre(cfg), ServerPost(fd));
    RefusalAppend(t, i);
    ShortRefusal(t);
    ShortRefusal(ServerPost(fd));
    if cfg.cert.Some? && cfg.key.Some? {
      ShortRefusal(i);
    }
  }

  /** The error of a server configuration, likewise: all that can be wrong with it is a missing file. */
  lemma ServerErrors(ans: Oracle, m: Machine, b: Build, cfg: ServerCfg, fd: int, m1: Machine, err: EspErr)
      returns (k: nat)
    requires Exec(ans, m, ServerProgram(b, cfg, fd)) == (m1, err)
    ensures var n := |m.trace|;
            if OkFrom(m1.trace, n) then err == if cfg.cert.Some? && cfg.key.Some? then EspOk else EspFail
            else FirstFailure(m1.trace, n, k) && err == ErrorOf(m1.trace[k].op, SslMade(m1.trace, n, k))
  {
    k := 0;
    if OkFrom(m1.trace, |m.trace|) {
      ServerRefused(ans, m, b, cfg, fd);
    } else {
      ServerCoded(b, cfg, fd);
      ServerOwning(b, cfg, fd, true);
      k := FailedCall(ans, m, ServerProgram(b, cfg, fd), false);
    }
  }

  /** What is wrong with what create is given */
  function PeerRefusal(b: Build, peer: Peer, store: Option<seq<byte>>, lock: bool): Option<EspErr> {
    match peer
    case AsClient(cfg, _) => ClientRefusal(b, cfg, store, lock)
    case AsServer(cfg) => if cfg.cert.Some? && cfg.key.Some? then None else Some(EspFail)
    case BadRole => Some(EspFail)
  }

  lemma ProgramErrors(ans: Oracle, m: Machine, b: Build, peer: Peer, store: Option<seq<byte>>, lock: bool, fd: int,
                      m1: Machine, err: EspErr) returns (k: nat)
    requires Exec(ans, m, ProgramFor(b, peer, store, lock, fd)) == (m1, err)
    ensures var refusal := PeerRefusal(b, peer, store, lock);
            if OkFrom(m1.trace, |m.trace|) then err == if refusal.Some? then refusal.value else EspOk
            else
              && FirstFailed(m1.trace, |m.trace|, k)
              && err == ErrorOf(m1.trace[k].op, SslMade(m1.trace, |m.trace|, k))
  {
    k := 0;
    match peer
    case AsClient(cfg, host) => k := ClientErrors(ans, m, b, cfg, host, store, lock, fd, m1, err);
    case AsServer(cfg) => k := ServerErrors(ans, m, b, cfg, fd, m1, err);
    case BadRole =>
  }

  /** A failed call keeps its place when wolfSSL_Init comes before it and a teardown after it. */
  lemma FailureInCreate(t: Trace, e: Event, t2: Trace, t3: Trace, k: nat)
    requires t + [e] <= t2 <= t3 && e.op == Init && Ok(e.op, e.ret) && FirstFailed(t2, |t| + 1, k)
    ensures FirstFailed(t3, |t|, k) && t3[k] == t2[k] && (SslMade(t3, |t|, k) <==> SslMade(t2, |t| + 1, k))
  {
    assert t3[|t|] == (t + [e])[|t|] == e;
    assert forall i :: 0 <= i < |t2| ==> t3[i] == t2[i];
  }

  /** Calls fail in a create only before its teardown. */
  lemma FailureThere(t: Trace, e: Event, t2: Trace, t3: Trace)
    requires t + [e] <= t2 <= t3 && Ok(e.op, e.ret) && OkFrom(t3, |t2|)
    ensures OkFrom(t3, |t|) <==> OkFrom(t2, |t| + 1)
  {
    assert t3[|t|] == (t + [e])[|t|] == e;
    OkParts(t2, |t| + 1, t3);
  }

  lemma InitFailed(t: Trace, e: Event, t3: Trace)
    requires t + [e] <= t3 && e.op == Init && !Ok(e.op, e.ret)
    ensures FirstFailed(t3, |t|, |t|) && t3[|t|].op == Init && !OkFrom(t3, |t|)
  {
    assert t3[|t|] == (t + [e])[|t|] == e;
  }

  /** The error of a create, over its whole trace, the teardown included: that of the first call that failed;
      or, if none did, what is wrong with what it was given, if anything. */
  lemma CreateErrors(ans: Oracle, b: Build, t: Trace, c: Conn, peer: Peer, store: Option<seq<byte>>)
      returns (k: nat)
    ensures var (t1, _, err) := CreateOn(ans, b, t, c, peer, store);
            var refusal := PeerRefusal(b, peer, store, LockExists(t));
            if OkFrom(t1, |t|) then err == if refusal.Some? then refusal.value else EspOk
            else FirstFailed(t1, |t|, k) && err == ErrorOf(t1[k].op, SslMade(t1, |t|, k))
  {
    var m1, p := CreateCases(ans, b, t, c, peer, store);
    var e := Event(Init, 0, Answer(ans, t, Init));
    assert m1.trace == t + [e];
    var (t1, _, _) := CreateOn(ans, b, t, c, peer, store);
    TeardownOk(ans, m1);
    if !Succeeds(ans, MachineOf(t, c), Init) {
      InitFailed(t, e, t1);
      k := |t|;
    } else {
      var (m2, err) := Exec(ans, m1, p);
      ExecGrows(ans, m1, p);
      TeardownOk(ans, m2);
      k := ProgramErrors(ans, m1, b, peer, store, LockExists(t), c.fd, m2, err);
      FailureThere(t, e, m2.trace, t1);
      if !OkFrom(m2.trace, |m1.trace|) {
        FailureInCreate(t, e, m2.trace, t1, k);
      }
    }
  }
}

/** The parts of the configuration functions that only call wolfSSL and the heap, written as the C code
    has them, each proved to make exactly the calls of its program. */
module Setup {
  import opened Platform
  import opened Certificates
  import opened Program
  import opened Config

  datatype FileType = CaCert | SelfCert | SelfKey

  /** The calls that load a file, with the errors its caller reports for no memory and for a refusal */
  function LoadProgram(cert: seq<byte>, kind: FileType, noMem: EspErr, rejected: EspErr): seq<Instr> {
    match kind
    case CaCert => LoadCa(cert, noMem, rejected)
    case SelfCert => [Do(UseCertChain(cert, CertFormat(cert)), rejected)]
    case SelfKey => [Do(UsePrivateKey(cert, KeyFormat(cert)), rejected)]
  }

  /** As the configuration functions use it: any failure is reported as one error. */
  function LoadOnly(cert: seq<byte>, kind: FileType): seq<Instr> {
    LoadProgram(cert, kind, CertVerifySetupFailed, CertVerifySetupFailed)
  }

  /** memcpy and the terminating NUL, into a block of the size that was asked of malloc */
  method CopyTerminated(cert: seq<byte>, copy: array<byte>)
    requires copy.Length == |cert| + 1
    modifies copy
    ensures copy[..] == cert + [0]
  {
    forall i | 0 <= i < |cert| {
      copy[i] := cert[i];
    }
    copy[|cert|] := 0;
  }

  lemma ExecSingle(ans: Oracle, m: Machine, op: Op, err: EspErr)
    requires m.tmp == 0 && !op.Malloc?
    ensures Exec(ans, m, [Do(op, err)]) == (Issue(ans, m, op), if Succeeds(ans, m, op) then EspOk else err)
  {
    assert [Do(op, err)][1..] == [];
  }

  /** A call with the temporary block held, which is freed whatever the outcome */
  lemma CallThenFree(ans: Oracle, m: Machine, op: Op, err: EspErr)
    requires m.tmp != 0 && !op.Malloc? && !op.HeapFree?
    ensures Exec(ans, m, [Do(op, err)] + [Do(HeapFree, EspFail)])
            == (Issue(ans, Issue(ans, m, op), HeapFree), if Succeeds(ans, m, op) then EspOk else err)
  {
    ExecOne(ans, m, Do(op, err), [Do(HeapFree, EspFail)]);
    assert [Do(HeapFree, EspFail)][1..] == [];
  }

  /** Allocate, call, free */
  lemma CopyCallFree(ans: Oracle, m: Machine, size: nat, noMem: EspErr, op: Op, err: EspErr)
    requires m.tmp == 0 && !op.Malloc? && !op.HeapFree?
    ensures var m1 := Issue(ans, m, Malloc(size));
            Exec(ans, m, [Do(Malloc(size), noMem)] + ([Do(op, err)] + [Do(HeapFree, EspFail)])) ==
            if m1.tmp == 0 then (m1, noMem)
            else (Issue(ans, Issue(ans, m1, op), HeapFree), if Succeeds(ans, m1, op) then EspOk else err)
  {
    ExecOne(ans, m, Do(Malloc(size), noMem), [Do(op, err)] + [Do(HeapFree, EspFail)]);
    if Issue(ans, m, Malloc(size)).tmp != 0 {
      CallThenFree(ans, Issue(ans, m, Malloc(size)), op, err);
    }
  }

  lemma LoadCaCopies(cert: seq<byte>, noMem: EspErr, rejected: EspErr)
    requires PresentCa(cert).copied
    ensures LoadCa(cert, noMem, rejected)
            == [Do(Malloc(|cert| + 1), noMem)]
               + ([Do(LoadVerify(Shown(cert).0, Shown(cert).1), rejected)] + [Do(HeapFree, EspFail)])
  {
  }

  /** LoadCa with a copy, spelled out. */
  lemma LoadCopied(ans: Oracle, m: Machine, cert: seq<byte>, noMem: EspErr, rejected: EspErr)
    requires m.tmp == 0 && PresentCa(cert).copied
    ensures var load := LoadVerify(Shown(cert).0, Shown(cert).1);
            var m1 := Issue(ans, m, Malloc(|cert| + 1));
            Exec(ans, m, LoadCa(cert, noMem, rejected)) ==
            if m1.tmp == 0 then (m1, noMem)
            else (Issue(ans, Issue(ans, m1, load), HeapFree), if Succeeds(ans, m1, load) then EspOk else rejected)
  {
    var load := LoadVerify(Shown(cert).0, Shown(cert).1);
    LoadCaCopies(cert, noMem, rejected);
    CopyCallFree(ans, m, |cert| + 1, noMem, load, rejected);
  }

  /** A PEM buffer that does not end in NUL is copied, so that the NUL wolfSSL's parser looks for is
      there; the copy is freed whatever the outcome. */
  method LoadTerminatedCopy(env: Env, ctx: nat, ghost ssl: nat, cert: seq<byte>) returns (err: EspErr)
    requires PresentCa(cert).copied
    modifies env
    ensures (Machine(env.trace, ctx, ssl, 0), err)
            == Exec(env.ans, Machine(old(env.trace), ctx, ssl, 0), LoadCa(cert, NoMem, EspFail))
  {
    LoadCopied(env.ans, Machine(env.trace, ctx, ssl, 0), cert, NoMem, EspFail);
    var copyAt, copy := env.Alloc(|cert| + 1);
    if copy == null {
      return NoMem;
    }
    CopyTerminated(cert, copy);
    var ret := env.LoadVerify(ctx, copy[..], |cert|, Pem);
    var _ := env.Call(HeapFree, copyAt);
    err := if ret == WOLFSSL_SUCCESS then EspOk else EspFail;
  }

  /** The CA branch of esp_load_wolfssl_verify_buffer */
  method LoadCaBuffer(env: Env, ctx: nat, ghost ssl: nat, cert: seq<byte>, format: Format) returns (err: EspErr)
    requires format == CertFormat(cert)
    modifies env
    ensures (Machine(env.trace, ctx, ssl, 0), err)
            == Exec(env.ans, Machine(old(env.trace), ctx, ssl, 0), LoadCa(cert, NoMem, EspFail))
  {
    var terminated := cert != [] && cert[|cert| - 1] == 0;
    if format == Pem && !terminated {
      err := LoadTerminatedCopy(env, ctx, ssl, cert);
    } else {
      ExecSingle(env.ans, Machine(env.trace, ctx, ssl, 0), Op.LoadVerify(Shown(cert).0, Shown(cert).1), EspFail);
      var len := if format == Pem then |cert| - 1 else |cert|;
      var ret := env.LoadVerify(ctx, cert, len, format);
      err := if ret == WOLFSSL_SUCCESS then EspOk else EspFail;
    }
  }

  /** esp_load_wolfssl_verify_buffer */
  method LoadVerifyBuffer(env: Env, ctx: nat, ghost ssl: nat, cert: seq<byte>, kind: FileType) returns (err: EspErr)
    requires |cert| <= OBJECT_MAX
    modifies env
    ensures (Machine(env.trace, ctx, ssl, 0), err)
            == Exec(env.ans, Machine(old(env.trace), ctx, ssl, 0), LoadProgram(cert, kind, NoMem, EspFail))
  {
    ghost var m := Machine(env.trace, ctx, ssl, 0);
    var header := if kind == SelfKey then BEGIN else BEGIN_CERTIFICATE;
    var pem := BufHasPemHeader(Some(cert), header);
    var format := if pem then Pem else Asn1;
    if kind == CaCert {
      err := LoadCaBuffer(env, ctx, ssl, cert, format);
    } else {
      var op := if kind == SelfKey then UsePrivateKey(cert, format) else UseCertChain(cert, format);
      ExecSingle(env.ans, m, op, EspFail);
      var ret := env.Call(op, ctx);
      err := if ret == WOLFSSL_SUCCESS then EspOk else EspFail;
    }
  }

  /** The caller's error code is another one; the calls are the same. */
  lemma SameCalls(ans: Oracle, m: Machine, cert: seq<byte>, kind: FileType)
    requires m.tmp == 0
    ensures var (m1, err) := Exec(ans, m, LoadProgram(cert, kind, NoMem, EspFail));
            Exec(ans, m, LoadOnly(cert, kind)) == (m1, if err == EspOk then EspOk else CertVerifySetupFailed)
  {
    match kind
    case CaCert =>
      if PresentCa(cert).copied {
        LoadCopied(ans, m, cert, NoMem, EspFail);
        LoadCopied(ans, m, cert, CertVerifySetupFailed, CertVerifySetupFailed);
      } else {
        var load := LoadVerify(Shown(cert).0, Shown(cert).1);
        ExecSingle(ans, m, load, EspFail);
        ExecSingle(ans, m, load, CertVerifySetupFailed);
      }
    case SelfCert =>
      ExecSingle(ans, m, UseCertChain(cert, CertFormat(cert)), EspFail);
      ExecSingle(ans, m, UseCertChain(cert, CertFormat(cert)), CertVerifySetupFailed);
    case SelfKey =>
      ExecSingle(ans, m, UsePrivateKey(cert, KeyFormat(cert)), EspFail);
      ExecSingle(ans, m, UsePrivateKey(cert, KeyFormat(cert)), CertVerifySetupFailed);
  }

  // ----- the parts of the configuration functions that only call wolfSSL

  /** As the configuration functions use it: any failure is reported as one error. */
  method LoadOrFail(env: Env, ctx: nat, ghost ssl: nat, cert: seq<byte>, kind: FileType) returns (err: EspErr)
    requires |cert| <= OBJECT_MAX
    modifies env
    ensures (Machine(env.trace, ctx, ssl, 0), err)
            == Exec(env.ans, Machine(old(env.trace), ctx, ssl, 0), LoadOnly(cert, kind))
  {
    SameCalls(env.ans, Machine(env.trace, ctx, ssl, 0), cert, kind);
    err := LoadVerifyBuffer(env, ctx, ssl, cert, kind);
    if err != EspOk {
      err := CertVerifySetupFailed;
    }
  }

  method SetIdentity(env: Env, ctx: nat, ghost ssl: nat, cert: Option<seq<byte>>, key: Option<seq<byte>>, needed: bool)
      returns (err: EspErr)
    requires (cert.Some? ==> |cert.value| <= OBJECT_MAX) && (key.Some? ==> |key.value| <= OBJECT_MAX)
    modifies env
    ensures (Machine(env.trace, ctx, ssl, 0), err)
            == Exec(env.ans, Machine(old(env.trace), ctx, ssl, 0), IdentityProgram(cert, key, needed))
  {
    if cert.Some? && key.Some? {
      ghost var (p, q) := (LoadOnly(cert.value, SelfCert), LoadOnly(key.value, SelfKey));
      assert IdentityProgram(cert, key, needed) == p + q;
      ExecAppend(env.ans, Machine(env.trace, ctx, ssl, 0), p, q);
      err := LoadOrFail(env, ctx, ssl, cert.value, SelfCert);
      if err == EspOk {
        err := LoadOrFail(env, ctx, ssl, key.value, SelfKey);
      }
    } else if needed || cert.Some? || key.Some? {
      err := EspFail;
    } else {
      err := EspOk;
    }
  }

  method LoadAndSetVerify(env: Env, ctx: nat, ghost ssl: nat, cert: seq<byte>, mode: VerifyMode) returns (err: EspErr)
    requires |cert| <= OBJECT_MAX
    modifies env
    ensures (Machine(env.trace, ctx, ssl, 0), err)
            == Exec(env.ans, Machine(old(env.trace), ctx, ssl, 0), LoadAndVerify(cert, mode))
  {
    ghost var (p, q) := (LoadOnly(cert, CaCert), [Do(SetVerify(mode), EspFail)]);
    assert RealErrors(p) by {
      LoadAndVerifyKeeps(cert, mode, true);
      RealAppend(p, q);
    }
    ExecAppend(env.ans, Machine(env.trace, ctx, ssl, 0), p, q);
    err := LoadOrFail(env, ctx, ssl, cert, CaCert);
    if err == EspOk {
      ExecSingle(env.ans, Machine(env.trace, ctx, ssl, 0), SetVerify(mode), EspFail);
      var _ := env.Call(SetVerify(mode), ctx);
    }
  }

  /** The calls for a name held in the temporary block */
  lemma HeldNameCases(ans: Oracle, m: Machine, name: cstring)
    requires m.tmp != 0
    ensures var m1 := Issue(ans, m, CheckDomain(name));
            var m2 := Issue(ans, m1, UseSni(name));
            Exec(ans, m, UseName(name)[1..]) ==
            if !Succeeds(ans, m, CheckDomain(name)) then (Issue(ans, m1, HeapFree), SetHostnameFailed)
            else (Issue(ans, m2, HeapFree), if Succeeds(ans, m1, UseSni(name)) then EspOk else SetHostnameFailed)
  {
    var rest := [Do(UseSni(name), SetHostnameFailed)] + [Do(HeapFree, EspFail)];
    assert UseName(name)[1..] == [Do(CheckDomain(name), SetHostnameFailed)] + rest;
    ExecOne(ans, m, Do(CheckDomain(name), SetHostnameFailed), rest);
    CallThenFree(ans, Issue(ans, m, CheckDomain(name)), UseSni(name), SetHostnameFailed);
  }

  method UseHeldName(env: Env, ghost ctx: nat, ssl: nat, nameAt: nat, name: cstring) returns (err: EspErr)
    requires nameAt != 0
    modifies env
    ensures (Machine(env.trace, ctx, ssl, 0), err)
            == Exec(env.ans, Machine(old(env.trace), ctx, ssl, nameAt), UseName(name)[1..])
  {
    HeldNameCases(env.ans, Machine(env.trace, ctx, ssl, nameAt), name);
    var ret := env.Call(CheckDomain(name), ssl);
    if ret != WOLFSSL_SUCCESS {
      var _ := env.Call(HeapFree, nameAt);
      return SetHostnameFailed;
    }
    ret := env.Call(UseSni(name), ssl);
    var _ := env.Call(HeapFree, nameAt);
    err := if ret != WOLFSSL_SUCCESS then SetHostnameFailed else EspOk;
  }

  /** The host name is checked against the certificate and sent as SNI, from one temporary string. */
  method CheckAndSendName(env: Env, ghost ctx: nat, ssl: nat, name: cstring) returns (err: EspErr)
    modifies env
    ensures (Machine(env.trace, ctx, ssl, 0), err)
            == Exec(env.ans, Machine(old(env.trace), ctx, ssl, 0), UseName(name))
  {
    assert UseName(name) == [UseName(name)[0]] + UseName(name)[1..];
    ExecOne(env.ans, Machine(env.trace, ctx, ssl, 0), UseName(name)[0], UseName(name)[1..]);
    var nameAt, copy := env.Alloc(|name| + 1);
    if copy == null {
      return NoMem;
    }
    CopyTerminated(name, copy);
    assert copy[..|name|] == name;
    err := UseHeldName(env, ctx, ssl, nameAt, copy[..|name|]);
  }

  method SetHostName(env: Env, ghost ctx: nat, ssl: nat, cfg: ClientCfg, host: seq<byte>) returns (err: EspErr)
    modifies env
    ensures (Machine(env.trace, ctx, ssl, 0), err)
            == Exec(env.ans, Machine(old(env.trace), ctx, ssl, 0), HostProgram(cfg, host))
  {
    if cfg.skipCommonName {
      return EspOk;
    }
    var name := if cfg.commonName.Some? then cfg.commonName.value else UpToNul(host);
    err := CheckAndSendName(env, ctx, ssl, name);
  }

  method SetAlpn(env: Env, ghost ctx: nat, ssl: nat, build: Build, cfg: ClientCfg) returns (err: EspErr)
    modifies env
    ensures (Machine(env.trace, ctx, ssl, 0), err)
            == Exec(env.ans, Machine(old(env.trace), ctx, ssl, 0), AlpnProgram(build, cfg))
  {
    if cfg.alpnProtos.None? {
      return EspOk;
    } else if !build.alpn {
      return EspFail;
    }
    var protos := cfg.alpnProtos.value;
    ghost var m := Machine(env.trace, ctx, ssl, 0);
    var i := 0;
    while i < |protos|
      invariant 0 <= i <= |protos|
      invariant Exec(env.ans, Machine(env.trace, ctx, ssl, 0), UseProtos(protos[i..]))
                == Exec(env.ans, m, UseProtos(protos))
    {
      assert protos[i..][1..] == protos[i + 1..];
      ExecOne(env.ans, Machine(env.trace, ctx, ssl, 0), Do(UseAlpn(protos[i]), AlpnFailed), UseProtos(protos[i + 1..]));
      var ret := env.Call(UseAlpn(protos[i]), ssl);
      if ret != WOLFSSL_SUCCESS {
        return AlpnFailed;
      }
      i := i + 1;
    }
    return EspOk;
  }

  lemma OcspCases(ans: Oracle, m: Machine, b: Build)
    requires m.tmp == 0 && b.ocsp
    ensures var m1 := Issue(ans, m, EnableOcsp(b.ocspCheckAll));
            var m2 := Issue(ans, m1, EnableOcspStapling);
            Exec(ans, m, OcspProgram(b)) ==
            if !Succeeds(ans, m, EnableOcsp(b.ocspCheckAll)) then (m1, CtxSetupFailed)
            else if !Succeeds(ans, m1, EnableOcspStapling) then (m2, CtxSetupFailed)
            else (Issue(ans, m2, UseOcspStapling), if Succeeds(ans, m2, UseOcspStapling) then EspOk else SslSetupFailed)
  {
    var p3 := [Do(UseOcspStapling, SslSetupFailed)];
    var p2 := [Do(EnableOcspStapling, CtxSetupFailed)] + p3;
    assert OcspProgram(b) == [Do(EnableOcsp(b.ocspCheckAll), CtxSetupFailed)] + p2;
    var m1 := Issue(ans, m, EnableOcsp(b.ocspCheckAll));
    ExecOne(ans, m, Do(EnableOcsp(b.ocspCheckAll), CtxSetupFailed), p2);
    ExecOne(ans, m1, Do(EnableOcspStapling, CtxSetupFailed), p3);
    ExecSingle(ans, Issue(ans, m1, EnableOcspStapling), UseOcspStapling, SslSetupFailed);
  }

  method SetOcsp(env: Env, ctx: nat, ssl: nat, build: Build) returns (err: EspErr)
    modifies env
    ensures (Machine(env.trace, ctx, ssl, 0), err)
            == Exec(env.ans, Machine(old(env.trace), ctx, ssl, 0), OcspProgram(build))
  {
    if !build.ocsp {
      return EspOk;
    }
    OcspCases(env.ans, Machine(env.trace, ctx, ssl, 0), build);
    var ret := env.Call(EnableOcsp(build.ocspCheckAll), ctx);
    if ret != WOLFSSL_SUCCESS {
      return CtxSetupFailed;
    }
    ret := env.Call(EnableOcspStapling, ctx);
    if ret != WOLFSSL_SUCCESS {
      return CtxSetupFailed;
    }
    ret := env.Call(UseOcspStapling, ssl);
    err := if ret != WOLFSSL_SUCCESS then SslSetupFailed else EspOk;
  }

  /** The three parts of the end of set_client_config, and what each leaves to the next. */
  lemma PostRuns(ans: Oracle, m: Machine, build: Build, cfg: ClientCfg, host: seq<byte>, fd: int)
    ensures var (m1, e1) := Exec(ans, m, HostProgram(cfg, host));
            var (m2, e2) := Exec(ans, m1, AlpnProgram(build, cfg));
            var (m3, e3) := Exec(ans, m2, OcspProgram(build));
            Exec(ans, m, ClientPost(build, cfg, host, fd)) ==
            if e1 != EspOk then (m1, e1)
            else if e2 != EspOk then (m2, e2)
            else if e3 != EspOk then (m3, e3)
            else Exec(ans, m3, [Do(Op.SetFd(fd), EspFail)])
  {
    var (h, a) := (HostProgram(cfg, host), AlpnProgram(build, cfg));
    var (o, f) := (OcspProgram(build), [Do(Op.SetFd(fd), EspFail)]);
    assert RealErrors(h) && RealErrors(a) && RealErrors(o) by {
      PostKeeps(build, cfg, host, fd, true);
      RealAppend(h, a + (o + f));
      RealAppend(a, o + f);
      RealAppend(o, f);
    }
    var m1 := Exec(ans, m, h).0;
    ExecAppend(ans, m, h, a + (o + f));
    ExecAppend(ans, m1, a, o + f);
    ExecAppend(ans, Exec(ans, m1, a).0, o, f);
  }

  method SetSocket(env: Env, ghost ctx: nat, ssl: nat, fd: int) returns (err: EspErr)
    modifies env
    ensures (Machine(env.trace, ctx, ssl, 0), err)
            == Exec(env.ans, Machine(old(env.trace), ctx, ssl, 0), [Do(Op.SetFd(fd), EspFail)])
  {
    ExecSingle(env.ans, Machine(env.trace, ctx, ssl, 0), Op.SetFd(fd), EspFail);
    var _ := env.Call(Op.SetFd(fd), ssl);
    err := EspOk;
  }

  /** set_client_config after wolfSSL_new */
  method SetClientPost(env: Env, ctx: nat, ssl: nat, build: Build, cfg: ClientCfg, host: seq<byte>, fd: int)
      returns (err: EspErr)
    modifies env
    ensures (Machine(env.trace, ctx, ssl, 0), err)
            == Exec(env.ans, Machine(old(env.trace), ctx, ssl, 0), ClientPost(build, cfg, host, fd))
  {
    PostRuns(env.ans, Machine(env.trace, ctx, ssl, 0), build, cfg, host, fd);
    err := SetHostName(env, ctx, ssl, cfg, host);
    if err != EspOk {
      return;
    }
    err := SetAlpn(env, ctx, ssl, build, cfg);
    if err != EspOk {
      return;
    }
    err := SetOcsp(env, ctx, ssl, build);
    if err != EspOk {
      return;
    }
    err := SetSocket(env, ctx, ssl, fd);
  }
}

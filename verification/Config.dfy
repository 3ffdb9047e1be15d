/** The configuration functions of the backend as driver programs, and what a successful
    configuration has told wolfSSL. */
module Config {
  import opened Platform
  import opened Certificates
  import opened Program

  /** A C string: what is before its NUL. */
  type cstring = s: seq<byte> | 0 !in s witness []

  /** The build switches that change control flow. */
  datatype Build = Build(
    psk: bool, skipServerVerify: bool, alpn: bool, ocsp: bool, ocspCheckAll: bool, tls13: bool,
    aesGcm: bool, noDh: bool, ecc: bool, nullCipher: bool)
  {
    function IdMax(): nat { if tls13 then 128 else 64 }
  }

  const PSK_MAX_KEY_LEN := 64

  /** esp_tls_cfg_t.psk_hint_key */
  datatype PskHintKey = PskHintKey(key: Option<seq<byte>>, hint: Option<cstring>)

  /** esp_tls_cfg_t: a NULL pointer is None. */
  datatype ClientCfg = ClientCfg(
    bundleAttach: bool, useGlobalStore: bool, cacert: Option<seq<byte>>, psk: Option<PskHintKey>,
    cert: Option<seq<byte>>, key: Option<seq<byte>>,
    skipCommonName: bool, commonName: Option<cstring>, alpnProtos: Option<seq<cstring>>)

  /** esp_tls_cfg_server_t */
  datatype ServerCfg = ServerCfg(cacert: Option<seq<byte>>, cert: Option<seq<byte>>, key: Option<seq<byte>>)

  // ----- the programs

  function LoadCa(cert: seq<byte>, noMem: EspErr, rejected: EspErr): seq<Instr> {
    var load := Do(LoadVerify(Shown(cert).0, Shown(cert).1), rejected);
    if PresentCa(cert).copied then [Do(Malloc(|cert| + 1), noMem), load, Do(HeapFree, EspFail)] else [load]
  }

  function CipherList(b: Build): string {
    if b.aesGcm && !b.noDh then
      "DHE-PSK-AES128-GCM-SHA256" + (if b.tls13 then ":TLS13-AES128-GCM-SHA256" else "")
    else if b.aesGcm && b.ecc then
      "ECDHE-PSK-AES128-GCM-SHA256" + (if b.tls13 then ":TLS13-AES128-GCM-SHA256" else "")
    else if b.nullCipher then "PSK-NULL-SHA256"
    else "PSK-AES128-CBC-SHA256"
  }

  /** Take the lock, store the pair, register the callback, set the suites. */
  function PskCalls(hint: cstring, key: seq<byte>, suites: string): seq<Instr> {
    [Do(TakeLock, Timeout), Do(StoreCreds(hint, key), EspFail),
     Do(SetPskCallback, EspFail), Do(SetCipherList(suites), EspFail)]
  }

  function PskProgram(b: Build, p: PskHintKey, lock: bool): seq<Instr> {
    if p.key.None? || p.hint.None? || p.key.value == [] then [Refuse(EspFail)]
    else if !lock then [Refuse(InvalidState)]
    else if |p.key.value| > PSK_MAX_KEY_LEN || |p.hint.value| >= b.IdMax() then
      [Do(TakeLock, Timeout), Refuse(InvalidArg)]
    else
      PskCalls(p.hint.value, p.key.value, CipherList(b))
  }

  function LoadAndVerify(cert: seq<byte>, mode: VerifyMode): seq<Instr> {
    LoadCa(cert, CertVerifySetupFailed, CertVerifySetupFailed) + [Do(SetVerify(mode), EspFail)]
  }

  function TrustProgram(b: Build, cfg: ClientCfg, store: Option<seq<byte>>, lock: bool): seq<Instr> {
    if cfg.useGlobalStore then
      if store.None? then [Refuse(InvalidState)] else LoadAndVerify(store.value, VerifyPeer)
    else if cfg.cacert.Some? then LoadAndVerify(cfg.cacert.value, VerifyPeer)
    else if b.psk && cfg.psk.Some? then PskProgram(b, cfg.psk.value, lock)
    else if b.skipServerVerify then [Do(SetVerify(VerifyNone), EspFail)]
    else [Refuse(SslSetupFailed)]
  }

  function IdentityProgram(cert: Option<seq<byte>>, key: Option<seq<byte>>, needed: bool): seq<Instr> {
    if cert.Some? && key.Some? then
      [Do(UseCertChain(cert.value, CertFormat(cert.value)), CertVerifySetupFailed),
       Do(UsePrivateKey(key.value, KeyFormat(key.value)), CertVerifySetupFailed)]
    else if needed || cert.Some? || key.Some? then [Refuse(EspFail)]
    else []
  }

  /** strndup(hostname, hostlen), where `host` is the first hostlen bytes */
  function UpToNul(host: seq<byte>): (s: cstring)
    ensures s <= host && (s == host || host[|s|] == 0)
  {
    if host == [] || host[0] == 0 then [] else [host[0]] + UpToNul(host[1..])
  }

  function HostName(cfg: ClientCfg, host: seq<byte>): cstring {
    if cfg.commonName.Some? then cfg.commonName.value else UpToNul(host)
  }

  /** One name, from a temporary string, for the certificate check and for SNI */
  function UseName(name: cstring): seq<Instr> {
    [Do(Malloc(|name| + 1), NoMem), Do(CheckDomain(name), SetHostnameFailed),
     Do(UseSni(name), SetHostnameFailed), Do(HeapFree, EspFail)]
  }

  function HostProgram(cfg: ClientCfg, host: seq<byte>): seq<Instr> {
    if cfg.skipCommonName then [] else UseName(HostName(cfg, host))
  }

  function UseProtos(protos: seq<cstring>): (p: seq<Instr>)
    ensures |p| == |protos|
    ensures forall i :: 0 <= i < |p| ==> p[i] == Do(UseAlpn(protos[i]), AlpnFailed)
  {
    if protos == [] then [] else [Do(UseAlpn(protos[0]), AlpnFailed)] + UseProtos(protos[1..])
  }

  function AlpnProgram(b: Build, cfg: ClientCfg): seq<Instr> {
    if cfg.alpnProtos.None? then []
    else if b.alpn then UseProtos(cfg.alpnProtos.value)
    else [Refuse(EspFail)]
  }

  function OcspProgram(b: Build): seq<Instr> {
    if b.ocsp then
      [Do(EnableOcsp(b.ocspCheckAll), CtxSetupFailed), Do(EnableOcspStapling, CtxSetupFailed),
       Do(UseOcspStapling, SslSetupFailed)]
    else []
  }

  /** The IDF certificate bundle is refused. */
  function BundleProgram(cfg: ClientCfg): seq<Instr> {
    if cfg.bundleAttach then [Refuse(NotSupported)] else []
  }

  /** set_client_config between wolfSSL_CTX_new and wolfSSL_new */
  function ClientPre(b: Build, cfg: ClientCfg, store: Option<seq<byte>>, lock: bool): seq<Instr> {
    BundleProgram(cfg) + (TrustProgram(b, cfg, store, lock) + IdentityProgram(cfg.cert, cfg.key, false))
  }

  /** set_client_config after wolfSSL_new */
  function ClientPost(b: Build, cfg: ClientCfg, host: seq<byte>, fd: int): seq<Instr> {
    HostProgram(cfg, host) + (AlpnProgram(b, cfg) + (OcspProgram(b) + [Do(SetFd(fd), EspFail)]))
  }

  /** The shape both configuration functions share. */
  function Assemble(make: Op, pre: seq<Instr>, post: seq<Instr>): seq<Instr> {
    [Do(make, CtxSetupFailed)] + (pre + ([Do(SslNew, SslSetupFailed)] + post))
  }

  function ClientProgram(b: Build, cfg: ClientCfg, host: seq<byte>, store: Option<seq<byte>>, lock: bool, fd: int)
      : seq<Instr>
  {
    Assemble(CtxNew(false, b.tls13), ClientPre(b, cfg, store, lock), ClientPost(b, cfg, host, fd))
  }

  function ServerTrust(cfg: ServerCfg): seq<Instr> {
    if cfg.cacert.Some? then LoadAndVerify(cfg.cacert.value, VerifyPeerAndRequireCert)
    else [Do(SetVerify(VerifyNone), EspFail)]
  }

  /** set_server_config between wolfSSL_CTX_new and wolfSSL_new */
  function ServerPre(cfg: ServerCfg): seq<Instr> {
    ServerTrust(cfg) + IdentityProgram(cfg.cert, cfg.key, true)
  }

  /** set_server_config after wolfSSL_new */
  function ServerPost(fd: int): seq<Instr> {
    [Do(SetFd(fd), EspFail)]
  }

  function ServerProgram(b: Build, cfg: ServerCfg, fd: int): seq<Instr> {
    Assemble(CtxNew(true, b.tls13), ServerPre(cfg), ServerPost(fd))
  }

  // ----- the programs pass the ownership checker

  function Start(lock: bool): Known { Known(Held(false, false, false, lock), Other) }

  ghost predicate KeepsFrom(p: seq<Instr>, k: Known) {
    Check(p, k).Some? && Check(p, k).value.held == k.held
  }

  /** The checker accepts `p` when `h` is held, and leaves it at that. */
  ghost predicate Keeps(p: seq<Instr>, h: Held) {
    RealErrors(p) && forall k: Known {:trigger KeepsFrom(p, k)} :: k.held == h ==> KeepsFrom(p, k)
  }

  lemma {:induction false} RealAppend(p: seq<Instr>, q: seq<Instr>)
    ensures RealErrors(p + q) <==> RealErrors(p) && RealErrors(q)
  {
    if p == [] {
      assert p + q == q;
    } else {
      assert (p + q)[1..] == p[1..] + q;
      RealAppend(p[1..], q);
    }
  }

  lemma KeepsFromAppend(p: seq<Instr>, q: seq<Instr>, k: Known)
    requires Keeps(p, k.held) && Keeps(q, k.held)
    ensures KeepsFrom(p + q, k)
  {
    assert KeepsFrom(p, k);
    CheckAppend(p, q, k);
    assert KeepsFrom(q, Check(p, k).value);
  }

  lemma KeepsAppend(p: seq<Instr>, q: seq<Instr>, h: Held)
    requires Keeps(p, h) && Keeps(q, h)
    ensures Keeps(p + q, h)
  {
    RealAppend(p, q);
    forall k: Known | k.held == h ensures KeepsFrom(p + q, k) {
      KeepsFromAppend(p, q, k);
    }
  }

  function WithCtx(lock: bool): Held { Held(true, false, false, lock) }
  function WithSsl(lock: bool): Held { Held(true, true, false, lock) }

  /** One instruction that is harmless wherever `h` is held. */
  lemma OneKeeps(i: Instr, h: Held)
    requires i.err != EspOk
    requires i.Do? ==> After(i.op, Known(h, Other)).Some? && After(i.op, Known(h, Other)).value.held == h
    requires i.Do? ==> !i.op.StoreCreds? && !i.op.SetPskCallback?
    ensures Keeps([i], h)
  {
    assert [i][1..] == [];
    forall k: Known | k.held == h ensures KeepsFrom([i], k) {
      if i.Do? {
        assert After(i.op, k) == After(i.op, Known(h, Other));
      }
    }
  }

  lemma TwoKeep(i: Instr, j: Instr, h: Held)
    requires Keeps([i], h) && Keeps([j], h)
    ensures Keeps([i, j], h)
  {
    KeepsAppend([i], [j], h);
    assert [i] + [j] == [i, j];
  }

  /** A temporary block around a part of a program. */
  lemma CopiedKeeps(size: nat, noMem: EspErr, p: seq<Instr>, h: Held)
    requires noMem != EspOk && !h.tmp && Keeps(p, h.(tmp := true))
    ensures Keeps([Do(Malloc(size), noMem)] + (p + [Do(HeapFree, EspFail)]), h)
  {
    var free := [Do(HeapFree, EspFail)];
    var all := [Do(Malloc(size), noMem)] + (p + free);
    assert all[1..] == p + free && free[1..] == [];
    RealAppend(p, free);
    forall k: Known | k.held == h ensures KeepsFrom(all, k) {
      var k1 := Known(h.(tmp := true), Other);
      assert KeepsFrom(p, k1);
      CheckAppend(p, free, k1);
      assert After(HeapFree, Check(p, k1).value) == Some(Known(h, Other));
    }
  }

  lemma LoadAndVerifyKeeps(cert: seq<byte>, mode: VerifyMode, lock: bool)
    ensures Keeps(LoadAndVerify(cert, mode), WithCtx(lock))
  {
    var load := Do(LoadVerify(Shown(cert).0, Shown(cert).1), CertVerifySetupFailed);
    OneKeeps(load, WithCtx(lock));
    OneKeeps(load, WithCtx(lock).(tmp := true));
    CopiedKeeps(|cert| + 1, CertVerifySetupFailed, [load], WithCtx(lock));
    assert [Do(Malloc(|cert| + 1), CertVerifySetupFailed)] + ([load] + [Do(HeapFree, EspFail)])
        == [Do(Malloc(|cert| + 1), CertVerifySetupFailed), load, Do(HeapFree, EspFail)];
    OneKeeps(Do(SetVerify(mode), EspFail), WithCtx(lock));
    KeepsAppend(LoadCa(cert, CertVerifySetupFailed, CertVerifySetupFailed),
                [Do(SetVerify(mode), EspFail)], WithCtx(lock));
  }

  lemma PskKeeps(b: Build, psk: PskHintKey, lock: bool)
    ensures Keeps(PskProgram(b, psk, lock), WithCtx(lock))
  {
    var p := PskProgram(b, psk, lock);
    if |p| == 2 {
      OneKeeps(Do(TakeLock, Timeout), WithCtx(lock));
      OneKeeps(Refuse(InvalidArg), WithCtx(lock));
      TwoKeep(Do(TakeLock, Timeout), Refuse(InvalidArg), WithCtx(lock));
    } else if |p| == 4 {
      assert p[1..][1..] == p[2..] && p[2..][1..] == p[3..] && p[3..][1..] == [];
      assert RealErrors(p[3..]) && RealErrors(p[2..]) && RealErrors(p[1..]);
      forall k: Known | k.held == WithCtx(lock) ensures KeepsFrom(p, k) {
        assert Check(p[3..], Known(WithCtx(lock), Other)) == Some(Known(WithCtx(lock), Other));
        assert Check(p[2..], Known(WithCtx(lock), Stored)) == Some(Known(WithCtx(lock), Other));
        assert Check(p[1..], Known(WithCtx(lock), Locked)) == Some(Known(WithCtx(lock), Other));
      }
    } else if |p| == 1 {
      OneKeeps(p[0], WithCtx(lock));
    }
  }

  lemma IdentityKeeps(cert: Option<seq<byte>>, key: Option<seq<byte>>, needed: bool, lock: bool)
    ensures Keeps(IdentityProgram(cert, key, needed), WithCtx(lock))
  {
    var p := IdentityProgram(cert, key, needed);
    if |p| == 2 {
      OneKeeps(p[0], WithCtx(lock));
      OneKeeps(p[1], WithCtx(lock));
      TwoKeep(p[0], p[1], WithCtx(lock));
    } else if |p| == 1 {
      OneKeeps(p[0], WithCtx(lock));
    }
  }

  lemma TrustKeeps(b: Build, cfg: ClientCfg, store: Option<seq<byte>>, lock: bool)
    ensures Keeps(TrustProgram(b, cfg, store, lock), WithCtx(lock))
  {
    OneKeeps(Do(SetVerify(VerifyNone), EspFail), WithCtx(lock));
    OneKeeps(Refuse(SslSetupFailed), WithCtx(lock));
    OneKeeps(Refuse(InvalidState), WithCtx(lock));
    if cfg.useGlobalStore && store.Some? {
      LoadAndVerifyKeeps(store.value, VerifyPeer, lock);
    } else if !cfg.useGlobalStore && cfg.cacert.Some? {
      LoadAndVerifyKeeps(cfg.cacert.value, VerifyPeer, lock);
    } else if cfg.psk.Some? {
      PskKeeps(b, cfg.psk.value, lock);
    }
  }

  lemma HostKeeps(cfg: ClientCfg, host: seq<byte>, lock: bool)
    ensures Keeps(HostProgram(cfg, host), WithSsl(lock))
  {
    var p := HostProgram(cfg, host);
    if |p| == 4 {
      OneKeeps(p[1], WithSsl(lock).(tmp := true));
      OneKeeps(p[2], WithSsl(lock).(tmp := true));
      TwoKeep(p[1], p[2], WithSsl(lock).(tmp := true));
      CopiedKeeps(|HostName(cfg, host)| + 1, NoMem, [p[1], p[2]], WithSsl(lock));
      assert p == [p[0]] + ([p[1], p[2]] + [p[3]]);
    }
  }

  lemma {:induction false} ProtosKeep(protos: seq<cstring>, lock: bool)
    ensures Keeps(UseProtos(protos), WithSsl(lock))
  {
    if protos != [] {
      ProtosKeep(protos[1..], lock);
      OneKeeps(Do(UseAlpn(protos[0]), AlpnFailed), WithSsl(lock));
      KeepsAppend([Do(UseAlpn(protos[0]), AlpnFailed)], UseProtos(protos[1..]), WithSsl(lock));
    }
  }

  lemma OcspKeeps(b: Build, lock: bool)
    ensures Keeps(OcspProgram(b), WithSsl(lock))
  {
    var p := OcspProgram(b);
    if |p| == 3 {
      OneKeeps(p[0], WithSsl(lock));
      OneKeeps(p[1], WithSsl(lock));
      OneKeeps(p[2], WithSsl(lock));
      TwoKeep(p[1], p[2], WithSsl(lock));
      KeepsAppend([p[0]], [p[1], p[2]], WithSsl(lock));
      assert [p[0]] + [p[1], p[2]] == p;
    }
  }

  lemma PostKeeps(b: Build, cfg: ClientCfg, host: seq<byte>, fd: int, lock: bool)
    ensures Keeps(ClientPost(b, cfg, host, fd), WithSsl(lock))
  {
    var setFd := [Do(SetFd(fd), EspFail)];
    OneKeeps(setFd[0], WithSsl(lock));
    OcspKeeps(b, lock);
    KeepsAppend(OcspProgram(b), setFd, WithSsl(lock));
    OneKeeps(Refuse(EspFail), WithSsl(lock));
    if cfg.alpnProtos.Some? {
      ProtosKeep(cfg.alpnProtos.value, lock);
    }
    KeepsAppend(AlpnProgram(b, cfg), OcspProgram(b) + setFd, WithSsl(lock));
    HostKeeps(cfg, host, lock);
    KeepsAppend(HostProgram(cfg, host), AlpnProgram(b, cfg) + (OcspProgram(b) + setFd), WithSsl(lock));
  }

  lemma PreKeeps(b: Build, cfg: ClientCfg, store: Option<seq<byte>>, lock: bool)
    ensures Keeps(ClientPre(b, cfg, store, lock), WithCtx(lock))
  {
    TrustKeeps(b, cfg, store, lock);
    IdentityKeeps(cfg.cert, cfg.key, false, lock);
    KeepsAppend(TrustProgram(b, cfg, store, lock), IdentityProgram(cfg.cert, cfg.key, false), WithCtx(lock));
    OneKeeps(Refuse(NotSupported), WithCtx(lock));
    KeepsAppend(BundleProgram(cfg),
                TrustProgram(b, cfg, store, lock) + IdentityProgram(cfg.cert, cfg.key, false), WithCtx(lock));
  }

  lemma ServerPreKeeps(cfg: ServerCfg, lock: bool)
    ensures Keeps(ServerPre(cfg), WithCtx(lock))
  {
    if cfg.cacert.Some? {
      LoadAndVerifyKeeps(cfg.cacert.value, VerifyPeerAndRequireCert, lock);
    }
    OneKeeps(Do(SetVerify(VerifyNone), EspFail), WithCtx(lock));
    IdentityKeeps(cfg.cert, cfg.key, true, lock);
    KeepsAppend(ServerTrust(cfg), IdentityProgram(cfg.cert, cfg.key, true), WithCtx(lock));
  }

  /** The checker accepts the program, and predicts a CTX, an SSL and no temporary block. */
  predicate Owning(p: seq<Instr>, lock: bool) {
    RealErrors(p) && Check(p, Start(lock)).Some? && Check(p, Start(lock)).value.held == WithSsl(lock)
  }

  lemma AssembledOwning(make: Op, pre: seq<Instr>, post: seq<Instr>, lock: bool)
    requires make.CtxNew? && Keeps(pre, WithCtx(lock)) && Keeps(post, WithSsl(lock))
    ensures Owning(Assemble(make, pre, post), lock)
  {
    var p := Assemble(make, pre, post);
    var tail := [Do(SslNew, SslSetupFailed)] + post;
    var k := Known(WithCtx(lock), Other);
    assert p[1..] == pre + tail && tail[1..] == post;
    assert KeepsFrom(pre, k);
    CheckAppend(pre, tail, k);
    assert After(SslNew, Check(pre, k).value) == Some(Known(WithSsl(lock), Other));
    assert KeepsFrom(post, Known(WithSsl(lock), Other));
    RealAppend(pre, tail);
  }

  lemma ClientOwning(b: Build, cfg: ClientCfg, host: seq<byte>, store: Option<seq<byte>>, lock: bool, fd: int)
    ensures Owning(ClientProgram(b, cfg, host, store, lock, fd), lock)
  {
    PreKeeps(b, cfg, store, lock);
    PostKeeps(b, cfg, host, fd, lock);
    AssembledOwning(CtxNew(false, b.tls13), ClientPre(b, cfg, store, lock), ClientPost(b, cfg, host, fd), lock);
  }

  lemma ServerOwning(b: Build, cfg: ServerCfg, fd: int, lock: bool)
    ensures Owning(ServerProgram(b, cfg, fd), lock)
  {
    ServerPreKeeps(cfg, lock);
    OneKeeps(Do(SetFd(fd), EspFail), WithSsl(lock));
    AssembledOwning(CtxNew(true, b.tls13), ServerPre(cfg), ServerPost(fd), lock);
  }
}

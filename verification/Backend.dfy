/** The backend itself: the process-wide state of the C file and the operations that update it in
    place, each proved to do exactly what its specification function says. */
module Backend {
  import opened Platform
  import opened Ledger
  import opened Certificates
  import opened Program
  import opened Config
  import opened Lifecycle
  import opened PskLock
  import opened Setup

  /** esp_tls_t, as far as this backend is concerned */
  class Tls {
    var privCtx: nat
    var privSsl: nat
    var connState: ConnState
    var sockfd: int
    var wired: bool

    function View(): Conn
      reads this
    {
      Conn(privCtx, privSsl, connState, sockfd, wired)
    }

    constructor ()
      ensures View() == BLANK
    {
      privCtx, privSsl, connState, sockfd, wired := 0, 0, ConnInit, -1, false;
    }
  }

  /** A C string in a zero-filled buffer of n bytes. */
  function Padded(s: seq<byte>, n: nat): (r: seq<byte>)
    requires |s| <= n
    ensures |r| == n
  {
    s + seq(n - |s|, i => 0)
  }

  /** strlen on a buffer known to hold a NUL */
  method StrLen(a: array<byte>) returns (n: nat)
    requires 0 in a[..]
    ensures n < a.Length && a[n] == 0 && forall i :: 0 <= i < n ==> a[i] != 0
  {
    n := 0;
    while a[n] != 0
      invariant n < a.Length && forall i :: 0 <= i < n ==> a[i] != 0
      decreases a.Length - n
    {
      n := n + 1;
    }
  }

  /** A program that has nothing to do with PSK leaves everything the flag and the buffers mirror. */
  lemma CalmLeaves(ans: Oracle, m: Machine, p: seq<Instr>)
    requires Calm(p)
    ensures var t := Exec(ans, m, p).0.trace;
            && Taken(t) == Taken(m.trace) && LastCreds(t) == LastCreds(m.trace)
            && (|m.trace| > 0 ==> |t| > 0 && LockExists(t) == LockExists(m.trace))
  {
    CalmExec(ans, m, p);
    ExecGrows(ans, m, p);
  }

  /** What follows taking the lock. */
  function PskInstalled(ans: Oracle, m: Machine, hint: cstring, key: seq<byte>, suites: string): (Machine, EspErr) {
    var m1 := Issue(ans, Issue(ans, m, StoreCreds(hint, key)), SetPskCallback);
    (Issue(ans, m1, SetCipherList(suites)), if Succeeds(ans, m1, SetCipherList(suites)) then EspOk else EspFail)
  }

  /** A PSK setup, spelled out. */
  lemma PskCases(ans: Oracle, m: Machine, hint: cstring, key: seq<byte>, suites: string)
    requires m.tmp == 0
    ensures var m1 := Issue(ans, m, TakeLock);
            Exec(ans, m, PskCalls(hint, key, suites)) ==
            if !Succeeds(ans, m, TakeLock) then (m1, Timeout) else PskInstalled(ans, m1, hint, key, suites)
  {
    var p4 := [Do(SetCipherList(suites), EspFail)];
    var p3 := [Do(SetPskCallback, EspFail)] + p4;
    var p2 := [Do(StoreCreds(hint, key), EspFail)] + p3;
    assert PskCalls(hint, key, suites) == [Do(TakeLock, Timeout)] + p2;
    var m1 := Issue(ans, m, TakeLock);
    var m2 := Issue(ans, m1, StoreCreds(hint, key));
    ExecOne(ans, m, Do(TakeLock, Timeout), p2);
    ExecOne(ans, m1, Do(StoreCreds(hint, key), EspFail), p3);
    ExecOne(ans, m2, Do(SetPskCallback, EspFail), p4);
    ExecSingle(ans, Issue(ans, m2, SetPskCallback), SetCipherList(suites), EspFail);
  }

  /** The three calls after taking the lock; the first records the write of the shared buffers. */
  method RegisterPsk(env: Env, ctx: nat, ghost ssl: nat, hint: cstring, key: seq<byte>, suites: string)
      returns (err: EspErr)
    requires |env.trace| > 0
    modifies env
    ensures (Machine(env.trace, ctx, ssl, 0), err)
            == PskInstalled(env.ans, Machine(old(env.trace), ctx, ssl, 0), hint, key, suites)
    ensures Taken(env.trace) == Taken(old(env.trace)) && LastCreds(env.trace) == Creds(hint, key)
    ensures |env.trace| > 0 && LockExists(env.trace) == LockExists(old(env.trace))
  {
    StoreStage(env.ans, Machine(env.trace, ctx, ssl, 0), hint, key);
    var _ := env.Call(StoreCreds(hint, key), ctx);
    CalmIssue(env.ans, Machine(env.trace, ctx, ssl, 0), SetPskCallback);
    var _ := env.Call(SetPskCallback, ctx);
    CalmIssue(env.ans, Machine(env.trace, ctx, ssl, 0), SetCipherList(suites));
    var ret := env.Call(SetCipherList(suites), ctx);
    err := if ret != WOLFSSL_SUCCESS then EspFail else EspOk;
  }

  lemma PskRefused(ans: Oracle, m: Machine)
    requires m.tmp == 0
    ensures Exec(ans, m, [Do(TakeLock, Timeout), Refuse(InvalidArg)])
            == (Issue(ans, m, TakeLock), if Succeeds(ans, m, TakeLock) then InvalidArg else Timeout)
  {
    assert [Do(TakeLock, Timeout), Refuse(InvalidArg)] == [Do(TakeLock, Timeout)] + [Refuse(InvalidArg)];
    ExecOne(ans, m, Do(TakeLock, Timeout), [Refuse(InvalidArg)]);
  }

  lemma {:induction false} CallbacksKeepPointers(ans: Oracle, m: Machine, bufs: seq<Buffers>)
    ensures PskCallbacks(ans, m, bufs) == m.(trace := PskCallbacks(ans, m, bufs).trace)
    decreases |bufs|
  {
    if bufs != [] {
      CallbacksKeepPointers(ans, PskCallback(ans, m, bufs[0]).0, bufs[1..]);
    }
  }

  lemma HandshakeKeepsPointers(ans: Oracle, m: Machine, bufs: seq<Buffers>)
    ensures ConnectCall(ans, m, bufs) == m.(trace := ConnectCall(ans, m, bufs).trace)
  {
    CallbacksKeepPointers(ans, m, bufs);
  }

  lemma ServerIgnoresStore(ans: Oracle, b: Build, m: Machine, cfg: ServerCfg, store: Option<seq<byte>>, fd: int)
    ensures Create(ans, b, m, AsServer(cfg), store, fd) == Create(ans, b, m, AsServer(cfg), None, fd)
  {
  }

  predicate SizedOption(buf: Option<seq<byte>>) {
    buf.Some? ==> |buf.value| <= OBJECT_MAX
  }

  /** The caller's buffers are C objects. */
  predicate Sized(cfg: ClientCfg) {
    SizedOption(cfg.cacert) && SizedOption(cfg.cert) && SizedOption(cfg.key)
  }

  predicate SizedPeer(peer: Peer) {
    match peer
    case AsClient(cfg, _) => Sized(cfg)
    case AsServer(cfg) => SizedOption(cfg.cacert) && SizedOption(cfg.cert) && SizedOption(cfg.key)
    case BadRole => true
  }

  lemma TeardownPieces(ans: Oracle, m: Machine)
    ensures GiveBack(ans, m).ssl == m.ssl && GiveBack(ans, m).ctx == m.ctx && !Taken(GiveBack(ans, m).trace)
    ensures DropSsl(ans, GiveBack(ans, m)).ctx == m.ctx
  {
    Snoc(m.trace, Event(GiveLock, 0, Answer(ans, m.trace, GiveLock)));
  }

  lemma ServerPreRuns(ans: Oracle, m: Machine, cfg: ServerCfg)
    ensures RealErrors(ServerPre(cfg))
    ensures var (m1, err) := Exec(ans, m, ServerTrust(cfg));
            Exec(ans, m, ServerPre(cfg)) ==
            if err != EspOk then (m1, err) else Exec(ans, m1, IdentityProgram(cfg.cert, cfg.key, true))
  {
    ServerPreKeeps(cfg, true);
    RealAppend(ServerTrust(cfg), IdentityProgram(cfg.cert, cfg.key, true));
    ExecAppend(ans, m, ServerTrust(cfg), IdentityProgram(cfg.cert, cfg.key, true));
  }

  lemma PreRuns(ans: Oracle, m: Machine, b: Build, cfg: ClientCfg, store: Option<seq<byte>>, lock: bool)
    requires m.tmp == 0
    ensures var (m1, err) := Exec(ans, m, TrustProgram(b, cfg, store, lock));
            Exec(ans, m, ClientPre(b, cfg, store, lock)) ==
            if cfg.bundleAttach then (m, NotSupported)
            else if err != EspOk then (m1, err)
            else Exec(ans, m1, IdentityProgram(cfg.cert, cfg.key, false))
  {
    var (t, i) := (TrustProgram(b, cfg, store, lock), IdentityProgram(cfg.cert, cfg.key, false));
    TrustKeeps(b, cfg, store, lock);
    ExecAppend(ans, m, t, i);
    if cfg.bundleAttach {
      ExecOne(ans, m, Refuse(NotSupported), t + i);
    } else {
      assert ClientPre(b, cfg, store, lock) == t + i;
    }
  }

  /** The common shape of the two configuration functions, as a caller of its parts sees it. */
  lemma AssembledRuns(ans: Oracle, m: Machine, make: Op, pre: seq<Instr>, post: seq<Instr>)
    requires m.tmp == 0 && make.CtxNew? && RealErrors(pre)
    ensures var mc := Issue(ans, m, make);
            var (mp, err) := Exec(ans, mc, pre);
            var ms := Issue(ans, mp, SslNew);
            Exec(ans, m, Assemble(make, pre, post)) ==
            if mc.ctx == 0 then (mc, CtxSetupFailed)
            else if err != EspOk then (mp, err)
            else if ms.ssl == 0 then (DropTmp(ans, ms), SslSetupFailed)
            else Exec(ans, ms, post)
  {
    var tail := [Do(SslNew, SslSetupFailed)] + post;
    ExecOne(ans, m, Do(make, CtxSetupFailed), pre + tail);
    ExecAppend(ans, Issue(ans, m, make), pre, tail);
    ExecOne(ans, Exec(ans, Issue(ans, m, make), pre).0, Do(SslNew, SslSetupFailed), post);
  }

  /** set_client_config, as a caller of its parts sees it */
  lemma ClientRuns(ans: Oracle, m: Machine, b: Build, cfg: ClientCfg, host: seq<byte>,
                   store: Option<seq<byte>>, lock: bool, fd: int)
    requires m.tmp == 0
    ensures var mc := Issue(ans, m, CtxNew(false, b.tls13));
            var (mp, err) := Exec(ans, mc, ClientPre(b, cfg, store, lock));
            var ms := Issue(ans, mp, SslNew);
            Exec(ans, m, ClientProgram(b, cfg, host, store, lock, fd)) ==
            if mc.ctx == 0 then (mc, CtxSetupFailed)
            else if err != EspOk then (mp, err)
            else if ms.ssl == 0 then (DropTmp(ans, ms), SslSetupFailed)
            else Exec(ans, ms, ClientPost(b, cfg, host, fd))
  {
    PreKeeps(b, cfg, store, lock);
    AssembledRuns(ans, m, CtxNew(false, b.tls13), ClientPre(b, cfg, store, lock), ClientPost(b, cfg, host, fd));
  }

  /** set_server_config likewise */
  lemma ServerRuns(ans: Oracle, m: Machine, b: Build, cfg: ServerCfg, fd: int)
    requires m.tmp == 0
    ensures var mc := Issue(ans, m, CtxNew(true, b.tls13));
            var (mp, err) := Exec(ans, mc, ServerPre(cfg));
            var ms := Issue(ans, mp, SslNew);
            Exec(ans, m, ServerProgram(b, cfg, fd)) ==
            if mc.ctx == 0 then (mc, CtxSetupFailed)
            else if err != EspOk then (mp, err)
            else if ms.ssl == 0 then (DropTmp(ans, ms), SslSetupFailed)
            else Exec(ans, ms, ServerPost(fd))
  {
    ServerPreKeeps(cfg, true);
    AssembledRuns(ans, m, CtxNew(true, b.tls13), ServerPre(cfg), ServerPost(fd));
  }

  /** strlen of a padded buffer is the length of the string in it. */
  lemma PaddedString(s: seq<byte>, a: array<byte>)
    requires |s| < a.Length && 0 !in s && a[..] == Padded(s, a.Length)
    ensures 0 in a[..] && a[..|s|] == s && a[|s|] == 0 && forall i :: 0 <= i < |s| ==> a[i] != 0
  {
    assert a[|s|] == Padded(s, a.Length)[|s|] == 0;
    assert a[..][|s|] == 0;
    assert a[..|s|] == s;
    assert forall i :: 0 <= i < |s| ==> a[i] == s[i] && s[i] in s;
  }

  lemma PaddedKey(s: seq<byte>, a: array<byte>)
    requires |s| <= a.Length && a[..] == Padded(s, a.Length)
    ensures a[..|s|] == s
  {
  }

  /** The backend's globals. */
  class State {
    const env: Env
    const build: Build
    const connLock: bool
    var connLockHeld: bool
    const pskId: array<byte>
    const pskKey: array<byte>
    var pskKeyLen: nat
    var cacert: array?<byte>
    var cacertAt: nat
    var cacertBytes: nat

    ghost predicate BuffersHold(c: Creds)
      reads this, pskId, pskKey
    {
      && |c.hint| < pskId.Length && |c.key| <= pskKey.Length && 0 !in c.hint
      && pskId[..] == Padded(c.hint, pskId.Length)
      && pskKey[..] == Padded(c.key, pskKey.Length) && pskKeyLen == |c.key|
    }

    ghost predicate StoreShape()
      reads this, cacert
    {
      && (cacert == null ==> cacertBytes == 0)
      && (cacert != null ==>
            && cacert != pskId && cacert != pskKey
            && cacert.Length == cacertBytes + 1 && cacert[cacertBytes] == 0 && cacertBytes <= OBJECT_MAX)
    }

    /** The flag mirrors the mutex, the mutex pointer its creation; the two buffers hold the
        credentials last written, zero-filled; the store is a block of its length plus a NUL, or
        empty with length 0. */
    ghost predicate Valid()
      reads this, env, pskId, pskKey, cacert
    {
      && connLock == LockExists(env.trace) && |env.trace| > 0
      && connLockHeld == Taken(env.trace)
      && pskId != pskKey && pskId.Length == build.IdMax() && pskKey.Length == PSK_MAX_KEY_LEN
      && BuffersHold(LastCreds(env.trace))
      && StoreShape()
    }

    function Store(): Option<CaStore>
      requires cacert != null ==> cacertBytes <= cacert.Length
      reads this, cacert
    {
      if cacert == null then None else Some(CaStore(cacertAt, cacert[..cacertBytes]))
    }

    function Mach(tls: Tls): Machine
      reads env, tls
    {
      Machine(env.trace, tls.privCtx, tls.privSsl, 0)
    }

    /** The file-level initialisers and the boot-time constructor of the mutex. */
    constructor (build: Build, ans: Oracle, mutexCreated: int)
      ensures Valid() && fresh(env) && fresh(pskId) && fresh(pskKey) && Store() == None
      ensures env.ans == ans && env.trace == [Event(CreateMutex, 0, mutexCreated)] && this.build == build
    {
      this.build := build;
      env := new Env(ans, mutexCreated);
      connLock := mutexCreated != 0;
      connLockHeld := false;
      pskId := new byte[build.IdMax()](i => 0);
      pskKey := new byte[PSK_MAX_KEY_LEN](i => 0);
      pskKeyLen := 0;
      cacert, cacertAt, cacertBytes := null, 0, 0;
      new;
      Snoc([], env.trace[0]);
      assert env.trace == [] + [env.trace[0]];
      assert pskId[..] == Padded([], pskId.Length) && pskKey[..] == Padded([], pskKey.Length);
    }

    /** A call that concerns neither the lock nor the PSK buffers keeps the globals in order. */
    method CalmCall(op: Op, on: nat) returns (ret: int)
      requires Valid() && !op.TakeLock? && !op.GiveLock? && !op.StoreCreds?
      modifies env
      ensures Valid() && Taken(env.trace) == Taken(old(env.trace)) && LastCreds(env.trace) == LastCreds(old(env.trace))
      ensures ret == Answer(env.ans, old(env.trace), op) && env.trace == old(env.trace) + [Event(op, on, ret)]
    {
      Snoc(env.trace, Event(op, on, Answer(env.ans, env.trace, op)));
      ret := env.Call(op, on);
    }

    /** ... and one that creates an object */
    method CalmNew(op: Op, on: nat) returns (h: nat)
      requires Valid() && Makes(op) != NoObject && !op.TakeLock?
      modifies env
      ensures Valid() && Taken(env.trace) == Taken(old(env.trace)) && LastCreds(env.trace) == LastCreds(old(env.trace))
      ensures env.trace == old(env.trace) + [Event(op, on, Answer(env.ans, old(env.trace), op))]
      ensures h == if Ok(op, Answer(env.ans, old(env.trace), op)) then |env.trace| else 0
    {
      Snoc(env.trace, Event(op, on, Answer(env.ans, env.trace, op)));
      h := env.New(op, on);
    }

    method CalmAlloc(size: nat) returns (at: nat, block: array?<byte>)
      requires Valid()
      modifies env
      ensures Valid() && Taken(env.trace) == Taken(old(env.trace)) && LastCreds(env.trace) == LastCreds(old(env.trace))
      ensures env.trace == old(env.trace) + [Event(Malloc(size), 0, Answer(env.ans, old(env.trace), Malloc(size)))]
      ensures at == if Ok(Malloc(size), Answer(env.ans, old(env.trace), Malloc(size))) then |env.trace| else 0
      ensures if at == 0 then block == null else block != null && fresh(block) && block.Length == size
    {
      Snoc(env.trace, Event(Malloc(size), 0, Answer(env.ans, env.trace, Malloc(size))));
      at, block := env.Alloc(size);
    }

    // ----- PSK

    /** memset, memset, memcpy, memcpy: whatever the buffers held before, they now hold these credentials
        and zeros. */
    method StoreCredentials(hint: cstring, key: seq<byte>)
      requires pskId != pskKey && |hint| < pskId.Length && |key| <= pskKey.Length
      modifies `pskKeyLen, pskId, pskKey
      ensures BuffersHold(Creds(hint, key))
    {
      pskKeyLen := |key|;
      forall i | 0 <= i < pskKey.Length {
        pskKey[i] := 0;
      }
      forall i | 0 <= i < pskId.Length {
        pskId[i] := 0;
      }
      forall i | 0 <= i < |key| {
        pskKey[i] := key[i];
      }
      forall i | 0 <= i < |hint| {
        pskId[i] := hint[i];
      }
      assert pskId[..] == Padded(hint, pskId.Length) && pskKey[..] == Padded(key, pskKey.Length);
    }

    /** xSemaphoreTake on the PSK mutex, and the flag that goes with it */
    method TakeConnLock(tls: Tls) returns (taken: bool)
      requires Valid()
      modifies env, `connLockHeld
      ensures Valid()
      ensures Mach(tls) == Issue(env.ans, old(Mach(tls)), TakeLock) && taken == !Taken(old(env.trace))
    {
      TakeStage(env.ans, Mach(tls));
      var ret := env.Call(TakeLock, 0);
      taken := ret != 0;
      if taken {
        connLockHeld := true;
      }
    }

    /** xSemaphoreGive, and the flag that goes with it */
    method GiveConnLock(tls: Tls)
      requires Valid()
      modifies env, `connLockHeld
      ensures Valid() && Mach(tls) == Issue(env.ans, old(Mach(tls)), GiveLock)
    {
      Snoc(env.trace, Event(GiveLock, 0, Answer(env.ans, env.trace, GiveLock)));
      connLockHeld := false;
      var _ := env.Call(GiveLock, 0);
    }

    /** Storing and registering, with the lock held */
    method InstallPsk(tls: Tls, hint: cstring, key: seq<byte>) returns (err: EspErr)
      requires Valid() && |hint| < pskId.Length && |key| <= pskKey.Length
      modifies env, `pskKeyLen, pskId, pskKey
      ensures Valid()
      ensures (Mach(tls), err) == PskInstalled(env.ans, old(Mach(tls)), hint, key, CipherList(build))
    {
      StoreCredentials(hint, key);
      err := RegisterPsk(env, tls.privCtx, tls.privSsl, hint, key, CipherList(build));
    }

    /** The PSK branch of set_client_config: the lock is taken before the sizes are looked at, and a late
        refusal keeps it until the cleanup of the failed create. */
    method SetPsk(tls: Tls, psk: PskHintKey) returns (err: EspErr)
      requires Valid()
      modifies env, `connLockHeld, `pskKeyLen, pskId, pskKey
      ensures Valid()
      ensures (Mach(tls), err) == Exec(env.ans, old(Mach(tls)), PskProgram(build, psk, connLock))
    {
      if psk.key.None? || psk.hint.None? || psk.key.value == [] {
        return EspFail;
      }
      if !connLock {
        return InvalidState;
      }
      var hint, key := psk.hint.value, psk.key.value;
      PskCases(env.ans, Mach(tls), hint, key, CipherList(build));
      PskRefused(env.ans, Mach(tls));
      var taken := TakeConnLock(tls);
      if !taken {
        return Timeout;
      }
      if |key| > PSK_MAX_KEY_LEN || |hint| >= pskId.Length {
        return InvalidArg;
      }
      err := InstallPsk(tls, hint, key);
    }

    /** The copies the callback makes: the identity with its NUL, and the key. */
    method CopyOut(idLen: nat, identity: array<byte>, key: array<byte>)
      requires identity != key && identity != pskId && identity != pskKey && key != pskId && key != pskKey
      requires idLen < identity.Length && idLen < pskId.Length
      requires pskKeyLen <= key.Length && pskKeyLen <= pskKey.Length
      modifies identity, key
      ensures identity[..] == pskId[..idLen + 1] + old(identity[idLen + 1..])
      ensures key[..] == pskKey[..pskKeyLen] + old(key[pskKeyLen..])
    {
      forall i | 0 <= i < idLen + 1 {
        identity[i] := pskId[i];
      }
      forall i | 0 <= i < pskKeyLen {
        key[i] := pskKey[i];
      }
    }

    /** strlen(psk_id_str): the length of the identity last stored */
    method IdentityLength() returns (n: nat)
      requires Valid()
      ensures var c := LastCreds(env.trace);
              && n == |c.hint| && n < pskId.Length && pskId[..n + 1] == c.hint + [0]
              && pskKeyLen == |c.key| && pskKeyLen <= pskKey.Length && pskKey[..pskKeyLen] == c.key
    {
      ghost var c := LastCreds(env.trace);
      PaddedString(c.hint, pskId);
      PaddedKey(c.key, pskKey);
      n := StrLen(pskId);
      assert pskId[..n + 1] == pskId[..n] + [0];
    }

    /** The credentials leave for wolfSSL, and the lock is given back. */
    method HandOver(tls: Tls, ghost c: Creds)
      requires Valid() && c == LastCreds(env.trace)
      modifies env, `connLockHeld
      ensures Valid() && Mach(tls) == Issue(env.ans, Issue(env.ans, old(Mach(tls)), Deliver(c.hint, c.key)), GiveLock)
    {
      var idLen := IdentityLength();
      assert pskId[..idLen] == pskId[..idLen + 1][..idLen];
      var _ := CalmCall(Deliver(pskId[..idLen], pskKey[..pskKeyLen]), tls.privSsl);
      GiveConnLock(tls);
    }

    /** esp_wolfssl_psk_client_cb, with the buffers wolfSSL passes.  Every write is inside them: the
        identity with its NUL and the key, or nothing at all. */
    method PskClientCb(tls: Tls, identity: array<byte>, key: array<byte>) returns (n: nat)
      requires Valid() && identity != key
      requires identity != pskId && identity != pskKey && identity != cacert
      requires key != pskId && key != pskKey && key != cacert
      modifies env, `connLockHeld, identity, key
      ensures Valid()
      ensures (Mach(tls), n) == PskCallback(env.ans, old(Mach(tls)), Buffers(identity.Length, key.Length))
      ensures var c := LastCreds(old(env.trace));
              if |c.hint| < identity.Length && |c.key| <= key.Length then
                && identity[..] == c.hint + [0] + old(identity[|c.hint| + 1..])
                && key[..] == c.key + old(key[|c.key|..])
              else identity[..] == old(identity[..]) && key[..] == old(key[..])
    {
      ghost var c := LastCreds(env.trace);
      var idLen := IdentityLength();
      if idLen >= identity.Length || pskKeyLen > key.Length {
        return 0;
      }
      CopyOut(idLen, identity, key);
      HandOver(tls, c);
      n := pskKeyLen;
    }

    // ----- configuration

    method TrustCert(tls: Tls, cert: seq<byte>) returns (err: EspErr)
      requires Valid() && |cert| <= OBJECT_MAX
      modifies env
      ensures Valid() && (Mach(tls), err) == Exec(env.ans, old(Mach(tls)), LoadAndVerify(cert, VerifyPeer))
    {
      LoadAndVerifyCalm(cert, VerifyPeer);
      CalmLeaves(env.ans, Mach(tls), LoadAndVerify(cert, VerifyPeer));
      err := LoadAndSetVerify(env, tls.privCtx, tls.privSsl, cert, VerifyPeer);
    }

    method TrustNobody(tls: Tls) returns (err: EspErr)
      requires Valid()
      modifies env
      ensures Valid() && (Mach(tls), err) == Exec(env.ans, old(Mach(tls)), [Do(SetVerify(VerifyNone), EspFail)])
    {
      ExecSingle(env.ans, Mach(tls), SetVerify(VerifyNone), EspFail);
      var _ := CalmCall(SetVerify(VerifyNone), tls.privCtx);
      err := EspOk;
    }

    method SetTrust(tls: Tls, cfg: ClientCfg) returns (err: EspErr)
      requires Valid() && Sized(cfg)
      modifies env, `connLockHeld, `pskKeyLen, pskId, pskKey
      ensures Valid()
      ensures (Mach(tls), err)
              == Exec(env.ans, old(Mach(tls)), TrustProgram(build, cfg, old(StoredBytes(Store())), connLock))
    {
      if cfg.useGlobalStore {
        if cacert == null {
          return InvalidState;
        }
        err := TrustCert(tls, cacert[..cacertBytes]);
      } else if cfg.cacert.Some? {
        err := TrustCert(tls, cfg.cacert.value);
      } else if build.psk && cfg.psk.Some? {
        err := SetPsk(tls, cfg.psk.value);
      } else if build.skipServerVerify {
        err := TrustNobody(tls);
      } else {
        err := SslSetupFailed;
      }
    }

    method SetClientIdentity(tls: Tls, cert: Option<seq<byte>>, key: Option<seq<byte>>, needed: bool)
        returns (err: EspErr)
      requires Valid() && SizedOption(cert) && SizedOption(key)
      modifies env
      ensures Valid() && (Mach(tls), err) == Exec(env.ans, old(Mach(tls)), IdentityProgram(cert, key, needed))
    {
      IdentityCalm(cert, key, needed);
      CalmLeaves(env.ans, Mach(tls), IdentityProgram(cert, key, needed));
      err := SetIdentity(env, tls.privCtx, tls.privSsl, cert, key, needed);
    }

    /** set_client_config between wolfSSL_CTX_new and wolfSSL_new */
    method SetClientPre(tls: Tls, cfg: ClientCfg) returns (err: EspErr)
      requires Valid() && Sized(cfg)
      modifies env, `connLockHeld, `pskKeyLen, pskId, pskKey
      ensures Valid()
      ensures (Mach(tls), err)
              == Exec(env.ans, old(Mach(tls)), ClientPre(build, cfg, old(StoredBytes(Store())), connLock))
    {
      ghost var t := TrustProgram(build, cfg, StoredBytes(Store()), connLock);
      ghost var i := IdentityProgram(cfg.cert, cfg.key, false);
      PreRuns(env.ans, Mach(tls), build, cfg, StoredBytes(Store()), connLock);
      if cfg.bundleAttach {
        return NotSupported;
      }
      err := SetTrust(tls, cfg);
      if err == EspOk {
        err := SetClientIdentity(tls, cfg.cert, cfg.key, false);
      }
    }

    /** wolfSSL_CTX_new into tls->priv_ctx */
    method MakeCtx(tls: Tls, server: bool)
      requires Valid()
      modifies env, tls`privCtx
      ensures Valid() && Mach(tls) == Issue(env.ans, old(Mach(tls)), CtxNew(server, build.tls13))
    {
      tls.privCtx := CalmNew(CtxNew(server, build.tls13), 0);
    }

    /** wolfSSL_new into tls->priv_ssl */
    method MakeSsl(tls: Tls)
      requires Valid()
      modifies env, tls`privSsl
      ensures Valid() && Mach(tls) == Issue(env.ans, old(Mach(tls)), SslNew)
    {
      tls.privSsl := CalmNew(SslNew, tls.privCtx);
    }

    method FinishClient(tls: Tls, cfg: ClientCfg, host: seq<byte>) returns (err: EspErr)
      requires Valid()
      modifies env
      ensures Valid() && (Mach(tls), err) == Exec(env.ans, old(Mach(tls)), ClientPost(build, cfg, host, tls.sockfd))
    {
      PostCalm(build, cfg, host, tls.sockfd);
      CalmLeaves(env.ans, Mach(tls), ClientPost(build, cfg, host, tls.sockfd));
      err := SetClientPost(env, tls.privCtx, tls.privSsl, build, cfg, host, tls.sockfd);
    }

    /** set_client_config */
    method SetClientConfig(tls: Tls, cfg: ClientCfg, host: seq<byte>) returns (err: EspErr)
      requires Valid() && Sized(cfg)
      modifies env, `connLockHeld, `pskKeyLen, pskId, pskKey, tls`privCtx, tls`privSsl
      ensures Valid()
      ensures (Mach(tls), err) == Exec(env.ans, old(Mach(tls)),
                ClientProgram(build, cfg, host, old(StoredBytes(Store())), connLock, tls.sockfd))
    {
      ClientRuns(env.ans, Mach(tls), build, cfg, host, StoredBytes(Store()), connLock, tls.sockfd);
      MakeCtx(tls, false);
      if tls.privCtx == 0 {
        return CtxSetupFailed;
      }
      err := SetClientPre(tls, cfg);
      if err != EspOk {
        return;
      }
      MakeSsl(tls);
      if tls.privSsl == 0 {
        return SslSetupFailed;
      }
      err := FinishClient(tls, cfg, host);
    }

    method SetServerTrust(tls: Tls, cfg: ServerCfg) returns (err: EspErr)
      requires Valid() && SizedOption(cfg.cacert)
      modifies env
      ensures Valid() && (Mach(tls), err) == Exec(env.ans, old(Mach(tls)), ServerTrust(cfg))
    {
      if cfg.cacert.Some? {
        LoadAndVerifyCalm(cfg.cacert.value, VerifyPeerAndRequireCert);
        CalmLeaves(env.ans, Mach(tls), LoadAndVerify(cfg.cacert.value, VerifyPeerAndRequireCert));
        err := LoadAndSetVerify(env, tls.privCtx, tls.privSsl, cfg.cacert.value, VerifyPeerAndRequireCert);
      } else {
        err := TrustNobody(tls);
      }
    }

    method FinishServer(tls: Tls) returns (err: EspErr)
      requires Valid()
      modifies env
      ensures Valid() && (Mach(tls), err) == Exec(env.ans, old(Mach(tls)), ServerPost(tls.sockfd))
    {
      ShortCalm(ServerPost(tls.sockfd));
      CalmLeaves(env.ans, Mach(tls), ServerPost(tls.sockfd));
      err := SetSocket(env, tls.privCtx, tls.privSsl, tls.sockfd);
    }

    /** set_server_config between wolfSSL_CTX_new and wolfSSL_new */
    method SetServerPre(tls: Tls, cfg: ServerCfg) returns (err: EspErr)
      requires Valid() && SizedPeer(AsServer(cfg))
      modifies env
      ensures Valid() && (Mach(tls), err) == Exec(env.ans, old(Mach(tls)), ServerPre(cfg))
    {
      ServerPreRuns(env.ans, Mach(tls), cfg);
      err := SetServerTrust(tls, cfg);
      if err == EspOk {
        err := SetClientIdentity(tls, cfg.cert, cfg.key, true);
      }
    }

    /** set_server_config */
    method SetServerConfig(tls: Tls, cfg: ServerCfg) returns (err: EspErr)
      requires Valid() && SizedOption(cfg.cacert) && SizedOption(cfg.cert) && SizedOption(cfg.key)
      modifies env, tls`privCtx, tls`privSsl
      ensures Valid()
      ensures (Mach(tls), err) == Exec(env.ans, old(Mach(tls)), ServerProgram(build, cfg, tls.sockfd))
    {
      ServerRuns(env.ans, Mach(tls), build, cfg, tls.sockfd);
      MakeCtx(tls, true);
      if tls.privCtx == 0 {
        return CtxSetupFailed;
      }
      err := SetServerPre(tls, cfg);
      if err != EspOk {
        return;
      }
      MakeSsl(tls);
      if tls.privSsl == 0 {
        return SslSetupFailed;
      }
      err := FinishServer(tls);
    }

    // ----- create and delete

    method ShutdownSsl(tls: Tls)
      requires Valid()
      modifies env
      ensures Valid() && Mach(tls) == Issue(env.ans, old(Mach(tls)), Shutdown)
      ensures Taken(env.trace) == Taken(old(env.trace))
    {
      var _ := CalmCall(Shutdown, tls.privSsl);
    }

    method FreeSsl(tls: Tls)
      requires Valid()
      modifies env, tls`privSsl
      ensures Valid() && Mach(tls) == Issue(env.ans, old(Mach(tls)), SslFree)
      ensures Taken(env.trace) == Taken(old(env.trace))
    {
      var _ := CalmCall(SslFree, tls.privSsl);
      tls.privSsl := 0;
    }

    method FreeCtx(tls: Tls)
      requires Valid()
      modifies env, tls`privCtx
      ensures Valid() && Mach(tls) == Issue(env.ans, old(Mach(tls)), CtxFree)
      ensures Taken(env.trace) == Taken(old(env.trace))
    {
      var _ := CalmCall(CtxFree, tls.privCtx);
      tls.privCtx := 0;
    }

    /** esp_wolfssl_cleanup */
    method Cleanup(tls: Tls)
      requires Valid()
      modifies env, `connLockHeld, tls`privCtx, tls`privSsl
      ensures Valid() && Mach(tls) == Teardown(env.ans, old(Mach(tls))) && !connLockHeld
    {
      TeardownPieces(env.ans, Mach(tls));
      if connLockHeld {
        GiveConnLock(tls);
      }
      if tls.privSsl != 0 {
        ShutdownSsl(tls);
        FreeSsl(tls);
      }
      if tls.privCtx != 0 {
        FreeCtx(tls);
      }
    }

    method InitLibrary(tls: Tls) returns (ok: bool)
      requires Valid()
      modifies env
      ensures Valid() && Mach(tls) == Issue(env.ans, old(Mach(tls)), Init)
      ensures ok == Succeeds(env.ans, old(Mach(tls)), Init)
    {
      var ret := CalmCall(Init, 0);
      ok := ret == WOLFSSL_SUCCESS;
    }

    /** Dispatch on tls->role */
    method Configure(tls: Tls, peer: Peer) returns (err: EspErr)
      requires Valid() && SizedPeer(peer)
      modifies env, `connLockHeld, `pskKeyLen, pskId, pskKey, tls`privCtx, tls`privSsl
      ensures Valid()
      ensures (Mach(tls), err) == Exec(env.ans, old(Mach(tls)),
                ProgramFor(build, peer, old(StoredBytes(Store())), connLock, tls.sockfd))
    {
      match peer
      case AsClient(cfg, host) => err := SetClientConfig(tls, cfg, host);
      case AsServer(cfg) => err := SetServerConfig(tls, cfg);
      case BadRole => err := EspFail;
    }

    /** Everything in create but the cleanup of a failure */
    method InitAndConfigure(tls: Tls, peer: Peer) returns (err: EspErr)
      requires Valid() && SizedPeer(peer)
      modifies env, `connLockHeld, `pskKeyLen, pskId, pskKey, tls`privCtx, tls`privSsl
      ensures Valid()
      ensures (Mach(tls), err) ==
              var m1 := Issue(env.ans, old(Mach(tls)), Init);
              if !Succeeds(env.ans, old(Mach(tls)), Init) then (m1, EspFail)
              else Exec(env.ans, m1, ProgramFor(build, peer, old(StoredBytes(Store())), connLock, tls.sockfd))
    {
      var ok := InitLibrary(tls);
      if ok {
        err := Configure(tls, peer);
      } else {
        err := EspFail;
      }
    }

    /** esp_wolfssl_create_ssl_handle */
    method CreateSslHandle(tls: Tls, peer: Peer) returns (err: EspErr)
      requires Valid() && SizedPeer(peer)
      modifies env, `connLockHeld, `pskKeyLen, pskId, pskKey, tls`privCtx, tls`privSsl
      ensures Valid()
      ensures (Mach(tls), err)
              == Create(env.ans, build, old(Mach(tls)), peer, old(StoredBytes(Store())), tls.sockfd)
      ensures err != EspOk ==> !connLockHeld
    {
      err := InitAndConfigure(tls, peer);
      if err != EspOk {
        Cleanup(tls);
      }
    }

    /** esp_wolfssl_conn_delete and esp_wolfssl_server_session_delete */
    method ConnDelete(tls: Tls?)
      requires Valid()
      modifies env, `connLockHeld
      modifies (if tls != null then {tls} else {})`privCtx, (if tls != null then {tls} else {})`privSsl
      ensures Valid()
      ensures if tls == null then env.trace == old(env.trace)
              else (env.trace, tls.View()) == DeleteOn(env.ans, old(env.trace), old(tls.View()))
    {
      if tls != null {
        Cleanup(tls);
      }
    }

    // ----- handshake and server session

    method RunCallbacks(tls: Tls, bufs: seq<Buffers>)
      requires Valid()
      modifies env, `connLockHeld
      ensures Valid() && Mach(tls) == PskCallbacks(env.ans, old(Mach(tls)), bufs)
    {
      var i := 0;
      ghost var m := Mach(tls);
      while i < |bufs|
        invariant 0 <= i <= |bufs| && Valid()
        invariant Mach(tls) == m.(trace := env.trace)
        invariant PskCallbacks(env.ans, Mach(tls), bufs[i..]) == PskCallbacks(env.ans, m, bufs)
      {
        assert bufs[i..][1..] == bufs[i + 1..];
        var identity := new byte[bufs[i].idMax];
        var key := new byte[bufs[i].keyMax];
        var _ := PskClientCb(tls, identity, key);
        i := i + 1;
      }
    }

    /** wolfSSL_connect itself, wolfSSL_accept or wolfSSL_get_error */
    method AskSsl(tls: Tls, op: Op) returns (ret: int)
      requires Valid() && (op.Connect? || op.Accept? || op.GetError?)
      modifies env
      ensures Valid() && Mach(tls) == Issue(env.ans, old(Mach(tls)), op) && ret == LastRet(Mach(tls))
    {
      ret := CalmCall(op, tls.privSsl);
    }

    /** wolfSSL_connect: the library may run a registered PSK callback, with buffers of its own, any
        number of times before it returns. */
    method ConnectWith(tls: Tls, bufs: seq<Buffers>) returns (ret: int)
      requires Valid()
      modifies env, `connLockHeld
      ensures Valid() && Mach(tls) == ConnectCall(env.ans, old(Mach(tls)), bufs) && ret == LastRet(Mach(tls))
    {
      if tls.privSsl != 0 && Registered(env.trace, tls.privCtx) {
        RunCallbacks(tls, bufs);
      }
      ret := AskSsl(tls, Connect);
    }

    /** esp_wolfssl_handshake */
    method Handshake(tls: Tls, bufs: seq<Buffers>) returns (ret: int)
      requires Valid()
      modifies env, `connLockHeld, tls`connState
      ensures Valid()
      ensures (env.trace, tls.View(), ret) == HandshakeOn(env.ans, old(env.trace), old(tls.View()), bufs)
    {
      HandshakeKeepsPointers(env.ans, Mach(tls), bufs);
      var r := ConnectWith(tls, bufs);
      if r == WOLFSSL_SUCCESS {
        tls.connState := ConnDone;
        return 1;
      }
      var err := AskSsl(tls, GetError);
      if err != WOLFSSL_ERROR_WANT_READ && err != WOLFSSL_ERROR_WANT_WRITE {
        tls.connState := ConnFail;
        return -1;
      }
      return 0;
    }

    /** One round of the accept loop: Some when it ends here */
    method AcceptRound(tls: Tls, ghost left: nat) returns (end: Option<AcceptEnd>)
      requires Valid()
      modifies env
      ensures Valid() && Mach(tls) == old(Mach(tls)).(trace := env.trace)
      ensures AcceptLoop(env.ans, old(Mach(tls)), left + 1)
              == if end.Some? then (Mach(tls), end.value) else AcceptLoop(env.ans, Mach(tls), left)
    {
      var ret := AskSsl(tls, Accept);
      if ret == WOLFSSL_SUCCESS {
        return Some(Accepted);
      }
      var err := AskSsl(tls, GetError);
      end := if err != WOLFSSL_ERROR_WANT_READ && err != WOLFSSL_ERROR_WANT_WRITE then Some(Fatal) else None;
    }

    /** The accept loop, followed for at most `patience` rounds: the source's loop has no bound. */
    method AcceptUntilDone(tls: Tls, patience: nat) returns (end: AcceptEnd)
      requires Valid()
      modifies env
      ensures Valid() && (Mach(tls), end) == AcceptLoop(env.ans, old(Mach(tls)), patience)
    {
      var left := patience;
      while left > 0
        invariant Valid()
        invariant AcceptLoop(env.ans, Mach(tls), left) == AcceptLoop(env.ans, old(Mach(tls)), patience)
      {
        left := left - 1;
        var r := AcceptRound(tls, left);
        if r.Some? {
          return r.value;
        }
      }
      return StillPending;
    }

    /** What server_session_create does once the handles exist */
    method DriveAccept(tls: Tls, patience: nat) returns (ret: Option<int>)
      requires Valid()
      modifies env, tls`wired, tls`connState
      ensures Valid()
      ensures var (m, end) := AcceptLoop(env.ans, old(Mach(tls)), patience);
              var c := old(tls.View()).(wired := true);
              && env.trace == m.trace
              && tls.View() == (if end == Fatal then c.(state := ConnFail) else c)
              && ret == (match end case Accepted => Some(0) case Fatal => Some(-1) case StillPending => None)
    {
      tls.wired := true;
      var end := AcceptUntilDone(tls, patience);
      match end {
        case Accepted => ret := Some(0);
        case Fatal =>
          tls.connState := ConnFail;
          ret := Some(-1);
        case StillPending => ret := None;
      }
    }

    /** The handles of a server session, on its socket */
    method OpenSession(tls: Tls, cfg: ServerCfg, fd: int) returns (err: EspErr)
      requires Valid() && SizedPeer(AsServer(cfg))
      modifies env, `connLockHeld, `pskKeyLen, pskId, pskKey, tls
      ensures Valid()
      ensures (env.trace, tls.View(), err)
              == CreateOn(env.ans, build, old(env.trace), old(tls.View()).(fd := fd), AsServer(cfg), None)
    {
      ServerIgnoresStore(env.ans, build, Mach(tls), cfg, StoredBytes(Store()), fd);
      tls.sockfd := fd;
      err := CreateSslHandle(tls, AsServer(cfg));
    }

    /** esp_wolfssl_server_session_create; None while it still waits for the peer */
    method ServerSessionCreate(tls: Tls?, cfg: Option<ServerCfg>, fd: int, patience: nat) returns (ret: Option<int>)
      requires Valid() && (cfg.Some? ==> SizedPeer(AsServer(cfg.value)))
      modifies env, `connLockHeld, `pskKeyLen, pskId, pskKey, if tls != null then {tls} else {}
      ensures Valid()
      ensures if tls == null || cfg == None then
                ret == Some(-1) && env.trace == old(env.trace) && (tls != null ==> tls.View() == old(tls.View()))
              else (env.trace, tls.View(), ret)
                   == ServerSessionOn(env.ans, build, old(env.trace), old(tls.View()), cfg.value, fd, patience)
    {
      if tls == null || cfg == None {
        return Some(-1);
      }
      var err := OpenSession(tls, cfg.value, fd);
      if err != EspOk {
        tls.connState := ConnFail;
        return Some(-1);
      }
      ret := DriveAccept(tls, patience);
    }

    // ----- the global CA store

    /** esp_wolfssl_free_global_ca_store */
    method FreeGlobalCaStore()
      requires Valid()
      modifies env, `cacert, `cacertAt, `cacertBytes
      ensures Valid() && Store() == None
      ensures env.trace == FreeStore(old(env.trace), env.ans, old(Store()))
    {
      if cacert != null {
        var _ := CalmCall(HeapFree, cacertAt);
        cacert, cacertAt, cacertBytes := null, 0, 0;
      }
    }

    method FillStore(bytes: seq<byte>) returns (err: EspErr)
      requires Valid() && Store() == None && |bytes| <= OBJECT_MAX
      modifies env, `cacert, `cacertAt, `cacertBytes
      ensures Valid()
      ensures (env.trace, Store(), err) == SetStore(env.ans, old(env.trace), None, Some(bytes))
    {
      var at, block := CalmAlloc(|bytes| + 1);
      if block == null {
        return NoMem;
      }
      CopyTerminated(bytes, block);
      assert block[..|bytes|] == bytes;
      cacert, cacertAt, cacertBytes := block, at, |bytes|;
      err := EspOk;
    }

    /** esp_wolfssl_set_global_ca_store */
    method SetGlobalCaStore(buf: Option<seq<byte>>) returns (err: EspErr)
      requires Valid() && SizedOption(buf)
      modifies env, `cacert, `cacertAt, `cacertBytes
      ensures Valid()
      ensures (env.trace, Store(), err) == SetStore(env.ans, old(env.trace), old(Store()), buf)
    {
      if buf == None {
        return InvalidArg;
      }
      FreeGlobalCaStore();
      err := FillStore(buf.value);
    }

    /** esp_wolfssl_get_global_ca_store: the stored bytes and a NUL, or NULL */
    method GetGlobalCaStore() returns (r: array?<byte>)
      requires Valid()
      ensures r == cacert && (r == null <==> Store() == None)
      ensures r != null ==> r[..] == Store().value.bytes + [0]
    {
      r := cacert;
    }
  }
}

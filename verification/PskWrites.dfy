/** Who writes the shared PSK buffers: for one configuration, one create, one step and a whole run,
    exactly when a pair is written and which one. */
module PskWrites {
  import opened Platform
  import opened Ledger
  import opened Program
  import opened Config
  import opened Trust
  import opened Lifecycle
  import opened Ownership
  import opened Moves
  import opened Worlds
  import opened PskLock

  /** What the buffers hold after a write, or after none. */
  function Latest(before: Creds, write: Option<Creds>): Creds {
    if write.Some? then write.value else before
  }

  // ----- one configuration

  /** The pair that the trust branches write when they find the lock as it is after `t`. */
  function TrustWrite(b: Build, cfg: ClientCfg, store: Option<seq<byte>>, lock: bool, t: Trace): Option<Creds> {
    var s := ChosenSource(b, cfg, store);
    if s.Some? && s.value.SharedKey? && lock && !Taken(t) then Some(Creds(s.value.hint, s.value.key)) else None
  }

  /** Nothing is written if the lock is not to be had. */
  lemma TimedOut(ans: Oracle, m: Machine, p: seq<Instr>)
    requires Taken(m.trace)
    ensures LastCreds(Exec(ans, m, [Do(TakeLock, Timeout)] + p).0.trace) == LastCreds(m.trace)
  {
    ExecOne(ans, m, Do(TakeLock, Timeout), p);
    TakeStage(ans, m);
    CalmIssue(ans, Issue(ans, m, TakeLock), HeapFree);
  }

  /** The lock is taken before the sizes are looked at; nothing is written then. */
  lemma RefusedLate(ans: Oracle, m: Machine)
    ensures LastCreds(Exec(ans, m, [Do(TakeLock, Timeout), Refuse(InvalidArg)]).0.trace) == LastCreds(m.trace)
  {
    assert [Do(TakeLock, Timeout), Refuse(InvalidArg)] == [Do(TakeLock, Timeout)] + [Refuse(InvalidArg)];
    ExecOne(ans, m, Do(TakeLock, Timeout), [Refuse(InvalidArg)]);
    TakeStage(ans, m);
    CalmIssue(ans, Issue(ans, m, TakeLock), HeapFree);
  }

  /** The PSK branch writes once its arguments are in order and the lock was free, whatever fails after. */
  lemma PskWritten(ans: Oracle, m: Machine, b: Build, psk: PskHintKey, lock: bool)
    ensures LastCreds(Exec(ans, m, PskProgram(b, psk, lock)).0.trace) ==
            if psk.key.Some? && psk.hint.Some? && 0 < |psk.key.value| <= PSK_MAX_KEY_LEN
               && |psk.hint.value| < b.IdMax() && lock && !Taken(m.trace)
            then Creds(psk.hint.value, psk.key.value) else LastCreds(m.trace)
  {
    var p := PskProgram(b, psk, lock);
    if |p| == 4 {
      assert p == [p[0]] + ([p[1]] + ([p[2]] + [p[3]]));
      if Taken(m.trace) {
        TimedOut(ans, m, [p[1]] + ([p[2]] + [p[3]]));
      } else {
        PskSetup(ans, m, psk.hint.value, psk.key.value, CipherList(b));
      }
    } else if |p| == 2 {
      RefusedLate(ans, m);
    } else {
      CalmIssue(ans, m, HeapFree);
    }
  }

  lemma TrustWritten(ans: Oracle, m: Machine, b: Build, cfg: ClientCfg, store: Option<seq<byte>>, lock: bool)
    ensures LastCreds(Exec(ans, m, TrustProgram(b, cfg, store, lock)).0.trace)
            == Latest(LastCreds(m.trace), TrustWrite(b, cfg, store, lock, m.trace))
  {
    var p := TrustProgram(b, cfg, store, lock);
    if cfg.useGlobalStore && store.Some? {
      LoadAndVerifyCalm(store.value, VerifyPeer);
      CalmExec(ans, m, p);
    } else if !cfg.useGlobalStore && cfg.cacert.Some? {
      LoadAndVerifyCalm(cfg.cacert.value, VerifyPeer);
      CalmExec(ans, m, p);
    } else if !cfg.useGlobalStore && b.psk && cfg.psk.Some? {
      PskWritten(ans, m, b, cfg.psk.value, lock);
    } else {
      ShortCalm(p);
      CalmExec(ans, m, p);
    }
  }

  lemma PreWritten(ans: Oracle, m: Machine, b: Build, cfg: ClientCfg, store: Option<seq<byte>>, lock: bool)
    ensures LastCreds(Exec(ans, m, ClientPre(b, cfg, store, lock)).0.trace) ==
            if cfg.bundleAttach then LastCreds(m.trace)
            else Latest(LastCreds(m.trace), TrustWrite(b, cfg, store, lock, m.trace))
  {
    var (t, i) := (TrustProgram(b, cfg, store, lock), IdentityProgram(cfg.cert, cfg.key, false));
    if cfg.bundleAttach {
      ExecOne(ans, m, Refuse(NotSupported), t + i);
      CalmIssue(ans, m, HeapFree);
    } else {
      assert ClientPre(b, cfg, store, lock) == t + i;
      TrustKeeps(b, cfg, store, lock);
      ExecAppend(ans, m, t, i);
      TrustWritten(ans, m, b, cfg, store, lock);
      IdentityCalm(cfg.cert, cfg.key, false);
      CalmExec(ans, Exec(ans, m, t).0, i);
    }
  }

  /** The last part of a configuration writes nothing. */
  lemma TailWritesNothing(ans: Oracle, m: Machine, b: Build, cfg: ClientCfg, host: seq<byte>, fd: int)
    ensures LastCreds(Exec(ans, m, [Do(SslNew, SslSetupFailed)] + ClientPost(b, cfg, host, fd)).0.trace)
            == LastCreds(m.trace)
  {
    var tail := [Do(SslNew, SslSetupFailed)] + ClientPost(b, cfg, host, fd);
    PostCalm(b, cfg, host, fd);
    assert tail[1..] == ClientPost(b, cfg, host, fd);
    CalmExec(ans, m, tail);
  }

  /** The pair that a client configuration starting from `m` writes. */
  function ClientWrite(ans: Oracle, m: Machine, b: Build, cfg: ClientCfg, store: Option<seq<byte>>, lock: bool)
      : Option<Creds>
  {
    if cfg.bundleAttach || !Succeeds(ans, m, CtxNew(false, b.tls13)) then None
    else TrustWrite(b, cfg, store, lock, m.trace)
  }

  lemma ClientWritten(ans: Oracle, m: Machine, b: Build, cfg: ClientCfg, host: seq<byte>,
                      store: Option<seq<byte>>, lock: bool, fd: int)
    ensures LastCreds(Exec(ans, m, ClientProgram(b, cfg, host, store, lock, fd)).0.trace)
            == Latest(LastCreds(m.trace), ClientWrite(ans, m, b, cfg, store, lock))
  {
    var make := CtxNew(false, b.tls13);
    var pre := ClientPre(b, cfg, store, lock);
    var tail := [Do(SslNew, SslSetupFailed)] + ClientPost(b, cfg, host, fd);
    ExecOne(ans, m, Do(make, CtxSetupFailed), pre + tail);
    CalmIssue(ans, m, make);
    var mc := Issue(ans, m, make);
    CalmIssue(ans, mc, HeapFree);
    assert RealErrors(pre) by {
      PreKeeps(b, cfg, store, lock);
    }
    ExecAppend(ans, mc, pre, tail);
    PreWritten(ans, mc, b, cfg, store, lock);
    TailWritesNothing(ans, Exec(ans, mc, pre).0, b, cfg, host, fd);
  }

  // ----- one create

  /** The pair that a create writes: the chosen one, if the peer is a client that asks for no bundle and
      PSK is its source, the mutex exists and is free, and the library and a CTX can be had.  What
      create does after the write, and what it returns, does not matter. */
  function CreateWrite(ans: Oracle, b: Build, t: Trace, c: Conn, peer: Peer, store: Option<seq<byte>>): Option<Creds> {
    if peer.AsClient? && Succeeds(ans, MachineOf(t, c), Init) then
      ClientWrite(ans, Issue(ans, MachineOf(t, c), Init), b, peer.client, store, LockExists(t))
    else None
  }

  /** The condition spelled out over the state before the call. */
  lemma CreateWritesWhen(ans: Oracle, b: Build, t: Trace, c: Conn, peer: Peer, store: Option<seq<byte>>)
    ensures CreateWrite(ans, b, t, c, peer, store).Some? <==>
            && peer.AsClient? && !peer.client.bundleAttach
            && ChosenSource(b, peer.client, store).Some? && ChosenSource(b, peer.client, store).value.SharedKey?
            && LockExists(t) && !Taken(t)
            && Ok(Init, ans(|t|)) && Ok(CtxNew(false, b.tls13), ans(|t| + 1))
    ensures CreateWrite(ans, b, t, c, peer, store).Some? ==>
              var s := ChosenSource(b, peer.client, store).value;
              CreateWrite(ans, b, t, c, peer, store).value == Creds(s.hint, s.key)
  {
    CalmIssue(ans, MachineOf(t, c), Init);
  }

  /** One create: the stored pair afterwards, whatever error it returns. */
  lemma CreateWritten(ans: Oracle, b: Build, t: Trace, c: Conn, peer: Peer, store: Option<seq<byte>>)
    ensures LastCreds(CreateOn(ans, b, t, c, peer, store).0)
            == Latest(LastCreds(t), CreateWrite(ans, b, t, c, peer, store))
  {
    var m1, p := CreateCases(ans, b, t, c, peer, store);
    CalmIssue(ans, MachineOf(t, c), Init);
    TeardownFreesLock(ans, m1);
    TeardownFreesLock(ans, Exec(ans, m1, p).0);
    match peer
    case AsClient(cfg, host) => ClientWritten(ans, m1, b, cfg, host, store, LockExists(t), c.fd);
    case AsServer(cfg) =>
      ServerCalm(b, cfg, c.fd);
      CalmExec(ans, m1, p);
    case BadRole => CalmIssue(ans, m1, HeapFree);
  }

  // ----- when a create times out

  /** The configuration reaches the PSK branch with a hint and a key that is not empty; whether they fit is
      looked at only with the lock held. */
  predicate AsksForLock(b: Build, cfg: ClientCfg) {
    && !cfg.useGlobalStore && cfg.cacert.None? && b.psk && cfg.psk.Some?
    && cfg.psk.value.hint.Some? && cfg.psk.value.key.Some? && cfg.psk.value.key.value != []
  }

  lemma TrustTimesOut(ans: Oracle, m: Machine, b: Build, cfg: ClientCfg, store: Option<seq<byte>>, lock: bool)
    ensures Exec(ans, m, TrustProgram(b, cfg, store, lock)).1 == Timeout
            <==> AsksForLock(b, cfg) && lock && Taken(m.trace)
  {
    var p := TrustProgram(b, cfg, store, lock);
    if AsksForLock(b, cfg) && lock {
      if |p| == 4 {
        PskSetup(ans, m, cfg.psk.value.hint.value, cfg.psk.value.key.value, CipherList(b));
      } else {
        assert p == [Do(TakeLock, Timeout)] + [Refuse(InvalidArg)];
        ExecOne(ans, m, Do(TakeLock, Timeout), [Refuse(InvalidArg)]);
        TakeStage(ans, m);
      }
    } else if cfg.useGlobalStore && store.Some? {
      LoadAndVerifyCalm(store.value, VerifyPeer);
      CalmExec(ans, m, p);
    } else if !cfg.useGlobalStore && cfg.cacert.Some? {
      LoadAndVerifyCalm(cfg.cacert.value, VerifyPeer);
      CalmExec(ans, m, p);
    } else {
      ShortCalm(p);
      CalmExec(ans, m, p);
    }
  }

  lemma PreTimesOut(ans: Oracle, m: Machine, b: Build, cfg: ClientCfg, store: Option<seq<byte>>, lock: bool)
    ensures Exec(ans, m, ClientPre(b, cfg, store, lock)).1 == Timeout
            <==> !cfg.bundleAttach && AsksForLock(b, cfg) && lock && Taken(m.trace)
  {
    var (t, i) := (TrustProgram(b, cfg, store, lock), IdentityProgram(cfg.cert, cfg.key, false));
    if cfg.bundleAttach {
      ExecOne(ans, m, Refuse(NotSupported), t + i);
    } else {
      assert ClientPre(b, cfg, store, lock) == t + i;
      TrustKeeps(b, cfg, store, lock);
      ExecAppend(ans, m, t, i);
      TrustTimesOut(ans, m, b, cfg, store, lock);
      IdentityCalm(cfg.cert, cfg.key, false);
      CalmExec(ans, Exec(ans, m, t).0, i);
    }
  }

  lemma TailTakesNoLock(ans: Oracle, m: Machine, b: Build, cfg: ClientCfg, host: seq<byte>, fd: int)
    ensures Exec(ans, m, [Do(SslNew, SslSetupFailed)] + ClientPost(b, cfg, host, fd)).1 != Timeout
  {
    var tail := [Do(SslNew, SslSetupFailed)] + ClientPost(b, cfg, host, fd);
    PostCalm(b, cfg, host, fd);
    assert tail[1..] == ClientPost(b, cfg, host, fd);
    CalmExec(ans, m, tail);
  }

  lemma ClientTimesOut(ans: Oracle, m: Machine, b: Build, cfg: ClientCfg, host: seq<byte>,
                       store: Option<seq<byte>>, lock: bool, fd: int)
    ensures Exec(ans, m, ClientProgram(b, cfg, host, store, lock, fd)).1 == Timeout
            <==> && Succeeds(ans, m, CtxNew(false, b.tls13))
                 && !cfg.bundleAttach && AsksForLock(b, cfg) && lock && Taken(m.trace)
  {
    var make := CtxNew(false, b.tls13);
    var pre := ClientPre(b, cfg, store, lock);
    var tail := [Do(SslNew, SslSetupFailed)] + ClientPost(b, cfg, host, fd);
    ExecOne(ans, m, Do(make, CtxSetupFailed), pre + tail);
    CalmIssue(ans, m, make);
    var mc := Issue(ans, m, make);
    assert RealErrors(pre) by {
      PreKeeps(b, cfg, store, lock);
    }
    ExecAppend(ans, mc, pre, tail);
    PreTimesOut(ans, mc, b, cfg, store, lock);
    TailTakesNoLock(ans, Exec(ans, mc, pre).0, b, cfg, host, fd);
  }

  /** What a create that times out has in common, before the call and in its first two answers. */
  predicate TimesOut(ans: Oracle, b: Build, t: Trace, peer: Peer) {
    && peer.AsClient? && !peer.client.bundleAttach && AsksForLock(b, peer.client)
    && LockExists(t) && Taken(t)
    && Ok(Init, ans(|t|)) && Ok(CtxNew(false, b.tls13), ans(|t| + 1))
  }

  lemma CreateTimesOut(ans: Oracle, b: Build, t: Trace, c: Conn, peer: Peer, store: Option<seq<byte>>)
    ensures CreateOn(ans, b, t, c, peer, store).2 == Timeout <==> TimesOut(ans, b, t, peer)
  {
    var m1, p := CreateCases(ans, b, t, c, peer, store);
    CalmIssue(ans, MachineOf(t, c), Init);
    match peer
    case AsClient(cfg, host) => ClientTimesOut(ans, m1, b, cfg, host, store, LockExists(t), c.fd);
    case AsServer(cfg) =>
      ServerCalm(b, cfg, c.fd);
      CalmExec(ans, m1, p);
    case BadRole =>
  }

  // ----- one step, and runs

  /** Only a create writes. */
  function StepWrite(ans: Oracle, b: Build, w: World, cmd: Cmd): Option<Creds> {
    if cmd.CreateCmd? && cmd.c < |w.conns| then
      CreateWrite(ans, b, w.trace, w.conns[cmd.c], cmd.peer, StoredBytes(w.store))
    else None
  }

  lemma SessionWritesNothing(ans: Oracle, b: Build, t: Trace, c: Conn, cfg: ServerCfg, fd: int, patience: nat)
    requires Lawful(t) && ConnOk(Live(t), c)
    ensures LastCreds(ServerSessionOn(ans, b, t, c, cfg, fd, patience).0) == LastCreds(t)
  {
    SessionMoves(ans, b, t, c, cfg, fd, patience);
    CreateWritten(ans, b, t, c.(fd := fd), AsServer(cfg), None);
  }

  lemma StepWritten(ans: Oracle, b: Build, w: World, cmd: Cmd)
    requires Sound(w)
    ensures LastCreds(Step(ans, b, w, cmd).trace) == Latest(LastCreds(w.trace), StepWrite(ans, b, w, cmd))
  {
    match cmd
    case SetStoreCmd(buf) => SetStoreSound(ans, w, buf);
    case FreeStoreCmd => FreeStoreSound(ans, w);
    case CreateCmd(c, peer) =>
      if c < |w.conns| {
        CreateWritten(ans, b, w.trace, w.conns[c], peer, StoredBytes(w.store));
      }
    case HandshakeCmd(c, bufs) =>
      if c < |w.conns| {
        HandshakeMoves(ans, w.trace, w.conns[c], bufs);
      }
    case ServerSessionCmd(c, cfg, fd, patience) =>
      if c < |w.conns| {
        SessionWritesNothing(ans, b, w.trace, w.conns[c], cfg, fd, patience);
      }
    case DeleteCmd(c) =>
      if c < |w.conns| {
        DeleteMoves(ans, w.trace, w.conns[c]);
      }
  }

  /** The last pair written in a run. */
  function LastWrite(ans: Oracle, b: Build, w: World, cmds: seq<Cmd>): Option<Creds>
    decreases |cmds|
  {
    if cmds == [] then None
    else
      var later := LastWrite(ans, b, Step(ans, b, w, cmds[0]), cmds[1..]);
      if later.Some? then later else StepWrite(ans, b, w, cmds[0])
  }

  /** After any run the buffers hold the last pair written in it, or what they held before. */
  lemma {:induction false} RunWritten(ans: Oracle, b: Build, w: World, cmds: seq<Cmd>)
    requires Sound(w)
    ensures LastCreds(Run(ans, b, w, cmds).trace) == Latest(LastCreds(w.trace), LastWrite(ans, b, w, cmds))
    decreases |cmds|
  {
    if cmds != [] {
      StepWritten(ans, b, w, cmds[0]);
      StepSound(ans, b, w, cmds[0]);
      RunWritten(ans, b, Step(ans, b, w, cmds[0]), cmds[1..]);
    }
  }
}

/** The PSK lock: who takes it, who gives it back, and whose credentials the callback hands out. */
module PskLock {
  import opened Platform
  import opened Ledger
  import opened Program
  import opened Config
  import opened Trust

  /** Nothing to do with PSK. */
  predicate CalmInstr(i: Instr) {
    && i.err != Timeout
    && (i.Refuse? || (!i.op.TakeLock? && !i.op.GiveLock? && !i.op.StoreCreds? && !i.op.SetPskCallback?))
  }

  predicate Calm(p: seq<Instr>) {
    p == [] || (CalmInstr(p[0]) && Calm(p[1..]))
  }

  lemma {:induction false} CalmAppend(p: seq<Instr>, q: seq<Instr>)
    requires Calm(p) && Calm(q)
    ensures Calm(p + q)
  {
    if p == [] {
      assert p + q == q;
    } else {
      assert (p + q)[1..] == p[1..] + q;
      CalmAppend(p[1..], q);
    }
  }

  lemma ShortCalm(p: seq<Instr>)
    requires |p| <= 4 && forall i :: 0 <= i < |p| ==> CalmInstr(p[i])
    ensures Calm(p)
  {
    if p != [] {
      ShortCalm(p[1..]);
    }
  }

  /** The lock was not taken just now. */
  predicate AtRest(t: Trace) {
    t == [] || !(t[|t| - 1].op.TakeLock? && Ok(TakeLock, t[|t| - 1].ret))
  }

  lemma CalmIssue(ans: Oracle, m: Machine, op: Op)
    requires !op.TakeLock? && !op.GiveLock? && !op.StoreCreds?
    ensures Taken(Issue(ans, m, op).trace) == Taken(m.trace)
    ensures LastCreds(Issue(ans, m, op).trace) == LastCreds(m.trace) && AtRest(Issue(ans, m, op).trace)
  {
    Snoc(m.trace, Event(op, Operand(m, op), Answer(ans, m.trace, op)));
  }

  lemma {:induction false} CalmExec(ans: Oracle, m: Machine, p: seq<Instr>)
    requires Calm(p)
    ensures var (m1, err) := Exec(ans, m, p);
            && Taken(m1.trace) == Taken(m.trace) && LastCreds(m1.trace) == LastCreds(m.trace) && err != Timeout
            && (AtRest(m.trace) ==> AtRest(m1.trace))
    decreases |p|
  {
    CalmIssue(ans, m, HeapFree);
    if p != [] && p[0].Do? {
      var m1 := Issue(ans, m, p[0].op);
      CalmIssue(ans, m, p[0].op);
      CalmIssue(ans, m1, HeapFree);
      CalmExec(ans, m1, p[1..]);
    }
  }

  // ----- the parts of the configuration programs are calm, all but the PSK part

  lemma IdentityCalm(cert: Option<seq<byte>>, key: Option<seq<byte>>, needed: bool)
    ensures Calm(IdentityProgram(cert, key, needed))
  {
    ShortCalm(IdentityProgram(cert, key, needed));
  }

  lemma LoadAndVerifyCalm(cert: seq<byte>, mode: VerifyMode)
    ensures Calm(LoadAndVerify(cert, mode))
  {
    ShortCalm(LoadAndVerify(cert, mode));
  }

  lemma {:induction false} ProtosCalm(protos: seq<cstring>)
    ensures Calm(UseProtos(protos))
  {
    if protos != [] {
      ProtosCalm(protos[1..]);
      assert UseProtos(protos)[1..] == UseProtos(protos[1..]);
    }
  }

  lemma PostCalm(b: Build, cfg: ClientCfg, host: seq<byte>, fd: int)
    ensures Calm(ClientPost(b, cfg, host, fd))
  {
    var (h, a, o, f) := (HostProgram(cfg, host), AlpnProgram(b, cfg), OcspProgram(b), [Do(SetFd(fd), EspFail)]);
    ShortCalm(f);
    ShortCalm(o);
    CalmAppend(o, f);
    if cfg.alpnProtos.Some? {
      ProtosCalm(cfg.alpnProtos.value);
    }
    ShortCalm([Refuse(EspFail)]);
    CalmAppend(a, o + f);
    ShortCalm(h);
    CalmAppend(h, a + (o + f));
  }

  lemma CalmAround(make: Op, pre: seq<Instr>, post: seq<Instr>)
    requires make.CtxNew? && Calm(pre) && Calm(post)
    ensures Calm(Assemble(make, pre, post))
  {
    var tail := [Do(SslNew, SslSetupFailed)] + post;
    assert tail[1..] == post;
    CalmAppend(pre, tail);
    assert Assemble(make, pre, post)[1..] == pre + tail;
  }

  lemma ServerCalm(b: Build, cfg: ServerCfg, fd: int)
    ensures Calm(ServerProgram(b, cfg, fd))
  {
    if cfg.cacert.Some? {
      LoadAndVerifyCalm(cfg.cacert.value, VerifyPeerAndRequireCert);
    } else {
      ShortCalm(ServerTrust(cfg));
    }
    IdentityCalm(cfg.cert, cfg.key, true);
    CalmAppend(ServerTrust(cfg), IdentityProgram(cfg.cert, cfg.key, true));
    ShortCalm(ServerPost(fd));
    CalmAround(CtxNew(true, b.tls13), ServerPre(cfg), ServerPost(fd));
  }

  // ----- the PSK part

  lemma TakeStage(ans: Oracle, m: Machine)
    ensures var m1 := Issue(ans, m, TakeLock);
            && (Succeeds(ans, m, TakeLock) <==> !Taken(m.trace))
            && Taken(m1.trace) && LastCreds(m1.trace) == LastCreds(m.trace) && m1.ctx == m.ctx
  {
    Snoc(m.trace, Event(TakeLock, 0, Answer(ans, m.trace, TakeLock)));
  }

  lemma StoreStage(ans: Oracle, m: Machine, hint: seq<byte>, key: seq<byte>)
    ensures var m1 := Issue(ans, m, StoreCreds(hint, key));
            Taken(m1.trace) == Taken(m.trace) && LastCreds(m1.trace) == Creds(hint, key) && m1.ctx == m.ctx
  {
    Snoc(m.trace, Event(StoreCreds(hint, key), m.ctx, Answer(ans, m.trace, StoreCreds(hint, key))));
  }

  lemma RegisterStage(ans: Oracle, m: Machine)
    ensures var m1 := Issue(ans, m, SetPskCallback);
            && Taken(m1.trace) == Taken(m.trace) && LastCreds(m1.trace) == LastCreds(m.trace)
            && m1.ctx == m.ctx && Registered(m1.trace, m.ctx)
  {
    CalmIssue(ans, m, SetPskCallback);
    var m1 := Issue(ans, m, SetPskCallback);
    assert m1.trace[|m.trace|].op.SetPskCallback? && m1.trace[|m.trace|].on == m.ctx;
  }

  lemma StaysRegistered(t: Trace, t1: Trace, ctx: nat)
    requires Registered(t, ctx) && t <= t1
    ensures Registered(t1, ctx)
  {
    var i :| 0 <= i < |t| && t[i].op.SetPskCallback? && t[i].on == ctx;
    assert t1[i] == t[i];
  }

  lemma SuitesStage(ans: Oracle, m: Machine, suites: string)
    requires Registered(m.trace, m.ctx)
    ensures var (m1, err) := Exec(ans, m, [Do(SetCipherList(suites), EspFail)]);
            && Taken(m1.trace) == Taken(m.trace) && LastCreds(m1.trace) == LastCreds(m.trace) && err != Timeout
            && (err == EspOk ==> m1.ctx == m.ctx && Registered(m1.trace, m.ctx) && AtRest(m1.trace))
  {
    var op := SetCipherList(suites);
    ShortCalm([Do(op, EspFail)]);
    CalmExec(ans, m, [Do(op, EspFail)]);
    assert [Do(op, EspFail)][1..] == [];
    StaysRegistered(m.trace, Issue(ans, m, op).trace, m.ctx);
  }

  /** The calls after taking the lock: nothing in them times out, and the pair is stored whatever happens. */
  lemma PskInstall(ans: Oracle, m: Machine, hint: cstring, key: seq<byte>, suites: string)
    ensures var (m1, err) := Exec(ans, m, PskCalls(hint, key, suites)[1..]);
            && err != Timeout && Taken(m1.trace) == Taken(m.trace) && LastCreds(m1.trace) == Creds(hint, key)
            && (err == EspOk ==> m1.ctx == m.ctx && Registered(m1.trace, m.ctx) && AtRest(m1.trace))
  {
    var p4 := [Do(SetCipherList(suites), EspFail)];
    var p3 := [Do(SetPskCallback, EspFail)] + p4;
    assert PskCalls(hint, key, suites)[1..] == [Do(StoreCreds(hint, key), EspFail)] + p3;
    StoreStage(ans, m, hint, key);
    ExecOne(ans, m, Do(StoreCreds(hint, key), EspFail), p3);
    var m1 := Issue(ans, m, StoreCreds(hint, key));
    RegisterStage(ans, m1);
    ExecOne(ans, m1, Do(SetPskCallback, EspFail), p4);
    SuitesStage(ans, Issue(ans, m1, SetPskCallback), suites);
  }

  /** The four calls of a PSK setup: they fail with a timeout only if the lock was taken, and end with
      the lock held, the callback registered and exactly these credentials stored. */
  lemma PskSetup(ans: Oracle, m: Machine, hint: cstring, key: seq<byte>, suites: string)
    ensures var (m1, err) := Exec(ans, m, PskCalls(hint, key, suites));
            && (err == Timeout <==> Taken(m.trace))
            && (err != Timeout ==> Taken(m1.trace) && LastCreds(m1.trace) == Creds(hint, key))
            && (err == EspOk ==> m1.ctx == m.ctx && Registered(m1.trace, m.ctx) && AtRest(m1.trace))
  {
    var rest := PskCalls(hint, key, suites)[1..];
    assert PskCalls(hint, key, suites) == [Do(TakeLock, Timeout)] + rest;
    ExecOne(ans, m, Do(TakeLock, Timeout), rest);
    TakeStage(ans, m);
    PskInstall(ans, Issue(ans, m, TakeLock), hint, key, suites);
  }

  // ----- a whole configuration

  /** The effect of a client configuration on the PSK state: it times out only if the lock was taken;
      success with PSK as the chosen source means lock held, callback registered, these credentials
      stored; success with another source leaves lock and credentials alone. */
  ghost predicate PskEffect(b: Build, cfg: ClientCfg, store: Option<seq<byte>>, m: Machine, m1: Machine, err: EspErr) {
    && (err == Timeout ==> Taken(m.trace))
    && (err == EspOk ==>
          if ChosenSource(b, cfg, store).Some? && ChosenSource(b, cfg, store).value.SharedKey? then
            var s := ChosenSource(b, cfg, store).value;
            && Taken(m1.trace) && LastCreds(m1.trace) == Creds(s.hint, s.key)
            && Registered(m1.trace, m1.ctx) && AtRest(m1.trace)
          else Taken(m1.trace) == Taken(m.trace) && LastCreds(m1.trace) == LastCreds(m.trace))
  }

  lemma PskPart(ans: Oracle, m: Machine, b: Build, psk: PskHintKey, lock: bool)
    ensures var (m1, err) := Exec(ans, m, PskProgram(b, psk, lock));
            && (err == Timeout ==> Taken(m.trace))
            && (err == EspOk ==>
                  && psk.key.Some? && psk.hint.Some?
                  && 0 < |psk.key.value| <= PSK_MAX_KEY_LEN && |psk.hint.value| < b.IdMax()
                  && Taken(m1.trace) && LastCreds(m1.trace) == Creds(psk.hint.value, psk.key.value)
                  && Registered(m1.trace, m1.ctx) && AtRest(m1.trace))
  {
    var p := PskProgram(b, psk, lock);
    if |p| == 4 {
      PskSetup(ans, m, psk.hint.value, psk.key.value, CipherList(b));
    } else if |p| == 2 {
      TakeStage(ans, m);
      assert p == [p[0]] + [Refuse(InvalidArg)];
      ExecOne(ans, m, p[0], [Refuse(InvalidArg)]);
    }
  }

  lemma TrustPart(ans: Oracle, m: Machine, b: Build, cfg: ClientCfg, store: Option<seq<byte>>, lock: bool)
    ensures var (m1, err) := Exec(ans, m, TrustProgram(b, cfg, store, lock)); PskEffect(b, cfg, store, m, m1, err)
  {
    var p := TrustProgram(b, cfg, store, lock);
    if cfg.useGlobalStore && store.Some? {
      LoadAndVerifyCalm(store.value, VerifyPeer);
      CalmExec(ans, m, p);
    } else if !cfg.useGlobalStore && cfg.cacert.Some? {
      LoadAndVerifyCalm(cfg.cacert.value, VerifyPeer);
      CalmExec(ans, m, p);
    } else if !cfg.useGlobalStore && b.psk && cfg.psk.Some? {
      PskPart(ans, m, b, cfg.psk.value, lock);
    } else {
      ShortCalm(p);
      CalmExec(ans, m, p);
    }
  }

  lemma CalmAfter(ans: Oracle, b: Build, cfg: ClientCfg, store: Option<seq<byte>>,
                  m: Machine, m1: Machine, q: seq<Instr>, h: Held)
    requires PskEffect(b, cfg, store, m, m1, EspOk) && Calm(q) && Keeps(q, h) && h.ctx
    ensures PskEffect(b, cfg, store, m, Exec(ans, m1, q).0, Exec(ans, m1, q).1)
  {
    CalmExec(ans, m1, q);
    ExecGrows(ans, m1, q);
    if Exec(ans, m1, q).1 == EspOk {
      SettingsKept(ans, m1, q, h);
      if Registered(m1.trace, m1.ctx) {
        StaysRegistered(m1.trace, Exec(ans, m1, q).0.trace, m1.ctx);
      }
    }
  }

  lemma PrePart(ans: Oracle, m: Machine, b: Build, cfg: ClientCfg, store: Option<seq<byte>>, lock: bool)
    ensures var (m1, err) := Exec(ans, m, ClientPre(b, cfg, store, lock)); PskEffect(b, cfg, store, m, m1, err)
  {
    var (t, i) := (TrustProgram(b, cfg, store, lock), IdentityProgram(cfg.cert, cfg.key, false));
    if cfg.bundleAttach {
      ExecOne(ans, m, Refuse(NotSupported), t + i);
    } else {
      assert ClientPre(b, cfg, store, lock) == t + i;
      TrustKeeps(b, cfg, store, lock);
      ExecAppend(ans, m, t, i);
      TrustPart(ans, m, b, cfg, store, lock);
      IdentityCalm(cfg.cert, cfg.key, false);
      IdentityKeeps(cfg.cert, cfg.key, false, lock);
      var (m1, err) := Exec(ans, m, t);
      if err == EspOk {
        CalmAfter(ans, b, cfg, store, m, m1, i, WithCtx(lock));
      }
    }
  }

  lemma NewPart(ans: Oracle, b: Build, cfg: ClientCfg, store: Option<seq<byte>>, m: Machine, m1: Machine)
    requires PskEffect(b, cfg, store, m, m1, EspOk)
    ensures PskEffect(b, cfg, store, m, Issue(ans, m1, SslNew), EspOk)
  {
    CalmIssue(ans, m1, SslNew);
    if Registered(m1.trace, m1.ctx) {
      StaysRegistered(m1.trace, Issue(ans, m1, SslNew).trace, m1.ctx);
    }
  }

  /** Client configuration as a whole. */
  lemma ClientPskEffect(ans: Oracle, m: Machine, b: Build, cfg: ClientCfg, host: seq<byte>,
                        store: Option<seq<byte>>, lock: bool, fd: int)
    ensures var (m1, err) := Exec(ans, m, ClientProgram(b, cfg, host, store, lock, fd));
            PskEffect(b, cfg, store, m, m1, err)
  {
    var make := CtxNew(false, b.tls13);
    var (pre, post) := (ClientPre(b, cfg, store, lock), ClientPost(b, cfg, host, fd));
    var tail := [Do(SslNew, SslSetupFailed)] + post;
    ExecOne(ans, m, Do(make, CtxSetupFailed), pre + tail);
    CalmIssue(ans, m, make);
    var mc := Issue(ans, m, make);
    PreKeeps(b, cfg, store, lock);
    ExecAppend(ans, mc, pre, tail);
    PrePart(ans, mc, b, cfg, store, lock);
    var (mp, err) := Exec(ans, mc, pre);
    if Succeeds(ans, m, make) && err == EspOk {
      ExecOne(ans, mp, Do(SslNew, SslSetupFailed), post);
      NewPart(ans, b, cfg, store, m, mp);
      PostCalm(b, cfg, host, fd);
      PostKeeps(b, cfg, host, fd, lock);
      CalmAfter(ans, b, cfg, store, m, Issue(ans, mp, SslNew), post, WithSsl(lock));
    }
  }
}

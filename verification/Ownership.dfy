/** What one backend operation does to the objects alive and to the PSK lock, on every path. */
module Ownership {
  import opened Platform
  import opened Ledger
  import opened Program
  import opened Config
  import opened Trust
  import opened Lifecycle

  /** The pointers are NULL or name live objects, and the CTX has no other SSL. */
  ghost predicate Tidy(m: Machine) {
    && Lawful(m.trace) && m.tmp == 0
    && (m.ctx != 0 ==> Is(m.trace, m.ctx, CtxObject) && OnlyChild(Live(m.trace), m.ctx, m.ssl))
    && (m.ssl != 0 ==> Is(m.trace, m.ssl, SslObject))
  }

  /** A call that leaves the objects alone. */
  lemma PlainCall(ans: Oracle, m: Machine, op: Op)
    requires Tidy(m) && Makes(op) == NoObject && !Destroys(op)
    requires Legal(m.trace, Event(op, Operand(m, op), Answer(ans, m.trace, op)))
    ensures var m1 := Issue(ans, m, op);
            Tidy(m1) && m1 == m.(trace := m1.trace) && Live(m1.trace) == Live(m.trace)
            && |m1.trace| == |m.trace| + 1
  {
    Snoc(m.trace, Event(op, Operand(m, op), Answer(ans, m.trace, op)));
  }

  lemma GiveBackSound(ans: Oracle, m: Machine)
    requires Tidy(m)
    ensures var m1 := GiveBack(ans, m);
            Tidy(m1) && m1 == m.(trace := m1.trace) && Live(m1.trace) == Live(m.trace)
  {
    if Taken(m.trace) {
      TakenNeedsLock(m.trace);
      PlainCall(ans, m, GiveLock);
    }
  }

  lemma FreeSslCall(ans: Oracle, m: Machine)
    requires Tidy(m) && m.ssl != 0
    ensures var m1 := Issue(ans, m, SslFree);
            && Tidy(m1) && m1 == m.(trace := m1.trace, ssl := 0)
            && Live(m1.trace) == Live(m.trace) - {m.ssl}
  {
    Snoc(m.trace, Event(SslFree, m.ssl, Answer(ans, m.trace, SslFree)));
  }

  lemma DropSslSound(ans: Oracle, m: Machine)
    requires Tidy(m)
    ensures var m1 := DropSsl(ans, m);
            && Tidy(m1) && m1 == m.(trace := m1.trace, ssl := 0)
            && Live(m1.trace) == Live(m.trace) - {m.ssl}
  {
    if m.ssl != 0 {
      PlainCall(ans, m, Shutdown);
      FreeSslCall(ans, Issue(ans, m, Shutdown));
    } else {
      LiveBound(m.trace);
    }
  }

  lemma DropCtxSound(ans: Oracle, m: Machine)
    requires Tidy(m) && m.ssl == 0
    ensures var m1 := DropCtx(ans, m);
            && Lawful(m1.trace) && m1 == m.(trace := m1.trace, ctx := 0)
            && Live(m1.trace) == Live(m.trace) - {m.ctx}
  {
    LiveBound(m.trace);
    Snoc(m.trace, Event(CtxFree, m.ctx, Answer(ans, m.trace, CtxFree)));
  }

  /** Cleanup frees exactly what the connection points to, and leaves it pointing to nothing. */
  lemma TeardownSound(ans: Oracle, m: Machine)
    requires Tidy(m)
    ensures var m1 := Teardown(ans, m);
            && Lawful(m1.trace) && m1 == Machine(m1.trace, 0, 0, 0)
            && Live(m1.trace) == Live(m.trace) - {m.ctx, m.ssl}
  {
    GiveBackSound(ans, m);
    DropSslSound(ans, GiveBack(ans, m));
    DropCtxSound(ans, DropSsl(ans, GiveBack(ans, m)));
    assert Live(m.trace) - {m.ssl} - {m.ctx} == Live(m.trace) - {m.ctx, m.ssl};
  }

  lemma OpsOfMore(t: Trace, t1: Trace, t2: Trace)
    requires t <= t1 <= t2
    ensures Ops(t2[|t|..]) == Ops(t1[|t|..]) + Ops(t2[|t1|..])
  {
  }

  lemma GiveBackOps(ans: Oracle, m: Machine)
    ensures var m1 := GiveBack(ans, m);
            && m.trace <= m1.trace && m1.ssl == m.ssl && m1.ctx == m.ctx
            && Ops(m1.trace[|m.trace|..]) == if Taken(m.trace) then [GiveLock] else []
  {
  }

  lemma DropSslOps(ans: Oracle, m: Machine)
    ensures var m1 := DropSsl(ans, m);
            && m.trace <= m1.trace && m1.ctx == m.ctx
            && Ops(m1.trace[|m.trace|..]) == if m.ssl != 0 then [Shutdown, SslFree] else []
  {
  }

  lemma DropCtxOps(ans: Oracle, m: Machine)
    ensures var m1 := DropCtx(ans, m);
            m.trace <= m1.trace && Ops(m1.trace[|m.trace|..]) == if m.ctx != 0 then [CtxFree] else []
  {
  }

  /** The calls of a cleanup: give the lock back, shut the SSL down, free it, free the CTX; in this order,
      each exactly if there is something to give back, shut down or free. */
  lemma TeardownOrder(ans: Oracle, m: Machine)
    ensures m.trace <= Teardown(ans, m).trace
    ensures Ops(Teardown(ans, m).trace[|m.trace|..])
            == (if Taken(m.trace) then [GiveLock] else [])
               + (if m.ssl != 0 then [Shutdown, SslFree] else [])
               + (if m.ctx != 0 then [CtxFree] else [])
  {
    var m1 := GiveBack(ans, m);
    var m2 := DropSsl(ans, m1);
    var m3 := DropCtx(ans, m2);
    GiveBackOps(ans, m);
    DropSslOps(ans, m1);
    DropCtxOps(ans, m2);
    OpsOfMore(m.trace, m1.trace, m2.trace);
    OpsOfMore(m.trace, m2.trace, m3.trace);
  }

  // ----- everything else a cleanup leaves alone

  /** From `t` on, nothing was stored or set up: the credentials, the init count and the settings of
      every CTX are the same. */
  ghost predicate Quiet(t: Trace, t1: Trace) {
    && t <= t1 && LastCreds(t1) == LastCreds(t) && InitBalance(t1) == InitBalance(t)
    && forall h :: Settings(t1, h) == Settings(t, h)
  }

  lemma QuietCall(ans: Oracle, m: Machine, op: Op)
    requires !op.StoreCreds? && !op.Init? && !op.Cleanup? && !IsSetting(op)
    ensures Quiet(m.trace, Issue(ans, m, op).trace)
    ensures Taken(Issue(ans, m, op).trace) ==
            if op.TakeLock? then true else if op.GiveLock? then false else Taken(m.trace)
  {
    var e := Event(op, Operand(m, op), Answer(ans, m.trace, op));
    Snoc(m.trace, e);
    forall h ensures Settings(Issue(ans, m, op).trace, h) == Settings(m.trace, h) {
      SettingsSnoc(m.trace, e, h);
    }
  }

  lemma QuietTrans(t: Trace, t1: Trace, t2: Trace)
    requires Quiet(t, t1) && Quiet(t1, t2)
    ensures Quiet(t, t2)
  {
  }

  lemma DropSslQuiet(ans: Oracle, m: Machine)
    ensures Quiet(m.trace, DropSsl(ans, m).trace) && Taken(DropSsl(ans, m).trace) == Taken(m.trace)
  {
    if m.ssl != 0 {
      var m1 := Issue(ans, m, Shutdown);
      QuietCall(ans, m, Shutdown);
      QuietCall(ans, m1, SslFree);
      QuietTrans(m.trace, m1.trace, Issue(ans, m1, SslFree).trace);
    }
  }

  lemma DropCtxQuiet(ans: Oracle, m: Machine)
    ensures Quiet(m.trace, DropCtx(ans, m).trace) && Taken(DropCtx(ans, m).trace) == Taken(m.trace)
  {
    QuietCall(ans, m, CtxFree);
  }

  /** After any cleanup, by whichever connection, the PSK lock is free. */
  lemma TeardownFreesLock(ans: Oracle, m: Machine)
    ensures !Taken(Teardown(ans, m).trace) && Quiet(m.trace, Teardown(ans, m).trace)
  {
    var m1 := GiveBack(ans, m);
    QuietCall(ans, m, GiveLock);
    DropSslQuiet(ans, m1);
    DropCtxQuiet(ans, DropSsl(ans, m1));
    QuietTrans(m.trace, m1.trace, DropSsl(ans, m1).trace);
    QuietTrans(m.trace, DropSsl(ans, m1).trace, Teardown(ans, m).trace);
  }

  // ----- create

  /** A pointer after a program is the one before, NULL, or new. */
  lemma {:induction false} ExecPointers(ans: Oracle, m: Machine, p: seq<Instr>)
    ensures var m1 := Exec(ans, m, p).0;
            && (m1.ctx == m.ctx || m1.ctx == 0 || m1.ctx > |m.trace|)
            && (m1.ssl == m.ssl || m1.ssl == 0 || m1.ssl > |m.trace|)
    decreases |p|
  {
    if p != [] && p[0].Do? && Succeeds(ans, m, p[0].op) {
      ExecPointers(ans, Issue(ans, m, p[0].op), p[1..]);
    }
  }

  /** A program fit to configure a connection: checked, and on success with a CTX and an SSL. */
  ghost predicate Fit(p: seq<Instr>, lock: bool) {
    || Owning(p, lock)
    || (exists err: EspErr :: err != EspOk && p == [Refuse(err)])
  }

  lemma ProgramFits(b: Build, peer: Peer, store: Option<seq<byte>>, lock: bool, fd: int)
    ensures Fit(ProgramFor(b, peer, store, lock, fd), lock)
  {
    match peer
    case AsClient(cfg, host) => ClientOwning(b, cfg, host, store, lock, fd);
    case AsServer(cfg) => ServerOwning(b, cfg, fd, lock);
    case BadRole =>
  }

  /** Whatever its outcome, a configuration program ends tidy; every object it made is one the
      connection now points to, and it destroyed none that was alive before. */
  lemma ConfigureSound(ans: Oracle, m: Machine, p: seq<Instr>, lock: bool)
    requires Tidy(m) && Fit(p, lock) && (lock ==> LockExists(m.trace))
    ensures var (m1, err) := Exec(ans, m, p);
            && Tidy(m1) && |m.trace| <= |m1.trace|
            && (forall h :: h in Live(m1.trace) <==> h in Live(m.trace) || (h != 0 && (h == m1.ctx || h == m1.ssl)))
            && (forall h :: h in Live(m.trace) ==> Live(m1.trace)[h] == Live(m.trace)[h])
            && (m1.ctx == m.ctx || m1.ctx == 0 || m1.ctx > |m.trace|)
            && (m1.ssl == m.ssl || m1.ssl == 0 || m1.ssl > |m.trace|)
            && (err == EspOk ==> |m.trace| < m1.ctx && |m.trace| < m1.ssl && Live(m1.trace)[m1.ssl].parent == m1.ctx)
  {
    ExecPointers(ans, m, p);
    if Owning(p, lock) {
      LiveBound(m.trace);
      assert Sane(m.trace, m, Start(lock));
      var k' := ExecSound(ans, m.trace, m, p, Start(lock));
      var m1 := Exec(ans, m, p).0;
      assert Owns(Live(m.trace), |m.trace|, Live(m1.trace), m1, k'.held);
    } else {
      var err: EspErr :| err != EspOk && p == [Refuse(err)];
    }
  }
}

/** The effect of each operation on the objects of the connection it is called for. */
module Moves {
  import opened Platform
  import opened Ledger
  import opened Program
  import opened Config
  import opened Trust
  import opened Lifecycle
  import opened Ownership

  /** Between calls a connection has both objects or neither, its SSL was made from its CTX, and that
      CTX has no other SSL. */
  ghost predicate ConnOk(live: Objects, c: Conn) {
    && (c.ctx == 0 <==> c.ssl == 0)
    && (c.ctx != 0 ==>
          && Alive(live, c.ctx, CtxObject) && OnlyChild(live, c.ctx, c.ssl)
          && Alive(live, c.ssl, SslObject) && live[c.ssl].parent == c.ctx)
  }

  predicate Owned(c: Conn, h: nat) {
    h != 0 && (h == c.ctx || h == c.ssl)
  }

  /** An operation for connection `c`, on objects named up to `n` so far: nothing but objects of `c`
      disappeared, nothing but new objects of `c` appeared, and `c` is in order again. */
  ghost predicate MovedObjects(live: Objects, n: nat, c: Conn, live1: Objects, c1: Conn) {
    && (forall h :: h in live ==> Owned(c, h) || (h in live1 && live1[h] == live[h]))
    && (forall h :: h in live1 ==> (h in live && live1[h] == live[h]) || (Owned(c1, h) && h > n))
    && ConnOk(live1, c1)
    && (c1.ctx == c.ctx || c1.ctx == 0 || c1.ctx > n)
  }

  ghost predicate Moved(t: Trace, c: Conn, t1: Trace, c1: Conn) {
    Lawful(t1) && |t| <= |t1| && MovedObjects(Live(t), |t|, c, Live(t1), c1)
  }

  /** ... and what `c` no longer points to was freed: nothing leaked. */
  ghost predicate Balanced(live: Objects, c: Conn, live1: Objects, c1: Conn) {
    forall h :: h in live1 <==> (h in live && !Owned(c, h)) || Owned(c1, h)
  }

  /** The objects after a configuration program that ends pointing to `ctx` and `ssl`. */
  ghost predicate Configured(live: Objects, n: nat, c: Conn, live1: Objects, ctx: nat, ssl: nat) {
    && (forall h :: h in live1 <==> h in live || (h != 0 && (h == ctx || h == ssl)))
    && (forall h :: h in live ==> live1[h] == live[h])
    && (ctx == c.ctx || ctx == 0 || ctx > n)
    && (ssl == c.ssl || ssl == 0 || ssl > n)
  }

  ghost predicate Named(live: Objects, n: nat) {
    forall h :: h in live ==> 0 < h <= n
  }

  lemma FailedMove(live: Objects, n: nat, c: Conn, live1: Objects, ctx: nat, ssl: nat)
    requires Named(live, n) && Configured(live, n, c, live1, ctx, ssl)
    ensures MovedObjects(live, n, c, live1 - {ctx, ssl}, c.(ctx := 0, ssl := 0))
  {
  }

  lemma SucceededMove(live: Objects, n: nat, c: Conn, live1: Objects, c1: Conn)
    requires Configured(live, n, c, live1, c1.ctx, c1.ssl) && ConnOk(live1, c1) && c1.ctx > n && c1.ssl > n
    ensures MovedObjects(live, n, c, live1, c1)
  {
  }

  /** With the pointers unchanged, or NULL before, a failure leaves nothing behind. */
  lemma FailedBalance(live: Objects, n: nat, c: Conn, live1: Objects, ctx: nat, ssl: nat)
    requires Named(live, n) && Configured(live, n, c, live1, ctx, ssl)
    requires (ctx == c.ctx && ssl == c.ssl) || (c.ctx == 0 && c.ssl == 0)
    ensures Balanced(live, c, live1 - {ctx, ssl}, c.(ctx := 0, ssl := 0))
  {
  }

  // ----- delete

  lemma DeleteMoves(ans: Oracle, t: Trace, c: Conn)
    requires Lawful(t) && ConnOk(Live(t), c)
    ensures var (t1, c1) := DeleteOn(ans, t, c);
            && Moved(t, c, t1, c1) && Balanced(Live(t), c, Live(t1), c1)
            && c1 == c.(ctx := 0, ssl := 0)
            && !Taken(t1) && Quiet(t, t1)
  {
    LiveBound(t);
    TeardownSound(ans, MachineOf(t, c));
    TeardownFreesLock(ans, MachineOf(t, c));
    FailedMove(Live(t), |t|, c, Live(t), c.ctx, c.ssl);
    FailedBalance(Live(t), |t|, c, Live(t), c.ctx, c.ssl);
  }

  /** Deleting a connection again frees nothing. */
  lemma SecondDeleteFreesNothing(ans: Oracle, t: Trace, c: Conn)
    requires Lawful(t) && ConnOk(Live(t), c)
    ensures var (t1, c1) := DeleteOn(ans, t, c); DeleteOn(ans, t1, c1) == (t1, c1)
  {
    DeleteMoves(ans, t, c);
  }

  // ----- create

  lemma InitRecords(ans: Oracle, m: Machine)
    ensures var m1 := Issue(ans, m, Init);
            && LastCreds(m1.trace) == LastCreds(m.trace) && Taken(m1.trace) == Taken(m.trace)
            && (LockExists(m.trace) ==> LockExists(m1.trace))
            && InitBalance(m1.trace) == InitBalance(m.trace) + (if Succeeds(ans, m, Init) then 1 else 0)
  {
    Snoc(m.trace, Event(Init, 0, Answer(ans, m.trace, Init)));
  }

  lemma InitSetsNothing(ans: Oracle, m: Machine)
    ensures forall h :: Settings(Issue(ans, m, Init).trace, h) == Settings(m.trace, h)
  {
    forall h ensures Settings(Issue(ans, m, Init).trace, h) == Settings(m.trace, h) {
      SettingsIssue(ans, m, Init, h);
    }
  }

  lemma InitCall(ans: Oracle, t: Trace, c: Conn)
    requires Lawful(t) && ConnOk(Live(t), c)
    ensures var m := MachineOf(t, c); var m1 := Issue(ans, m, Init);
            && Tidy(m1) && m1 == m.(trace := m1.trace) && |m1.trace| == |t| + 1 && Live(m1.trace) == Live(t)
            && LastCreds(m1.trace) == LastCreds(t) && Taken(m1.trace) == Taken(t)
            && (LockExists(t) ==> LockExists(m1.trace))
            && InitBalance(m1.trace) == InitBalance(t) + (if Succeeds(ans, m, Init) then 1 else 0)
            && (forall h :: Settings(m1.trace, h) == Settings(t, h))
  {
    InitRecords(ans, MachineOf(t, c));
    InitSetsNothing(ans, MachineOf(t, c));
    PlainCall(ans, MachineOf(t, c), Init);
  }

  /** The three ways through create: wolfSSL_Init fails, the configuration fails, or all succeeds. */
  lemma CreateCases(ans: Oracle, b: Build, t: Trace, c: Conn, peer: Peer, store: Option<seq<byte>>)
      returns (m1: Machine, p: seq<Instr>)
    ensures m1 == Issue(ans, MachineOf(t, c), Init)
    ensures p == ProgramFor(b, peer, store, LockExists(t), c.fd)
    ensures var (t2, c2, err) := CreateOn(ans, b, t, c, peer, store);
            var (m2, e) := Exec(ans, m1, p);
            if !Succeeds(ans, MachineOf(t, c), Init) then
              var m := Teardown(ans, m1);
              err == EspFail && t2 == m.trace && c2 == c.(ctx := m.ctx, ssl := m.ssl)
            else if e != EspOk then
              var m := Teardown(ans, m2);
              err == e && t2 == m.trace && c2 == c.(ctx := m.ctx, ssl := m.ssl)
            else err == EspOk && t2 == m2.trace && c2 == c.(ctx := m2.ctx, ssl := m2.ssl)
  {
    m1 := Issue(ans, MachineOf(t, c), Init);
    p := ProgramFor(b, peer, store, LockExists(t), c.fd);
  }

  lemma FailedCreate(ans: Oracle, t: Trace, c: Conn, m1: Machine, m2: Machine)
    requires Lawful(t) && ConnOk(Live(t), c)
    requires Live(m1.trace) == Live(t) && |m1.trace| == |t| + 1 && m1.ctx == c.ctx && m1.ssl == c.ssl
    requires Tidy(m2) && Configured(Live(m1.trace), |m1.trace|, c, Live(m2.trace), m2.ctx, m2.ssl)
    requires |m1.trace| <= |m2.trace|
    ensures var m := Teardown(ans, m2);
            Moved(t, c, m.trace, c.(ctx := m.ctx, ssl := m.ssl)) && m.ctx == 0 && m.ssl == 0 && !Taken(m.trace)
  {
    TeardownSound(ans, m2);
    TeardownFreesLock(ans, m2);
    LiveBound(t);
    FailedMove(Live(t), |t|, c, Live(m2.trace), m2.ctx, m2.ssl);
  }

  /** Create, on every path: the connection ends with both objects, both new, or with neither; and on
      failure the lock is free. */
  lemma CreateMoves(ans: Oracle, b: Build, t: Trace, c: Conn, peer: Peer, store: Option<seq<byte>>)
    requires Lawful(t) && ConnOk(Live(t), c)
    ensures var (t1, c1, err) := CreateOn(ans, b, t, c, peer, store);
            && Moved(t, c, t1, c1)
            && c1 == c.(ctx := c1.ctx, ssl := c1.ssl)
            && (if err == EspOk then c1.ctx > |t| && c1.ssl > |t| else c1.ctx == 0 && c1.ssl == 0 && !Taken(t1))
  {
    var m1, p := CreateCases(ans, b, t, c, peer, store);
    InitCall(ans, t, c);
    LiveBound(t);
    if !Succeeds(ans, MachineOf(t, c), Init) {
      FailedCreate(ans, t, c, m1, m1);
    } else {
      ProgramFits(b, peer, store, LockExists(t), c.fd);
      ConfigureSound(ans, m1, p, LockExists(t));
      var (m2, e) := Exec(ans, m1, p);
      if e != EspOk {
        FailedCreate(ans, t, c, m1, m2);
      } else {
        SucceededMove(Live(t), |t|, c, Live(m2.trace), c.(ctx := m2.ctx, ssl := m2.ssl));
      }
    }
  }

  lemma OverwritesCtx(ans: Oracle, m: Machine, make: Op, pre: seq<Instr>, post: seq<Instr>)
    requires make.CtxNew? && 0 < m.ctx <= |m.trace|
    ensures Exec(ans, m, Assemble(make, pre, post)).0.ctx != m.ctx
  {
    var rest := pre + ([Do(SslNew, SslSetupFailed)] + post);
    ExecOne(ans, m, Do(make, CtxSetupFailed), rest);
    ExecPointers(ans, Issue(ans, m, make), rest);
  }

  lemma OtherCtx(ans: Oracle, m: Machine, b: Build, peer: Peer, store: Option<seq<byte>>, lock: bool, fd: int)
    requires 0 < m.ctx <= |m.trace| && !peer.BadRole?
    ensures Exec(ans, m, ProgramFor(b, peer, store, lock, fd)).0.ctx != m.ctx
  {
    match peer
    case AsClient(cfg, host) =>
      OverwritesCtx(ans, m, CtxNew(false, b.tls13), ClientPre(b, cfg, store, lock), ClientPost(b, cfg, host, fd));
    case AsServer(cfg) => OverwritesCtx(ans, m, CtxNew(true, b.tls13), ServerPre(cfg), ServerPost(fd));
  }

  lemma LostCtx(live: Objects, c: Conn, live1: Objects, c1: Conn)
    requires ConnOk(live, c) && c.ctx != 0 && c.ctx in live1 && !Owned(c1, c.ctx)
    ensures !Balanced(live, c, live1, c1)
  {
  }

  lemma BalanceAfter(ans: Oracle, t: Trace, c: Conn, m2: Machine, e: EspErr, same: bool)
    requires Lawful(t) && ConnOk(Live(t), c) && Named(Live(t), |t|)
    requires Tidy(m2) && Configured(Live(t), |t|, c, Live(m2.trace), m2.ctx, m2.ssl)
    requires e == EspOk ==> m2.ctx > |t| && m2.ssl > |t|
    requires if same then m2.ctx == c.ctx && m2.ssl == c.ssl else c.ctx == 0 || m2.ctx != c.ctx
    ensures var m := if e == EspOk then m2 else Teardown(ans, m2);
            Balanced(Live(t), c, Live(m.trace), c.(ctx := m.ctx, ssl := m.ssl)) <==> c.ctx == 0 || same
  {
    if e == EspOk {
      if c.ctx != 0 {
        LostCtx(Live(t), c, Live(m2.trace), c.(ctx := m2.ctx, ssl := m2.ssl));
      }
    } else {
      TeardownSound(ans, m2);
      if c.ctx == 0 || same {
        FailedBalance(Live(t), |t|, c, Live(m2.trace), m2.ctx, m2.ssl);
      } else {
        LostCtx(Live(t), c, Live(m2.trace) - {m2.ctx, m2.ssl}, c.(ctx := 0, ssl := 0));
      }
    }
  }

  /** Create leaks nothing exactly when it is called on a connection without a CTX, or gives up before
      it makes one: on an open connection it overwrites the pointers, and the old objects are lost. */
  lemma CreateLeaksIff(ans: Oracle, b: Build, t: Trace, c: Conn, peer: Peer, store: Option<seq<byte>>)
    requires Lawful(t) && ConnOk(Live(t), c)
    ensures var (t1, c1, err) := CreateOn(ans, b, t, c, peer, store);
            Balanced(Live(t), c, Live(t1), c1)
            <==> c.ctx == 0 || peer.BadRole? || !Succeeds(ans, MachineOf(t, c), Init)
  {
    var m1, p := CreateCases(ans, b, t, c, peer, store);
    InitCall(ans, t, c);
    LiveBound(t);
    if !Succeeds(ans, MachineOf(t, c), Init) {
      TeardownSound(ans, m1);
      FailedBalance(Live(t), |t|, c, Live(t), c.ctx, c.ssl);
    } else {
      ProgramFits(b, peer, store, LockExists(t), c.fd);
      ConfigureSound(ans, m1, p, LockExists(t));
      if !peer.BadRole? && c.ctx != 0 {
        OtherCtx(ans, m1, b, peer, store, LockExists(t), c.fd);
      }
      var (m2, e) := Exec(ans, m1, p);
      BalanceAfter(ans, t, c, m2, e, peer.BadRole?);
    }
  }

  // ----- calls that keep everything but the lock

  /** Same pointers, same objects, same credentials, init count and settings. */
  ghost predicate Still(m: Machine, m1: Machine) {
    && Tidy(m1) && m1 == m.(trace := m1.trace) && Live(m1.trace) == Live(m.trace)
    && |m.trace| <= |m1.trace| && Quiet(m.trace, m1.trace)
  }

  lemma StillCall(ans: Oracle, m: Machine, op: Op)
    requires Tidy(m) && Makes(op) == NoObject && !Destroys(op)
    requires !op.StoreCreds? && !op.Init? && !op.Cleanup? && !IsSetting(op) && !op.TakeLock?
    requires Legal(m.trace, Event(op, Operand(m, op), Answer(ans, m.trace, op)))
    ensures Still(m, Issue(ans, m, op))
    ensures !op.GiveLock? ==> Taken(Issue(ans, m, op).trace) == Taken(m.trace)
  {
    PlainCall(ans, m, op);
    QuietCall(ans, m, op);
  }

  lemma StillTrans(m: Machine, m1: Machine, m2: Machine)
    requires Still(m, m1) && Still(m1, m2)
    ensures Still(m, m2)
  {
    QuietTrans(m.trace, m1.trace, m2.trace);
  }

  /** Connect, accept and get_error may be called on the connection's SSL, or on NULL. */
  lemma SslCall(ans: Oracle, m: Machine, op: Op)
    requires Tidy(m) && (op.Connect? || op.Accept? || op.GetError?)
    ensures Still(m, Issue(ans, m, op)) && Taken(Issue(ans, m, op).trace) == Taken(m.trace)
  {
    assert Legal(m.trace, Event(op, m.ssl, Answer(ans, m.trace, op)));
    StillCall(ans, m, op);
  }

  // ----- handshake

  /** The PSK callback runs for the SSL of a CTX that registered it. */
  ghost predicate MayCall(m: Machine) {
    Tidy(m) && m.ssl != 0 && Live(m.trace)[m.ssl].parent == m.ctx && Registered(m.trace, m.ctx)
  }

  /** The two calls a callback makes */
  lemma HandingOutMoves(ans: Oracle, m: Machine, hand: Op)
    requires Tidy(m) && hand.Deliver? && LockExists(m.trace)
    requires Legal(m.trace, Event(hand, m.ssl, Answer(ans, m.trace, hand)))
    ensures Still(m, Issue(ans, Issue(ans, m, hand), GiveLock))
  {
    StillCall(ans, m, hand);
    var m1 := Issue(ans, m, hand);
    StillCall(ans, m1, GiveLock);
    StillTrans(m, m1, Issue(ans, m1, GiveLock));
  }

  lemma StaysCallable(m: Machine, m1: Machine)
    requires MayCall(m) && Still(m, m1)
    ensures MayCall(m1)
  {
    var i :| 0 <= i < |m.trace| && m.trace[i].op.SetPskCallback? && m.trace[i].on == m.ctx;
    assert m1.trace[i] == m.trace[i];
  }

  lemma CallbackMoves(ans: Oracle, m: Machine, buf: Buffers)
    requires MayCall(m)
    ensures Still(m, PskCallback(ans, m, buf).0) && MayCall(PskCallback(ans, m, buf).0)
  {
    var i :| 0 <= i < |m.trace| && m.trace[i].op.SetPskCallback? && m.trace[i].on == m.ctx;
    RegisteredNeedsLock(m.trace, i);
    var c := LastCreds(m.trace);
    HandingOutMoves(ans, m, Deliver(c.hint, c.key));
    StaysCallable(m, PskCallback(ans, m, buf).0);
  }

  lemma {:induction false} CallbacksMove(ans: Oracle, m: Machine, bufs: seq<Buffers>)
    requires MayCall(m)
    ensures Still(m, PskCallbacks(ans, m, bufs))
    decreases |bufs|
  {
    if bufs != [] {
      var m1 := PskCallback(ans, m, bufs[0]).0;
      CallbackMoves(ans, m, bufs[0]);
      CallbacksMove(ans, m1, bufs[1..]);
      StillTrans(m, m1, PskCallbacks(ans, m1, bufs[1..]));
    }
  }

  lemma ConnectMoves(ans: Oracle, m: Machine, bufs: seq<Buffers>)
    requires Tidy(m) && (m.ssl != 0 ==> Live(m.trace)[m.ssl].parent == m.ctx)
    ensures Still(m, ConnectCall(ans, m, bufs))
  {
    if m.ssl != 0 && Registered(m.trace, m.ctx) {
      CallbacksMove(ans, m, bufs);
      var m1 := PskCallbacks(ans, m, bufs);
      SslCall(ans, m1, Connect);
      StillTrans(m, m1, Issue(ans, m1, Connect));
    } else {
      SslCall(ans, m, Connect);
    }
  }

  /** A handshake call keeps the connection's objects, and everything but the lock; it moves the
      state to done or failed, or leaves it for the next call. */
  lemma HandshakeMoves(ans: Oracle, t: Trace, c: Conn, bufs: seq<Buffers>)
    requires Lawful(t) && ConnOk(Live(t), c)
    ensures var (t1, c1, ret) := HandshakeOn(ans, t, c, bufs);
            && Still(MachineOf(t, c), MachineOf(t1, c1))
            && c1 == c.(state := c1.state)
            && c1.state == (if ret == 1 then ConnDone else if ret == 0 then c.state else ConnFail)
  {
    var m := MachineOf(t, c);
    ConnectMoves(ans, m, bufs);
    var m1 := ConnectCall(ans, m, bufs);
    SslCall(ans, m1, GetError);
    StillTrans(m, m1, Issue(ans, m1, GetError));
  }

  // ----- server session

  lemma AcceptRoundMoves(ans: Oracle, m: Machine)
    requires Tidy(m)
    ensures Still(m, Issue(ans, m, Accept)) && Still(m, Issue(ans, Issue(ans, m, Accept), GetError))
  {
    SslCall(ans, m, Accept);
    var m1 := Issue(ans, m, Accept);
    SslCall(ans, m1, GetError);
    StillTrans(m, m1, Issue(ans, m1, GetError));
  }

  lemma {:induction false} AcceptMoves(ans: Oracle, m: Machine, patience: nat)
    requires Tidy(m)
    ensures Still(m, AcceptLoop(ans, m, patience).0)
    decreases patience
  {
    if patience > 0 {
      AcceptRoundMoves(ans, m);
      var m2 := Issue(ans, Issue(ans, m, Accept), GetError);
      AcceptMoves(ans, m2, patience - 1);
      StillTrans(m, m2, AcceptLoop(ans, m2, patience - 1).0);
    }
  }

  /** Only the pointers matter. */
  lemma SamePointers(t: Trace, c: Conn, c': Conn, t1: Trace, c1: Conn, c1': Conn)
    requires Moved(t, c, t1, c1)
    requires c'.ctx == c.ctx && c'.ssl == c.ssl && c1'.ctx == c1.ctx && c1'.ssl == c1.ssl
    ensures Moved(t, c', t1, c1')
  {
  }

  lemma StillMoved(t: Trace, c: Conn, t0: Trace, c0: Conn, t1: Trace, c1: Conn)
    requires Moved(t, c, t0, c0) && Still(MachineOf(t0, c0), MachineOf(t1, c1))
    ensures Moved(t, c, t1, c1)
  {
  }

  /** The rest of a session, after a create that left `c0` in order */
  lemma AfterCreateMoves(ans: Oracle, t: Trace, c: Conn, t0: Trace, c0: Conn, err: EspErr, patience: nat)
    requires Moved(t, c, t0, c0)
    ensures var (t1, c1, ret) := AfterCreate(ans, t0, c0, err, patience);
            && Moved(t, c, t1, c1)
            && (if err == EspOk then Still(MachineOf(t0, c0), MachineOf(t1, c1)) && c1.wired
                else t1 == t0 && c1 == c0.(state := ConnFail) && ret == Some(-1))
            && c1.state == (if ret == Some(-1) then ConnFail else c0.state)
  {
    var (t1, c1, ret) := AfterCreate(ans, t0, c0, err, patience);
    if err == EspOk {
      var m0 := MachineOf(t0, c0.(wired := true));
      AcceptMoves(ans, m0, patience);
      assert MachineOf(t1, c1) == AcceptLoop(ans, m0, patience).0;
      StillMoved(t, c, t0, c0, t1, c1);
    } else {
      SamePointers(t, c, c, t0, c0, c1);
    }
  }

  /** A server session creates like any connection; its accept loop keeps what was created.  A
      successful session does not touch conn_state. */
  lemma SessionMoves(ans: Oracle, b: Build, t: Trace, c: Conn, cfg: ServerCfg, fd: int, patience: nat)
    requires Lawful(t) && ConnOk(Live(t), c)
    ensures var (t1, c1, ret) := ServerSessionOn(ans, b, t, c, cfg, fd, patience);
            var (t0, c0, err) := CreateOn(ans, b, t, c.(fd := fd), AsServer(cfg), None);
            && Moved(t, c, t1, c1)
            && (if err == EspOk then Still(MachineOf(t0, c0), MachineOf(t1, c1)) && c1.wired
                else t1 == t0 && c1.ctx == 0 && c1.ssl == 0 && ret == Some(-1))
            && c1.state == (if ret == Some(-1) then ConnFail else c.state)
  {
    var (t0, c0, err) := CreateOn(ans, b, t, c.(fd := fd), AsServer(cfg), None);
    CreateMoves(ans, b, t, c.(fd := fd), AsServer(cfg), None);
    SamePointers(t, c.(fd := fd), c, t0, c0, c0);
    AfterCreateMoves(ans, t, c, t0, c0, err, patience);
  }
}

/** Facts about whole runs: wolfSSL stays initialised while connections are open, every open
    connection was settled before its SSL was made, and the CA store holds what was last set. */
module Runs {
  import opened Platform
  import opened Ledger
  import opened Program
  import opened Config
  import opened Trust
  import opened Lifecycle
  import opened Ownership
  import opened Moves
  import opened Worlds

  // ----- what a configuration program does not touch

  lemma InitIssue(ans: Oracle, m: Machine, op: Op)
    requires !op.Init? && !op.Cleanup?
    ensures InitBalance(Issue(ans, m, op).trace) == InitBalance(m.trace)
  {
    Snoc(m.trace, Event(op, Operand(m, op), Answer(ans, m.trace, op)));
  }

  lemma {:induction false} ExecKeepsInit(ans: Oracle, m: Machine, p: seq<Instr>, k: Known)
    requires Check(p, k).Some?
    ensures InitBalance(Exec(ans, m, p).0.trace) == InitBalance(m.trace)
    decreases |p|
  {
    InitIssue(ans, m, HeapFree);
    if p != [] && p[0].Do? {
      InitIssue(ans, m, p[0].op);
      InitIssue(ans, Issue(ans, m, p[0].op), HeapFree);
      if Succeeds(ans, m, p[0].op) {
        ExecKeepsInit(ans, Issue(ans, m, p[0].op), p[1..], After(p[0].op, k).value);
      }
    }
  }

  /** Settings of objects that existed before are left alone, and the trace only grows. */
  ghost predicate Kept(t: Trace, t1: Trace) {
    t <= t1 && forall h: nat :: h <= |t| ==> Settings(t1, h) == Settings(t, h)
  }

  lemma KeptTrans(t: Trace, t1: Trace, t2: Trace)
    requires Kept(t, t1) && Kept(t1, t2)
    ensures Kept(t, t2)
  {
  }

  lemma QuietKeeps(t: Trace, t1: Trace)
    requires Quiet(t, t1)
    ensures Kept(t, t1) && InitBalance(t1) == InitBalance(t)
  {
  }

  lemma ExecKeeps(ans: Oracle, m: Machine, p: seq<Instr>, lock: bool)
    requires Tidy(m) && Owning(p, lock) && (lock ==> LockExists(m.trace))
    ensures Kept(m.trace, Exec(ans, m, p).0.trace)
  {
    LiveBound(m.trace);
    assert Sane(m.trace, m, Start(lock));
    var t1 := Exec(ans, m, p).0.trace;
    assert m.trace <= t1 by {
      ExecGrows(ans, m, p);
    }
    forall h: nat | h <= |m.trace| ensures Settings(t1, h) == Settings(m.trace, h) {
      OthersUnset(ans, m.trace, m, p, Start(lock), h);
    }
  }

  lemma ConfigureKeeps(ans: Oracle, m: Machine, p: seq<Instr>, lock: bool)
    requires Tidy(m) && Fit(p, lock) && (lock ==> LockExists(m.trace))
    ensures Kept(m.trace, Exec(ans, m, p).0.trace)
    ensures InitBalance(Exec(ans, m, p).0.trace) == InitBalance(m.trace)
  {
    if Owning(p, lock) {
      ExecKeepsInit(ans, m, p, Start(lock));
      ExecKeeps(ans, m, p, lock);
    }
  }

  lemma TeardownKeeps(ans: Oracle, m: Machine)
    ensures Kept(m.trace, Teardown(ans, m).trace) && InitBalance(Teardown(ans, m).trace) == InitBalance(m.trace)
  {
    TeardownFreesLock(ans, m);
    QuietKeeps(m.trace, Teardown(ans, m).trace);
  }

  /** Create leaves older settings alone and counts one initialisation if wolfSSL_Init succeeds. */
  lemma CreateKeeps(ans: Oracle, b: Build, t: Trace, c: Conn, peer: Peer, store: Option<seq<byte>>)
    requires Lawful(t) && ConnOk(Live(t), c)
    ensures var (t1, c1, err) := CreateOn(ans, b, t, c, peer, store);
            && Kept(t, t1)
            && InitBalance(t1) == InitBalance(t) + (if Succeeds(ans, MachineOf(t, c), Init) then 1 else 0)
            && (err == EspOk ==> Succeeds(ans, MachineOf(t, c), Init))
  {
    var m1, p := CreateCases(ans, b, t, c, peer, store);
    InitCall(ans, t, c);
    assert Kept(t, m1.trace);
    if !Succeeds(ans, MachineOf(t, c), Init) {
      TeardownKeeps(ans, m1);
      KeptTrans(t, m1.trace, Teardown(ans, m1).trace);
    } else {
      ProgramFits(b, peer, store, LockExists(t), c.fd);
      ConfigureKeeps(ans, m1, p, LockExists(t));
      var (m2, e) := Exec(ans, m1, p);
      KeptTrans(t, m1.trace, m2.trace);
      if e != EspOk {
        TeardownKeeps(ans, m2);
        KeptTrans(t, m2.trace, Teardown(ans, m2).trace);
      }
    }
  }

  // ----- initialisation

  /** Is this a call that opens a connection? */
  predicate Opens(cmd: Cmd) {
    cmd.CreateCmd? || cmd.ServerSessionCmd?
  }

  lemma SessionKeeps(ans: Oracle, b: Build, t: Trace, c: Conn, cfg: ServerCfg, fd: int, patience: nat)
    requires Lawful(t) && ConnOk(Live(t), c)
    ensures var (t1, c1, ret) := ServerSessionOn(ans, b, t, c, cfg, fd, patience);
            var (t0, c0, err) := CreateOn(ans, b, t, c.(fd := fd), AsServer(cfg), None);
            && Kept(t, t1) && Kept(t0, t1) && InitBalance(t1) == InitBalance(t0) >= InitBalance(t)
            && (c1.ctx != 0 ==> InitBalance(t0) == InitBalance(t) + 1)
  {
    CreateKeeps(ans, b, t, c.(fd := fd), AsServer(cfg), None);
    SessionMoves(ans, b, t, c, cfg, fd, patience);
    var (t0, c0, err) := CreateOn(ans, b, t, c.(fd := fd), AsServer(cfg), None);
    var t1 := ServerSessionOn(ans, b, t, c, cfg, fd, patience).0;
    if err == EspOk {
      QuietKeeps(t0, t1);
      KeptTrans(t, t0, t1);
    }
  }

  /** The init count never decreases, and a call that ends with the connection open raised it. */
  lemma StepConnInit(ans: Oracle, b: Build, t: Trace, c: Conn, store: Option<seq<byte>>, cmd: Cmd)
    requires Lawful(t) && ConnOk(Live(t), c) && !cmd.SetStoreCmd? && !cmd.FreeStoreCmd?
    ensures var (t1, c1) := StepConn(ans, b, t, c, store, cmd);
            && Kept(t, t1)
            && InitBalance(t1) >= InitBalance(t) + (if Opens(cmd) && c1.ctx != 0 then 1 else 0)
            && (!Opens(cmd) ==> c1.ctx == c.ctx || c1.ctx == 0)
  {
    match cmd
    case CreateCmd(_, peer) =>
      CreateKeeps(ans, b, t, c, peer, store);
      CreateMoves(ans, b, t, c, peer, store);
    case HandshakeCmd(_, bufs) =>
      HandshakeMoves(ans, t, c, bufs);
      QuietKeeps(t, HandshakeOn(ans, t, c, bufs).0);
    case ServerSessionCmd(_, cfg, fd, patience) => SessionKeeps(ans, b, t, c, cfg, fd, patience);
    case DeleteCmd(_) =>
      DeleteMoves(ans, t, c);
      QuietKeeps(t, DeleteOn(ans, t, c).0);
  }

  function OpenCount(conns: seq<Conn>): nat {
    if conns == [] then 0
    else OpenCount(conns[..|conns| - 1]) + (if conns[|conns| - 1].ctx != 0 then 1 else 0)
  }

  lemma {:induction false} OpenUpdate(conns: seq<Conn>, i: nat, c: Conn)
    requires i < |conns|
    ensures OpenCount(conns[i := c]) == OpenCount(conns)
            - (if conns[i].ctx != 0 then 1 else 0) + (if c.ctx != 0 then 1 else 0)
  {
    var n := |conns| - 1;
    if i < n {
      OpenUpdate(conns[..n], i, c);
      assert conns[i := c][..n] == conns[..n][i := c];
    } else {
      assert conns[i := c][..n] == conns[..n];
    }
  }

  lemma {:induction false} NoneOpen(n: nat)
    ensures OpenCount(seq(n, i => BLANK)) == 0
  {
    if n > 0 {
      NoneOpen(n - 1);
      assert seq(n, i => BLANK)[..n - 1] == seq(n - 1, i => BLANK);
    }
  }

  lemma StepInit(ans: Oracle, b: Build, w: World, cmd: Cmd)
    requires Sound(w) && InitBalance(w.trace) >= OpenCount(w.conns)
    ensures var w1 := Step(ans, b, w, cmd);
            InitBalance(w.trace) <= InitBalance(w1.trace) && InitBalance(w1.trace) >= OpenCount(w1.conns)
  {
    match cmd
    case SetStoreCmd(buf) => SetStoreSound(ans, w, buf);
    case FreeStoreCmd => FreeStoreSound(ans, w);
    case _ =>
      if cmd.c < |w.conns| {
        StepConnInit(ans, b, w.trace, w.conns[cmd.c], StoredBytes(w.store), cmd);
        OpenUpdate(w.conns, cmd.c, StepConn(ans, b, w.trace, w.conns[cmd.c], StoredBytes(w.store), cmd).1);
      }
  }

  /** In every reachable state wolfSSL_Init has succeeded at least once per open connection, and the
      count never goes down: no delete or failed create takes the library away from the others. */
  lemma {:induction false} RunInit(ans: Oracle, b: Build, w: World, cmds: seq<Cmd>)
    requires Sound(w) && InitBalance(w.trace) >= OpenCount(w.conns)
    ensures var w1 := Run(ans, b, w, cmds);
            InitBalance(w.trace) <= InitBalance(w1.trace) && InitBalance(w1.trace) >= OpenCount(w1.conns)
    decreases |cmds|
  {
    if cmds != [] {
      StepSound(ans, b, w, cmds[0]);
      StepInit(ans, b, w, cmds[0]);
      RunInit(ans, b, Step(ans, b, w, cmds[0]), cmds[1..]);
    }
  }

  lemma InitialisedWhileOpen(ans: Oracle, b: Build, n: nat, mutexCreated: int, cmds: seq<Cmd>)
    ensures var w := Run(ans, b, Boot(n, mutexCreated), cmds); InitBalance(w.trace) >= OpenCount(w.conns)
  {
    BootSound(n, mutexCreated);
    NoneOpen(n);
    var e := Event(CreateMutex, 0, mutexCreated);
    Snoc([], e);
    assert [] + [e] == [e];
    RunInit(ans, b, Boot(n, mutexCreated), cmds);
  }

  // ----- trust

  /** An open connection's CTX names exactly one source of trust, and had all its settings when the SSL
      was made from it (OCSP options excepted, where they are built in). */
  ghost predicate Settled(b: Build, t: Trace, c: Conn) {
    c.ctx != 0 ==>
      && 1 <= c.ssl <= |t| && c.ctx <= |t|
      && ExactlyOneSource(Settings(t, c.ctx))
      && (Settings(t[..c.ssl - 1], c.ctx) == Settings(t, c.ctx) || b.ocsp)
  }

  lemma ClientSettles(ans: Oracle, m: Machine, b: Build, cfg: ClientCfg, host: seq<byte>,
                      store: Option<seq<byte>>, lock: bool, fd: int, c: Conn)
    requires Lawful(m.trace) && Exec(ans, m, ClientProgram(b, cfg, host, store, lock, fd)).1 == EspOk
    ensures var m1 := Exec(ans, m, ClientProgram(b, cfg, host, store, lock, fd)).0;
            Settled(b, m1.trace, c.(ctx := m1.ctx, ssl := m1.ssl))
  {
    SettledUnlessOcsp(ans, m, b, cfg, host, store, lock, fd);
  }

  lemma ServerSettles(ans: Oracle, m: Machine, b: Build, cfg: ServerCfg, fd: int, lock: bool, c: Conn)
    requires Lawful(m.trace) && Exec(ans, m, ServerProgram(b, cfg, fd)).1 == EspOk
    ensures var m1 := Exec(ans, m, ServerProgram(b, cfg, fd)).0;
            Settled(b, m1.trace, c.(ctx := m1.ctx, ssl := m1.ssl))
  {
    ServerTrustSettled(ans, m, b, cfg, fd, lock);
  }

  lemma CreateSettles(ans: Oracle, b: Build, t: Trace, c: Conn, peer: Peer, store: Option<seq<byte>>)
    requires Lawful(t) && ConnOk(Live(t), c)
    ensures var (t1, c1, err) := CreateOn(ans, b, t, c, peer, store); err == EspOk ==> Settled(b, t1, c1)
  {
    var m1, p := CreateCases(ans, b, t, c, peer, store);
    InitCall(ans, t, c);
    if Succeeds(ans, MachineOf(t, c), Init) && Exec(ans, m1, p).1 == EspOk {
      match peer
      case AsClient(cfg, host) => ClientSettles(ans, m1, b, cfg, host, store, LockExists(t), c.fd, c);
      case AsServer(cfg) => ServerSettles(ans, m1, b, cfg, c.fd, LockExists(t), c);
      case BadRole =>
    }
  }

  lemma SettledStays(b: Build, t: Trace, t1: Trace, c: Conn)
    requires Settled(b, t, c) && Kept(t, t1)
    ensures Settled(b, t1, c)
  {
    if c.ctx != 0 {
      assert t1[..c.ssl - 1] == t[..c.ssl - 1];
    }
  }

  lemma SessionSettles(ans: Oracle, b: Build, t: Trace, c: Conn, cfg: ServerCfg, fd: int, patience: nat)
    requires Lawful(t) && ConnOk(Live(t), c)
    ensures var (t1, c1, _) := ServerSessionOn(ans, b, t, c, cfg, fd, patience); Settled(b, t1, c1)
  {
    SessionMoves(ans, b, t, c, cfg, fd, patience);
    SessionKeeps(ans, b, t, c, cfg, fd, patience);
    CreateSettles(ans, b, t, c.(fd := fd), AsServer(cfg), None);
    var (t0, c0, err) := CreateOn(ans, b, t, c.(fd := fd), AsServer(cfg), None);
    if err == EspOk {
      SettledStays(b, t0, ServerSessionOn(ans, b, t, c, cfg, fd, patience).0, c0);
    }
  }

  lemma StepConnSettled(ans: Oracle, b: Build, t: Trace, c: Conn, store: Option<seq<byte>>, cmd: Cmd)
    requires Lawful(t) && ConnOk(Live(t), c) && !cmd.SetStoreCmd? && !cmd.FreeStoreCmd? && Settled(b, t, c)
    ensures var (t1, c1) := StepConn(ans, b, t, c, store, cmd); Settled(b, t1, c1)
  {
    match cmd
    case CreateCmd(_, peer) =>
      CreateMoves(ans, b, t, c, peer, store);
      CreateSettles(ans, b, t, c, peer, store);
    case HandshakeCmd(_, bufs) =>
      HandshakeMoves(ans, t, c, bufs);
      QuietKeeps(t, HandshakeOn(ans, t, c, bufs).0);
      SettledStays(b, t, HandshakeOn(ans, t, c, bufs).0, c);
    case ServerSessionCmd(_, cfg, fd, patience) => SessionSettles(ans, b, t, c, cfg, fd, patience);
    case DeleteCmd(_) => DeleteMoves(ans, t, c);
  }

  ghost predicate AllSettled(b: Build, w: World) {
    forall i :: 0 <= i < |w.conns| ==> Settled(b, w.trace, w.conns[i])
  }

  lemma StepKeeps(ans: Oracle, b: Build, w: World, cmd: Cmd)
    requires Sound(w)
    ensures Kept(w.trace, Step(ans, b, w, cmd).trace)
  {
    match cmd
    case SetStoreCmd(buf) => SetStoreSound(ans, w, buf);
    case FreeStoreCmd => FreeStoreSound(ans, w);
    case _ =>
      if cmd.c < |w.conns| {
        StepConnInit(ans, b, w.trace, w.conns[cmd.c], StoredBytes(w.store), cmd);
      }
  }

  lemma StepSettled(ans: Oracle, b: Build, w: World, cmd: Cmd)
    requires Sound(w) && AllSettled(b, w)
    ensures AllSettled(b, Step(ans, b, w, cmd))
  {
    var w1 := Step(ans, b, w, cmd);
    StepKeeps(ans, b, w, cmd);
    if !cmd.SetStoreCmd? && !cmd.FreeStoreCmd? && cmd.c < |w.conns| {
      StepConnSettled(ans, b, w.trace, w.conns[cmd.c], StoredBytes(w.store), cmd);
    }
    forall i | 0 <= i < |w1.conns| ensures Settled(b, w1.trace, w1.conns[i]) {
      if w1.conns[i] == w.conns[i] {
        SettledStays(b, w.trace, w1.trace, w.conns[i]);
      }
    }
  }

  /** In every reachable state, every open connection has exactly one source of trust, in place before
      its SSL was made. */
  lemma {:induction false} RunSettled(ans: Oracle, b: Build, w: World, cmds: seq<Cmd>)
    requires Sound(w) && AllSettled(b, w)
    ensures AllSettled(b, Run(ans, b, w, cmds))
    decreases |cmds|
  {
    if cmds != [] {
      StepSound(ans, b, w, cmds[0]);
      StepSettled(ans, b, w, cmds[0]);
      RunSettled(ans, b, Step(ans, b, w, cmds[0]), cmds[1..]);
    }
  }

  /** In every state reachable from boot. */
  lemma EveryOpenConnectionSettled(ans: Oracle, b: Build, n: nat, mutexCreated: int, cmds: seq<Cmd>, i: nat)
    requires i < n
    ensures var w := Run(ans, b, Boot(n, mutexCreated), cmds); i < |w.conns| && Settled(b, w.trace, w.conns[i])
  {
    BootSound(n, mutexCreated);
    RunSound(ans, b, Boot(n, mutexCreated), cmds);
    RunSettled(ans, b, Boot(n, mutexCreated), cmds);
  }

  // ----- the CA store

  predicate TouchesStore(cmd: Cmd) {
    cmd.FreeStoreCmd? || (cmd.SetStoreCmd? && cmd.buf.Some?)
  }

  lemma {:induction false} StoreUntouched(ans: Oracle, b: Build, w: World, cmds: seq<Cmd>)
    requires forall i :: 0 <= i < |cmds| ==> !TouchesStore(cmds[i])
    ensures Run(ans, b, w, cmds).store == w.store
    decreases |cmds|
  {
    if cmds != [] {
      StoreUntouched(ans, b, Step(ans, b, w, cmds[0]), cmds[1..]);
    }
  }

  /** After any run, the store holds exactly the bytes last set; it is empty if that set got no memory,
      even when it was replacing an older store. */
  lemma StoreHoldsLastSet(ans: Oracle, b: Build, w: World, before: seq<Cmd>, bytes: seq<byte>, after: seq<Cmd>)
    requires forall i :: 0 <= i < |after| ==> !TouchesStore(after[i])
    ensures var w1 := Run(ans, b, w, before);
            var (_, _, err) := SetStore(ans, w1.trace, w1.store, Some(bytes));
            StoredBytes(Run(ans, b, w, before + ([SetStoreCmd(Some(bytes))] + after)).store)
            == (if err == EspOk then Some(bytes) else None)
  {
    var store := [SetStoreCmd(Some(bytes))];
    RunAppend(ans, b, w, before, store + after);
    assert (store + after)[1..] == after;
    var w1 := Run(ans, b, w, before);
    StoreUntouched(ans, b, Step(ans, b, w1, store[0]), after);
  }

  lemma StoreEmptyAfterFree(ans: Oracle, b: Build, w: World, before: seq<Cmd>, after: seq<Cmd>)
    requires forall i :: 0 <= i < |after| ==> !TouchesStore(after[i])
    ensures Run(ans, b, w, before + ([FreeStoreCmd] + after)).store == None
  {
    RunAppend(ans, b, w, before, [FreeStoreCmd] + after);
    assert ([FreeStoreCmd] + after)[1..] == after;
    StoreUntouched(ans, b, Step(ans, b, Run(ans, b, w, before), FreeStoreCmd), after);
  }

  lemma SameTrust(b: Build, cfg: ClientCfg, direct: ClientCfg, bytes: seq<byte>, lock: bool)
    requires cfg.useGlobalStore && direct == cfg.(useGlobalStore := false, cacert := Some(bytes))
    ensures ClientPre(b, cfg, Some(bytes), lock) == ClientPre(b, direct, Some(bytes), lock)
  {
    assert TrustProgram(b, cfg, Some(bytes), lock) == TrustProgram(b, direct, Some(bytes), lock);
    assert BundleProgram(cfg) == BundleProgram(direct);
  }

  lemma SamePost(b: Build, cfg: ClientCfg, direct: ClientCfg, host: seq<byte>, bytes: seq<byte>, fd: int)
    requires direct == cfg.(useGlobalStore := false, cacert := Some(bytes))
    ensures ClientPost(b, cfg, host, fd) == ClientPost(b, direct, host, fd)
  {
    assert HostProgram(cfg, host) == HostProgram(direct, host);
    assert AlpnProgram(b, cfg) == AlpnProgram(b, direct);
  }

  lemma SameProgram(b: Build, cfg: ClientCfg, direct: ClientCfg, host: seq<byte>, bytes: seq<byte>, lock: bool, fd: int)
    requires cfg.useGlobalStore && direct == cfg.(useGlobalStore := false, cacert := Some(bytes))
    ensures ClientProgram(b, cfg, host, Some(bytes), lock, fd) == ClientProgram(b, direct, host, Some(bytes), lock, fd)
  {
    SameTrust(b, cfg, direct, bytes, lock);
    SamePost(b, cfg, direct, host, bytes, fd);
  }

  lemma SameCreate(ans: Oracle, b: Build, t: Trace, c: Conn, cfg: ClientCfg, direct: ClientCfg, host: seq<byte>,
                   bytes: seq<byte>)
    requires cfg.useGlobalStore && direct == cfg.(useGlobalStore := false, cacert := Some(bytes))
    ensures CreateOn(ans, b, t, c, AsClient(cfg, host), Some(bytes))
            == CreateOn(ans, b, t, c, AsClient(direct, host), Some(bytes))
  {
    SameProgram(b, cfg, direct, host, bytes, LockExists(t), c.fd);
  }

  /** The store is as good as the buffer: after a successful set of `bytes`, and whatever happened
      since that left the store alone, a client that uses the store behaves, call for call, like one
      that passes `bytes` directly. */
  lemma StoreEquivalence(ans: Oracle, b: Build, w: World, before: seq<Cmd>, bytes: seq<byte>, after: seq<Cmd>,
                         c: nat, cfg: ClientCfg, host: seq<byte>)
    requires forall i :: 0 <= i < |after| ==> !TouchesStore(after[i])
    requires cfg.useGlobalStore
    requires var w1 := Run(ans, b, w, before); SetStore(ans, w1.trace, w1.store, Some(bytes)).2 == EspOk
    ensures var w2 := Run(ans, b, w, before + ([SetStoreCmd(Some(bytes))] + after));
            var direct := cfg.(useGlobalStore := false, cacert := Some(bytes));
            Step(ans, b, w2, CreateCmd(c, AsClient(cfg, host)))
            == Step(ans, b, w2, CreateCmd(c, AsClient(direct, host)))
  {
    StoreHoldsLastSet(ans, b, w, before, bytes, after);
    var w2 := Run(ans, b, w, before + ([SetStoreCmd(Some(bytes))] + after));
    var direct := cfg.(useGlobalStore := false, cacert := Some(bytes));
    if c < |w2.conns| {
      SameCreate(ans, b, w2.trace, w2.conns[c], cfg, direct, host, bytes);
    }
  }
}

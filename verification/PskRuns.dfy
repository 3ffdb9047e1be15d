/** The PSK protocol over whole runs: the lock never stays behind, and whose credentials a handshake
    hands out. */
module PskRuns {
  import opened Platform
  import opened Ledger
  import opened Program
  import opened Config
  import opened Trust
  import opened Lifecycle
  import opened Moves
  import opened Worlds
  import opened Runs
  import opened PskLock
  import opened PskWrites

  /** Create and the PSK lock.  It times out exactly if it gets to asking for a lock that is taken; any
      failure leaves the lock free; success with PSK leaves it held with exactly the configured credentials
      stored; success without PSK leaves lock and credentials as they were.  On any outcome the stored pair
      is the one this create wrote, if it wrote one, or else the one stored before. */
  lemma CreatePsk(ans: Oracle, b: Build, t: Trace, c: Conn, peer: Peer, store: Option<seq<byte>>)
    requires Lawful(t) && ConnOk(Live(t), c)
    ensures var (t1, c1, err) := CreateOn(ans, b, t, c, peer, store);
            && (err == Timeout <==> TimesOut(ans, b, t, peer))
            && (err != EspOk ==> !Taken(t1))
            && LastCreds(t1) == Latest(LastCreds(t), CreateWrite(ans, b, t, c, peer, store))
            && (err == EspOk ==>
                  if peer.AsClient? && ChosenSource(b, peer.client, store).Some?
                     && ChosenSource(b, peer.client, store).value.SharedKey? then
                    var s := ChosenSource(b, peer.client, store).value;
                    && Taken(t1) && LastCreds(t1) == Creds(s.hint, s.key)
                    && Registered(t1, c1.ctx) && AtRest(t1)
                  else Taken(t1) == Taken(t) && LastCreds(t1) == LastCreds(t))
  {
    var m1, p := CreateCases(ans, b, t, c, peer, store);
    InitCall(ans, t, c);
    CreateMoves(ans, b, t, c, peer, store);
    CreateWritten(ans, b, t, c, peer, store);
    CreateTimesOut(ans, b, t, c, peer, store);
    match peer
    case AsClient(cfg, host) => ClientPskEffect(ans, m1, b, cfg, host, store, LockExists(t), c.fd);
    case AsServer(cfg) =>
      ServerCalm(b, cfg, c.fd);
      CalmExec(ans, m1, p);
    case BadRole =>
  }

  /** Nobody is locked out: whatever failed, timeouts included, the next attempt on any connection gets
      past the lock. */
  lemma NextAttemptGetsTheLock(ans: Oracle, b: Build, w: World, cmd: Cmd, peer: Peer, c: nat)
    requires Sound(w) && cmd.CreateCmd? && cmd.c < |w.conns| && c < |w.conns|
    requires CreateOn(ans, b, w.trace, w.conns[cmd.c], cmd.peer, StoredBytes(w.store)).2 != EspOk
    ensures var w1 := Step(ans, b, w, cmd);
            CreateOn(ans, b, w1.trace, w1.conns[c], peer, StoredBytes(w1.store)).2 != Timeout
  {
    CreatePsk(ans, b, w.trace, w.conns[cmd.c], cmd.peer, StoredBytes(w.store));
    StepSound(ans, b, w, cmd);
    var w1 := Step(ans, b, w, cmd);
    CreatePsk(ans, b, w1.trace, w1.conns[c], peer, StoredBytes(w1.store));
  }

  lemma HandingOut(ans: Oracle, m: Machine, hand: Op)
    requires hand.Deliver?
    ensures var m1 := Issue(ans, Issue(ans, m, hand), GiveLock);
            && !Taken(m1.trace) && |m1.trace| == |m.trace| + 2
            && Ops(m1.trace[|m.trace|..]) == [hand, GiveLock] && m1.trace[|m.trace|].on == m.ssl
  {
    var m1 := Issue(ans, m, hand);
    Snoc(m1.trace, Event(GiveLock, 0, Answer(ans, m1.trace, GiveLock)));
  }

  /** The callback either declines, touching nothing, exactly when a buffer is too small; or hands out
      the stored identity and key and gives the lock back. */
  lemma CallbackHandsOut(ans: Oracle, m: Machine, buf: Buffers)
    requires MayCall(m)
    ensures var (m1, n) := PskCallback(ans, m, buf);
            var c := LastCreds(m.trace);
            if |c.hint| + 1 <= buf.idMax && |c.key| <= buf.keyMax then
              && n == |c.key| && n > 0 && !Taken(m1.trace)
              && Ops(m1.trace[|m.trace|..]) == [Deliver(c.hint, c.key), GiveLock]
              && m1.trace[|m.trace|].on == m.ssl
            else n == 0 && m1 == m
  {
    var i :| 0 <= i < |m.trace| && m.trace[i].op.SetPskCallback? && m.trace[i].on == m.ctx;
    RegisteredNeedsLock(m.trace, i);
    var c := LastCreds(m.trace);
    HandingOut(ans, m, Deliver(c.hint, c.key));
  }

  lemma StepGrows(ans: Oracle, b: Build, w: World, cmd: Cmd)
    requires Sound(w)
    ensures w.trace <= Step(ans, b, w, cmd).trace
  {
    match cmd
    case SetStoreCmd(buf) => SetStoreSound(ans, w, buf);
    case FreeStoreCmd => FreeStoreSound(ans, w);
    case _ =>
      if cmd.c < |w.conns| {
        StepConnInit(ans, b, w.trace, w.conns[cmd.c], StoredBytes(w.store), cmd);
      }
  }

  lemma {:induction false} RunGrows(ans: Oracle, b: Build, w: World, cmds: seq<Cmd>)
    requires Sound(w)
    ensures w.trace <= Run(ans, b, w, cmds).trace
    decreases |cmds|
  {
    if cmds != [] {
      var w1 := Step(ans, b, w, cmds[0]);
      StepGrows(ans, b, w, cmds[0]);
      StepSound(ans, b, w, cmds[0]);
      RunGrows(ans, b, w1, cmds[1..]);
    }
  }

  /** Without a release there is no new write, whatever the run does. */
  lemma {:induction false} CredsSurvive(t: Trace, t1: Trace)
    requires Lawful(t1) && t <= t1 && Taken(t) && AtRest(t)
    requires forall k :: |t| <= k < |t1| ==> !t1[k].op.GiveLock?
    ensures LastCreds(t1) == LastCreds(t) && Taken(t1) && AtRest(t1)
    decreases |t1|
  {
    if |t| == |t1| {
      assert t == t1;
    } else {
      var s := t1[..|t1| - 1];
      assert forall k :: |t| <= k < |s| ==> s[k] == t1[k];
      CredsSurvive(t, s);
    }
  }

  /** From call boundary to call boundary, no GiveLock. */
  ghost predicate NoRelease(t: Trace, t1: Trace) {
    forall k :: |t| <= k < |t1| ==> !t1[k].op.GiveLock?
  }

  /** While the lock is held and not given back, nothing is written. */
  lemma {:induction false} NoWriteWithoutRelease(ans: Oracle, b: Build, w: World, cmds: seq<Cmd>)
    requires Sound(w) && Taken(w.trace) && AtRest(w.trace)
    requires NoRelease(w.trace, Run(ans, b, w, cmds).trace)
    ensures LastWrite(ans, b, w, cmds) == None
    decreases |cmds|
  {
    if cmds != [] {
      var w1 := Step(ans, b, w, cmds[0]);
      var w2 := Run(ans, b, w1, cmds[1..]);
      StepSound(ans, b, w, cmds[0]);
      StepGrows(ans, b, w, cmds[0]);
      RunGrows(ans, b, w1, cmds[1..]);
      assert forall k :: |w.trace| <= k < |w1.trace| ==> w1.trace[k] == w2.trace[k];
      CredsSurvive(w.trace, w1.trace);
      NoWriteWithoutRelease(ans, b, w1, cmds[1..]);
      if cmds[0].CreateCmd? && cmds[0].c < |w.conns| {
        CreateWritesWhen(ans, b, w.trace, w.conns[cmds[0].c], cmds[0].peer, StoredBytes(w.store));
      }
    }
  }

  /** The callback declines, touching nothing, exactly when the pair does not fit; or hands out the pair. */
  ghost predicate HandsOut(ans: Oracle, m: Machine, buf: Buffers, c: Creds) {
    var (m1, n) := PskCallback(ans, m, buf);
    if |c.hint| + 1 <= buf.idMax && |c.key| <= buf.keyMax then
      n == |c.key| && n > 0 && Ops(m1.trace[|m.trace|..]) == [Deliver(c.hint, c.key), GiveLock]
    else n == 0 && m1 == m
  }

  /** A callback for connection `d`, after the callbacks `earlier` of the same handshake. */
  function AtCallback(ans: Oracle, w: World, d: nat, earlier: seq<Buffers>): Machine
    requires d < |w.conns|
  {
    PskCallbacks(ans, MachineOf(w.trace, w.conns[d]), earlier)
  }

  lemma {:induction false} StillCallable(ans: Oracle, m: Machine, earlier: seq<Buffers>)
    requires MayCall(m)
    ensures MayCall(PskCallbacks(ans, m, earlier))
    decreases |earlier|
  {
    if earlier != [] {
      CallbackMoves(ans, m, earlier[0]);
      StillCallable(ans, PskCallback(ans, m, earlier[0]).0, earlier[1..]);
    }
  }

  /** Any callback, for any connection that may run it, after any run, concerns the pair written last. */
  lemma LastWrittenIsHandedOut(ans: Oracle, b: Build, w: World, cmds: seq<Cmd>, d: nat,
                               earlier: seq<Buffers>, buf: Buffers)
    requires Sound(w) && d < |w.conns|
    ensures var w1 := Run(ans, b, w, cmds);
            && d < |w1.conns|
            && (MayCall(MachineOf(w1.trace, w1.conns[d])) ==>
                  HandsOut(ans, AtCallback(ans, w1, d, earlier), buf,
                           Latest(LastCreds(w.trace), LastWrite(ans, b, w, cmds))))
  {
    RunSound(ans, b, w, cmds);
    RunWritten(ans, b, w, cmds);
    var w1 := Run(ans, b, w, cmds);
    var m := MachineOf(w1.trace, w1.conns[d]);
    if MayCall(m) {
      CallbacksMove(ans, m, earlier);
      StillCallable(ans, m, earlier);
      CallbackHandsOut(ans, PskCallbacks(ans, m, earlier), buf);
    }
  }

  /** PSK over runs.  Connection `c` was configured with PSK credentials `s`; then anything happened.
      Whichever connection `d` the callback runs for, it concerns the pair last written since, or that of
      `s` if none was; and none was if the lock was not given back. */
  lemma LastConfiguredIsHandedOut(ans: Oracle, b: Build, w: World, c: nat, peer: Peer, s: Source,
                                  cmds: seq<Cmd>, d: nat, earlier: seq<Buffers>, buf: Buffers)
    requires Sound(w) && c < |w.conns| && d < |w.conns| && peer.AsClient?
    requires ChosenSource(b, peer.client, StoredBytes(w.store)) == Some(s) && s.SharedKey?
    requires CreateOn(ans, b, w.trace, w.conns[c], peer, StoredBytes(w.store)).2 == EspOk
    ensures var w1 := Step(ans, b, w, CreateCmd(c, peer));
            var w2 := Run(ans, b, w1, cmds);
            && d < |w2.conns|
            && (MayCall(MachineOf(w2.trace, w2.conns[d])) ==>
                  HandsOut(ans, AtCallback(ans, w2, d, earlier), buf,
                           Latest(Creds(s.hint, s.key), LastWrite(ans, b, w1, cmds))))
            && (NoRelease(w1.trace, w2.trace) ==> LastWrite(ans, b, w1, cmds) == None)
  {
    CreatePsk(ans, b, w.trace, w.conns[c], peer, StoredBytes(w.store));
    var w1 := Step(ans, b, w, CreateCmd(c, peer));
    StepSound(ans, b, w, CreateCmd(c, peer));
    LastWrittenIsHandedOut(ans, b, w1, cmds, d, earlier, buf);
    if NoRelease(w1.trace, Run(ans, b, w1, cmds).trace) {
      NoWriteWithoutRelease(ans, b, w1, cmds);
    }
  }

  lemma OtherDelivery(c: Creds, d: Creds)
    ensures [Deliver(c.hint, c.key), GiveLock] == [Deliver(d.hint, d.key), GiveLock] <==> c == d
  {
    assert [Deliver(c.hint, c.key), GiveLock][0] == Deliver(c.hint, c.key);
    assert [Deliver(d.hint, d.key), GiveLock][0] == Deliver(d.hint, d.key);
  }

  /** The PSK round trip, exactly: a callback for `c` that does not decline hands out what `c` was
      configured with if and only if the last pair written since, by whichever create, is the same, or
      none was written.  `CreateWritesWhen` says of each create, before it is called, whether it writes. */
  lemma OwnCredentialsExactly(ans: Oracle, b: Build, w: World, c: nat, peer: Peer, s: Source,
                              cmds: seq<Cmd>, earlier: seq<Buffers>, buf: Buffers)
    requires Sound(w) && c < |w.conns| && peer.AsClient?
    requires ChosenSource(b, peer.client, StoredBytes(w.store)) == Some(s) && s.SharedKey?
    requires CreateOn(ans, b, w.trace, w.conns[c], peer, StoredBytes(w.store)).2 == EspOk
    ensures var w1 := Step(ans, b, w, CreateCmd(c, peer));
            var w2 := Run(ans, b, w1, cmds);
            && c < |w2.conns|
            && (MayCall(MachineOf(w2.trace, w2.conns[c])) ==>
                  var m := AtCallback(ans, w2, c, earlier);
                  var (m1, n) := PskCallback(ans, m, buf);
                  var last := LastWrite(ans, b, w1, cmds);
                  n != 0 ==>
                    (Ops(m1.trace[|m.trace|..]) == [Deliver(s.hint, s.key), GiveLock]
                     <==> last == None || last == Some(Creds(s.hint, s.key))))
  {
    LastConfiguredIsHandedOut(ans, b, w, c, peer, s, cmds, c, earlier, buf);
    var last := LastWrite(ans, b, Step(ans, b, w, CreateCmd(c, peer)), cmds);
    OtherDelivery(Latest(Creds(s.hint, s.key), last), Creds(s.hint, s.key));
  }

  /** A callback that does not decline ends by giving the mutex back, and finds it taken if and only if it
      was taken when the callback started. */
  lemma CallbackGivesBack(ans: Oracle, m: Machine, buf: Buffers)
    requires PskCallback(ans, m, buf).1 != 0
    ensures var t := PskCallback(ans, m, buf).0.trace;
            && |t| > |m.trace| && t[|t| - 1].op.GiveLock?
            && (Taken(t[..|t| - 1]) <==> Taken(m.trace))
  {
    var c := LastCreds(m.trace);
    var hand := Issue(ans, m, Deliver(c.hint, c.key));
    CalmIssue(ans, m, Deliver(c.hint, c.key));
    assert Issue(ans, hand, GiveLock).trace[..|hand.trace|] == hand.trace;
  }

  /** One input of this kind: the callback runs twice in one handshake, and its first run released. */
  lemma SecondCallbackGivesFreeMutex(ans: Oracle, m: Machine, first: Buffers, second: Buffers)
    requires MayCall(m)
    requires PskCallback(ans, m, first).1 != 0
    requires PskCallback(ans, PskCallback(ans, m, first).0, second).1 != 0
    ensures var t := PskCallbacks(ans, m, [first, second]).trace;
            |t| > 0 && t[|t| - 1].op.GiveLock? && !Taken(t[..|t| - 1])
  {
    var m1 := PskCallback(ans, m, first).0;
    CallbackHandsOut(ans, m, first);
    CallbackGivesBack(ans, m1, second);
    var m2 := PskCallback(ans, m1, second).0;
    assert [first, second][1..] == [second] && [second][1..] == [];
    assert PskCallbacks(ans, m2, []) == m2;
    assert PskCallbacks(ans, m1, [second]) == m2;
  }

  // ----- why the lock must not be given back in between

  /** A program that succeeds when everything the library is asked succeeds. */
  predicate Good(p: seq<Instr>, free: bool) {
    p == [] ||
    (p[0].Do? && !p[0].op.SocketConnect? && (p[0].op.TakeLock? ==> free) && Good(p[1..], free && !p[0].op.TakeLock?))
  }

  lemma {:induction false} GoodExec(ans: Oracle, m: Machine, p: seq<Instr>, free: bool)
    requires (forall n: nat :: ans(n) == 1) && Good(p, free) && (free ==> !Taken(m.trace))
    ensures Exec(ans, m, p).1 == EspOk
    decreases |p|
  {
    if p != [] {
      var op := p[0].op;
      Snoc(m.trace, Event(op, Operand(m, op), Answer(ans, m.trace, op)));
      GoodExec(ans, Issue(ans, m, op), p[1..], free && !op.TakeLock?);
    }
  }

  /** PSK and nothing else. */
  function PskOnly(hint: cstring, key: seq<byte>): Peer {
    AsClient(ClientCfg(false, false, None, Some(PskHintKey(Some(key), Some(hint))), None, None, true, None, None), [])
  }

  const PSK_BUILD := Build(true, false, true, false, false, false, true, false, true, false)

  lemma PskOnlyIsGood(hint: cstring, key: seq<byte>, fd: int)
    requires 0 < |key| <= PSK_MAX_KEY_LEN && |hint| < PSK_BUILD.IdMax()
    ensures Good(ProgramFor(PSK_BUILD, PskOnly(hint, key), None, true, fd), true)
  {
    var p := ProgramFor(PSK_BUILD, PskOnly(hint, key), None, true, fd);
    assert p == [Do(CtxNew(false, false), CtxSetupFailed), Do(TakeLock, Timeout), Do(StoreCreds(hint, key), EspFail),
                 Do(SetPskCallback, EspFail), Do(SetCipherList(CipherList(PSK_BUILD)), EspFail),
                 Do(SslNew, SslSetupFailed), Do(SetFd(fd), EspFail)];
    assert p[1..][1..] == p[2..] && p[2..][1..] == p[3..] && p[3..][1..] == p[4..] && p[4..][1..] == p[5..];
    assert p[5..][1..] == p[6..] && p[6..][1..] == [];
    assert Good(p[6..], false) && Good(p[5..], false);
    assert Good(p[4..], false) && Good(p[3..], false);
    assert Good(p[2..], false) && Good(p[1..], true);
  }

  /** With a helpful library and a free lock, a PSK-only connection is set up. */
  lemma PskOnlySucceeds(ans: Oracle, t: Trace, c: Conn, hint: cstring, key: seq<byte>)
    requires (forall n: nat :: ans(n) == 1) && Lawful(t) && ConnOk(Live(t), c)
    requires !Taken(t) && LockExists(t)
    requires 0 < |key| <= PSK_MAX_KEY_LEN && |hint| < PSK_BUILD.IdMax()
    ensures var (t1, c1, err) := CreateOn(ans, PSK_BUILD, t, c, PskOnly(hint, key), None);
            && err == EspOk && Taken(t1) && Registered(t1, c1.ctx) && t <= t1
  {
    var m1, p := CreateCases(ans, PSK_BUILD, t, c, PskOnly(hint, key), None);
    InitCall(ans, t, c);
    PskOnlyIsGood(hint, key, c.fd);
    GoodExec(ans, m1, p, true);
    CreatePsk(ans, PSK_BUILD, t, c, PskOnly(hint, key), None);
    CreateKeeps(ans, PSK_BUILD, t, c, PskOnly(hint, key), None);
  }

  /** Connection 0 waits for its handshake, and the lock is free. */
  ghost predicate Waiting(w: World) {
    && Sound(w) && |w.conns| == 3 && w.store.None? && !Taken(w.trace) && LockExists(w.trace)
    && w.conns[0].ctx != 0 && Registered(w.trace, w.conns[0].ctx)
  }

  lemma BootReady()
    ensures var w := Boot(3, 1); Sound(w) && !Taken(w.trace) && LockExists(w.trace)
  {
    BootSound(3, 1);
    Snoc([], Event(CreateMutex, 0, 1));
    assert [] + [Event(CreateMutex, 0, 1)] == [Event(CreateMutex, 0, 1)];
  }

  /** What a step for connection `c` leaves as it was. */
  ghost predicate StepOf(w: World, c: nat, w1: World) {
    && Sound(w1) && w.trace <= w1.trace && c < |w.conns| == |w1.conns|
    && w1.store == w.store && w1.conns == w.conns[c := w1.conns[c]]
    && (LockExists(w.trace) ==> LockExists(w1.trace))
  }

  lemma PskStep(ans: Oracle, w: World, c: nat, hint: cstring, key: seq<byte>)
    requires (forall n: nat :: ans(n) == 1) && Sound(w) && c < |w.conns| && w.store.None?
    requires !Taken(w.trace) && LockExists(w.trace)
    requires 0 < |key| <= PSK_MAX_KEY_LEN && |hint| < PSK_BUILD.IdMax()
    ensures CreateOn(ans, PSK_BUILD, w.trace, w.conns[c], PskOnly(hint, key), None).2 == EspOk
    ensures var w1 := Step(ans, PSK_BUILD, w, CreateCmd(c, PskOnly(hint, key)));
            StepOf(w, c, w1) && Registered(w1.trace, w1.conns[c].ctx) && w1.conns[c].ctx != 0
  {
    StepSound(ans, PSK_BUILD, w, CreateCmd(c, PskOnly(hint, key)));
    PskOnlySucceeds(ans, w.trace, w.conns[c], hint, key);
    CreateMoves(ans, PSK_BUILD, w.trace, w.conns[c], PskOnly(hint, key), None);
  }

  lemma DeleteStep(ans: Oracle, w: World, c: nat)
    requires Sound(w) && c < |w.conns|
    ensures var w1 := Step(ans, PSK_BUILD, w, DeleteCmd(c)); StepOf(w, c, w1) && !Taken(w1.trace)
  {
    StepSound(ans, PSK_BUILD, w, DeleteCmd(c));
    DeleteMoves(ans, w.trace, w.conns[c]);
  }

  lemma ForeignDelete(ans: Oracle, w0: World, w1: World, w2: World, hint: cstring, key: seq<byte>)
    requires (forall n: nat :: ans(n) == 1) && w0 == Boot(3, 1)
    requires 0 < |key| <= PSK_MAX_KEY_LEN && |hint| < PSK_BUILD.IdMax()
    requires w1 == Step(ans, PSK_BUILD, w0, CreateCmd(0, PskOnly(hint, key)))
    requires w2 == Step(ans, PSK_BUILD, w1, DeleteCmd(1))
    ensures Waiting(w2)
  {
    BootReady();
    PskStep(ans, w0, 0, hint, key);
    DeleteStep(ans, w1, 1);
    StaysRegistered(w1.trace, w2.trace, w1.conns[0].ctx);
  }

  lemma StayCallable(w: World, w1: World, c: nat)
    requires Sound(w1) && w.trace <= w1.trace && c < |w.conns| == |w1.conns| && w1.conns[c] == w.conns[c]
    requires w.conns[c].ctx != 0 && Registered(w.trace, w.conns[c].ctx)
    ensures MayCall(MachineOf(w1.trace, w1.conns[c]))
  {
    StaysRegistered(w.trace, w1.trace, w.conns[c].ctx);
    assert ConnOk(Live(w1.trace), w1.conns[c]);
  }

  lemma ForeignSetup(ans: Oracle, w2: World, w3: World, hint: cstring, key: seq<byte>)
    requires (forall n: nat :: ans(n) == 1) && Waiting(w2)
    requires 0 < |key| <= PSK_MAX_KEY_LEN && |hint| < PSK_BUILD.IdMax()
    requires w3 == Step(ans, PSK_BUILD, w2, CreateCmd(2, PskOnly(hint, key)))
    ensures |w3.conns| == 3
    ensures var m := MachineOf(w3.trace, w3.conns[0]);
            var (m1, n) := PskCallback(ans, m, Buffers(128, 64));
            MayCall(m) && n == |key| && Ops(m1.trace[|m.trace|..]) == [Deliver(hint, key), GiveLock]
  {
    PskStep(ans, w2, 2, hint, key);
    StayCallable(w2, w3, 0);
    LastConfiguredIsHandedOut(ans, PSK_BUILD, w2, 2, PskOnly(hint, key), SharedKey(hint, key), [], 0, [],
                              Buffers(128, 64));
  }

  /** The lock is global, not the connection's: connection 0 sets up PSK and waits for its handshake;
      deleting connection 1, which was never configured, gives the lock back; connection 2 sets up its
      own PSK; then the handshake of connection 0 hands out the identity and key of connection 2. */
  lemma ForeignCredentials(hint: cstring, key: seq<byte>, hint': cstring, key': seq<byte>)
    requires 0 < |key| <= PSK_MAX_KEY_LEN && |hint| < PSK_BUILD.IdMax()
    requires 0 < |key'| <= PSK_MAX_KEY_LEN && |hint'| < PSK_BUILD.IdMax()
    ensures var ans: Oracle := (n: nat) => 1;
            var w := Run(ans, PSK_BUILD, Boot(3, 1),
                         [CreateCmd(0, PskOnly(hint, key)), DeleteCmd(1), CreateCmd(2, PskOnly(hint', key'))]);
            && |w.conns| == 3
            && var m := MachineOf(w.trace, w.conns[0]);
               var (m1, n) := PskCallback(ans, m, Buffers(128, 64));
               MayCall(m) && n == |key'| && Ops(m1.trace[|m.trace|..]) == [Deliver(hint', key'), GiveLock]
  {
    var ans: Oracle := (n: nat) => 1;
    var (a, d, e) := (CreateCmd(0, PskOnly(hint, key)), DeleteCmd(1), CreateCmd(2, PskOnly(hint', key')));
    var w0 := Boot(3, 1);
    var w1 := Step(ans, PSK_BUILD, w0, a);
    var w2 := Step(ans, PSK_BUILD, w1, d);
    var w3 := Step(ans, PSK_BUILD, w2, e);
    assert Run(ans, PSK_BUILD, w0, [a, d, e]) == w3 by {
      assert [a, d, e][1..] == [d, e] && [d, e][1..] == [e] && [e][1..] == [];
      assert Run(ans, PSK_BUILD, w2, [e]) == w3;
      assert Run(ans, PSK_BUILD, w1, [d, e]) == w3;
    }
    ForeignDelete(ans, w0, w1, w2, hint, key);
    ForeignSetup(ans, w2, w3, hint', key');
  }

  /** ... and hands out what connection 0 was configured with. */
  lemma DeletedStillHandsOut(ans: Oracle, w0: World, w1: World, w2: World, hint: cstring, key: seq<byte>)
    requires Sound(w0) && |w0.conns| == 3 && w0.store.None? && Waiting(w2)
    requires 0 < |key| <= PSK_MAX_KEY_LEN && |hint| < PSK_BUILD.IdMax()
    requires CreateOn(ans, PSK_BUILD, w0.trace, w0.conns[0], PskOnly(hint, key), None).2 == EspOk
    requires w1 == Step(ans, PSK_BUILD, w0, CreateCmd(0, PskOnly(hint, key)))
    requires w2 == Step(ans, PSK_BUILD, w1, DeleteCmd(1))
    ensures PskCallback(ans, MachineOf(w2.trace, w2.conns[0]), Buffers(128, 64)).1 == |key|
  {
    assert [DeleteCmd(1)][1..] == [];
    assert Run(ans, PSK_BUILD, w1, [DeleteCmd(1)]) == w2;
    assert LastWrite(ans, PSK_BUILD, w1, [DeleteCmd(1)]) == None;
    StayCallable(w2, w2, 0);
    LastConfiguredIsHandedOut(ans, PSK_BUILD, w0, 0, PskOnly(hint, key), SharedKey(hint, key), [DeleteCmd(1)], 0, [],
                              Buffers(128, 64));
  }

  /** Another: from boot, connection 0 sets up PSK, connection 1, which was never configured, is deleted,
      and the first and only callback of connection 0 gives back a mutex that is free. */
  lemma ForeignDeleteGivesFreeMutex(hint: cstring, key: seq<byte>)
    requires 0 < |key| <= PSK_MAX_KEY_LEN && |hint| < PSK_BUILD.IdMax()
    ensures var ans: Oracle := (n: nat) => 1;
            var w := Run(ans, PSK_BUILD, Boot(3, 1), [CreateCmd(0, PskOnly(hint, key)), DeleteCmd(1)]);
            && |w.conns| == 3
            && var (m1, n) := PskCallback(ans, MachineOf(w.trace, w.conns[0]), Buffers(128, 64));
               && n == |key| && |m1.trace| > 0
               && m1.trace[|m1.trace| - 1].op.GiveLock? && !Taken(m1.trace[..|m1.trace| - 1])
  {
    var ans: Oracle := (n: nat) => 1;
    var (a, d) := (CreateCmd(0, PskOnly(hint, key)), DeleteCmd(1));
    var w0 := Boot(3, 1);
    var w1 := Step(ans, PSK_BUILD, w0, a);
    var w2 := Step(ans, PSK_BUILD, w1, d);
    assert Run(ans, PSK_BUILD, w0, [a, d]) == w2 by {
      assert [a, d][1..] == [d] && [d][1..] == [];
      assert Run(ans, PSK_BUILD, w1, [d]) == w2;
    }
    ForeignDelete(ans, w0, w1, w2, hint, key);
    BootReady();
    PskStep(ans, w0, 0, hint, key);
    DeletedStillHandsOut(ans, w0, w1, w2, hint, key);
    CallbackGivesBack(ans, MachineOf(w2.trace, w2.conns[0]), Buffers(128, 64));
  }
}

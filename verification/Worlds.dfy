/** What holds in every state the backend can reach, over any number of connections and any sequence
    of calls, whatever the outside world answers. */
module Worlds {
  import opened Platform
  import opened Ledger
  import opened Program
  import opened Config
  import opened Trust
  import opened Lifecycle
  import opened Ownership
  import opened Moves

  /** The global CA store's block is the only heap block alive. */
  ghost predicate StoreOk(live: Objects, store: Option<CaStore>) {
    && (store.Some? ==> Alive(live, store.value.at, HeapObject))
    && (forall h :: h in live && live[h].kind == HeapObject ==> store.Some? && h == store.value.at)
  }

  ghost predicate Apart(conns: seq<Conn>) {
    forall i, j :: 0 <= i < j < |conns| && conns[i].ctx != 0 ==> conns[i].ctx != conns[j].ctx
  }

  /** Every call made so far was lawful; every connection is in order and no two share a CTX; no
      temporary heap block is left. */
  ghost predicate Sound(w: World) {
    && Lawful(w.trace)
    && (forall i :: 0 <= i < |w.conns| ==> ConnOk(Live(w.trace), w.conns[i]))
    && Apart(w.conns)
    && StoreOk(Live(w.trace), w.store)
  }

  lemma BootSound(n: nat, mutexCreated: int)
    ensures Sound(Boot(n, mutexCreated)) && Live(Boot(n, mutexCreated).trace) == map[]
  {
    var e := Event(CreateMutex, 0, mutexCreated);
    Snoc([], e);
    assert [] + [e] == [e];
  }

  /** A move of one connection leaves the others in order. */
  lemma OtherConnOk(live: Objects, n: nat, c: Conn, live1: Objects, c1: Conn, d: Conn)
    requires MovedObjects(live, n, c, live1, c1) && Named(live, n) && ConnOk(live, c) && ConnOk(live, d)
    requires d.ctx != 0 ==> d.ctx != c.ctx
    ensures ConnOk(live1, d) && (d.ctx != 0 ==> d.ctx != c1.ctx)
  {
  }

  lemma MoveSound(w: World, c: nat, t1: Trace, c1: Conn)
    requires Sound(w) && c < |w.conns| && Moved(w.trace, w.conns[c], t1, c1)
    ensures Sound(w.(trace := t1, conns := w.conns[c := c1]))
  {
    LiveBound(w.trace);
    var conns := w.conns[c := c1];
    forall i | 0 <= i < |conns| && i != c
      ensures ConnOk(Live(t1), conns[i]) && (conns[i].ctx != 0 ==> conns[i].ctx != c1.ctx)
    {
      OtherConnOk(Live(w.trace), |w.trace|, w.conns[c], Live(t1), c1, w.conns[i]);
    }
  }

  lemma StepConnMoves(ans: Oracle, b: Build, t: Trace, c: Conn, store: Option<seq<byte>>, cmd: Cmd)
    requires Lawful(t) && ConnOk(Live(t), c) && !cmd.SetStoreCmd? && !cmd.FreeStoreCmd?
    ensures var (t1, c1) := StepConn(ans, b, t, c, store, cmd); Moved(t, c, t1, c1)
  {
    match cmd
    case CreateCmd(_, peer) => CreateMoves(ans, b, t, c, peer, store);
    case HandshakeCmd(_, bufs) => HandshakeMoves(ans, t, c, bufs);
    case ServerSessionCmd(_, cfg, fd, patience) => SessionMoves(ans, b, t, c, cfg, fd, patience);
    case DeleteCmd(_) => DeleteMoves(ans, t, c);
  }

  // ----- the store

  /** Replacing or freeing the store frees its block, once, and allocates at most one. */
  lemma FreeStoreSound(ans: Oracle, w: World)
    requires Sound(w)
    ensures var t1 := FreeStore(w.trace, ans, w.store);
            && Sound(w.(trace := t1, store := None)) && Quiet(w.trace, t1)
            && (if w.store.None? then t1 == w.trace
                else |t1| == |w.trace| + 1 && t1[|w.trace|].op.HeapFree? && t1[|w.trace|].on == w.store.value.at)
            && (forall h :: h in Live(t1) <==> h in Live(w.trace) && Live(w.trace)[h].kind != HeapObject)
  {
    if w.store.Some? {
      var e := Event(HeapFree, w.store.value.at, Answer(ans, w.trace, HeapFree));
      LiveBound(w.trace);
      Snoc(w.trace, e);
      forall h ensures Settings(w.trace + [e], h) == Settings(w.trace, h) {
        SettingsSnoc(w.trace, e, h);
      }
    }
  }

  lemma AllocateSound(w: World, e: Event, bytes: seq<byte>)
    requires Sound(w) && w.store.None? && e.op.Malloc? && e.on == 0
    ensures var t1 := w.trace + [e];
            && Sound(World(t1, w.conns, if Ok(e.op, e.ret) then Some(CaStore(|t1|, bytes)) else None))
            && Quiet(w.trace, t1)
            && (forall h :: h in Live(t1) && Live(t1)[h].kind != HeapObject <==> h in Live(w.trace))
  {
    LiveBound(w.trace);
    Snoc(w.trace, e);
    forall h ensures Settings(w.trace + [e], h) == Settings(w.trace, h) {
      SettingsSnoc(w.trace, e, h);
    }
  }

  /** What setting the store does: without a buffer nothing; otherwise the old block is freed first, and then one
      block is asked for, the bytes and a NUL long.  It succeeds exactly if that is had. */
  lemma SetStoreOutcome(ans: Oracle, t: Trace, store: Option<CaStore>, buf: Option<seq<byte>>)
    ensures var (t1, store1, err) := SetStore(ans, t, store, buf);
            if buf.None? then t1 == t && store1 == store && err == InvalidArg
            else
              var n := if store.Some? then |t| + 1 else |t|;
              && |t1| == n + 1 && t1[..|t|] == t
              && (store.Some? ==> t1[|t|].op == HeapFree && t1[|t|].on == store.value.at)
              && t1[n].op == Malloc(|buf.value| + 1)
              && (err == EspOk <==> t1[n].ret != 0) && (err == NoMem <==> t1[n].ret == 0)
              && store1 == if err == EspOk then Some(CaStore(n + 1, buf.value)) else None
  {
    if buf.Some? {
      var t1 := FreeStore(t, ans, store);
      assert t1[..|t|] == t;
      assert SetStore(ans, t, store, buf).0[..|t|] == t1[..|t|];
    }
  }

  lemma SetStoreSound(ans: Oracle, w: World, buf: Option<seq<byte>>)
    requires Sound(w)
    ensures var (t1, store, err) := SetStore(ans, w.trace, w.store, buf);
            && Sound(w.(trace := t1, store := store)) && Quiet(w.trace, t1)
            && (forall h :: h in Live(t1) && Live(t1)[h].kind != HeapObject
                  <==> h in Live(w.trace) && Live(w.trace)[h].kind != HeapObject)
  {
    if buf.Some? {
      FreeStoreSound(ans, w);
      var w1 := w.(trace := FreeStore(w.trace, ans, w.store), store := None);
      var op := Malloc(|buf.value| + 1);
      var e := Event(op, 0, Answer(ans, w1.trace, op));
      AllocateSound(w1, e, buf.value);
      QuietTrans(w.trace, w1.trace, w1.trace + [e]);
    }
  }

  // ----- every run is sound

  lemma StepSound(ans: Oracle, b: Build, w: World, cmd: Cmd)
    requires Sound(w)
    ensures Sound(Step(ans, b, w, cmd)) && |Step(ans, b, w, cmd).conns| == |w.conns|
  {
    match cmd
    case SetStoreCmd(buf) => SetStoreSound(ans, w, buf);
    case FreeStoreCmd => FreeStoreSound(ans, w);
    case _ =>
      if cmd.c < |w.conns| {
        StepConnMoves(ans, b, w.trace, w.conns[cmd.c], StoredBytes(w.store), cmd);
        var (t1, c1) := StepConn(ans, b, w.trace, w.conns[cmd.c], StoredBytes(w.store), cmd);
        MoveSound(w, cmd.c, t1, c1);
      }
  }

  /** Safety of every run: no call on a dead object, nothing freed twice, no SSL outliving its CTX, the
      mutex used only if it exists, the PSK buffers rewritten only by the holder of the lock.  This
      needs no discipline of the caller at all. */
  lemma {:induction false} RunSound(ans: Oracle, b: Build, w: World, cmds: seq<Cmd>)
    requires Sound(w)
    ensures Sound(Run(ans, b, w, cmds)) && |Run(ans, b, w, cmds).conns| == |w.conns|
    decreases |cmds|
  {
    if cmds != [] {
      StepSound(ans, b, w, cmds[0]);
      RunSound(ans, b, Step(ans, b, w, cmds[0]), cmds[1..]);
    }
  }

  /** From boot: in the whole trace no object is used or freed after it was freed, and every connection
      has both its objects, alive, or neither. */
  lemma EveryRunIsSafe(ans: Oracle, b: Build, n: nat, mutexCreated: int, cmds: seq<Cmd>)
    ensures var w := Run(ans, b, Boot(n, mutexCreated), cmds);
            && Sound(w) && |w.conns| == n
            && (forall i, j :: 0 <= i < j < |w.trace| && Destroys(w.trace[i].op) && WorksOn(w.trace[j].op) != NoObject
                  ==> w.trace[i].on != w.trace[j].on)
            && (forall c :: 0 <= c < n ==>
                  && (w.conns[c].ctx != 0 <==> w.conns[c].ssl != 0)
                  && (w.conns[c].ctx != 0 ==>
                        Is(w.trace, w.conns[c].ctx, CtxObject) && Is(w.trace, w.conns[c].ssl, SslObject)))
  {
    BootSound(n, mutexCreated);
    RunSound(ans, b, Boot(n, mutexCreated), cmds);
    var w := Run(ans, b, Boot(n, mutexCreated), cmds);
    forall i, j | 0 <= i < j < |w.trace| && Destroys(w.trace[i].op) && WorksOn(w.trace[j].op) != NoObject
      ensures w.trace[i].on != w.trace[j].on
    {
      NoUseAfterFree(w.trace, i, j);
    }
  }

  lemma {:induction false} RunAppend(ans: Oracle, b: Build, w: World, cmds: seq<Cmd>, more: seq<Cmd>)
    ensures Run(ans, b, w, cmds + more) == Run(ans, b, Run(ans, b, w, cmds), more)
    decreases |cmds|
  {
    if cmds == [] {
      assert cmds + more == more;
    } else {
      assert (cmds + more)[1..] == cmds[1..] + more;
      RunAppend(ans, b, Step(ans, b, w, cmds[0]), cmds[1..], more);
    }
  }

  // ----- conservation of handles

  /** Some connection or the store answers for this object. */
  ghost predicate Claimed(w: World, h: nat) {
    || (exists i :: 0 <= i < |w.conns| && Owned(w.conns[i], h))
    || (w.store.Some? && h == w.store.value.at)
  }

  /** The objects alive are exactly the ones stored in connection fields and in the store. */
  ghost predicate Conserved(w: World) {
    forall h :: h in Live(w.trace) <==> Claimed(w, h)
  }

  /** The caller creates only on connections that are not open. */
  predicate Disciplined(w: World, cmd: Cmd) {
    (cmd.CreateCmd? || cmd.ServerSessionCmd?) && cmd.c < |w.conns| ==> w.conns[cmd.c].ctx == 0
  }

  predicate DisciplinedRun(ans: Oracle, b: Build, w: World, cmds: seq<Cmd>)
    decreases |cmds|
  {
    cmds == [] || (Disciplined(w, cmds[0]) && DisciplinedRun(ans, b, Step(ans, b, w, cmds[0]), cmds[1..]))
  }

  lemma StepConnBalanced(ans: Oracle, b: Build, t: Trace, c: Conn, store: Option<seq<byte>>, cmd: Cmd)
    requires Lawful(t) && ConnOk(Live(t), c) && !cmd.SetStoreCmd? && !cmd.FreeStoreCmd?
    requires cmd.CreateCmd? || cmd.ServerSessionCmd? ==> c.ctx == 0
    ensures var (t1, c1) := StepConn(ans, b, t, c, store, cmd); Balanced(Live(t), c, Live(t1), c1)
  {
    match cmd
    case CreateCmd(_, peer) => CreateLeaksIff(ans, b, t, c, peer, store);
    case HandshakeCmd(_, bufs) => HandshakeMoves(ans, t, c, bufs);
    case ServerSessionCmd(_, cfg, fd, patience) =>
      CreateLeaksIff(ans, b, t, c.(fd := fd), AsServer(cfg), None);
      SessionMoves(ans, b, t, c, cfg, fd, patience);
      var (t0, c0, _) := CreateOn(ans, b, t, c.(fd := fd), AsServer(cfg), None);
      CreateMoves(ans, b, t, c.(fd := fd), AsServer(cfg), None);
    case DeleteCmd(_) => DeleteMoves(ans, t, c);
  }

  /** No object belongs to two connections, nor to a connection and the store. */
  lemma NotShared(w: World, i: nat, j: nat, h: nat)
    requires Sound(w) && i < |w.conns| && j < |w.conns| && Owned(w.conns[i], h)
    ensures i != j ==> !Owned(w.conns[j], h)
    ensures w.store.Some? ==> h != w.store.value.at
  {
  }

  lemma BalancedConserves(w: World, c: nat, t1: Trace, c1: Conn)
    requires Sound(w) && Conserved(w) && c < |w.conns|
    requires Moved(w.trace, w.conns[c], t1, c1) && Balanced(Live(w.trace), w.conns[c], Live(t1), c1)
    ensures Conserved(w.(trace := t1, conns := w.conns[c := c1]))
  {
    var w1 := w.(trace := t1, conns := w.conns[c := c1]);
    forall h ensures h in Live(t1) <==> Claimed(w1, h) {
      if h in Live(t1) {
        if Owned(c1, h) {
          assert Owned(w1.conns[c], h);
        } else if exists i :: 0 <= i < |w.conns| && Owned(w.conns[i], h) {
          var i :| 0 <= i < |w.conns| && Owned(w.conns[i], h);
          assert Owned(w1.conns[i], h);
        }
      } else if exists i :: 0 <= i < |w1.conns| && Owned(w1.conns[i], h) {
        var i :| 0 <= i < |w1.conns| && Owned(w1.conns[i], h);
        assert i != c ==> Owned(w.conns[i], h);
        NotShared(w, c, i, h);
      }
    }
  }

  lemma StoreStepConserves(w: World, w1: World)
    requires Sound(w) && Conserved(w) && Sound(w1) && w1.conns == w.conns
    requires forall h :: h in Live(w1.trace) && Live(w1.trace)[h].kind != HeapObject
                         <==> h in Live(w.trace) && Live(w.trace)[h].kind != HeapObject
    ensures Conserved(w1)
  {
    forall h ensures h in Live(w1.trace) <==> Claimed(w1, h) {
      if exists i :: 0 <= i < |w.conns| && Owned(w.conns[i], h) {
        var i :| 0 <= i < |w.conns| && Owned(w.conns[i], h);
        NotShared(w, i, i, h);
        assert ConnOk(Live(w1.trace), w1.conns[i]);
      }
    }
  }

  lemma StepConserves(ans: Oracle, b: Build, w: World, cmd: Cmd)
    requires Sound(w) && Conserved(w) && Disciplined(w, cmd)
    ensures Conserved(Step(ans, b, w, cmd))
  {
    match cmd
    case SetStoreCmd(buf) =>
      SetStoreSound(ans, w, buf);
      StoreStepConserves(w, Step(ans, b, w, cmd));
    case FreeStoreCmd =>
      FreeStoreSound(ans, w);
      StoreStepConserves(w, Step(ans, b, w, cmd));
    case _ =>
      if cmd.c < |w.conns| {
        var c := w.conns[cmd.c];
        StepConnMoves(ans, b, w.trace, c, StoredBytes(w.store), cmd);
        StepConnBalanced(ans, b, w.trace, c, StoredBytes(w.store), cmd);
        var (t1, c1) := StepConn(ans, b, w.trace, c, StoredBytes(w.store), cmd);
        BalancedConserves(w, cmd.c, t1, c1);
      }
  }

  /** Conservation over every disciplined run: the objects alive are exactly the stored ones. */
  lemma {:induction false} RunConserves(ans: Oracle, b: Build, w: World, cmds: seq<Cmd>)
    requires Sound(w) && Conserved(w) && DisciplinedRun(ans, b, w, cmds)
    ensures Conserved(Run(ans, b, w, cmds))
    decreases |cmds|
  {
    if cmds != [] {
      StepSound(ans, b, w, cmds[0]);
      StepConserves(ans, b, w, cmds[0]);
      RunConserves(ans, b, Step(ans, b, w, cmds[0]), cmds[1..]);
    }
  }

  /** Delete connections k .. n - 1, then free the store. */
  function DeleteFrom(k: nat, n: nat): seq<Cmd>
    requires k <= n
    decreases n - k
  {
    if k == n then [FreeStoreCmd] else [DeleteCmd(k)] + DeleteFrom(k + 1, n)
  }

  predicate Closed(conns: seq<Conn>, n: nat) {
    forall i :: 0 <= i < n && i < |conns| ==> conns[i].ctx == 0
  }

  lemma CloseOneMore(conns: seq<Conn>, n: nat, c: Conn)
    requires Closed(conns, n) && n < |conns| && c.ctx == 0
    ensures Closed(conns[n := c], n + 1)
  {
  }

  lemma DeleteOne(ans: Oracle, b: Build, w: World, c: nat)
    requires Sound(w) && Conserved(w) && c < |w.conns| && Closed(w.conns, c)
    ensures var w1 := Step(ans, b, w, DeleteCmd(c));
            Sound(w1) && Conserved(w1) && |w1.conns| == |w.conns| && Closed(w1.conns, c + 1)
  {
    StepSound(ans, b, w, DeleteCmd(c));
    StepConserves(ans, b, w, DeleteCmd(c));
    DeleteMoves(ans, w.trace, w.conns[c]);
    CloseOneMore(w.conns, c, DeleteOn(ans, w.trace, w.conns[c]).1);
  }

  lemma ClosedIsEmpty(w: World)
    requires Sound(w) && Conserved(w) && Closed(w.conns, |w.conns|) && w.store.None?
    ensures Live(w.trace) == map[]
  {
    forall i | 0 <= i < |w.conns| ensures w.conns[i].ctx == 0 && w.conns[i].ssl == 0 {
      assert ConnOk(Live(w.trace), w.conns[i]);
    }
    assert forall h :: h !in Live(w.trace);
  }

  lemma {:induction false} DeleteFromRun(ans: Oracle, b: Build, w: World, k: nat)
    requires Sound(w) && Conserved(w) && k <= |w.conns| && Closed(w.conns, k)
    ensures Live(Run(ans, b, w, DeleteFrom(k, |w.conns|)).trace) == map[]
    decreases |w.conns| - k
  {
    var cmds := DeleteFrom(k, |w.conns|);
    var w1 := Step(ans, b, w, cmds[0]);
    if k < |w.conns| {
      DeleteOne(ans, b, w, k);
      DeleteFromRun(ans, b, w1, k + 1);
      assert cmds[1..] == DeleteFrom(k + 1, |w.conns|);
    } else {
      StepSound(ans, b, w, FreeStoreCmd);
      StepConserves(ans, b, w, FreeStoreCmd);
      ClosedIsEmpty(w1);
      assert cmds[1..] == [];
    }
  }

  /** After any disciplined run, deleting every connection and freeing the store leaves nothing alive. */
  lemma DeletingAllLeavesNothing(ans: Oracle, b: Build, n: nat, mutexCreated: int, cmds: seq<Cmd>)
    requires DisciplinedRun(ans, b, Boot(n, mutexCreated), cmds)
    ensures Live(Run(ans, b, Boot(n, mutexCreated), cmds + DeleteFrom(0, n)).trace) == map[]
  {
    var w0 := Boot(n, mutexCreated);
    BootSound(n, mutexCreated);
    assert Conserved(w0);
    RunSound(ans, b, w0, cmds);
    RunConserves(ans, b, w0, cmds);
    DeleteFromRun(ans, b, Run(ans, b, w0, cmds), 0);
    RunAppend(ans, b, w0, cmds, DeleteFrom(0, n));
  }
}

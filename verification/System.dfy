/** The backend and its connections driven by a framework: whatever sequence of calls it makes, the
    objects end in the state that the run of the specification predicts, so every theorem about runs
    is a theorem about them. */
module System {
  import opened Platform
  import opened Config
  import opened Ledger
  import opened Program
  import opened Trust
  import opened Lifecycle
  import opened Backend
  import opened Worlds
  import opened Runs
  import opened PskWrites
  import opened PskRuns

  predicate SizedCmd(cmd: Cmd) {
    match cmd
    case CreateCmd(_, peer) => SizedPeer(peer)
    case ServerSessionCmd(_, cfg, _, _) => SizedPeer(AsServer(cfg))
    case SetStoreCmd(buf) => SizedOption(buf)
    case _ => true
  }

  class Framework {
    const backend: State
    const conns: seq<Tls>

    ghost predicate Valid()
      reads this, backend, backend.env, backend.pskId, backend.pskKey, backend.cacert
    {
      backend.Valid() && forall i, j :: 0 <= i < j < |conns| ==> conns[i] != conns[j]
    }

    function Views(): (views: seq<Conn>)
      reads conns
      ensures |views| == |conns| && forall i :: 0 <= i < |conns| ==> views[i] == conns[i].View()
    {
      seq(|conns|, i requires 0 <= i < |conns| reads conns => conns[i].View())
    }

    function View(): World
      requires Valid()
      reads this, backend, backend.env, backend.pskId, backend.pskKey, backend.cacert, conns
    {
      World(backend.env.trace, Views(), backend.Store())
    }

    constructor (build: Build, ans: Oracle, mutexCreated: int, conns: seq<Tls>)
      requires forall i, j :: 0 <= i < j < |conns| ==> conns[i] != conns[j]
      requires forall i :: 0 <= i < |conns| ==> conns[i].View() == BLANK
      ensures Valid() && View() == Boot(|conns|, mutexCreated)
      ensures backend.env.ans == ans && backend.build == build && this.conns == conns
      ensures fresh(backend) && fresh(backend.env) && fresh(backend.pskId) && fresh(backend.pskKey)
    {
      backend := new State(build, ans, mutexCreated);
      this.conns := conns;
    }

    /** A call that opens a connection */
    method DispatchOpen(tls: Tls, cmd: Cmd)
      requires Valid() && SizedCmd(cmd) && (cmd.CreateCmd? || cmd.ServerSessionCmd?)
      modifies backend, backend.env, backend.pskId, backend.pskKey, tls
      ensures Valid() && backend.Store() == old(backend.Store())
      ensures (backend.env.trace, tls.View())
              == StepConn(backend.env.ans, backend.build, old(backend.env.trace), old(tls.View()),
                          old(StoredBytes(backend.Store())), cmd)
    {
      match cmd
      case CreateCmd(_, peer) => var _ := backend.CreateSslHandle(tls, peer);
      case ServerSessionCmd(_, cfg, fd, patience) =>
        var _ := backend.ServerSessionCreate(tls, Some(cfg), fd, patience);
    }

    /** Any call for one connection */
    method DispatchConn(tls: Tls, cmd: Cmd)
      requires Valid() && SizedCmd(cmd) && !cmd.SetStoreCmd? && !cmd.FreeStoreCmd?
      modifies backend, backend.env, backend.pskId, backend.pskKey, tls
      ensures Valid() && backend.Store() == old(backend.Store())
      ensures (backend.env.trace, tls.View())
              == StepConn(backend.env.ans, backend.build, old(backend.env.trace), old(tls.View()),
                          old(StoredBytes(backend.Store())), cmd)
    {
      if cmd.HandshakeCmd? {
        var _ := backend.Handshake(tls, cmd.bufs);
      } else if cmd.DeleteCmd? {
        backend.ConnDelete(tls);
      } else {
        DispatchOpen(tls, cmd);
      }
    }

    /** A call for the CA store */
    method DispatchStore(cmd: Cmd)
      requires Valid() && SizedCmd(cmd) && (cmd.SetStoreCmd? || cmd.FreeStoreCmd?)
      modifies backend, backend.env
      ensures Valid() && View() == Step(backend.env.ans, backend.build, old(View()), cmd)
    {
      match cmd
      case SetStoreCmd(buf) => var _ := backend.SetGlobalCaStore(buf);
      case FreeStoreCmd => backend.FreeGlobalCaStore();
    }

    /** One call into the backend */
    method Dispatch(cmd: Cmd)
      requires Valid() && SizedCmd(cmd)
      modifies backend, backend.env, backend.pskId, backend.pskKey, conns
      ensures Valid() && View() == Step(backend.env.ans, backend.build, old(View()), cmd)
    {
      if cmd.SetStoreCmd? || cmd.FreeStoreCmd? {
        DispatchStore(cmd);
      } else if cmd.c < |conns| {
        DispatchConn(conns[cmd.c], cmd);
      }
    }

    /** Any number of calls */
    method Execute(cmds: seq<Cmd>)
      requires Valid() && forall i :: 0 <= i < |cmds| ==> SizedCmd(cmds[i])
      modifies backend, backend.env, backend.pskId, backend.pskKey, conns
      ensures Valid() && View() == Run(backend.env.ans, backend.build, old(View()), cmds)
    {
      var i := 0;
      while i < |cmds|
        invariant 0 <= i <= |cmds| && Valid()
        invariant Run(backend.env.ans, backend.build, View(), cmds[i..])
                  == Run(backend.env.ans, backend.build, old(View()), cmds)
      {
        assert cmds[i..][1..] == cmds[i + 1..];
        Dispatch(cmds[i]);
        i := i + 1;
      }
    }
  }

  /** From boot through any calls: the theorems about runs, of the objects themselves. */
  method Serve(build: Build, ans: Oracle, mutexCreated: int, conns: seq<Tls>, cmds: seq<Cmd>)
      returns (framework: Framework)
    requires forall i, j :: 0 <= i < j < |conns| ==> conns[i] != conns[j]
    requires forall i :: 0 <= i < |conns| ==> conns[i].View() == BLANK
    requires forall i :: 0 <= i < |cmds| ==> SizedCmd(cmds[i])
    modifies conns
    ensures framework.conns == conns && framework.Valid()
    ensures framework.View() == Run(ans, build, Boot(|conns|, mutexCreated), cmds)
    ensures Sound(framework.View())
    ensures var t := framework.backend.env.trace;
            forall i, j :: 0 <= i < j < |t| && Destroys(t[i].op) && WorksOn(t[j].op) != NoObject
                           ==> t[i].on != t[j].on
    ensures forall c :: 0 <= c < |conns| ==> Settled(build, framework.backend.env.trace, conns[c].View())
    ensures DisciplinedRun(ans, build, Boot(|conns|, mutexCreated), cmds) ==> Conserved(framework.View())
  {
    framework := new Framework(build, ans, mutexCreated, conns);
    framework.Execute(cmds);
    EveryRunIsSafe(ans, build, |conns|, mutexCreated, cmds);
    BootSound(|conns|, mutexCreated);
    if DisciplinedRun(ans, build, Boot(|conns|, mutexCreated), cmds) {
      RunConserves(ans, build, Boot(|conns|, mutexCreated), cmds);
    }
    forall c | 0 <= c < |conns| ensures Settled(build, framework.backend.env.trace, conns[c].View()) {
      EveryOpenConnectionSettled(ans, build, |conns|, mutexCreated, cmds, c);
      assert framework.View().conns[c] == conns[c].View();
    }
  }

  /** Two buffers hold this identity with its NUL and this key, of length n. */
  predicate HoldsPair(identity: seq<byte>, key: seq<byte>, n: nat, c: Creds) {
    && |c.hint| < |identity| && identity[..|c.hint| + 1] == c.hint + [0]
    && n <= |key| && key[..n] == c.key
  }

  lemma StringIn(a: seq<byte>, s: seq<byte>)
    requires 0 !in s && |s| < |a| && a[..|s| + 1] == s + [0]
    ensures a[|s|] == 0 && a[..|s|] == s && forall i :: 0 <= i < |s| ==> a[i] != 0
  {
    assert a[|s|] == a[..|s| + 1][|s|];
    assert a[..|s|] == a[..|s| + 1][..|s|];
    assert forall i :: 0 <= i < |s| ==> a[i] == s[i] && s[i] in s;
  }

  /** A buffer holds one C string only. */
  lemma OneString(a: seq<byte>, s: seq<byte>, s': seq<byte>)
    requires 0 !in s && 0 !in s' && |s| < |a| && |s'| < |a|
    requires a[..|s| + 1] == s + [0] && a[..|s'| + 1] == s' + [0]
    ensures s == s'
  {
    StringIn(a, s);
    StringIn(a, s');
  }

  lemma HoldsOnePair(identity: seq<byte>, key: seq<byte>, n: nat, c: Creds, d: Creds)
    requires 0 !in c.hint && 0 !in d.hint && HoldsPair(identity, key, n, c)
    ensures HoldsPair(identity, key, n, d) <==> c == d
  {
    if HoldsPair(identity, key, n, d) {
      OneString(identity, c.hint, d.hint);
    }
  }

  /** The pair stored after connection c was configured with `own` and then any calls were made */
  lemma StoredAfter(ans: Oracle, b: Build, w: World, c: nat, peer: Peer, own: Creds, cmds: seq<Cmd>)
    requires Sound(w) && c < |w.conns| && peer.AsClient?
    requires ChosenSource(b, peer.client, StoredBytes(w.store)) == Some(SharedKey(own.hint, own.key))
    requires CreateOn(ans, b, w.trace, w.conns[c], peer, StoredBytes(w.store)).2 == EspOk
    ensures var w1 := Step(ans, b, w, CreateCmd(c, peer));
            LastCreds(Run(ans, b, w1, cmds).trace) == Latest(own, LastWrite(ans, b, w1, cmds))
  {
    CreatePsk(ans, b, w.trace, w.conns[c], peer, StoredBytes(w.store));
    StepSound(ans, b, w, CreateCmd(c, peer));
    RunWritten(ans, b, Step(ans, b, w, CreateCmd(c, peer)), cmds);
  }

  /** wolfSSL runs the callback for a connection, with two buffers of its own. */
  method RunCallback(backend: State, tls: Tls, buf: Buffers) returns (identity: array<byte>, key: array<byte>, n: nat)
    requires backend.Valid()
    modifies backend.env, backend`connLockHeld
    ensures backend.Valid() && fresh(identity) && fresh(key)
    ensures identity.Length == buf.idMax && key.Length == buf.keyMax
    ensures (backend.Mach(tls), n) == PskCallback(backend.env.ans, old(backend.Mach(tls)), buf)
    ensures var c := LastCreds(old(backend.env.trace));
            0 !in c.hint && (n != 0 ==> HoldsPair(identity[..], key[..], n, c))
  {
    identity := new byte[buf.idMax];
    key := new byte[buf.keyMax];
    ghost var c := LastCreds(backend.env.trace);
    assert 0 !in c.hint;
    n := backend.PskClientCb(tls, identity, key);
    if n != 0 {
      assert identity[..][..|c.hint| + 1] == c.hint + [0];
      assert key[..][..n] == c.key;
    }
  }

  /** The PSK round trip of the objects: connection c is configured with PSK, then any calls are made, then
      wolfSSL runs the callback for it.  Unless that declines, wolfSSL's two buffers hold what c was
      configured with if and only if no create since wrote another pair last. */
  method PskRoundTrip(framework: Framework, c: nat, peer: Peer, ghost own: Creds, cmds: seq<Cmd>, buf: Buffers)
      returns (identity: array<byte>, key: array<byte>, n: nat)
    requires framework.Valid() && Sound(framework.View()) && c < |framework.conns|
    requires SizedPeer(peer) && forall i :: 0 <= i < |cmds| ==> SizedCmd(cmds[i])
    requires peer.AsClient?
    requires ChosenSource(framework.backend.build, peer.client, StoredBytes(framework.backend.Store()))
             == Some(SharedKey(own.hint, own.key))
    requires CreateOn(framework.backend.env.ans, framework.backend.build, framework.backend.env.trace,
                      framework.conns[c].View(), peer, StoredBytes(framework.backend.Store())).2 == EspOk
    modifies framework.backend, framework.backend.env, framework.backend.pskId, framework.backend.pskKey
    modifies framework.conns
    ensures framework.Valid() && identity.Length == buf.idMax && key.Length == buf.keyMax
    ensures var (ans, b) := (framework.backend.env.ans, framework.backend.build);
            var last := LastWrite(ans, b, Step(ans, b, old(framework.View()), CreateCmd(c, peer)), cmds);
            n != 0 ==> (HoldsPair(identity[..], key[..], n, own) <==> last == None || last == Some(own))
  {
    ghost var b := framework.backend;
    assert own.hint == peer.client.psk.value.hint.value;
    StoredAfter(b.env.ans, b.build, framework.View(), c, peer, own, cmds);
    framework.Dispatch(CreateCmd(c, peer));
    framework.Execute(cmds);
    ghost var stored := LastCreds(framework.backend.env.trace);
    identity, key, n := RunCallback(framework.backend, framework.conns[c], buf);
    if n != 0 {
      HoldsOnePair(identity[..], key[..], n, stored, own);
    }
  }
}

/** The backend's operations on connections, as functions of the answers of the outside world:
    create, handshake, server session, delete, and the global CA store. */
module Lifecycle {
  import opened Platform
  import opened Ledger
  import opened Program
  import opened Config

  datatype ConnState = ConnInit | Connecting | Handshaking | ConnFail | ConnDone

  /** esp_tls_t: priv_ctx, priv_ssl, conn_state, sockfd, and whether read/write are set. */
  datatype Conn = Conn(ctx: nat, ssl: nat, state: ConnState, fd: int, wired: bool)

  /** tls->role and the configuration that create_ssl_handle takes for that role. */
  datatype Peer = AsClient(client: ClientCfg, host: seq<byte>) | AsServer(server: ServerCfg) | BadRole

  /** The global CA store: where its block is, and the bytes in it, less the NUL it ends with. */
  datatype CaStore = CaStore(at: nat, bytes: seq<byte>)

  function StoredBytes(store: Option<CaStore>): Option<seq<byte>> {
    if store.Some? then Some(store.value.bytes) else None
  }

  function MachineOf(t: Trace, c: Conn): Machine {
    Machine(t, c.ctx, c.ssl, 0)
  }

  function GiveBack(ans: Oracle, m: Machine): Machine {
    if Taken(m.trace) then Issue(ans, m, GiveLock) else m
  }

  function DropSsl(ans: Oracle, m: Machine): Machine {
    if m.ssl != 0 then Issue(ans, Issue(ans, m, Shutdown), SslFree) else m
  }

  function DropCtx(ans: Oracle, m: Machine): Machine {
    if m.ctx != 0 then Issue(ans, m, CtxFree) else m
  }

  /** esp_wolfssl_cleanup: give the PSK lock back if it is held, by whomever; free the SSL, then the
      CTX; leave both pointers NULL. */
  function Teardown(ans: Oracle, m: Machine): Machine {
    DropCtx(ans, DropSsl(ans, GiveBack(ans, m)))
  }

  function ProgramFor(b: Build, peer: Peer, store: Option<seq<byte>>, lock: bool, fd: int): seq<Instr> {
    match peer
    case AsClient(cfg, host) => ClientProgram(b, cfg, host, store, lock, fd)
    case AsServer(cfg) => ServerProgram(b, cfg, fd)
    case BadRole => [Refuse(EspFail)]
  }

  /** esp_wolfssl_create_ssl_handle */
  function Create(ans: Oracle, b: Build, m: Machine, peer: Peer, store: Option<seq<byte>>, fd: int)
      : (Machine, EspErr)
  {
    var m1 := Issue(ans, m, Init);
    if !Succeeds(ans, m, Init) then (Teardown(ans, m1), EspFail)
    else
      var (m2, err) := Exec(ans, m1, ProgramFor(b, peer, store, LockExists(m.trace), fd));
      if err == EspOk then (m2, EspOk) else (Teardown(ans, m2), err)
  }

  /** The sizes of the buffers wolfSSL passes to the PSK callback. */
  datatype Buffers = Buffers(idMax: nat, keyMax: nat)

  /** esp_wolfssl_psk_client_cb */
  function PskCallback(ans: Oracle, m: Machine, buf: Buffers): (Machine, nat) {
    var c := LastCreds(m.trace);
    if |c.hint| >= buf.idMax || |c.key| > buf.keyMax then (m, 0)
    else (Issue(ans, Issue(ans, m, Deliver(c.hint, c.key)), GiveLock), |c.key|)
  }

  function PskCallbacks(ans: Oracle, m: Machine, bufs: seq<Buffers>): Machine
    decreases |bufs|
  {
    if bufs == [] then m else PskCallbacks(ans, PskCallback(ans, m, bufs[0]).0, bufs[1..])
  }

  /** wolfSSL_connect, which may run a registered PSK callback any number of times */
  function ConnectCall(ans: Oracle, m: Machine, bufs: seq<Buffers>): Machine {
    var m1 := if m.ssl != 0 && Registered(m.trace, m.ctx) then PskCallbacks(ans, m, bufs) else m;
    Issue(ans, m1, Connect)
  }

  predicate IsPending(err: int) {
    err == WOLFSSL_ERROR_WANT_READ || err == WOLFSSL_ERROR_WANT_WRITE
  }

  function LastRet(m: Machine): int
    requires m.trace != []
  {
    m.trace[|m.trace| - 1].ret
  }

  /** esp_wolfssl_handshake: 1 when done, 0 when it has to be called again, -1 when it failed. */
  function HandshakeCall(ans: Oracle, m: Machine, state: ConnState, bufs: seq<Buffers>): (Machine, ConnState, int) {
    var m1 := ConnectCall(ans, m, bufs);
    if LastRet(m1) == WOLFSSL_SUCCESS then (m1, ConnDone, 1)
    else
      var m2 := Issue(ans, m1, GetError);
      if IsPending(LastRet(m2)) then (m2, state, 0) else (m2, ConnFail, -1)
  }

  datatype AcceptEnd = Accepted | Fatal | StillPending

  /** The accept loop of esp_wolfssl_server_session_create, followed for at most `patience` rounds. */
  function AcceptLoop(ans: Oracle, m: Machine, patience: nat): (Machine, AcceptEnd)
    decreases patience
  {
    if patience == 0 then (m, StillPending)
    else
      var m1 := Issue(ans, m, Accept);
      if LastRet(m1) == WOLFSSL_SUCCESS then (m1, Accepted)
      else
        var m2 := Issue(ans, m1, GetError);
        if IsPending(LastRet(m2)) then AcceptLoop(ans, m2, patience - 1) else (m2, Fatal)
  }

  // ----- the effect on a connection

  function CreateOn(ans: Oracle, b: Build, t: Trace, c: Conn, peer: Peer, store: Option<seq<byte>>)
      : (Trace, Conn, EspErr)
  {
    var (m, err) := Create(ans, b, MachineOf(t, c), peer, store, c.fd);
    (m.trace, c.(ctx := m.ctx, ssl := m.ssl), err)
  }

  function HandshakeOn(ans: Oracle, t: Trace, c: Conn, bufs: seq<Buffers>): (Trace, Conn, int) {
    var (m, state, ret) := HandshakeCall(ans, MachineOf(t, c), c.state, bufs);
    (m.trace, c.(state := state), ret)
  }

  function DeleteOn(ans: Oracle, t: Trace, c: Conn): (Trace, Conn) {
    var m := Teardown(ans, MachineOf(t, c));
    (m.trace, c.(ctx := m.ctx, ssl := m.ssl))
  }

  /** What esp_wolfssl_server_session_create does once its create has returned. */
  function AfterCreate(ans: Oracle, t: Trace, c: Conn, err: EspErr, patience: nat): (Trace, Conn, Option<int>) {
    if err != EspOk then (t, c.(state := ConnFail), Some(-1))
    else
      var c1 := c.(wired := true);
      var (m, end) := AcceptLoop(ans, MachineOf(t, c1), patience);
      match end
      case Accepted => (m.trace, c1, Some(0))
      case Fatal => (m.trace, c1.(state := ConnFail), Some(-1))
      case StillPending => (m.trace, c1, None)
  }

  /** esp_wolfssl_server_session_create: None while it is still waiting for the peer */
  function ServerSessionOn(ans: Oracle, b: Build, t: Trace, c: Conn, cfg: ServerCfg, fd: int, patience: nat)
      : (Trace, Conn, Option<int>)
  {
    var (t1, c1, err) := CreateOn(ans, b, t, c.(fd := fd), AsServer(cfg), None);
    AfterCreate(ans, t1, c1, err, patience)
  }

  // ----- the global CA store

  function FreeStore(t: Trace, ans: Oracle, store: Option<CaStore>): Trace {
    if store.Some? then t + [Event(HeapFree, store.value.at, Answer(ans, t, HeapFree))] else t
  }

  /** esp_wolfssl_set_global_ca_store: the old store is gone even if the new one gets no memory. */
  function SetStore(ans: Oracle, t: Trace, store: Option<CaStore>, buf: Option<seq<byte>>)
      : (Trace, Option<CaStore>, EspErr)
  {
    if buf.None? then (t, store, InvalidArg)
    else
      var t1 := FreeStore(t, ans, store);
      var op := Malloc(|buf.value| + 1);
      var ret := Answer(ans, t1, op);
      var t2 := t1 + [Event(op, 0, ret)];
      if Ok(op, ret) then (t2, Some(CaStore(|t2|, buf.value)), EspOk) else (t2, None, NoMem)
  }

  // ----- runs over any number of connections

  datatype World = World(trace: Trace, conns: seq<Conn>, store: Option<CaStore>)

  /** One call of the framework into the backend.  A connection number that does not exist stands for
      a NULL tls pointer. */
  datatype Cmd =
    | CreateCmd(c: nat, peer: Peer)
    | HandshakeCmd(c: nat, bufs: seq<Buffers>)
    | ServerSessionCmd(c: nat, server: ServerCfg, fd: int, patience: nat)
    | DeleteCmd(c: nat)
    | SetStoreCmd(buf: Option<seq<byte>>)
    | FreeStoreCmd

  function StepConn(ans: Oracle, b: Build, t: Trace, c: Conn, store: Option<seq<byte>>, cmd: Cmd): (Trace, Conn)
    requires !cmd.SetStoreCmd? && !cmd.FreeStoreCmd?
  {
    match cmd
    case CreateCmd(_, peer) => var (t1, c1, _) := CreateOn(ans, b, t, c, peer, store); (t1, c1)
    case HandshakeCmd(_, bufs) => var (t1, c1, _) := HandshakeOn(ans, t, c, bufs); (t1, c1)
    case ServerSessionCmd(_, cfg, fd, patience) =>
      var (t1, c1, _) := ServerSessionOn(ans, b, t, c, cfg, fd, patience); (t1, c1)
    case DeleteCmd(_) => DeleteOn(ans, t, c)
  }

  function Step(ans: Oracle, b: Build, w: World, cmd: Cmd): World {
    match cmd
    case SetStoreCmd(buf) =>
      var (t, store, _) := SetStore(ans, w.trace, w.store, buf);
      w.(trace := t, store := store)
    case FreeStoreCmd => w.(trace := FreeStore(w.trace, ans, w.store), store := None)
    case _ =>
      if cmd.c >= |w.conns| then w
      else
        var (t, c) := StepConn(ans, b, w.trace, w.conns[cmd.c], StoredBytes(w.store), cmd);
        w.(trace := t, conns := w.conns[cmd.c := c])
  }

  function Run(ans: Oracle, b: Build, w: World, cmds: seq<Cmd>): World
    decreases |cmds|
  {
    if cmds == [] then w else Run(ans, b, Step(ans, b, w, cmds[0]), cmds[1..])
  }

  const BLANK := Conn(0, 0, ConnInit, -1, false)

  /** After boot: the mutex was created or not, `n` connections, none of them configured. */
  function Boot(n: nat, mutexCreated: int): World {
    World([Event(CreateMutex, 0, mutexCreated)], seq(n, i => BLANK), None)
  }
}

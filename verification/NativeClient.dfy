/** One round of the native wolfSSL client: the goto ladder that acquires a CTX, a socket and an SSL and
    releases them again from whatever rung it fell off. */
module NativeClient {
  import opened Platform
  import opened Ledger
  import opened Program

  ghost predicate YoungestAt(t: Trace, n: nat, i: nat)
    requires i < |t|
  {
    forall h :: h in Live(t[..i]) && h > n ==> h <= t[i].on
  }

  /** From call n on, every release is of the youngest object that this round still holds. */
  ghost predicate YoungestFirst(t: Trace, n: nat) {
    forall i :: n <= i < |t| && Destroys(t[i].op) ==> YoungestAt(t, n, i)
  }

  ghost predicate Connected(t: Trace, n: nat, i: nat, ssl: nat) {
    exists j :: n <= j < i && j < |t| && t[j].op.Connect? && t[j].on == ssl && t[j].ret == WOLFSSL_SUCCESS
  }

  /** A shutdown from call n on is preceded by a successful handshake on the same SSL. */
  ghost predicate ShutsDownConnected(t: Trace, n: nat) {
    forall i :: n <= i < |t| && t[i].op.Shutdown? ==> Connected(t, n, i, t[i].on)
  }

  /** Successful handshakes less shutdowns */
  function Sessions(t: Trace): int {
    if t == [] then 0
    else
      var e := t[|t| - 1];
      Sessions(t[..|t| - 1])
      + (if e.op.Connect? && e.ret == WOLFSSL_SUCCESS then 1 else if e.op.Shutdown? then -1 else 0)
  }

  /** Calls of wolfSSL_Init that failed */
  function FailedInits(t: Trace): nat {
    if t == [] then 0
    else
      var e := t[|t| - 1];
      FailedInits(t[..|t| - 1]) + (if e.op.Init? && e.ret != WOLFSSL_SUCCESS then 1 else 0)
  }

  /** How often the library was started and stopped */
  function Starts(t: Trace): (int, nat) {
    (InitBalance(t), FailedInits(t))
  }

  function Tally(t: Trace): ((int, nat), int) {
    (Starts(t), Sessions(t))
  }

  lemma TallySnoc(t: Trace, e: Event)
    ensures FailedInits(t + [e]) == FailedInits(t) + (if e.op.Init? && e.ret != WOLFSSL_SUCCESS then 1 else 0)
    ensures Sessions(t + [e]) == Sessions(t)
            + (if e.op.Connect? && e.ret == WOLFSSL_SUCCESS then 1 else if e.op.Shutdown? then -1 else 0)
  {
    assert (t + [e])[..|t|] == t;
  }

  ghost predicate HoldsJust(base: Objects, n: nat, live: Objects, stack: seq<nat>) {
    && (forall h :: h in live <==> h in base || h in stack)
    && (forall h :: h in base ==> live[h] == base[h])
    && (forall i :: 0 <= i < |stack| ==> stack[i] > n)
    && (forall i, j :: 0 <= i < j < |stack| ==> stack[i] < stack[j])
  }

  /** Since `t0`, the round has acquired and not yet released exactly the objects of `stack`, oldest
      first, and has broken no rule. */
  ghost predicate Holding(t0: Trace, t: Trace, stack: seq<nat>) {
    && Lawful(t) && Lawful(t0) && t0 <= t
    && YoungestFirst(t, |t0|) && ShutsDownConnected(t, |t0|)
    && HoldsJust(Live(t0), |t0|, Live(t), stack)
  }

  lemma HistoryKept(t: Trace, e: Event, n: nat)
    requires YoungestFirst(t, n) && ShutsDownConnected(t, n)
    requires n <= |t| && (Destroys(e.op) ==> YoungestAt(t + [e], n, |t|))
    requires e.op.Shutdown? ==> Connected(t, n, |t|, e.on)
    ensures YoungestFirst(t + [e], n) && ShutsDownConnected(t + [e], n)
  {
    var t1 := t + [e];
    forall i | n <= i < |t1| && Destroys(t1[i].op) ensures YoungestAt(t1, n, i) {
      if i < |t| {
        assert t1[..i] == t[..i] && t1[i] == t[i];
        assert YoungestAt(t, n, i);
      }
    }
    forall i | n <= i < |t1| && t1[i].op.Shutdown? ensures Connected(t1, n, i, t1[i].on) {
      assert Connected(t, n, i, t1[i].on);
      var j :| n <= j < i && j < |t| && t[j].op.Connect? && t[j].on == t1[i].on && t[j].ret == WOLFSSL_SUCCESS;
      assert t1[j] == t[j];
    }
  }

  // ----- the calls of a round, rung by rung

  /** Reads on `ssl`, ended by the first that brings nothing, or by lack of patience. */
  predicate IsReads(s: Trace, ssl: nat, patience: nat) {
    && |s| <= patience
    && (forall i :: 0 <= i < |s| ==> s[i].op == Read && s[i].on == ssl)
    && (forall i :: 0 <= i < |s| - 1 ==> s[i].ret > 0)
    && (|s| < patience ==> s != [] && s[|s| - 1].ret <= 0)
  }

  /** The request, and if it was written, the reads. */
  predicate IsExchange(s: Trace, ssl: nat, patience: nat) {
    && s != [] && s[0].op == Write && s[0].on == ssl
    && if s[0].ret <= 0 then |s| == 1 else IsReads(s[1..], ssl, patience)
  }

  /** What a round is given: the version built in, whether to verify the server and with which CA, and how many
      reads of the response are followed. */
  datatype Setting = Setting(tls13: bool, verifyServer: bool, ca: seq<byte>, patience: nat)

  /** The rungs of the ladder, from the bottom */
  datatype Rung = LibraryRung | CtxRung | SocketRung | TrustRung | ConnectRung | SslRung | TalkRung | ExchangeRung

  /** These are the calls from this rung up, and back down to it, when the first of them is call `at`.  `on` is
      the CTX, for the talk the SSL, and `sock` the socket, once there are such.  Each rung is climbed exactly
      if the one before it was; what was made on it is released on the way back.
      Library: start; if that succeeded, the CTX; stop.  CTX: make; if it was made, the socket; free.
      Socket: make; if it was made, trust; close.
      Trust: with verification, load the CA; if it was accepted, require the peer to verify; connect.  Without,
      switch verification off; connect.  Connect: if it succeeded, the SSL.
      SSL: make; if it was made, the talk; free.
      Talk: attach the socket and shake hands; if that succeeded, the exchange and a shutdown. */
  predicate Climbed(r: Rung, s: Trace, at: nat, k: Setting, on: nat, sock: nat)
    decreases |s|
  {
    match r
    case LibraryRung =>
      && |s| >= 2 && s[0].op == Init && s[|s| - 1].op == Op.Cleanup
      && if s[0].ret != WOLFSSL_SUCCESS then |s| == 2 else Climbed(CtxRung, s[1..|s| - 1], at + 1, k, 0, 0)
    case CtxRung =>
      && s != [] && s[0].op == CtxNew(false, k.tls13) && s[0].on == 0
      && if !Ok(s[0].op, s[0].ret) then |s| == 1
         else |s| >= 2 && s[|s| - 1].op == CtxFree && s[|s| - 1].on == at + 1
              && Climbed(SocketRung, s[1..|s| - 1], at + 1, k, at + 1, 0)
    case SocketRung =>
      && s != [] && s[0].op == Socket && s[0].on == 0
      && if !Ok(s[0].op, s[0].ret) then |s| == 1
         else |s| >= 2 && s[|s| - 1].op == SocketClose && s[|s| - 1].on == at + 1
              && Climbed(TrustRung, s[1..|s| - 1], at + 1, k, on, at + 1)
    case TrustRung =>
      && s != [] && s[0].on == on
      && if !k.verifyServer then s[0].op == SetVerify(VerifyNone) && Climbed(ConnectRung, s[1..], at + 1, k, on, sock)
         else
           && s[0].op == LoadVerify(k.ca, Pem)
           && if s[0].ret != WOLFSSL_SUCCESS then |s| == 1
              else |s| >= 2 && s[1].op == SetVerify(VerifyPeer) && s[1].on == on
                   && Climbed(ConnectRung, s[2..], at + 2, k, on, sock)
    case ConnectRung =>
      && s != [] && s[0].op == SocketConnect && s[0].on == sock
      && if s[0].ret != 0 then |s| == 1 else Climbed(SslRung, s[1..], at + 1, k, on, sock)
    case SslRung =>
      && s != [] && s[0].op == SslNew && s[0].on == on
      && if !Ok(s[0].op, s[0].ret) then |s| == 1
         else |s| >= 2 && s[|s| - 1].op == SslFree && s[|s| - 1].on == at + 1
              && Climbed(TalkRung, s[1..|s| - 1], at + 1, k, at + 1, sock)
    case TalkRung =>
      && |s| >= 2 && s[0].op == SetFd(sock) && s[0].on == on && s[1].op == Connect && s[1].on == on
      && if s[1].ret != WOLFSSL_SUCCESS then |s| == 2
         else |s| >= 3 && s[|s| - 1].op == Shutdown && s[|s| - 1].on == on
              && Climbed(ExchangeRung, s[2..|s| - 1], at + 2, k, on, sock)
    case ExchangeRung => IsExchange(s, on, k.patience)
  }

  lemma Joined(t: Trace, a: Trace, b: Trace)
    ensures t + a + b == t + (a + b)
  {
  }

  lemma Bracketed(e: Event, s: Trace, e': Event)
    ensures var b := [e] + s + [e'];
            |b| == |s| + 2 && b[0] == e && b[|b| - 1] == e' && b[1..|b| - 1] == s
  {
  }

  // ----- the round

  /** A call that neither creates nor destroys. */
  method Use(env: Env, op: Op, on: nat, ghost t0: Trace, ghost stack: seq<nat>) returns (ret: int)
    requires Holding(t0, env.trace, stack) && Makes(op) == NoObject && !Destroys(op)
    requires !op.TakeLock? && !op.GiveLock? && !op.StoreCreds? && !op.SetPskCallback? && !op.Deliver?
    requires if WorksOn(op) == NoObject then on == 0 else Is(env.trace, on, WorksOn(op))
    requires op.Shutdown? ==> Connected(env.trace, |t0|, |env.trace|, on)
    modifies env
    ensures Holding(t0, env.trace, stack) && Live(env.trace) == Live(old(env.trace))
    ensures env.trace == old(env.trace) + [Event(op, on, ret)]
    ensures InitBalance(env.trace) == InitBalance(old(env.trace))
            + (if op.Init? && ret == WOLFSSL_SUCCESS then 1 else if op.Cleanup? then -1 else 0)
    ensures Sessions(env.trace) == Sessions(old(env.trace))
            + (if op.Connect? && ret == WOLFSSL_SUCCESS then 1 else if op.Shutdown? then -1 else 0)
    ensures FailedInits(env.trace) == FailedInits(old(env.trace))
            + (if op.Init? && ret != WOLFSSL_SUCCESS then 1 else 0)
  {
    var e := Event(op, on, Answer(env.ans, env.trace, op));
    Snoc(env.trace, e);
    TallySnoc(env.trace, e);
    HistoryKept(env.trace, e, |t0|);
    ret := env.Call(op, on);
  }

  lemma PushHeld(base: Objects, n: nat, live: Objects, stack: seq<nat>, h: nat, o: Obj)
    requires HoldsJust(base, n, live, stack) && h > n && forall x :: x in live ==> x < h
    ensures HoldsJust(base, n, live[h := o], stack + [h])
  {
    assert forall i :: 0 <= i < |stack| ==> stack[i] in live;
  }

  lemma PopHeld(base: Objects, n: nat, live: Objects, stack: seq<nat>)
    requires HoldsJust(base, n, live, stack) && stack != [] && forall x :: x in base ==> x <= n
    ensures HoldsJust(base, n, live - {stack[|stack| - 1]}, stack[..|stack| - 1])
  {
    var top := stack[|stack| - 1];
    var rest := stack[..|stack| - 1];
    assert forall h :: h in stack <==> h in rest || h == top;
  }

  /** A creating call, whatever its result, leaves what is held in order. */
  lemma MadeHeld(t0: Trace, t: Trace, stack: seq<nat>, e: Event)
    requires Lawful(t) && Makes(e.op) != NoObject && |t0| <= |t|
    requires HoldsJust(Live(t0), |t0|, Live(t), stack)
    ensures HoldsJust(Live(t0), |t0|, Live(t + [e]), if Ok(e.op, e.ret) then stack + [|t| + 1] else stack)
    ensures |t| + 1 !in Live(t)
    ensures Live(t + [e]) == if Ok(e.op, e.ret) then Live(t)[|t| + 1 := Obj(Makes(e.op), e.on)] else Live(t)
  {
    Snoc(t, e);
    LiveBound(t);
    PushHeld(Live(t0), |t0|, Live(t), stack, |t| + 1, Obj(Makes(e.op), e.on));
  }

  /** A call that creates an object, or fails to. */
  method Make(env: Env, op: Op, on: nat, ghost t0: Trace, ghost stack: seq<nat>) returns (h: nat)
    requires Holding(t0, env.trace, stack) && Makes(op) != NoObject
    requires if WorksOn(op) == NoObject then on == 0 else Is(env.trace, on, WorksOn(op))
    modifies env
    ensures Holding(t0, env.trace, if h != 0 then stack + [h] else stack)
    ensures h != 0 ==> h !in Live(old(env.trace)) && Live(env.trace) == Live(old(env.trace))[h := Obj(Makes(op), on)]
    ensures h == 0 ==> Live(env.trace) == Live(old(env.trace))
    ensures Tally(env.trace) == Tally(old(env.trace))
    ensures |env.trace| == |old(env.trace)| + 1 && old(env.trace) <= env.trace
    ensures var e := env.trace[|old(env.trace)|];
            && env.trace == old(env.trace) + [e] && e.op == op && e.on == on
            && (if Ok(op, e.ret) then h == |old(env.trace)| + 1 else h == 0)
  {
    var e := Event(op, on, Answer(env.ans, env.trace, op));
    Snoc(env.trace, e);
    TallySnoc(env.trace, e);
    HistoryKept(env.trace, e, |t0|);
    MadeHeld(t0, env.trace, stack, e);
    h := env.New(op, on);
  }

  lemma TopIsYoungest(base: Objects, n: nat, live: Objects, stack: seq<nat>)
    requires HoldsJust(base, n, live, stack) && stack != [] && forall x :: x in base ==> x <= n
    ensures forall h :: h in live ==> h <= stack[|stack| - 1]
  {
  }

  /** A call that destroys the youngest object held. */
  method Drop(env: Env, op: Op, on: nat, ghost t0: Trace, ghost stack: seq<nat>) returns (ghost e: Event)
    requires Holding(t0, env.trace, stack) && Destroys(op) && stack != [] && on == stack[|stack| - 1]
    requires Is(env.trace, on, WorksOn(op))
    modifies env
    ensures Holding(t0, env.trace, stack[..|stack| - 1]) && Live(env.trace) == Live(old(env.trace)) - {on}
    ensures Tally(env.trace) == Tally(old(env.trace))
    ensures env.trace == old(env.trace) + [e] && e.op == op && e.on == on
  {
    e := Event(op, on, Answer(env.ans, env.trace, op));
    LiveBound(env.trace);
    LiveBound(t0);
    Snoc(env.trace, e);
    TallySnoc(env.trace, e);
    TopIsYoungest(Live(t0), |t0|, Live(env.trace), stack);
    HistoryKept(env.trace, e, |t0|);
    PopHeld(Live(t0), |t0|, Live(env.trace), stack);
    var _ := env.Call(op, on);
  }

  lemma StillConnected(t: Trace, n: nat, i: nat, t1: Trace, i1: nat, ssl: nat)
    requires Connected(t, n, i, ssl) && t <= t1 && i <= i1
    ensures Connected(t1, n, i1, ssl)
  {
    var j :| n <= j < i && j < |t| && t[j].op.Connect? && t[j].on == ssl && t[j].ret == WOLFSSL_SUCCESS;
    assert t1[j] == t[j];
  }

  /** wolfSSL_write or wolfSSL_read on a connected SSL, which stays connected */
  method Pass(env: Env, op: Op, ssl: nat, ghost t0: Trace, ghost stack: seq<nat>) returns (ret: int)
    requires Holding(t0, env.trace, stack) && Is(env.trace, ssl, SslObject) && (op.Write? || op.Read?)
    requires Connected(env.trace, |t0|, |env.trace|, ssl)
    modifies env
    ensures Holding(t0, env.trace, stack) && Live(env.trace) == Live(old(env.trace))
    ensures Connected(env.trace, |t0|, |env.trace|, ssl) && Tally(env.trace) == Tally(old(env.trace))
    ensures env.trace == old(env.trace) + [Event(op, ssl, ret)]
  {
    ghost var t := env.trace;
    ret := Use(env, op, ssl, t0, stack);
    StillConnected(t, |t0|, |t|, env.trace, |env.trace|, ssl);
  }

  /** Read until the connection closes or fails, for at most `patience` reads. */
  method ReadAll(env: Env, ssl: nat, patience: nat, ghost t0: Trace, ghost stack: seq<nat>) returns (ghost s: Trace)
    requires Holding(t0, env.trace, stack) && Is(env.trace, ssl, SslObject)
    requires Connected(env.trace, |t0|, |env.trace|, ssl)
    modifies env
    ensures Holding(t0, env.trace, stack) && Live(env.trace) == Live(old(env.trace))
    ensures Connected(env.trace, |t0|, |env.trace|, ssl) && Tally(env.trace) == Tally(old(env.trace))
    ensures env.trace == old(env.trace) + s && IsReads(s, ssl, patience)
  {
    s := [];
    var i := 0;
    while i < patience
      invariant Holding(t0, env.trace, stack) && Live(env.trace) == Live(old(env.trace))
      invariant Connected(env.trace, |t0|, |env.trace|, ssl) && Tally(env.trace) == Tally(old(env.trace))
      invariant env.trace == old(env.trace) + s && i == |s| <= patience
      invariant forall i :: 0 <= i < |s| ==> s[i].op == Read && s[i].on == ssl && s[i].ret > 0
    {
      var ret := Pass(env, Read, ssl, t0, stack);
      Joined(old(env.trace), s, [Event(Read, ssl, ret)]);
      s := s + [Event(Read, ssl, ret)];
      if ret <= 0 {
        break;
      }
      i := i + 1;
    }
  }

  /** Write the request, and if it was written, read the response. */
  method Exchange(env: Env, ssl: nat, patience: nat, ghost t0: Trace, ghost stack: seq<nat>) returns (ghost s: Trace)
    requires Holding(t0, env.trace, stack) && Is(env.trace, ssl, SslObject)
    requires Connected(env.trace, |t0|, |env.trace|, ssl)
    modifies env
    ensures Holding(t0, env.trace, stack) && Live(env.trace) == Live(old(env.trace))
    ensures Connected(env.trace, |t0|, |env.trace|, ssl) && Tally(env.trace) == Tally(old(env.trace))
    ensures env.trace == old(env.trace) + s && IsExchange(s, ssl, patience)
  {
    var ret := Pass(env, Write, ssl, t0, stack);
    s := [Event(Write, ssl, ret)];
    if ret > 0 {
      ghost var got;
      got := ReadAll(env, ssl, patience, t0, stack);
      Joined(old(env.trace), s, got);
      assert (s + got)[1..] == got;
      s := s + got;
    }
  }

  /** A call that leaves the objects and the init count alone; a shutdown ends a session. */
  method Ask(env: Env, op: Op, on: nat, ghost t0: Trace, ghost stack: seq<nat>) returns (ret: int)
    requires Holding(t0, env.trace, stack) && Is(env.trace, on, WorksOn(op))
    requires op.LoadVerify? || op.SetVerify? || op.SocketConnect? || op.SetFd?
             || (op.Shutdown? && Connected(env.trace, |t0|, |env.trace|, on))
    modifies env
    ensures Holding(t0, env.trace, stack) && Live(env.trace) == Live(old(env.trace))
    ensures Starts(env.trace) == Starts(old(env.trace))
    ensures Sessions(env.trace) == Sessions(old(env.trace)) - (if op.Shutdown? then 1 else 0)
    ensures env.trace == old(env.trace) + [Event(op, on, ret)]
  {
    ret := Use(env, op, on, t0, stack);
  }

  /** wolfSSL_set_fd and wolfSSL_connect; false sends the round to failed4. */
  method ShakeHands(env: Env, ssl: nat, fd: int, ghost t0: Trace, ghost stack: seq<nat>)
      returns (ok: bool, ghost s: Trace)
    requires Holding(t0, env.trace, stack) && Is(env.trace, ssl, SslObject)
    modifies env
    ensures Holding(t0, env.trace, stack) && Live(env.trace) == Live(old(env.trace))
    ensures Starts(env.trace) == Starts(old(env.trace))
    ensures Sessions(env.trace) == Sessions(old(env.trace)) + (if ok then 1 else 0)
    ensures ok ==> Connected(env.trace, |t0|, |env.trace|, ssl)
    ensures env.trace == old(env.trace) + s && |s| == 2 && s[0].op == SetFd(fd) && s[0].on == ssl
    ensures s[1].op == Connect && s[1].on == ssl && ok == (s[1].ret == WOLFSSL_SUCCESS)
  {
    var attached := Ask(env, SetFd(fd), ssl, t0, stack);
    ghost var at := |env.trace|;
    var ret := Use(env, Connect, ssl, t0, stack);
    ok := ret == WOLFSSL_SUCCESS;
    assert env.trace[at] == Event(Connect, ssl, ret);
    s := [Event(SetFd(fd), ssl, attached)] + [Event(Connect, ssl, ret)];
    Joined(old(env.trace), [Event(SetFd(fd), ssl, attached)], [Event(Connect, ssl, ret)]);
  }

  /** The rung failed5: the exchange, and a shutdown whatever came of it. */
  method Converse(env: Env, ssl: nat, patience: nat, ghost t0: Trace, ghost stack: seq<nat>)
      returns (ghost s: Trace, ghost e: Event)
    requires Holding(t0, env.trace, stack) && Is(env.trace, ssl, SslObject)
    requires Connected(env.trace, |t0|, |env.trace|, ssl)
    modifies env
    ensures Holding(t0, env.trace, stack) && Live(env.trace) == Live(old(env.trace))
    ensures Starts(env.trace) == Starts(old(env.trace))
    ensures Sessions(env.trace) == Sessions(old(env.trace)) - 1
    ensures env.trace == old(env.trace) + s + [e] && IsExchange(s, ssl, patience) && e.op == Shutdown && e.on == ssl
  {
    s := Exchange(env, ssl, patience, t0, stack);
    var ret := Ask(env, Shutdown, ssl, t0, stack);
    e := Event(Shutdown, ssl, ret);
  }

  /** A handshake and what follows it, as one stretch of calls */
  lemma TalkJoined(t: Trace, at: nat, a: Trace, b: Trace, e: Event, ssl: nat, sock: nat, k: Setting)
    requires |a| == 2 && a[0].op == SetFd(sock) && a[0].on == ssl && a[1].op == Connect && a[1].on == ssl
    requires a[1].ret == WOLFSSL_SUCCESS && IsExchange(b, ssl, k.patience) && e.op == Shutdown && e.on == ssl
    ensures t + a + b + [e] == t + (a + b + [e]) && Climbed(TalkRung, a + b + [e], at, k, ssl, sock)
  {
    assert (a + b + [e])[2..|a + b + [e]| - 1] == b;
    assert Climbed(ExchangeRung, b, at + 2, k, ssl, sock);
  }

  method TalkOver(env: Env, ssl: nat, sock: nat, k: Setting, ghost t0: Trace, ghost stack: seq<nat>)
      returns (ghost s: Trace)
    requires Holding(t0, env.trace, stack) && Is(env.trace, ssl, SslObject)
    modifies env
    ensures Holding(t0, env.trace, stack) && Live(env.trace) == Live(old(env.trace))
    ensures Tally(env.trace) == Tally(old(env.trace))
    ensures env.trace == old(env.trace) + s && Climbed(TalkRung, s, |old(env.trace)|, k, ssl, sock)
  {
    label failed4: {
      var ok;
      ok, s := ShakeHands(env, ssl, sock, t0, stack);
      if !ok {
        break failed4;
      }
      ghost var b, e := Converse(env, ssl, k.patience, t0, stack);
      TalkJoined(old(env.trace), |old(env.trace)|, s, b, e, ssl, sock, k);
      s := s + b + [e];
    }
  }

  /** The rungs failed5 and failed4: handshake, exchange, shutdown, free. */
  method Talk(env: Env, ssl: nat, sock: nat, k: Setting, ghost t0: Trace, ghost stack: seq<nat>)
      returns (ghost s: Trace, ghost e: Event)
    requires Holding(t0, env.trace, stack) && stack != [] && ssl == stack[|stack| - 1] && Is(env.trace, ssl, SslObject)
    modifies env
    ensures Holding(t0, env.trace, stack[..|stack| - 1]) && Live(env.trace) == Live(old(env.trace)) - {ssl}
    ensures Tally(env.trace) == Tally(old(env.trace))
    ensures env.trace == old(env.trace) + s + [e] && e.op == SslFree && e.on == ssl
    ensures Climbed(TalkRung, s, |old(env.trace)|, k, ssl, sock)
  {
    assert Is(env.trace, ssl, WorksOn(SslFree)) && Destroys(SslFree);
    s := TalkOver(env, ssl, sock, k, t0, stack);
    e := Drop(env, SslFree, ssl, t0, stack);
  }

  /** From call n on: with verification, the CA was accepted and then the peer required to verify;
      without, verification was switched off.  Nothing else. */
  predicate TrustIsSet(t: Trace, n: nat, ctx: nat, verifyServer: bool, ca: seq<byte>) {
    if verifyServer then
      && |t| == n + 2 && t[n] == Event(LoadVerify(ca, Pem), ctx, WOLFSSL_SUCCESS)
      && t[n + 1].op == SetVerify(VerifyPeer) && t[n + 1].on == ctx
    else |t| == n + 1 && t[n].op == SetVerify(VerifyNone) && t[n].on == ctx
  }

  /** The CA is presented as the example embeds it, its NUL inside the range; nothing is said of the byte
      behind the range, which `Env.LoadVerify` asks of the backend to be NUL. */
  method TrustServer(env: Env, ctx: nat, verifyServer: bool, ca: seq<byte>, ghost t0: Trace, ghost stack: seq<nat>)
      returns (ok: bool, ghost s: Trace)
    requires Holding(t0, env.trace, stack) && Is(env.trace, ctx, CtxObject)
    modifies env
    ensures Holding(t0, env.trace, stack) && Live(env.trace) == Live(old(env.trace))
    ensures Tally(env.trace) == Tally(old(env.trace))
    ensures env.trace == old(env.trace) + s
    ensures ok ==> TrustIsSet(s, 0, ctx, verifyServer, ca)
    ensures !ok ==> verifyServer && |s| == 1 && s[0].op == LoadVerify(ca, Pem) && s[0].on == ctx
                    && s[0].ret != WOLFSSL_SUCCESS
  {
    var mode := VerifyNone;
    s := [];
    if verifyServer {
      var ret := Ask(env, LoadVerify(ca, Pem), ctx, t0, stack);
      s := [Event(LoadVerify(ca, Pem), ctx, ret)];
      if ret != WOLFSSL_SUCCESS {
        return false, s;
      }
      mode := VerifyPeer;
    }
    var ret := Ask(env, SetVerify(mode), ctx, t0, stack);
    Joined(old(env.trace), s, [Event(SetVerify(mode), ctx, ret)]);
    return true, s + [Event(SetVerify(mode), ctx, ret)];
  }

  method ConnectSocket(env: Env, sock: nat, ghost t0: Trace, ghost stack: seq<nat>) returns (ok: bool, ghost e: Event)
    requires Holding(t0, env.trace, stack) && Is(env.trace, sock, SocketObject)
    modifies env
    ensures Holding(t0, env.trace, stack) && Live(env.trace) == Live(old(env.trace))
    ensures Tally(env.trace) == Tally(old(env.trace))
    ensures env.trace == old(env.trace) + [e] && e.op == SocketConnect && e.on == sock && ok == (e.ret == 0)
  {
    var ret := Ask(env, SocketConnect, sock, t0, stack);
    e := Event(SocketConnect, sock, ret);
    ok := ret == 0;
  }

  /** The calls `s`: trust was set by the calls `trust` and the socket connected by `e`; or `e`, loading the CA,
      was refused. */
  predicate IsPrepared(s: Trace, trust: Trace, e: Event, ctx: nat, sock: nat, k: Setting, ok: bool) {
    if trust == [] then
      !ok && s == [e] && k.verifyServer && e.op == LoadVerify(k.ca, Pem) && e.on == ctx && e.ret != WOLFSSL_SUCCESS
    else
      && s == trust + [e] && TrustIsSet(trust, 0, ctx, k.verifyServer, k.ca)
      && e.op == SocketConnect && e.on == sock && ok == (e.ret == 0)
  }

  /** Trust and TCP connection; false sends the round to failed3. */
  method Prepare(env: Env, ctx: nat, sock: nat, k: Setting, ghost t0: Trace, ghost stack: seq<nat>)
      returns (ok: bool, ghost s: Trace, ghost trust: Trace, ghost e: Event)
    requires Holding(t0, env.trace, stack) && Is(env.trace, ctx, CtxObject) && Is(env.trace, sock, SocketObject)
    modifies env
    ensures Holding(t0, env.trace, stack) && Live(env.trace) == Live(old(env.trace))
    ensures Tally(env.trace) == Tally(old(env.trace))
    ensures env.trace == old(env.trace) + s && IsPrepared(s, trust, e, ctx, sock, k, ok)
  {
    ok, s := TrustServer(env, ctx, k.verifyServer, k.ca, t0, stack);
    if ok {
      trust := s;
      ok, e := ConnectSocket(env, sock, t0, stack);
      Joined(old(env.trace), s, [e]);
      s := s + [e];
    } else {
      trust, e := [], s[0];
    }
  }

  /** An object made and dropped again leaves the others as they were. */
  lemma MadeAndDropped(live: Objects, h: nat, o: Obj)
    requires h !in live
    ensures live[h := o] - {h} == live
  {
  }

  lemma WithSslJoined(t: Trace, at: nat, e: Event, s: Trace, e': Event, ctx: nat, sock: nat, k: Setting)
    requires e.op == SslNew && e.on == ctx && Ok(e.op, e.ret) && e'.op == SslFree && e'.on == at + 1
    requires Climbed(TalkRung, s, at + 1, k, at + 1, sock)
    ensures t + [e] + s + [e'] == t + ([e] + s + [e']) && Climbed(SslRung, [e] + s + [e'], at, k, ctx, sock)
  {
    Bracketed(e, s, e');
  }

  /** The SSL of the round, once it is made: the talk, wolfSSL_free, and the calls since it was made */
  method UseMadeSsl(env: Env, ctx: nat, ssl: nat, sock: nat, k: Setting, ghost t: Trace, ghost e: Event,
                    ghost t0: Trace, ghost stack: seq<nat>)
      returns (ghost s: Trace)
    requires Holding(t0, env.trace, stack) && stack != [] && ssl == stack[|stack| - 1] && Is(env.trace, ssl, SslObject)
    requires env.trace == t + [e] && e.op == SslNew && e.on == ctx && Ok(e.op, e.ret) && ssl == |t| + 1
    modifies env
    ensures Holding(t0, env.trace, stack[..|stack| - 1]) && Live(env.trace) == Live(old(env.trace)) - {ssl}
    ensures Tally(env.trace) == Tally(old(env.trace))
    ensures env.trace == t + s && Climbed(SslRung, s, |t|, k, ctx, sock)
  {
    ghost var mid, e' := Talk(env, ssl, sock, k, t0, stack);
    WithSslJoined(t, |t|, e, mid, e', ctx, sock, k);
    s := [e] + mid + [e'];
  }

  lemma SslNotMade(e: Event, at: nat, ctx: nat, sock: nat, k: Setting)
    requires e.op == SslNew && e.on == ctx && !Ok(e.op, e.ret)
    ensures Climbed(SslRung, [e], at, k, ctx, sock)
  {
  }

  /** The SSL of the round, from wolfSSL_new to wolfSSL_free. */
  method WithSsl(env: Env, ctx: nat, sock: nat, k: Setting, ghost t0: Trace, ghost stack: seq<nat>)
      returns (ghost s: Trace)
    requires Holding(t0, env.trace, stack) && Is(env.trace, ctx, CtxObject)
    modifies env
    ensures Holding(t0, env.trace, stack) && Live(env.trace) == Live(old(env.trace))
    ensures Tally(env.trace) == Tally(old(env.trace))
    ensures env.trace == old(env.trace) + s && Climbed(SslRung, s, |old(env.trace)|, k, ctx, sock)
  {
    var ssl := Make(env, SslNew, ctx, t0, stack);
    ghost var e := env.trace[|old(env.trace)|];
    s := [e];
    if ssl != 0 {
      MadeAndDropped(old(Live(env.trace)), ssl, Obj(SslObject, ctx));
      s := UseMadeSsl(env, ctx, ssl, sock, k, old(env.trace), e, t0, stack + [ssl]);
      assert (stack + [ssl])[..|stack|] == stack;
    } else {
      SslNotMade(e, |old(env.trace)|, ctx, sock, k);
    }
  }

  lemma ConnectJoined(s: Trace, at: nat, e: Event, ctx: nat, sock: nat, k: Setting)
    requires e.op == SocketConnect && e.on == sock && e.ret == 0 && Climbed(SslRung, s, at + 1, k, ctx, sock)
    ensures Climbed(ConnectRung, [e] + s, at, k, ctx, sock)
  {
    assert ([e] + s)[1..] == s;
  }

  lemma VerifyingJoined(s: Trace, s': Trace, at: nat, ctx: nat, sock: nat, k: Setting)
    requires k.verifyServer && TrustIsSet(s, 0, ctx, true, k.ca) && Climbed(ConnectRung, s', at + 2, k, ctx, sock)
    ensures Climbed(TrustRung, s + s', at, k, ctx, sock)
  {
    assert (s + s')[2..] == s';
  }

  lemma UnverifiedJoined(s: Trace, s': Trace, at: nat, ctx: nat, sock: nat, k: Setting)
    requires !k.verifyServer && TrustIsSet(s, 0, ctx, false, k.ca) && Climbed(ConnectRung, s', at + 1, k, ctx, sock)
    ensures Climbed(TrustRung, s + s', at, k, ctx, sock)
  {
    assert (s + s')[1..] == s';
  }

  lemma TrustJoined(s: Trace, s': Trace, at: nat, ctx: nat, sock: nat, k: Setting)
    requires TrustIsSet(s, 0, ctx, k.verifyServer, k.ca) && Climbed(ConnectRung, s', at + |s|, k, ctx, sock)
    ensures Climbed(TrustRung, s + s', at, k, ctx, sock)
  {
    if k.verifyServer {
      VerifyingJoined(s, s', at, ctx, sock, k);
    } else {
      UnverifiedJoined(s, s', at, ctx, sock, k);
    }
  }

  lemma SecuredJoined(s: Trace, e: Event, s': Trace, at: nat, ctx: nat, sock: nat, k: Setting)
    requires TrustIsSet(s, 0, ctx, k.verifyServer, k.ca) && Climbed(SslRung, s', at + |s| + 1, k, ctx, sock)
    requires e.op == SocketConnect && e.on == sock && e.ret == 0
    ensures Climbed(TrustRung, s + ([e] + s'), at, k, ctx, sock)
  {
    ConnectJoined(s', at + |s|, e, ctx, sock, k);
    TrustJoined(s, [e] + s', at, ctx, sock, k);
  }

  lemma NotSecured(s: Trace, trust: Trace, e: Event, at: nat, ctx: nat, sock: nat, k: Setting)
    requires IsPrepared(s, trust, e, ctx, sock, k, false)
    ensures Climbed(TrustRung, s, at, k, ctx, sock)
  {
    if trust != [] {
      assert Climbed(ConnectRung, [e], at + |trust|, k, ctx, sock);
      TrustJoined(trust, [e], at, ctx, sock, k);
    }
  }

  lemma PreparedJoined(t: Trace, s: Trace, trust: Trace, e: Event, s': Trace, ctx: nat, sock: nat, k: Setting)
    requires IsPrepared(s, trust, e, ctx, sock, k, true) && Climbed(SslRung, s', |t + s|, k, ctx, sock)
    ensures t + s + s' == t + (s + s') && Climbed(TrustRung, s + s', |t|, k, ctx, sock)
  {
    SecuredJoined(trust, e, s', |t|, ctx, sock, k);
    Joined(trust, [e], s');
    Joined(t, s, s');
  }

  /** Everything between socket and close; a failed preparation goes straight to failed3. */
  method TalkOverSocket(env: Env, ctx: nat, sock: nat, k: Setting, ghost t0: Trace, ghost stack: seq<nat>)
      returns (ghost s: Trace)
    requires Holding(t0, env.trace, stack) && Is(env.trace, ctx, CtxObject) && Is(env.trace, sock, SocketObject)
    modifies env
    ensures Holding(t0, env.trace, stack) && Live(env.trace) == Live(old(env.trace))
    ensures Tally(env.trace) == Tally(old(env.trace))
    ensures env.trace == old(env.trace) + s && Climbed(TrustRung, s, |old(env.trace)|, k, ctx, sock)
  {
    label failed3: {
      var ok;
      ghost var trust, e;
      ok, s, trust, e := Prepare(env, ctx, sock, k, t0, stack);
      if !ok {
        NotSecured(s, trust, e, |old(env.trace)|, ctx, sock, k);
        break failed3;
      }
      ghost var s' := WithSsl(env, ctx, sock, k, t0, stack);
      PreparedJoined(old(env.trace), s, trust, e, s', ctx, sock, k);
      s := s + s';
    }
  }

  /** The rung failed3: what is done with the socket, then close. */
  method UseSocket(env: Env, ctx: nat, sock: nat, k: Setting,
                   ghost t0: Trace, ghost stack: seq<nat>)
      returns (ghost s: Trace, ghost e: Event)
    requires Holding(t0, env.trace, stack) && stack != [] && sock == stack[|stack| - 1]
    requires Is(env.trace, ctx, CtxObject) && Is(env.trace, sock, SocketObject)
    modifies env
    ensures Holding(t0, env.trace, stack[..|stack| - 1]) && Live(env.trace) == Live(old(env.trace)) - {sock}
    ensures Tally(env.trace) == Tally(old(env.trace))
    ensures env.trace == old(env.trace) + s + [e] && e.op == SocketClose && e.on == sock
    ensures Climbed(TrustRung, s, |old(env.trace)|, k, ctx, sock)
  {
    assert Is(env.trace, sock, WorksOn(SocketClose)) && Destroys(SocketClose);
    s := TalkOverSocket(env, ctx, sock, k, t0, stack);
    e := Drop(env, SocketClose, sock, t0, stack);
  }

  lemma WithSocketJoined(t: Trace, at: nat, e: Event, s: Trace, e': Event, ctx: nat, k: Setting)
    requires e.op == Socket && e.on == 0 && Ok(e.op, e.ret) && e'.op == SocketClose && e'.on == at + 1
    requires Climbed(TrustRung, s, at + 1, k, ctx, at + 1)
    ensures t + [e] + s + [e'] == t + ([e] + s + [e'])
    ensures Climbed(SocketRung, [e] + s + [e'], at, k, ctx, 0)
  {
    Bracketed(e, s, e');
  }

  /** The socket of the round, once it is made: what is done with it, close, and the calls since it was made */
  method UseMadeSocket(env: Env, ctx: nat, sock: nat, k: Setting, ghost t: Trace, ghost e: Event,
                       ghost t0: Trace, ghost stack: seq<nat>)
      returns (ghost s: Trace)
    requires Holding(t0, env.trace, stack) && stack != [] && sock == stack[|stack| - 1]
    requires Is(env.trace, ctx, CtxObject) && Is(env.trace, sock, SocketObject)
    requires env.trace == t + [e] && e.op == Socket && e.on == 0 && Ok(e.op, e.ret) && sock == |t| + 1
    modifies env
    ensures Holding(t0, env.trace, stack[..|stack| - 1]) && Live(env.trace) == Live(old(env.trace)) - {sock}
    ensures Tally(env.trace) == Tally(old(env.trace))
    ensures env.trace == t + s && Climbed(SocketRung, s, |t|, k, ctx, 0)
  {
    ghost var mid, e' := UseSocket(env, ctx, sock, k, t0, stack);
    WithSocketJoined(t, |t|, e, mid, e', ctx, k);
    s := [e] + mid + [e'];
  }

  /** The socket of the round, from socket to close. */
  method WithSocket(env: Env, ctx: nat, k: Setting, ghost t0: Trace, ghost stack: seq<nat>) returns (ghost s: Trace)
    requires Holding(t0, env.trace, stack) && Is(env.trace, ctx, CtxObject)
    modifies env
    ensures Holding(t0, env.trace, stack) && Live(env.trace) == Live(old(env.trace))
    ensures Tally(env.trace) == Tally(old(env.trace))
    ensures env.trace == old(env.trace) + s && Climbed(SocketRung, s, |old(env.trace)|, k, ctx, 0)
  {
    var sock := Make(env, Socket, 0, t0, stack);
    ghost var e := env.trace[|old(env.trace)|];
    s := [e];
    if sock != 0 {
      MadeAndDropped(old(Live(env.trace)), sock, Obj(SocketObject, 0));
      s := UseMadeSocket(env, ctx, sock, k, old(env.trace), e, t0, stack + [sock]);
      assert (stack + [sock])[..|stack|] == stack;
    }
  }

  /** The rung failed2: what is done with the CTX, then wolfSSL_CTX_free. */
  method UseCtx(env: Env, ctx: nat, k: Setting,
                ghost t0: Trace, ghost stack: seq<nat>)
      returns (ghost s: Trace, ghost e: Event)
    requires Holding(t0, env.trace, stack) && stack != [] && ctx == stack[|stack| - 1]
    requires Is(env.trace, ctx, CtxObject)
    modifies env
    ensures Holding(t0, env.trace, stack[..|stack| - 1]) && Live(env.trace) == Live(old(env.trace)) - {ctx}
    ensures Tally(env.trace) == Tally(old(env.trace))
    ensures env.trace == old(env.trace) + s + [e] && e.op == CtxFree && e.on == ctx
    ensures Climbed(SocketRung, s, |old(env.trace)|, k, ctx, 0)
  {
    assert Is(env.trace, ctx, WorksOn(CtxFree)) && Destroys(CtxFree);
    s := WithSocket(env, ctx, k, t0, stack);
    e := Drop(env, CtxFree, ctx, t0, stack);
  }

  lemma WithCtxJoined(t: Trace, at: nat, e: Event, s: Trace, e': Event, k: Setting)
    requires e.op == CtxNew(false, k.tls13) && e.on == 0 && Ok(e.op, e.ret) && e'.op == CtxFree && e'.on == at + 1
    requires Climbed(SocketRung, s, at + 1, k, at + 1, 0)
    ensures t + [e] + s + [e'] == t + ([e] + s + [e'])
    ensures Climbed(CtxRung, [e] + s + [e'], at, k, 0, 0)
  {
    Bracketed(e, s, e');
  }

  /** The CTX of the round, once it is made: what is done with it, wolfSSL_CTX_free, and the calls since it was
      made */
  method UseMadeCtx(env: Env, ctx: nat, k: Setting, ghost t: Trace, ghost e: Event,
                    ghost t0: Trace, ghost stack: seq<nat>)
      returns (ghost s: Trace)
    requires Holding(t0, env.trace, stack) && stack != [] && ctx == stack[|stack| - 1]
    requires Is(env.trace, ctx, CtxObject)
    requires env.trace == t + [e] && e.op == CtxNew(false, k.tls13) && e.on == 0 && Ok(e.op, e.ret) && ctx == |t| + 1
    modifies env
    ensures Holding(t0, env.trace, stack[..|stack| - 1]) && Live(env.trace) == Live(old(env.trace)) - {ctx}
    ensures Tally(env.trace) == Tally(old(env.trace))
    ensures env.trace == t + s && Climbed(CtxRung, s, |t|, k, 0, 0)
  {
    ghost var mid, e' := UseCtx(env, ctx, k, t0, stack);
    WithCtxJoined(t, |t|, e, mid, e', k);
    s := [e] + mid + [e'];
  }

  /** The CTX of the round, from wolfSSL_CTX_new to wolfSSL_CTX_free. */
  method WithCtx(env: Env, k: Setting, ghost t0: Trace, ghost stack: seq<nat>) returns (ghost s: Trace)
    requires Holding(t0, env.trace, stack)
    modifies env
    ensures Holding(t0, env.trace, stack) && Live(env.trace) == Live(old(env.trace))
    ensures Tally(env.trace) == Tally(old(env.trace))
    ensures env.trace == old(env.trace) + s && Climbed(CtxRung, s, |old(env.trace)|, k, 0, 0)
  {
    var ctx := Make(env, CtxNew(false, k.tls13), 0, t0, stack);
    ghost var e := env.trace[|old(env.trace)|];
    s := [e];
    if ctx != 0 {
      MadeAndDropped(old(Live(env.trace)), ctx, Obj(CtxObject, 0));
      s := UseMadeCtx(env, ctx, k, old(env.trace), e, t0, stack + [ctx]);
      assert (stack + [ctx])[..|stack|] == stack;
    }
  }

  /** At the start of a round nothing is held. */
  lemma HoldingNothing(t0: Trace)
    requires Lawful(t0)
    ensures Holding(t0, t0, [])
  {
    LiveBound(t0);
  }

  method StartLibrary(env: Env, ghost t0: Trace) returns (ok: bool, ghost e: Event)
    requires Lawful(env.trace) && t0 == env.trace
    modifies env
    ensures Holding(t0, env.trace, []) && Live(env.trace) == Live(t0)
    ensures env.trace == t0 + [e] && e.op == Init && ok == (e.ret == WOLFSSL_SUCCESS)
    ensures InitBalance(env.trace) == InitBalance(t0) + (if ok then 1 else 0)
    ensures Sessions(env.trace) == Sessions(t0)
    ensures FailedInits(env.trace) == FailedInits(t0) + (if ok then 0 else 1)
  {
    HoldingNothing(t0);
    var ret := Use(env, Init, 0, t0, []);
    e := Event(Init, 0, ret);
    ok := ret == WOLFSSL_SUCCESS;
  }

  method StopLibrary(env: Env, ghost t0: Trace)
      returns (ghost e: Event)
    requires Holding(t0, env.trace, [])
    modifies env
    ensures Holding(t0, env.trace, []) && Live(env.trace) == Live(old(env.trace)) && old(env.trace) <= env.trace
    ensures InitBalance(env.trace) == InitBalance(old(env.trace)) - 1
    ensures Sessions(env.trace) == Sessions(old(env.trace))
    ensures FailedInits(env.trace) == FailedInits(old(env.trace))
    ensures env.trace == old(env.trace) + [e] && e.op == Op.Cleanup
  {
    var ret := Use(env, Op.Cleanup, 0, t0, []);
    e := Event(Op.Cleanup, 0, ret);
  }

  lemma RoundJoined(t: Trace, at: nat, e: Event, s: Trace, e': Event, k: Setting)
    requires e.op == Init && e'.op == Op.Cleanup
    requires if e.ret == WOLFSSL_SUCCESS then Climbed(CtxRung, s, at + 1, k, 0, 0) else s == []
    ensures t + [e] + s + [e'] == t + ([e] + s + [e'])
    ensures Climbed(LibraryRung, [e] + s + [e'], at, k, 0, 0)
  {
    Bracketed(e, s, e');
  }

  /** The calls of a round, bottom rung included */
  method Climb(env: Env, k: Setting) returns (inited: bool, ghost e: Event, ghost s: Trace, ghost e': Event)
    requires Lawful(env.trace)
    modifies env
    ensures Holding(old(env.trace), env.trace, []) && Live(env.trace) == Live(old(env.trace))
    ensures InitBalance(env.trace) == InitBalance(old(env.trace)) - (if inited then 0 else 1)
    ensures Sessions(env.trace) == Sessions(old(env.trace))
    ensures FailedInits(env.trace) == FailedInits(old(env.trace)) + (if inited then 0 else 1)
    ensures env.trace == old(env.trace) + [e] + s + [e'] && e.op == Init && e'.op == Op.Cleanup
    ensures inited == (e.ret == WOLFSSL_SUCCESS)
    ensures if inited then Climbed(CtxRung, s, |old(env.trace)| + 1, k, 0, 0) else s == []
  {
    ghost var t0 := env.trace;
    inited, e := StartLibrary(env, t0);
    s := [];
    if inited {
      s := WithCtx(env, k, t0, []);
    }
    e' := StopLibrary(env, t0);
  }

  /** One round of wolfssl_client, down to the rung failed1.  Its calls are those of `Climbed`: each rung is
      climbed exactly when the one before it was.  However far it gets: nothing it acquired is left,
      everything was released youngest first, a shutdown only follows a successful handshake and every
      successful handshake is shut down.  The calls of wolfSSL_Init and wolfSSL_Cleanup balance exactly when
      Init succeeded, because failed1 cleans up also when it did not. */
  method ClientRound(env: Env, k: Setting) returns (inited: bool, ghost s: Trace)
    requires Lawful(env.trace)
    modifies env
    ensures Holding(old(env.trace), env.trace, []) && Live(env.trace) == Live(old(env.trace))
    ensures InitBalance(env.trace) == InitBalance(old(env.trace)) <==> inited
    ensures !inited ==> InitBalance(env.trace) == InitBalance(old(env.trace)) - 1
    ensures Sessions(env.trace) == Sessions(old(env.trace))
    ensures FailedInits(env.trace) == FailedInits(old(env.trace)) + (if inited then 0 else 1)
    ensures env.trace == old(env.trace) + s && Climbed(LibraryRung, s, |old(env.trace)|, k, 0, 0)
  {
    ghost var e, mid, e';
    inited, e, mid, e' := Climb(env, k);
    RoundJoined(old(env.trace), |old(env.trace)|, e, mid, e', k);
    s := [e] + mid + [e'];
  }

  // ----- trust comes before the handshake

  /** The only handshake of a round, if it gets there: at this position of its calls, on the SSL made from the
      CTX of the round, and after trust was set on that CTX. */
  predicate Trusted(s: Trace, i: nat, at: nat, k: Setting) {
    var ctx := at + 2;
    var trusted := if k.verifyServer then 5 else 4;
    && i == trusted + 3 < |s|
    && s[1].op == CtxNew(false, k.tls13) && Ok(s[1].op, s[1].ret)
    && TrustIsSet(s[3..trusted], 0, ctx, k.verifyServer, k.ca)
    && s[trusted + 1].op == SslNew && s[trusted + 1].on == ctx && s[i].on == at + trusted + 2
  }

  lemma NoConnectInExchange(s: Trace, ssl: nat, patience: nat)
    requires IsExchange(s, ssl, patience)
    ensures forall i :: 0 <= i < |s| ==> !s[i].op.Connect?
  {
    assert forall i :: 1 <= i < |s| ==> s[i] == s[1..][i - 1];
  }

  lemma ConnectInTalk(s: Trace, at: nat, ssl: nat, sock: nat, k: Setting)
    requires Climbed(TalkRung, s, at, k, ssl, sock)
    ensures forall i :: 0 <= i < |s| && s[i].op.Connect? ==> i == 1 && s[i].on == ssl
  {
    if |s| > 2 {
      var mid := s[2..|s| - 1];
      assert Climbed(ExchangeRung, mid, at + 2, k, ssl, sock);
      NoConnectInExchange(mid, ssl, k.patience);
      assert forall i :: 2 <= i < |s| - 1 ==> s[i] == mid[i - 2];
    }
  }

  lemma ConnectInSsl(s: Trace, at: nat, ctx: nat, sock: nat, k: Setting)
    requires Climbed(SslRung, s, at, k, ctx, sock)
    ensures forall i :: 0 <= i < |s| && s[i].op.Connect? ==> i == 2 && s[i].on == at + 1
  {
    if |s| > 1 {
      var mid := s[1..|s| - 1];
      ConnectInTalk(mid, at + 1, at + 1, sock, k);
      assert forall i :: 1 <= i < |s| - 1 ==> s[i] == mid[i - 1];
    }
  }

  lemma ConnectInConnected(s: Trace, at: nat, ctx: nat, sock: nat, k: Setting)
    requires Climbed(ConnectRung, s, at, k, ctx, sock)
    ensures forall i :: 0 <= i < |s| && s[i].op.Connect? ==>
                          i == 3 && s[i].on == at + 2 && s[1].op == SslNew && s[1].on == ctx
  {
    if |s| > 1 {
      ConnectInSsl(s[1..], at + 1, ctx, sock, k);
      assert forall i :: 1 <= i < |s| ==> s[i] == s[1..][i - 1];
    }
  }

  /** In the segment between socket and close */
  predicate TrustedHere(s: Trace, i: nat, at: nat, ctx: nat, k: Setting) {
    var n := if k.verifyServer then 2 else 1;
    && i == n + 3 < |s| && TrustIsSet(s[..n], 0, ctx, k.verifyServer, k.ca)
    && s[n + 1].op == SslNew && s[n + 1].on == ctx && s[i].on == at + n + 2
  }

  lemma ConnectInSecured(s: Trace, at: nat, ctx: nat, sock: nat, k: Setting, i: nat)
    requires Climbed(TrustRung, s, at, k, ctx, sock) && i < |s| && s[i].op.Connect?
    ensures TrustedHere(s, i, at, ctx, k)
  {
    if k.verifyServer {
      assert i >= 2;
      ConnectInConnected(s[2..], at + 2, ctx, sock, k);
      assert s[2..][i - 2] == s[i] && s[2..][1] == s[3];
      assert s[..2][0] == s[0] && s[..2][1] == s[1];
    } else {
      assert i >= 1;
      ConnectInConnected(s[1..], at + 1, ctx, sock, k);
      assert s[1..][i - 1] == s[i] && s[1..][1] == s[2];
      assert s[..1][0] == s[0];
    }
  }

  lemma ConnectInSocket(s: Trace, at: nat, ctx: nat, k: Setting, i: nat)
    requires Climbed(SocketRung, s, at, k, ctx, 0) && i < |s| && s[i].op.Connect?
    ensures 1 <= i < |s| - 1 && TrustedHere(s[1..|s| - 1], i - 1, at + 1, ctx, k)
  {
    assert s[i] == s[1..|s| - 1][i - 1];
    ConnectInSecured(s[1..|s| - 1], at + 1, ctx, at + 1, k, i - 1);
  }

  lemma Nested(s: Trace, a: nat, b: nat)
    requires 2 * a + 2 * b <= |s|
    ensures s[a..|s| - a][b..|s| - 2 * a - b] == s[a + b..|s| - a - b]
  {
    var x, y := s[a..|s| - a][b..|s| - 2 * a - b], s[a + b..|s| - a - b];
    assert |x| == |y| && forall i :: 0 <= i < |y| ==> x[i] == s[a + b + i] == y[i];
  }

  lemma ConnectInCtx(s: Trace, at: nat, k: Setting, i: nat)
    requires Climbed(CtxRung, s, at, k, 0, 0) && i < |s| && s[i].op.Connect?
    ensures 2 <= i < |s| - 2 && s[0].op == CtxNew(false, k.tls13) && Ok(s[0].op, s[0].ret)
    ensures TrustedHere(s[2..|s| - 2], i - 2, at + 2, at + 1, k)
  {
    var mid := s[1..|s| - 1];
    assert s[i] == mid[i - 1];
    ConnectInSocket(mid, at + 1, at + 1, k, i - 1);
    Nested(s, 1, 1);
  }

  lemma TrustedThere(s: Trace, c: Trace, i: nat, at: nat, k: Setting)
    requires |s| >= 6 && c == s[3..|s| - 3] && i >= 3 && TrustedHere(c, i - 3, at + 3, at + 2, k)
    requires s[1].op == CtxNew(false, k.tls13) && Ok(s[1].op, s[1].ret)
    ensures Trusted(s, i, at, k)
  {
    var n := if k.verifyServer then 2 else 1;
    assert c[..n] == s[3..3 + n];
    assert c[n + 1] == s[n + 4] && c[i - 3] == s[i];
  }

  /** Trust before the handshake: whatever happens in a round, a handshake is only made on an SSL whose CTX has
      been told whom to trust: with verification, the CA was accepted and directly after it the peer was
      required to verify; without, verification was switched off. */
  lemma TrustBeforeHandshake(s: Trace, at: nat, k: Setting, i: nat)
    requires Climbed(LibraryRung, s, at, k, 0, 0) && i < |s| && s[i].op.Connect?
    ensures Trusted(s, i, at, k)
  {
    var mid := s[1..|s| - 1];
    assert s[i] == mid[i - 1];
    ConnectInCtx(mid, at + 1, k, i - 1);
    Nested(s, 1, 2);
    TrustedThere(s, mid[2..|mid| - 2], i, at, k);
  }

  /** Between two marks there is a round. */
  predicate RoundAt(t: Trace, marks: seq<nat>, i: nat, k: Setting)
    requires i + 1 < |marks|
  {
    && marks[i] <= marks[i + 1] <= |t|
    && Climbed(LibraryRung, t[marks[i]..marks[i + 1]], marks[i], k, 0, 0)
  }

  /** From call n on the trace is this number of rounds, one after the other. */
  ghost predicate AreRounds(t: Trace, n: nat, marks: seq<nat>, rounds: nat, k: Setting)
  {
    && |marks| == rounds + 1 && marks[0] == n && marks[rounds] == |t|
    && (forall i :: 0 <= i < rounds ==> RoundAt(t, marks, i, k))
  }

  lemma OneMoreRound(t: Trace, n: nat, marks: seq<nat>, rounds: nat, s: Trace, k: Setting)
    requires AreRounds(t, n, marks, rounds, k)
    requires Climbed(LibraryRung, s, |t|, k, 0, 0)
    ensures AreRounds(t + s, n, marks + [|t + s|], rounds + 1, k)
  {
    var marks' := marks + [|t + s|];
    forall i | 0 <= i < rounds + 1 ensures RoundAt(t + s, marks', i, k)
    {
      if i < rounds {
        assert RoundAt(t, marks, i, k);
        assert (t + s)[marks[i]..marks[i + 1]] == t[marks[i]..marks[i + 1]];
      } else {
        assert (t + s)[|t|..|t + s|] == s;
      }
    }
  }

  /** The endless loop, followed for any number of rounds; `marks` says where in the trace each round begins,
      and where the last one ends.  It ends with the objects it began with and no session open; the library
      has been stopped once too often for every round whose Init failed. */
  method Client(env: Env, k: Setting, rounds: nat)
      returns (failed: nat, ghost marks: seq<nat>)
    requires Lawful(env.trace)
    modifies env
    ensures Lawful(env.trace) && Live(env.trace) == Live(old(env.trace))
    ensures Sessions(env.trace) == Sessions(old(env.trace))
    ensures failed <= rounds && failed == FailedInits(env.trace) - FailedInits(old(env.trace))
    ensures InitBalance(env.trace) == InitBalance(old(env.trace)) - failed
    ensures AreRounds(env.trace, |old(env.trace)|, marks, rounds, k)
  {
    failed := 0;
    marks := [|env.trace|];
    var i := 0;
    while i < rounds
      invariant failed <= i <= rounds
      invariant Lawful(env.trace) && Live(env.trace) == Live(old(env.trace))
      invariant Sessions(env.trace) == Sessions(old(env.trace))
      invariant failed == FailedInits(env.trace) - FailedInits(old(env.trace))
      invariant InitBalance(env.trace) == InitBalance(old(env.trace)) - failed
      invariant AreRounds(env.trace, |old(env.trace)|, marks, i, k)
    {
      ghost var t := env.trace;
      var inited;
      ghost var s;
      inited, s := ClientRound(env, k);
      OneMoreRound(t, |old(env.trace)|, marks, i, s, k);
      marks := marks + [|env.trace|];
      if !inited {
        failed := failed + 1;
      }
      i := i + 1;
    }
  }
}

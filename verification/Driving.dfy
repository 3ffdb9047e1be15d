/** Driving a connection: the handshake and accept loops, ALPN registration, and the host name that is
    checked. */
module Driving {
  import opened Platform
  import opened Program
  import opened Config
  import opened Trust
  import opened Lifecycle

  // ----- the client's handshake

  /** What PSK callbacks add to the trace: deliveries and releases, nothing else. */
  lemma {:induction false} CallbacksOnlyHandOut(ans: Oracle, m: Machine, bufs: seq<Buffers>)
    ensures var m1 := PskCallbacks(ans, m, bufs);
            && m.trace <= m1.trace && m1.ssl == m.ssl
            && forall j :: |m.trace| <= j < |m1.trace| ==> m1.trace[j].op.Deliver? || m1.trace[j].op.GiveLock?
    decreases |bufs|
  {
    if bufs != [] {
      CallbacksOnlyHandOut(ans, PskCallback(ans, m, bufs[0]).0, bufs[1..]);
    }
  }

  /** The calls of one handshake on `ssl`, from call n on, and the result they make: wolfSSL_connect is called
      once, as the last call if it answers 1, and is otherwise followed by wolfSSL_get_error as the last
      call, which answers 2 or 3 (WANT_READ, WANT_WRITE) if the handshake is to be called again. */
  predicate HandshakeSays(t: Trace, n: nat, ssl: nat, ret: int) {
    && |t| > n
    && (ret == 1 <==> t[|t| - 1] == Event(Connect, ssl, 1))
    && (ret != 1 ==>
          && |t| > n + 1
          && t[|t| - 2].op == Connect && t[|t| - 2].on == ssl && t[|t| - 2].ret != 1
          && t[|t| - 1].op == GetError && t[|t| - 1].on == ssl
          && (ret == 0 <==> t[|t| - 1].ret == 2 || t[|t| - 1].ret == 3)
          && (ret == -1 <==> t[|t| - 1].ret != 2 && t[|t| - 1].ret != 3))
    && (forall j :: n <= j < |t| - (if ret == 1 then 1 else 2) ==> t[j].op.Deliver? || t[j].op.GiveLock?)
  }

  /** Up to call |t| - 1, which is a connect on `ssl`, callbacks were all there was. */
  predicate JustConnected(t: Trace, n: nat, ssl: nat) {
    && |t| > n && t[|t| - 1].op == Connect && t[|t| - 1].on == ssl
    && forall j :: n <= j < |t| - 1 ==> t[j].op.Deliver? || t[j].op.GiveLock?
  }

  lemma ConnectIsLast(ans: Oracle, m: Machine, bufs: seq<Buffers>)
    ensures var m1 := ConnectCall(ans, m, bufs);
            m.trace <= m1.trace && m1.ssl == m.ssl && JustConnected(m1.trace, |m.trace|, m.ssl)
  {
    CallbacksOnlyHandOut(ans, m, bufs);
  }

  lemma SaysDone(t: Trace, n: nat, ssl: nat)
    requires JustConnected(t, n, ssl) && t[|t| - 1].ret == 1
    ensures HandshakeSays(t, n, ssl, 1)
  {
  }

  lemma SaysWhy(t: Trace, n: nat, ssl: nat, e: Event)
    requires JustConnected(t, n, ssl) && t[|t| - 1].ret != 1 && e.op == GetError && e.on == ssl
    ensures HandshakeSays(t + [e], n, ssl, if e.ret == 2 || e.ret == 3 then 0 else -1)
  {
    assert (t + [e])[|t| - 1] == t[|t| - 1];
    assert forall j :: n <= j < |t| - 1 ==> (t + [e])[j] == t[j];
  }

  /** The result of a handshake is what wolfSSL answered. */
  lemma HandshakeAnswered(ans: Oracle, t: Trace, c: Conn, bufs: seq<Buffers>)
    ensures var (t1, c1, ret) := HandshakeOn(ans, t, c, bufs);
            && t <= t1 && HandshakeSays(t1, |t|, c.ssl, ret)
            && c1 == c.(state := if ret == 1 then ConnDone else if ret == 0 then c.state else ConnFail)
  {
    ConnectIsLast(ans, MachineOf(t, c), bufs);
    var m1 := ConnectCall(ans, MachineOf(t, c), bufs);
    if LastRet(m1) == 1 {
      SaysDone(m1.trace, |t|, c.ssl);
    } else {
      SaysWhy(m1.trace, |t|, c.ssl, Event(GetError, c.ssl, Answer(ans, m1.trace, GetError)));
    }
  }

  /** esp_wolfssl_handshake called over and over, with what it returned each time. */
  function Handshakes(ans: Oracle, t: Trace, c: Conn, calls: seq<seq<Buffers>>): (Trace, Conn, seq<int>)
    decreases |calls|
  {
    if calls == [] then (t, c, [])
    else
      var (t1, c1, ret) := HandshakeOn(ans, t, c, calls[0]);
      var (t2, c2, rets) := Handshakes(ans, t1, c1, calls[1..]);
      (t2, c2, [ret] + rets)
  }

  /** The state a sequence of results leaves: what the last result that is not pending says. */
  function StateAfter(before: ConnState, rets: seq<int>): ConnState {
    if rets == [] then before
    else
      var last := rets[|rets| - 1];
      if last == 1 then ConnDone else if last == -1 then ConnFail else StateAfter(before, rets[..|rets| - 1])
  }

  lemma {:induction false} StateAfterCons(before: ConnState, ret: int, rest: seq<int>)
    ensures StateAfter(before, [ret] + rest) == StateAfter(StateAfter(before, [ret]), rest)
    decreases |rest|
  {
    if rest == [] {
      assert [ret] + rest == [ret];
    } else {
      assert ([ret] + rest)[..|rest|] == [ret] + rest[..|rest| - 1];
      StateAfterCons(before, ret, rest[..|rest| - 1]);
    }
  }

  /** Call k, in a sequence of calls, is the handshake made after the first k. */
  lemma {:induction false} HandshakesStep(ans: Oracle, t: Trace, c: Conn, calls: seq<seq<Buffers>>, k: nat)
    requires k < |calls|
    ensures var (t0, c0, _) := Handshakes(ans, t, c, calls[..k]);
            var (t1, c1, ret) := HandshakeOn(ans, t0, c0, calls[k]);
            && Handshakes(ans, t, c, calls[..k + 1]).0 == t1
            && |Handshakes(ans, t, c, calls).2| == |calls| && Handshakes(ans, t, c, calls).2[k] == ret
            && c0.ssl == c.ssl
    decreases |calls|
  {
    var (t1, c1, ret) := HandshakeOn(ans, t, c, calls[0]);
    assert calls[..k + 1][0] == calls[0] && calls[..k + 1][1..] == calls[1..][..k];
    if k > 0 {
      assert calls[..k][0] == calls[0] && calls[..k][1..] == calls[1..][..k - 1];
      HandshakesStep(ans, t1, c1, calls[1..], k - 1);
    } else {
      if |calls| > 1 {
        HandshakesStep(ans, t1, c1, calls[1..], 0);
      }
      assert calls[..0] == [] && calls[1..][..0] == [];
    }
  }

  lemma {:induction false} HandshakesEnd(ans: Oracle, t: Trace, c: Conn, calls: seq<seq<Buffers>>)
    ensures var (_, c1, rets) := Handshakes(ans, t, c, calls);
            && |rets| == |calls| && (forall i :: 0 <= i < |rets| ==> rets[i] == 1 || rets[i] == 0 || rets[i] == -1)
            && c1 == c.(state := StateAfter(c.state, rets))
    decreases |calls|
  {
    if calls != [] {
      var (t1, c1, ret) := HandshakeOn(ans, t, c, calls[0]);
      HandshakesEnd(ans, t1, c1, calls[1..]);
      var rest := Handshakes(ans, t1, c1, calls[1..]).2;
      StateAfterCons(c.state, ret, rest);
      assert StateAfter(c.state, [ret]) == c1.state;
    }
  }

  /** Over any sequence of handshake calls: each result is what wolfSSL answered to that call; pending
      calls leave the connection as it is; after the last call that was not pending its state is done or
      failed, as that call said. */
  lemma {:induction false} HandshakesMoveState(ans: Oracle, t: Trace, c: Conn, calls: seq<seq<Buffers>>)
    ensures var (_, c1, rets) := Handshakes(ans, t, c, calls);
            && |rets| == |calls| && (forall i :: 0 <= i < |rets| ==> rets[i] == 1 || rets[i] == 0 || rets[i] == -1)
            && (forall i :: 0 <= i < |rets| ==>
                  HandshakeSays(Handshakes(ans, t, c, calls[..i + 1]).0, |Handshakes(ans, t, c, calls[..i]).0|,
                                c.ssl, rets[i]))
            && c1 == c.(state := StateAfter(c.state, rets))
    decreases |calls|
  {
    HandshakesEnd(ans, t, c, calls);
    var rets := Handshakes(ans, t, c, calls).2;
    forall i | 0 <= i < |rets|
      ensures HandshakeSays(Handshakes(ans, t, c, calls[..i + 1]).0, |Handshakes(ans, t, c, calls[..i]).0|,
                            c.ssl, rets[i])
    {
      HandshakesStep(ans, t, c, calls, i);
      var (t0, c0, _) := Handshakes(ans, t, c, calls[..i]);
      HandshakeAnswered(ans, t0, c0, calls[i]);
    }
  }

  // ----- the accept loop

  /** In a run whose accept loop starts at call number n, attempt k asks with call n + 2k and, unless it
      was successful (1), asks why with call n + 2k + 1; 2 and 3 mean "call again". */
  predicate PendingAttempt(ans: Oracle, n: nat, k: nat) {
    ans(n + 2 * k) != 1 && (ans(n + 2 * k + 1) == 2 || ans(n + 2 * k + 1) == 3)
  }

  /** The first k attempts are pending. */
  ghost predicate AllPending(ans: Oracle, n: nat, k: nat) {
    forall j: nat :: j < k ==> PendingAttempt(ans, n, j)
  }

  /** A loop that started at call number n made k pending attempts, and ended with trace length `len`
      as the next attempt was, or had no patience left. */
  ghost predicate EndedAfter(ans: Oracle, n: nat, patience: nat, k: nat, len: nat, end: AcceptEnd) {
    && AllPending(ans, n, k)
    && (match end
        case StillPending => k == patience && len == n + 2 * k
        case Accepted => k < patience && ans(n + 2 * k) == 1 && len == n + 2 * k + 1
        case Fatal => k < patience && ans(n + 2 * k) != 1 && !PendingAttempt(ans, n, k) && len == n + 2 * k + 2)
  }

  lemma EndedAtOnce(ans: Oracle, n: nat, patience: nat, len: nat, end: AcceptEnd)
    requires match end
             case StillPending => patience == 0 && len == n
             case Accepted => patience > 0 && ans(n) == 1 && len == n + 1
             case Fatal => patience > 0 && ans(n) != 1 && !PendingAttempt(ans, n, 0) && len == n + 2
    ensures EndedAfter(ans, n, patience, 0, len, end)
  {
  }

  lemma PendingLater(ans: Oracle, n: nat, k: nat)
    requires PendingAttempt(ans, n, 0) && AllPending(ans, n + 2, k)
    ensures AllPending(ans, n, k + 1)
  {
    forall j: nat | j < k + 1 ensures PendingAttempt(ans, n, j) {
      if j > 0 {
        assert PendingAttempt(ans, n + 2, j - 1);
        assert n + 2 + 2 * (j - 1) == n + 2 * j;
      }
    }
  }

  lemma EndedLater(ans: Oracle, n: nat, patience: nat, k: nat, len: nat, end: AcceptEnd)
    requires PendingAttempt(ans, n, 0) && EndedAfter(ans, n + 2, patience, k, len, end)
    ensures EndedAfter(ans, n, patience + 1, k + 1, len, end)
  {
    PendingLater(ans, n, k);
    assert n + 2 + 2 * k == n + 2 * (k + 1);
  }

  /** The loop seen through its answers alone: how many calls have been made at its end, and how it ends. */
  function Attempts(ans: Oracle, n: nat, patience: nat): (nat, AcceptEnd)
    decreases patience
  {
    if patience == 0 then (n, StillPending)
    else if ans(n) == WOLFSSL_SUCCESS then (n + 1, Accepted)
    else if IsPending(ans(n + 1)) then Attempts(ans, n + 2, patience - 1)
    else (n + 2, Fatal)
  }

  lemma {:induction false} AcceptsAreAttempts(ans: Oracle, m: Machine, patience: nat)
    ensures var (m1, end) := AcceptLoop(ans, m, patience);
            (|m1.trace|, end) == Attempts(ans, |m.trace|, patience)
    decreases patience
  {
    if patience > 0 {
      AcceptsAreAttempts(ans, Issue(ans, Issue(ans, m, Accept), GetError), patience - 1);
    }
  }

  lemma {:induction false} AttemptsStop(ans: Oracle, n: nat, patience: nat) returns (k: nat)
    ensures var (len, end) := Attempts(ans, n, patience);
            EndedAfter(ans, n, patience, k, len, end)
    decreases patience
  {
    var (len, end) := Attempts(ans, n, patience);
    k := 0;
    if patience > 0 && PendingAttempt(ans, n, 0) {
      var k2 := AttemptsStop(ans, n + 2, patience - 1);
      EndedLater(ans, n, patience - 1, k2, len, end);
      k := k2 + 1;
    } else {
      EndedAtOnce(ans, n, patience, len, end);
    }
  }

  /** The accept loop stops at exactly the first attempt that is not pending, and reports what that one
      was.  The lemma returns the number of pending attempts before it. */
  lemma AcceptStopsAtFirst(ans: Oracle, m: Machine, patience: nat) returns (k: nat)
    ensures var (m1, end) := AcceptLoop(ans, m, patience);
            EndedAfter(ans, |m.trace|, patience, k, |m1.trace|, end)
  {
    AcceptsAreAttempts(ans, m, patience);
    k := AttemptsStop(ans, |m.trace|, patience);
  }

  /** The first k attempts are pending, and attempt k succeeds, */
  ghost predicate SucceedsAt(ans: Oracle, n: nat, k: nat) {
    AllPending(ans, n, k) && ans(n + 2 * k) == 1
  }

  /** ... or neither succeeds nor asks to be called again. */
  ghost predicate FailsAt(ans: Oracle, n: nat, k: nat) {
    AllPending(ans, n, k) && ans(n + 2 * k) != 1 && ans(n + 2 * k + 1) != 2 && ans(n + 2 * k + 1) != 3
  }

  lemma OneEnd(ans: Oracle, n: nat, k: nat, k': nat)
    requires SucceedsAt(ans, n, k) || FailsAt(ans, n, k)
    requires SucceedsAt(ans, n, k') || FailsAt(ans, n, k')
    ensures k == k'
  {
    assert !PendingAttempt(ans, n, k) && !PendingAttempt(ans, n, k');
  }

  lemma EndIsAnswered(ans: Oracle, n: nat, patience: nat, k: nat, len: nat, end: AcceptEnd)
    requires EndedAfter(ans, n, patience, k, len, end)
    ensures end == Accepted <==> exists k: nat :: k < patience && SucceedsAt(ans, n, k)
    ensures end == Fatal <==> exists k: nat :: k < patience && FailsAt(ans, n, k)
    ensures end == StillPending <==> AllPending(ans, n, patience)
  {
    if end == StillPending {
      forall k': nat | k' < patience ensures !SucceedsAt(ans, n, k') && !FailsAt(ans, n, k') {
        assert PendingAttempt(ans, n, k');
      }
    } else {
      assert !PendingAttempt(ans, n, k);
      assert if end == Accepted then SucceedsAt(ans, n, k) else FailsAt(ans, n, k);
      forall k': nat | SucceedsAt(ans, n, k') || FailsAt(ans, n, k') ensures k' == k {
        OneEnd(ans, n, k, k');
      }
    }
  }

  /** Conversely: after k pending attempts, one that is not pending ends the loop for every patience
      greater than k. */
  lemma {:induction false} AcceptEndsThere(ans: Oracle, m: Machine, patience: nat, k: nat)
    requires k < patience
    requires AllPending(ans, |m.trace|, k)
    requires !PendingAttempt(ans, |m.trace|, k)
    ensures AcceptLoop(ans, m, patience).1
            == if ans(|m.trace| + 2 * k) == WOLFSSL_SUCCESS then Accepted else Fatal
  {
    var k1 := AcceptStopsAtFirst(ans, m, patience);
    var (m1, end) := AcceptLoop(ans, m, patience);
    EndIsAnswered(ans, |m.trace|, patience, k1, |m1.trace|, end);
    assert SucceedsAt(ans, |m.trace|, k) || FailsAt(ans, |m.trace|, k);
  }

  /** From call n on: accept, and after every accept that did not succeed get_error, on this SSL. */
  predicate Alternates(t: Trace, n: nat, ssl: nat) {
    forall j :: n <= j < |t| ==> t[j].on == ssl && t[j].op == if (j - n) % 2 == 0 then Accept else GetError
  }

  lemma AlternatesCons(t: Trace, n: nat, ssl: nat)
    requires n + 2 <= |t| && t[n].op == Accept && t[n].on == ssl && t[n + 1].op == GetError && t[n + 1].on == ssl
    requires Alternates(t, n + 2, ssl)
    ensures Alternates(t, n, ssl)
  {
    forall j | n <= j < |t| ensures t[j].on == ssl && t[j].op == if (j - n) % 2 == 0 then Accept else GetError {
      assert (j - n) % 2 == (j - (n + 2)) % 2;
    }
  }

  lemma {:induction false} AcceptCalls(ans: Oracle, m: Machine, patience: nat)
    ensures var t1 := AcceptLoop(ans, m, patience).0.trace;
            m.trace <= t1 && Alternates(t1, |m.trace|, m.ssl)
    decreases patience
  {
    if patience > 0 {
      var m1 := Issue(ans, m, Accept);
      var m2 := Issue(ans, m1, GetError);
      if LastRet(m1) != WOLFSSL_SUCCESS {
        var t1 := AcceptLoop(ans, m, patience).0.trace;
        if IsPending(LastRet(m2)) {
          AcceptCalls(ans, m2, patience - 1);
        }
        assert m2.trace <= t1;
        assert t1[|m.trace|] == m2.trace[|m.trace|] && t1[|m1.trace|] == m2.trace[|m1.trace|];
        AlternatesCons(t1, |m.trace|, m.ssl);
      }
    }
  }

  // ----- server sessions

  /** The rest of a session after its create, by what wolfSSL answers from call n on. */
  lemma AfterCreateAnswered(ans: Oracle, t0: Trace, c0: Conn, err: EspErr, patience: nat)
    ensures var (t1, c1, ret) := AfterCreate(ans, t0, c0, err, patience);
            var n := |t0|;
            && c1 == c0.(state := if ret == Some(-1) then ConnFail else c0.state, wired := c0.wired || err == EspOk)
            && (if err != EspOk then t1 == t0 && ret == Some(-1)
                else
                  && t0 <= t1 && Alternates(t1, n, c0.ssl)
                  && (ret == Some(0) <==> exists k: nat :: k < patience && SucceedsAt(ans, n, k))
                  && (ret == Some(-1) <==> exists k: nat :: k < patience && FailsAt(ans, n, k))
                  && (ret == None <==> AllPending(ans, n, patience)))
  {
    if err == EspOk {
      var m := MachineOf(t0, c0.(wired := true));
      var (m1, end) := AcceptLoop(ans, m, patience);
      AcceptCalls(ans, m, patience);
      var k := AcceptStopsAtFirst(ans, m, patience);
      EndIsAnswered(ans, |t0|, patience, k, |m1.trace|, end);
    }
  }

  /** The result of a server session is what wolfSSL answered.  A failed create is -1; otherwise, n being the
      call after it, the result is 0 if some attempt succeeds after pending ones only, -1 if some attempt
      fails after pending ones only, and there is none yet if all attempts are pending. */
  lemma SessionAnswered(ans: Oracle, b: Build, t: Trace, c: Conn, cfg: ServerCfg, fd: int, patience: nat)
    ensures var (t0, c0, err) := CreateOn(ans, b, t, c.(fd := fd), AsServer(cfg), None);
            var (t1, c1, ret) := ServerSessionOn(ans, b, t, c, cfg, fd, patience);
            var n := |t0|;
            && c1.fd == fd && c1.ctx == c0.ctx && c1.ssl == c0.ssl
            && c1.state == (if ret == Some(-1) then ConnFail else c.state)
            && (if err != EspOk then t1 == t0 && ret == Some(-1) && c1.wired == c.wired
                else
                  && c1.wired && t0 <= t1 && Alternates(t1, n, c0.ssl)
                  && (ret == Some(0) <==> exists k: nat :: k < patience && SucceedsAt(ans, n, k))
                  && (ret == Some(-1) <==> exists k: nat :: k < patience && FailsAt(ans, n, k))
                  && (ret == None <==> AllPending(ans, n, patience)))
  {
    var (t0, c0, err) := CreateOn(ans, b, t, c.(fd := fd), AsServer(cfg), None);
    AfterCreateAnswered(ans, t0, c0, err, patience);
  }

  // ----- ALPN

  /** From trace `t` to trace `t1`, exactly the first `k` protocols were offered to `ssl`, in order, and
      all but possibly the last were accepted. */
  ghost predicate Offered(t: Trace, ssl: nat, protos: seq<cstring>, k: nat, t1: Trace) {
    && t <= t1 && |t1| == |t| + k && k <= |protos|
    && (forall i :: 0 <= i < k ==> t1[|t| + i].op == UseAlpn(protos[i]) && t1[|t| + i].on == ssl)
    && (forall j :: |t| <= j < |t1| - 1 ==> t1[j].ret == WOLFSSL_SUCCESS)
  }

  /** ... and the last one decides: all are offered and accepted, or it was refused. */
  ghost predicate OfferedUntil(t: Trace, ssl: nat, protos: seq<cstring>, k: nat, t1: Trace, err: EspErr) {
    && Offered(t, ssl, protos, k, t1)
    && (if err == EspOk then k == |protos| && (k > 0 ==> t1[|t1| - 1].ret == WOLFSSL_SUCCESS)
        else err == AlpnFailed && k > 0 && t1[|t1| - 1].ret != WOLFSSL_SUCCESS)
  }

  lemma OfferedCons(t: Trace, e: Event, ssl: nat, protos: seq<cstring>, k: nat, t1: Trace, err: EspErr)
    requires protos != [] && e.op == UseAlpn(protos[0]) && e.on == ssl && e.ret == WOLFSSL_SUCCESS
    requires OfferedUntil(t + [e], ssl, protos[1..], k, t1, err)
    ensures OfferedUntil(t, ssl, protos, k + 1, t1, err)
  {
    assert t1[|t|] == (t + [e])[|t|] == e;
    assert t <= t + [e] <= t1;
    forall i | 0 <= i < k + 1 ensures t1[|t| + i].op == UseAlpn(protos[i]) && t1[|t| + i].on == ssl {
      if i > 0 {
        assert t1[|t + [e]| + (i - 1)].op == UseAlpn(protos[1..][i - 1]);
      }
    }
    forall j | |t| <= j < |t1| - 1 ensures t1[j].ret == WOLFSSL_SUCCESS {
      assert j == |t| || |t + [e]| <= j;
    }
  }

  lemma OfferedFirst(t: Trace, e: Event, ssl: nat, protos: seq<cstring>)
    requires protos != [] && e.op == UseAlpn(protos[0]) && e.on == ssl && e.ret != WOLFSSL_SUCCESS
    ensures OfferedUntil(t, ssl, protos, 1, t + [e], AlpnFailed)
  {
    assert (t + [e])[|t|] == e && t <= t + [e];
  }

  /** The protocols are offered in the order of the list, each once, up to and including the first one
      that is refused; registration succeeds exactly when none is. */
  lemma {:induction false} AlpnInOrder(ans: Oracle, m: Machine, protos: seq<cstring>) returns (k: nat)
    requires m.tmp == 0
    ensures var (m1, err) := Exec(ans, m, UseProtos(protos));
            OfferedUntil(m.trace, m.ssl, protos, k, m1.trace, err)
    decreases |protos|
  {
    k := 0;
    if protos != [] {
      var (first, rest) := (Do(UseAlpn(protos[0]), AlpnFailed), UseProtos(protos[1..]));
      assert UseProtos(protos) == [first] + rest;
      ExecOne(ans, m, first, rest);
      var e := Event(first.op, m.ssl, Answer(ans, m.trace, first.op));
      var m1 := Issue(ans, m, first.op);
      assert m1 == m.(trace := m.trace + [e]);
      k := 1;
      if Ok(e.op, e.ret) {
        var k1 := AlpnInOrder(ans, m1, protos[1..]);
        var (m2, err) := Exec(ans, m1, rest);
        OfferedCons(m.trace, e, m.ssl, protos, k1, m2.trace, err);
        k := k1 + 1;
      } else {
        OfferedFirst(m.trace, e, m.ssl, protos);
      }
    }
  }

  // ----- the host name

  /** One name, for the certificate check and for SNI, on this SSL. */
  predicate NameUsed(t: Trace, k: nat, ssl: nat, name: seq<byte>) {
    && k + 1 < |t|
    && t[k] == Event(CheckDomain(name), ssl, WOLFSSL_SUCCESS)
    && t[k + 1] == Event(UseSni(name), ssl, WOLFSSL_SUCCESS)
  }

  /** The first call of a program that succeeds */
  lemma SucceedingCall(ans: Oracle, m: Machine, p: seq<Instr>) returns (m1: Machine, ret: int)
    requires p != [] && p[0].Do? && p[0].err != EspOk && Exec(ans, m, p).1 == EspOk
    ensures Exec(ans, m, p) == Exec(ans, m1, p[1..])
    ensures m1.trace == m.trace + [Event(p[0].op, Operand(m, p[0].op), ret)] && Ok(p[0].op, ret)
    ensures !p[0].op.SslNew? && !p[0].op.SslFree? ==> m1.ssl == m.ssl
  {
    m1 := Issue(ans, m, p[0].op);
    ret := Answer(ans, m.trace, p[0].op);
  }

  lemma NameUsedLater(t: Trace, t1: Trace, k: nat, ssl: nat, name: seq<byte>)
    requires NameUsed(t, k, ssl, name) && t <= t1
    ensures NameUsed(t1, k, ssl, name)
  {
  }

  lemma NameJustUsed(t: Trace, ssl: nat, name: seq<byte>)
    ensures NameUsed(t + [Event(CheckDomain(name), ssl, WOLFSSL_SUCCESS)] + [Event(UseSni(name), ssl, WOLFSSL_SUCCESS)],
                     |t|, ssl, name)
  {
  }

  lemma NameUsedByCalls(ans: Oracle, m: Machine, name: seq<byte>, p: seq<Instr>)
    requires |p| >= 2 && Exec(ans, m, p).1 == EspOk
    requires p[0] == Do(CheckDomain(name), SetHostnameFailed) && p[1] == Do(UseSni(name), SetHostnameFailed)
    ensures NameUsed(Exec(ans, m, p).0.trace, |m.trace|, m.ssl, name)
  {
    var m1, _ := SucceedingCall(ans, m, p);
    var m2, _ := SucceedingCall(ans, m1, p[1..]);
    NameJustUsed(m.trace, m.ssl, name);
    ExecGrows(ans, m2, p[1..][1..]);
    NameUsedLater(m2.trace, Exec(ans, m, p).0.trace, |m.trace|, m.ssl, name);
  }

  lemma HostProgramCalls(cfg: ClientCfg, host: seq<byte>)
    requires !cfg.skipCommonName
    ensures var (p, name) := (HostProgram(cfg, host), HostName(cfg, host));
            && |p| == 4 && p[0] == Do(Malloc(|name| + 1), NoMem)
            && p[1..][0] == Do(CheckDomain(name), SetHostnameFailed)
            && p[1..][1] == Do(UseSni(name), SetHostnameFailed)
  {
  }

  lemma NameUsedByProgram(ans: Oracle, m: Machine, name: seq<byte>, p: seq<Instr>)
    requires |p| == 4 && Exec(ans, m, p).1 == EspOk && p[0] == Do(Malloc(|name| + 1), NoMem)
    requires p[1..][0] == Do(CheckDomain(name), SetHostnameFailed)
    requires p[1..][1] == Do(UseSni(name), SetHostnameFailed)
    ensures NameUsed(Exec(ans, m, p).0.trace, |m.trace| + 1, m.ssl, name)
  {
    var m1, _ := SucceedingCall(ans, m, p);
    NameUsedByCalls(ans, m1, name, p[1..]);
  }

  lemma NameUsedByHostProgram(ans: Oracle, m: Machine, cfg: ClientCfg, host: seq<byte>)
    requires !cfg.skipCommonName && Exec(ans, m, HostProgram(cfg, host)).1 == EspOk
    ensures NameUsed(Exec(ans, m, HostProgram(cfg, host)).0.trace, |m.trace| + 1, m.ssl, HostName(cfg, host))
  {
    HostProgramCalls(cfg, host);
    NameUsedByProgram(ans, m, HostName(cfg, host), HostProgram(cfg, host));
  }

  lemma NameUsedByPost(ans: Oracle, m: Machine, b: Build, cfg: ClientCfg, host: seq<byte>, fd: int)
    requires !cfg.skipCommonName && Exec(ans, m, ClientPost(b, cfg, host, fd)).1 == EspOk
    ensures NameUsed(Exec(ans, m, ClientPost(b, cfg, host, fd)).0.trace, |m.trace| + 1, m.ssl, HostName(cfg, host))
  {
    var h := HostProgram(cfg, host);
    var rest := AlpnProgram(b, cfg) + (OcspProgram(b) + [Do(SetFd(fd), EspFail)]);
    assert RealErrors(h) by {
      HostKeeps(cfg, host, true);
    }
    ExecAppend(ans, m, h, rest);
    NameUsedByHostProgram(ans, m, cfg, host);
    ExecGrows(ans, Exec(ans, m, h).0, rest);
  }

  lemma PostKeepsSsl(ans: Oracle, m: Machine, b: Build, cfg: ClientCfg, host: seq<byte>, fd: int)
    requires Exec(ans, m, ClientPost(b, cfg, host, fd)).1 == EspOk
    ensures Exec(ans, m, ClientPost(b, cfg, host, fd)).0.ssl == m.ssl
  {
    PostKeeps(b, cfg, host, fd, true);
    SettingsKept(ans, m, ClientPost(b, cfg, host, fd), WithSsl(true));
  }

  /** The name to check: the configured common name, or else the host up to its first NUL. */
  predicate IsHostName(cfg: ClientCfg, host: seq<byte>, name: seq<byte>) {
    if cfg.commonName.Some? then name == cfg.commonName.value
    else name <= host && 0 !in name && (name == host || host[|name|] == 0)
  }

  /** A client configured to check names does: on success its SSL has accepted the name to check, the
      configured common name or else the host, and the same name as SNI, before any handshake. */
  lemma ClientChecksName(ans: Oracle, m: Machine, b: Build, cfg: ClientCfg, host: seq<byte>,
                         store: Option<seq<byte>>, lock: bool, fd: int) returns (k: nat, name: seq<byte>)
    requires !cfg.skipCommonName
    requires Exec(ans, m, ClientProgram(b, cfg, host, store, lock, fd)).1 == EspOk
    ensures var m1 := Exec(ans, m, ClientProgram(b, cfg, host, store, lock, fd)).0;
            m1.ssl <= k && NameUsed(m1.trace, k, m1.ssl, name) && IsHostName(cfg, host, name)
  {
    var (pre, post) := (ClientPre(b, cfg, store, lock), ClientPost(b, cfg, host, fd));
    assert RealErrors(pre) by {
      PreKeeps(b, cfg, store, lock);
    }
    var mc, mp, ms, m1 := VisitStations(ans, m, CtxNew(false, b.tls13), pre, post);
    NameUsedByPost(ans, ms, b, cfg, host, fd);
    PostKeepsSsl(ans, ms, b, cfg, host, fd);
    k, name := |ms.trace| + 1, HostName(cfg, host);
  }
}

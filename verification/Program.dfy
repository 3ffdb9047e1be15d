/** Straight-line driver programs.  A configuration function of the backend issues calls in a fixed
    order and leaves at the first one that fails, freeing its temporary heap block if it holds one.
    Here such a function is a list of instructions and `Exec` is that discipline.  `Check` is a small
    ownership checker for programs; `ExecSound` proves that whatever it accepts keeps every rule of
    the ledger, for all answers of the outside world. */
module Program {
  import opened Platform
  import opened Ledger

  datatype EspErr =
    | EspOk | EspFail | NoMem | InvalidArg | InvalidState | NotSupported | Timeout
    | CtxSetupFailed | SslSetupFailed | CertVerifySetupFailed | SetHostnameFailed | AlpnFailed

  /** `Do` issues a call and fails with `err` if the call fails; `Refuse` fails without a call. */
  datatype Instr = Do(op: Op, err: EspErr) | Refuse(err: EspErr)

  /** The trace so far and the pointers a connection owns: priv_ctx, priv_ssl and one temporary heap
      block.  0 is NULL. */
  datatype Machine = Machine(trace: Trace, ctx: nat, ssl: nat, tmp: nat)

  function Operand(m: Machine, op: Op): nat {
    match WorksOn(op)
    case CtxObject => m.ctx
    case SslObject => m.ssl
    case HeapObject => m.tmp
    case _ => 0
  }

  /** Issue one call and store or clear the pointer it concerns. */
  function Issue(ans: Oracle, m: Machine, op: Op): Machine {
    var ret := Answer(ans, m.trace, op);
    var t := m.trace + [Event(op, Operand(m, op), ret)];
    var h := if Ok(op, ret) then |t| else 0;
    match op
    case CtxNew(_, _) => m.(trace := t, ctx := h)
    case SslNew => m.(trace := t, ssl := h)
    case Malloc(_) => m.(trace := t, tmp := h)
    case CtxFree => m.(trace := t, ctx := 0)
    case SslFree => m.(trace := t, ssl := 0)
    case HeapFree => m.(trace := t, tmp := 0)
    case _ => m.(trace := t)
  }

  predicate Succeeds(ans: Oracle, m: Machine, op: Op) {
    Ok(op, Answer(ans, m.trace, op))
  }

  /** free(tmp) if there is a temporary block */
  function DropTmp(ans: Oracle, m: Machine): Machine {
    if m.tmp != 0 then Issue(ans, m, HeapFree) else m
  }

  function Exec(ans: Oracle, m: Machine, p: seq<Instr>): (Machine, EspErr)
    decreases |p|
  {
    if p == [] then (m, EspOk)
    else if p[0].Refuse? then (DropTmp(ans, m), p[0].err)
    else if Succeeds(ans, m, p[0].op) then Exec(ans, Issue(ans, m, p[0].op), p[1..])
    else (DropTmp(ans, Issue(ans, m, p[0].op)), p[0].err)
  }

  /** Every way of failing carries an error code. */
  predicate RealErrors(p: seq<Instr>) {
    p == [] || (p[0].err != EspOk && RealErrors(p[1..]))
  }

  lemma {:induction false} ExecAppend(ans: Oracle, m: Machine, p: seq<Instr>, q: seq<Instr>)
    requires RealErrors(p)
    ensures var (m1, err) := Exec(ans, m, p);
            Exec(ans, m, p + q) == if err == EspOk then Exec(ans, m1, q) else (m1, err)
    decreases |p|
  {
    if p == [] {
      assert p + q == q;
    } else {
      assert (p + q)[1..] == p[1..] + q;
      if p[0].Do? && Succeeds(ans, m, p[0].op) {
        ExecAppend(ans, Issue(ans, m, p[0].op), p[1..], q);
      }
    }
  }

  lemma ExecOne(ans: Oracle, m: Machine, i: Instr, p: seq<Instr>)
    ensures Exec(ans, m, [i] + p) ==
            if i.Refuse? then (DropTmp(ans, m), i.err)
            else if Succeeds(ans, m, i.op) then Exec(ans, Issue(ans, m, i.op), p)
            else (DropTmp(ans, Issue(ans, m, i.op)), i.err)
  {
    assert ([i] + p)[1..] == p;
  }

  /** The operations of a stretch of trace, in order. */
  function Ops(t: Trace): (ops: seq<Op>)
    ensures |ops| == |t| && forall i :: 0 <= i < |t| ==> ops[i] == t[i].op
  {
    seq(|t|, i requires 0 <= i < |t| => t[i].op)
  }

  predicate AllOk(t: Trace) {
    forall i :: 0 <= i < |t| ==> Ok(t[i].op, t[i].ret)
  }

  /** The program refuses nowhere. */
  predicate Straight(p: seq<Instr>) {
    p == [] || (p[0].Do? && Straight(p[1..]))
  }

  function ProgramOps(p: seq<Instr>): (ops: seq<Op>)
    ensures Straight(p) ==> |ops| == |p|
  {
    if p == [] then [] else (if p[0].Do? then [p[0].op] else []) + ProgramOps(p[1..])
  }

  lemma Prepend(s: Trace, e: Event, s1: Trace, t: Trace)
    requires s1 == s + [e] && s1 <= t
    ensures s <= t && t[|s|] == e && t[|s|..] == [e] + t[|s1|..]
    ensures Ops(t[|s|..]) == [e.op] + Ops(t[|s1|..])
    ensures AllOk(t[|s|..]) <==> Ok(e.op, e.ret) && AllOk(t[|s1|..])
  {
  }

  /** A program succeeds only if it refuses nowhere; then its calls were made in order, each once,
      and every one of them succeeded. */
  lemma {:induction false} ExecSuccess(ans: Oracle, m: Machine, p: seq<Instr>)
    requires RealErrors(p) && Exec(ans, m, p).1 == EspOk
    ensures Straight(p)
    ensures var t := Exec(ans, m, p).0.trace;
            m.trace <= t && Ops(t[|m.trace|..]) == ProgramOps(p) && AllOk(t[|m.trace|..])
    decreases |p|
  {
    if p != [] {
      var m1 := Issue(ans, m, p[0].op);
      ExecSuccess(ans, m1, p[1..]);
      var e := Event(p[0].op, Operand(m, p[0].op), Answer(ans, m.trace, p[0].op));
      Prepend(m.trace, e, m1.trace, Exec(ans, m, p).0.trace);
    }
  }

  /** From trace `t0` to trace `t`, the first `n` calls of `p` were issued, in order, all but possibly the
      last successfully; then at most a temporary block was freed. */
  ghost predicate RanPrefix(t0: Trace, t: Trace, p: seq<Instr>, n: nat) {
    && n <= |p| && t0 <= t
    && |t0| + n <= |t| <= |t0| + n + 1
    && (forall i :: 0 <= i < n ==> p[i].Do? && t[|t0| + i].op == p[i].op)
    && (forall i :: |t0| <= i < |t0| + n - 1 ==> Ok(t[i].op, t[i].ret))
    && (|t| > |t0| + n ==> t[|t| - 1].op == HeapFree)
  }

  lemma RanPrefixCons(t0: Trace, e: Event, t: Trace, p: seq<Instr>, n: nat)
    requires p != [] && p[0].Do? && e.op == p[0].op && Ok(e.op, e.ret)
    requires RanPrefix(t0 + [e], t, p[1..], n)
    ensures RanPrefix(t0, t, p, n + 1)
  {
    assert t[|t0|] == e;
    forall i | 1 <= i < n + 1 ensures p[i].Do? && t[|t0| + i].op == p[i].op {
      assert p[1..][i - 1] == p[i];
      assert t[|t0 + [e]| + (i - 1)] == t[|t0| + i];
    }
  }

  lemma RanFirst(ans: Oracle, m: Machine, p: seq<Instr>)
    requires p != [] && p[0].Do?
    ensures RanPrefix(m.trace, DropTmp(ans, Issue(ans, m, p[0].op)).trace, p, 1)
  {
  }

  /** Whatever the outcome, the calls of a program, up to the temporary block it may still free, are
      a prefix of the program: nothing is issued out of order, twice or after a failed call. */
  lemma {:induction false} ExecIsAPrefix(ans: Oracle, m: Machine, p: seq<Instr>) returns (n: nat)
    ensures RanPrefix(m.trace, Exec(ans, m, p).0.trace, p, n)
    decreases |p|
  {
    n := 0;
    if p != [] && p[0].Do? {
      if Succeeds(ans, m, p[0].op) {
        var m1 := Issue(ans, m, p[0].op);
        n := ExecIsAPrefix(ans, m1, p[1..]);
        var e := Event(p[0].op, Operand(m, p[0].op), Answer(ans, m.trace, p[0].op));
        assert m1.trace == m.trace + [e];
        RanPrefixCons(m.trace, e, Exec(ans, m, p).0.trace, p, n);
        n := n + 1;
      } else {
        RanFirst(ans, m, p);
        n := 1;
      }
    }
  }

  /** A program only adds calls. */
  lemma ExecGrows(ans: Oracle, m: Machine, p: seq<Instr>)
    ensures m.trace <= Exec(ans, m, p).0.trace
  {
    var n := ExecIsAPrefix(ans, m, p);
  }

  // ----- the ownership checker

  /** What is known of a machine at some point of a program: has it created its CTX, its SSL, and
      does it hold a temporary block, and was the PSK mutex created at boot? */
  datatype Held = Held(ctx: bool, ssl: bool, tmp: bool, mutex: bool)

  /** What the last call was, as far as the PSK rules care. */
  datatype Last = Other | Locked | Stored

  datatype Known = Known(held: Held, last: Last)

  function After(op: Op, k: Known): Option<Known> {
    var h := k.held;
    match op
    case CtxNew(_, _) => if h.ctx || h.ssl || h.tmp then None else Some(Known(h.(ctx := true), Other))
    case SslNew => if h.ctx && !h.ssl && !h.tmp then Some(Known(h.(ssl := true), Other)) else None
    case Malloc(_) => if h.tmp then None else Some(Known(h.(tmp := true), Other))
    case HeapFree => if h.tmp then Some(Known(h.(tmp := false), Other)) else None
    case TakeLock => if h.mutex then Some(Known(h, Locked)) else None
    case StoreCreds(_, key) => if h.ctx && k.last == Locked && key != [] then Some(Known(h, Stored)) else None
    case SetPskCallback => if h.ctx && k.last == Stored then Some(Known(h, Other)) else None
    case LoadVerify(_, _) | UseCertChain(_, _) | UsePrivateKey(_, _) | SetVerify(_) | SetCipherList(_)
      | EnableOcsp(_) | EnableOcspStapling =>
      if h.ctx then Some(Known(h, Other)) else None
    case CheckDomain(_) | UseSni(_) | UseAlpn(_) | UseOcspStapling | SetFd(_) =>
      if h.ssl then Some(Known(h, Other)) else None
    case _ => None
  }

  function Check(p: seq<Instr>, k: Known): Option<Known> {
    if p == [] then Some(k)
    else if p[0].Refuse? then Check(p[1..], k)
    else match After(p[0].op, k)
      case None => None
      case Some(k1) => Check(p[1..], k1)
  }

  lemma {:induction false} CheckAppend(p: seq<Instr>, q: seq<Instr>, k: Known)
    requires Check(p, k).Some?
    ensures Check(p + q, k) == Check(q, Check(p, k).value)
  {
    if p == [] {
      assert p + q == q;
    } else {
      assert (p + q)[1..] == p[1..] + q;
      CheckAppend(p[1..], q, if p[0].Refuse? then k else After(p[0].op, k).value);
    }
  }

  type Objects = map<nat, Obj>

  /** No SSL but `ssl` made from `ctx` is alive. */
  predicate OnlyChild(live: Objects, ctx: nat, ssl: nat) {
    forall h :: h in live && live[h].kind == SslObject && live[h].parent == ctx ==> h == ssl
  }

  predicate PointsTo(m: Machine, h: nat) {
    h != 0 && (h == m.ctx || h == m.ssl || h == m.tmp)
  }

  predicate Alive(live: Objects, h: nat, k: Kind) {
    h in live && live[h].kind == k
  }

  /** Of the objects alive, exactly the ones alive at the start (`base`, named up to `n`) and the ones
      the machine points to are there, and the machine holds what `held` says.  Its pointers may be
      left-overs from before until they are overwritten. */
  ghost predicate Owns(base: Objects, n: nat, live: Objects, m: Machine, held: Held) {
    && (forall h :: h in live <==> h in base || PointsTo(m, h))
    && (forall h :: h in base ==> h <= n && h in live && live[h] == base[h])
    && (m.ctx != 0 ==> Alive(live, m.ctx, CtxObject) && OnlyChild(live, m.ctx, m.ssl))
    && (m.ssl != 0 ==> Alive(live, m.ssl, SslObject))
    && (m.tmp != 0 ==> Alive(live, m.tmp, HeapObject) && m.tmp > n)
    && (held.tmp <==> m.tmp != 0)
    && (if held.ctx then m.ctx > n else m.ctx == 0 || m.ctx in base)
    && (if held.ssl then m.ssl > n && held.ctx && live[m.ssl].parent == m.ctx else m.ssl == 0 || m.ssl in base)
    && (held.ctx && !held.ssl ==> OnlyChild(live, m.ctx, 0))
  }

  predicate LastWas(t: Trace, last: Last, ctx: nat) {
    match last
    case Other => true
    case Locked => t != [] && t[|t| - 1].op.TakeLock? && Ok(TakeLock, t[|t| - 1].ret)
    case Stored => t != [] && t[|t| - 1].op.StoreCreds? && t[|t| - 1].on == ctx
  }

  /** Every call so far was lawful and the machine owns what `k` says. */
  ghost predicate Sane(t0: Trace, m: Machine, k: Known) {
    && Lawful(m.trace)
    && |t0| <= |m.trace|
    && Owns(Live(t0), |t0|, Live(m.trace), m, k.held)
    && (k.held.mutex ==> LockExists(m.trace))
    && LastWas(m.trace, k.last, m.ctx)
  }

  lemma CheckedIsLegal(t0: Trace, m: Machine, k: Known, op: Op, ret: int)
    requires Sane(t0, m, k) && After(op, k).Some?
    requires op.TakeLock? ==> (Ok(op, ret) <==> !Taken(m.trace))
    ensures Legal(m.trace, Event(op, Operand(m, op), ret))
  {
  }

  lemma SameOwns(base: Objects, n: nat, live: Objects, m: Machine, held: Held, t1: Trace)
    requires Owns(base, n, live, m, held)
    ensures Owns(base, n, live, m.(trace := t1), held)
  {
  }

  /** What the last call was, after one more */
  lemma LastIs(t: Trace, k: Known, op: Op, e: Event, ctx: nat)
    requires After(op, k).Some? && e.op == op && (op.StoreCreds? ==> e.on == ctx)
    ensures Ok(op, e.ret) ==> LastWas(t + [e], After(op, k).value.last, ctx)
  {
    assert (t + [e])[|t|] == e;
  }

  /** One more lawful call: what is left to show of sanity is ownership. */
  lemma SaneAgain(t0: Trace, m: Machine, k: Known, op: Op, e: Event, m1: Machine, k1: Known)
    requires Sane(t0, m, k) && After(op, k).Some? && Legal(m.trace, e) && e.op == op
    requires m1.trace == m.trace + [e] && (op.StoreCreds? ==> e.on == m1.ctx)
    requires k1.held.mutex == k.held.mutex
    requires k1.last == Other || (Ok(op, e.ret) && k1.last == After(op, k).value.last)
    requires Owns(Live(t0), |t0|, Live(m1.trace), m1, k1.held)
    ensures Sane(t0, m1, k1)
  {
    Snoc(m.trace, e);
    LastIs(m.trace, k, op, e, m1.ctx);
  }

  lemma NeutralAfter(op: Op, k: Known)
    requires After(op, k).Some? && Makes(op) == NoObject && !Destroys(op)
    ensures After(op, k).value.held == k.held
  {
  }

  lemma NeutralIssue(ans: Oracle, m: Machine, op: Op)
    requires Makes(op) == NoObject && !Destroys(op)
    ensures Issue(ans, m, op) == m.(trace := m.trace + [Event(op, Operand(m, op), Answer(ans, m.trace, op))])
  {
  }

  lemma NeutralEvent(t0: Trace, m: Machine, k: Known, e: Event, k1: Known)
    requires Sane(t0, m, k) && After(e.op, k).Some? && Legal(m.trace, e) && e.on == Operand(m, e.op)
    requires Makes(e.op) == NoObject && !Destroys(e.op)
    requires k1 == if Ok(e.op, e.ret) then After(e.op, k).value else k.(last := Other)
    ensures Sane(t0, m.(trace := m.trace + [e]), k1)
  {
    Snoc(m.trace, e);
    NeutralAfter(e.op, k);
    SameOwns(Live(t0), |t0|, Live(m.trace), m, k.held, m.trace + [e]);
    SaneAgain(t0, m, k, e.op, e, m.(trace := m.trace + [e]), k1);
  }

  lemma NeutralSound(ans: Oracle, t0: Trace, m: Machine, k: Known, op: Op)
    requires Sane(t0, m, k) && After(op, k).Some?
    requires Makes(op) == NoObject && !Destroys(op)
    ensures Sane(t0, Issue(ans, m, op), if Succeeds(ans, m, op) then After(op, k).value else k.(last := Other))
  {
    var e := Event(op, Operand(m, op), Answer(ans, m.trace, op));
    CheckedIsLegal(t0, m, k, op, e.ret);
    NeutralIssue(ans, m, op);
    NeutralEvent(t0, m, k, e, if Ok(op, e.ret) then After(op, k).value else k.(last := Other));
  }

  lemma OwnsCreated(base: Objects, n: nat, live: Objects, m: Machine, held: Held, h: nat, o: Obj,
                    m1: Machine, held1: Held)
    requires Owns(base, n, live, m, held) && h > n
    requires forall x :: x in live ==> live[x].parent < x < h
    requires match o.kind
             case CtxObject => !held.ctx && !held.ssl
                               && m1 == m.(trace := m1.trace, ctx := h) && held1 == held.(ctx := true)
             case SslObject => held.ctx && !held.ssl && o.parent == m.ctx
                               && m1 == m.(trace := m1.trace, ssl := h) && held1 == held.(ssl := true)
             case HeapObject => !held.tmp && m1 == m.(trace := m1.trace, tmp := h) && held1 == held.(tmp := true)
             case _ => false
    requires o.parent < h
    ensures Owns(base, n, live[h := o], m1, held1)
  {
  }

  /** A failed creation sets the pointer it was meant for to NULL. */
  lemma OwnsNulled(base: Objects, n: nat, live: Objects, m: Machine, held: Held, k: Kind, m1: Machine)
    requires Owns(base, n, live, m, held)
    requires match k
             case CtxObject => !held.ctx && !held.ssl && m1 == m.(trace := m1.trace, ctx := 0)
             case SslObject => held.ctx && !held.ssl && m1 == m.(trace := m1.trace, ssl := 0)
             case HeapObject => !held.tmp && m1 == m.(trace := m1.trace, tmp := 0)
             case _ => false
    ensures Owns(base, n, live, m1, held)
  {
  }

  /** After a creating call the machine owns what it did, and the new object if there is one. */
  lemma CreatedOwns(base: Objects, n: nat, m: Machine, k: Known, op: Op, m1: Machine, e: Event)
    requires Owns(base, n, Live(m.trace), m, k.held) && n <= |m.trace|
    requires forall x :: x in Live(m.trace) ==> Live(m.trace)[x].parent < x <= |m.trace|
    requires After(op, k).Some? && Makes(op) != NoObject && e.op == op && e.on == Operand(m, op)
    requires m1.trace == m.trace + [e]
    requires var h := if Ok(op, e.ret) then |m.trace| + 1 else 0;
             m1 == match Makes(op)
                   case CtxObject => m.(trace := m1.trace, ctx := h)
                   case SslObject => m.(trace := m1.trace, ssl := h)
                   case HeapObject => m.(trace := m1.trace, tmp := h)
                   case _ => m
    ensures Owns(base, n, Live(m1.trace), m1, if Ok(op, e.ret) then After(op, k).value.held else k.held)
  {
    Snoc(m.trace, e);
    if Ok(op, e.ret) {
      OwnsCreated(base, n, Live(m.trace), m, k.held, |m.trace| + 1, Obj(Makes(op), e.on), m1, After(op, k).value.held);
    } else {
      OwnsNulled(base, n, Live(m.trace), m, k.held, Makes(op), m1);
    }
  }

  lemma CreateSound(ans: Oracle, t0: Trace, m: Machine, k: Known, op: Op)
    requires Sane(t0, m, k) && After(op, k).Some? && Makes(op) != NoObject
    ensures Sane(t0, Issue(ans, m, op), if Succeeds(ans, m, op) then After(op, k).value else k.(last := Other))
  {
    var e := Event(op, Operand(m, op), Answer(ans, m.trace, op));
    CheckedIsLegal(t0, m, k, op, e.ret);
    LiveBound(m.trace);
    CreatedOwns(Live(t0), |t0|, m, k, op, Issue(ans, m, op), e);
    SaneAgain(t0, m, k, op, e, Issue(ans, m, op),
              if Succeeds(ans, m, op) then After(op, k).value else k.(last := Other));
  }

  lemma OwnsFreed(base: Objects, n: nat, live: Objects, m: Machine, held: Held, m1: Machine)
    requires Owns(base, n, live, m, held) && held.tmp
    requires m1 == m.(trace := m1.trace, tmp := 0)
    ensures Owns(base, n, live - {m.tmp}, m1, held.(tmp := false))
  {
  }

  lemma FreeEvent(t0: Trace, m: Machine, k: Known, e: Event)
    requires Sane(t0, m, k) && k.held.tmp && e.op == HeapFree && e.on == m.tmp && Legal(m.trace, e)
    ensures Sane(t0, m.(trace := m.trace + [e], tmp := 0), Known(k.held.(tmp := false), Other))
  {
    var m1 := m.(trace := m.trace + [e], tmp := 0);
    Snoc(m.trace, e);
    OwnsFreed(Live(t0), |t0|, Live(m.trace), m, k.held, m1);
    SaneAgain(t0, m, k, HeapFree, e, m1, Known(k.held.(tmp := false), Other));
  }

  lemma HeapFreeSound(ans: Oracle, t0: Trace, m: Machine, k: Known)
    requires Sane(t0, m, k) && k.held.tmp
    ensures Sane(t0, Issue(ans, m, HeapFree), Known(k.held.(tmp := false), Other))
  {
    var e := Event(HeapFree, m.tmp, Answer(ans, m.trace, HeapFree));
    CheckedIsLegal(t0, m, k, HeapFree, e.ret);
    FreeEvent(t0, m, k, e);
  }

  /** One checked call keeps the machine sane. */
  lemma IssueSound(ans: Oracle, t0: Trace, m: Machine, k: Known, op: Op)
    requires Sane(t0, m, k) && After(op, k).Some?
    ensures Sane(t0, Issue(ans, m, op), if Succeeds(ans, m, op) then After(op, k).value else k.(last := Other))
  {
    if Makes(op) != NoObject {
      CreateSound(ans, t0, m, k, op);
    } else if !Destroys(op) {
      NeutralSound(ans, t0, m, k, op);
    } else {
      HeapFreeSound(ans, t0, m, k);
    }
  }

  lemma DropTmpSound(ans: Oracle, t0: Trace, m: Machine, k: Known)
    requires Sane(t0, m, k)
    ensures Sane(t0, DropTmp(ans, m), Known(k.held.(tmp := false), if k.held.tmp then Other else k.last))
    ensures DropTmp(ans, m).tmp == 0
  {
    if m.tmp != 0 {
      IssueSound(ans, t0, m, k, HeapFree);
    }
  }

  /** Soundness of the checker.  Whatever the answers: a checked program ends sane, without a
      temporary block, on success with everything the checker predicts, and on failure knowing at
      most that. */
  lemma {:induction false} ExecSound(ans: Oracle, t0: Trace, m: Machine, p: seq<Instr>, k: Known)
      returns (k': Known)
    requires Sane(t0, m, k) && RealErrors(p)
    requires Check(p, k).Some? && !Check(p, k).value.held.tmp
    ensures var (m1, err) := Exec(ans, m, p);
            && Sane(t0, m1, k') && m1.tmp == 0
            && (err == EspOk ==> k' == Check(p, k).value)
    decreases |p|
  {
    if p == [] {
      k' := k;
    } else if p[0].Refuse? {
      DropTmpSound(ans, t0, m, k);
      k' := Known(k.held.(tmp := false), if k.held.tmp then Other else k.last);
    } else {
      var op := p[0].op;
      IssueSound(ans, t0, m, k, op);
      var m1 := Issue(ans, m, op);
      if Succeeds(ans, m, op) {
        k' := ExecSound(ans, t0, m1, p[1..], After(op, k).value);
      } else {
        DropTmpSound(ans, t0, m1, k.(last := Other));
        k' := Known(k.held.(tmp := false), Other);
      }
    }
  }
}

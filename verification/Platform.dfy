/** Everything the ESP-TLS wolfSSL backend talks to and does not implement: wolfSSL, the heap, the
    FreeRTOS mutex and the socket layer.  Each call is an operation with a result code that an
    oracle chooses; the calls made so far form a trace. */
module Platform {

  type byte = x: int | 0 <= x < 256

  datatype Option<+T> = None | Some(value: T)

  datatype Format = Pem | Asn1

  datatype VerifyMode = VerifyNone | VerifyPeer | VerifyPeerAndRequireCert

  /** The kinds of object a call can create or work on. */
  datatype Kind = NoObject | CtxObject | SslObject | HeapObject | SocketObject

  datatype Op =
    // FreeRTOS
    | CreateMutex | TakeLock | GiveLock
    // in-place writes of the shared PSK buffers, and reads of them by the PSK callback
    | StoreCreds(hint: seq<byte>, key: seq<byte>)
    | Deliver(identity: seq<byte>, secret: seq<byte>)
    // wolfSSL, process wide
    | Init | Cleanup
    // wolfSSL, on a CTX
    | CtxNew(server: bool, tls13: bool)
    | LoadVerify(ca: seq<byte>, caFormat: Format)
    | UseCertChain(cert: seq<byte>, certFormat: Format)
    | UsePrivateKey(priv: seq<byte>, privFormat: Format)
    | SetVerify(mode: VerifyMode)
    | SetPskCallback
    | SetCipherList(suites: string)
    | EnableOcsp(checkAll: bool) | EnableOcspStapling
    | CtxFree
    // wolfSSL, on an SSL
    | SslNew
    | CheckDomain(domain: seq<byte>) | UseSni(sni: seq<byte>) | UseAlpn(proto: seq<byte>)
    | UseOcspStapling
    | SetFd(fd: int)
    | Connect | Accept | GetError | Write | Read
    | Shutdown | SslFree
    // heap
    | Malloc(size: nat) | HeapFree
    // sockets
    | Socket | SocketConnect | SocketClose

  /** One call: what was done, on which object (0 is NULL), and what came back. */
  datatype Event = Event(op: Op, on: nat, ret: int)

  type Trace = seq<Event>

  /** The result code of the n-th call of a run is the oracle's n-th answer. */
  type Oracle = nat -> int

  const WOLFSSL_SUCCESS := 1
  const WOLFSSL_ERROR_WANT_READ := 2
  const WOLFSSL_ERROR_WANT_WRITE := 3
  const WOLFSSL_ERROR_ZERO_RETURN := 6

  /** The kind of object an operation creates. */
  function Makes(op: Op): Kind {
    match op
    case CtxNew(_, _) => CtxObject
    case SslNew => SslObject
    case Malloc(_) => HeapObject
    case Socket => SocketObject
    case _ => NoObject
  }

  /** The kind of object an operation works on. */
  function WorksOn(op: Op): Kind {
    match op
    case StoreCreds(_, _) | LoadVerify(_, _) | UseCertChain(_, _) | UsePrivateKey(_, _) => CtxObject
    case SetVerify(_) | SetPskCallback | SetCipherList(_) => CtxObject
    case EnableOcsp(_) | EnableOcspStapling | CtxFree | SslNew => CtxObject
    case Deliver(_, _) | CheckDomain(_) | UseSni(_) | UseAlpn(_) | UseOcspStapling => SslObject
    case SetFd(_) | Connect | Accept | GetError | Write | Read | Shutdown | SslFree => SslObject
    case HeapFree => HeapObject
    case SocketConnect | SocketClose => SocketObject
    case _ => NoObject
  }

  predicate Destroys(op: Op) {
    op.CtxFree? || op.SslFree? || op.HeapFree? || op.SocketClose?
  }

  /** Did the call succeed, going by its result code?  Calls without a result never fail. */
  predicate Ok(op: Op, ret: int) {
    match op
    case CreateMutex | TakeLock | CtxNew(_, _) | SslNew | Malloc(_) => ret != 0
    case Socket => ret >= 0
    case SocketConnect => ret == 0
    case Init | LoadVerify(_, _) | UseCertChain(_, _) | UsePrivateKey(_, _) => ret == WOLFSSL_SUCCESS
    case SetCipherList(_) | EnableOcsp(_) | EnableOcspStapling => ret == WOLFSSL_SUCCESS
    case CheckDomain(_) | UseSni(_) | UseAlpn(_) | UseOcspStapling => ret == WOLFSSL_SUCCESS
    case Connect | Accept => ret == WOLFSSL_SUCCESS
    case _ => true
  }

  /** Is the shared PSK mutex taken after these calls? */
  function Taken(t: Trace): bool {
    if t == [] then false
    else
      var e := t[|t| - 1];
      if e.op.TakeLock? && Ok(e.op, e.ret) then true
      else if e.op.GiveLock? then false
      else Taken(t[..|t| - 1])
  }

  /** Backend calls are serialised on one task, so taking the mutex succeeds exactly when it is
      free; every other answer is the oracle's. */
  function Answer(ans: Oracle, t: Trace, op: Op): int {
    if op.TakeLock? then (if Taken(t) then 0 else 1) else ans(|t|)
  }

  /** The outside world as the C code meets it: a machine that answers calls and remembers them.
      An object created by a call is named by the length of the trace after that call. */
  class Env {
    const ans: Oracle
    var trace: Trace

    constructor (ans: Oracle, mutexCreated: int)
      ensures this.ans == ans && trace == [Event(CreateMutex, 0, mutexCreated)]
    {
      this.ans := ans;
      trace := [Event(CreateMutex, 0, mutexCreated)];
    }

    method Call(op: Op, on: nat) returns (ret: int)
      modifies this
      ensures ret == Answer(ans, old(trace), op)
      ensures trace == old(trace) + [Event(op, on, ret)]
    {
      ret := Answer(ans, trace, op);
      trace := trace + [Event(op, on, ret)];
    }

    /** A creating call: the new object's name, or 0 (NULL) when it fails. */
    method New(op: Op, on: nat) returns (h: nat)
      requires Makes(op) != NoObject
      modifies this
      ensures trace == old(trace) + [Event(op, on, Answer(ans, old(trace), op))]
      ensures h == if Ok(op, Answer(ans, old(trace), op)) then |trace| else 0
    {
      var ret := Call(op, on);
      h := if Ok(op, ret) then |trace| else 0;
    }

    /** malloc: NULL, or a new block of exactly the size asked for. */
    method Alloc(size: nat) returns (at: nat, block: array?<byte>)
      modifies this
      ensures trace == old(trace) + [Event(Malloc(size), 0, Answer(ans, old(trace), Malloc(size)))]
      ensures at == if Ok(Malloc(size), Answer(ans, old(trace), Malloc(size))) then |trace| else 0
      ensures if at == 0 then block == null else block != null && fresh(block) && block.Length == size
    {
      at := New(Malloc(size), 0);
      block := null;
      if at != 0 {
        block := new byte[size];
      }
    }

    /** wolfSSL_CTX_load_verify_buffer: `len` bytes of the memory object `mem` are presented.  A PEM
        range must be followed by a NUL inside the object. */
    method LoadVerify(ctx: nat, mem: seq<byte>, len: nat, format: Format) returns (ret: int)
      requires len <= |mem|
      requires format == Pem ==> len < |mem| && mem[len] == 0
      modifies this
      ensures ret == Answer(ans, old(trace), Op.LoadVerify(mem[..len], format))
      ensures trace == old(trace) + [Event(Op.LoadVerify(mem[..len], format), ctx, ret)]
    {
      ret := Call(Op.LoadVerify(mem[..len], format), ctx);
    }
  }
}

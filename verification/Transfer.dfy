/** Reading and writing through the backend, and the request and response loops of the HTTPS example on
    top of it. */
module Transfer {
  import opened Platform

  /** ESP-TLS's own codes (esp_tls_errors.h of ESP-IDF) */
  const ESP_TLS_ERR_SSL_WANT_READ := -0x6900
  const ESP_TLS_ERR_SSL_WANT_WRITE := -0x6880

  /** esp_tls_convert_wolfssl_err_to_ssize */
  function ConvertError(err: int): int {
    if err == WOLFSSL_ERROR_WANT_READ then ESP_TLS_ERR_SSL_WANT_READ
    else if err == WOLFSSL_ERROR_WANT_WRITE then ESP_TLS_ERR_SSL_WANT_WRITE
    else if err > 0 then -err else err
  }

  predicate IsWant(code: int) {
    code == ESP_TLS_ERR_SSL_WANT_READ || code == ESP_TLS_ERR_SSL_WANT_WRITE
  }

  /** The translation is never positive, and keeps "call again" apart from failure for exactly the codes
      whose magnitude is not one of ESP-TLS's own two, 26880 and 26752; wolfSSL's codes are far smaller. */
  lemma ConversionFaithful(err: int)
    ensures ConvertError(err) <= 0 && (ConvertError(err) == 0 <==> err == 0)
    ensures !(err == WOLFSSL_ERROR_WANT_READ || err == WOLFSSL_ERROR_WANT_WRITE)
            ==> ConvertError(err) == err || ConvertError(err) == -err
    ensures ConvertError(err) == ESP_TLS_ERR_SSL_WANT_READ
            <==> err == WOLFSSL_ERROR_WANT_READ || err == 26880 || err == -26880
    ensures ConvertError(err) == ESP_TLS_ERR_SSL_WANT_WRITE
            <==> err == WOLFSSL_ERROR_WANT_WRITE || err == 26752 || err == -26752
  {
  }

  /** One reply of wolfSSL_read or wolfSSL_write, with what wolfSSL_get_error says after it and, for a
      read, the bytes that arrived. */
  datatype Reply = Reply(ret: int, err: int, data: seq<byte>)

  /** wolfSSL never accepts more than it was offered. */
  function Accepted(a: Reply, offered: nat): int {
    if a.ret > offered then offered else a.ret
  }

  /** wolfSSL never fills more than it was given, and fills it with what arrived. */
  function Filled(a: Reply, room: nat): (n: int)
    ensures n <= room && n <= |a.data| && (n < 0 ==> n == a.ret)
  {
    var n := if a.ret > room then room else a.ret;
    if n > |a.data| then |a.data| else n
  }

  /** esp_wolfssl_write */
  function WriteCode(a: Reply, offered: nat): int {
    if Accepted(a, offered) <= 0 then ConvertError(a.err) else Accepted(a, offered)
  }

  /** esp_wolfssl_read */
  function ReadCode(a: Reply, room: nat): int {
    var ret := Filled(a, room);
    if ret < 0 then (if a.err == WOLFSSL_ERROR_ZERO_RETURN then 0 else ConvertError(a.err)) else ret
  }

  /** A TLS connection: the bytes wolfSSL has accepted so far, and the replies it has yet to give. */
  class Link {
    var accepted: seq<byte>
    var replies: seq<Reply>

    constructor (replies: seq<Reply>)
      ensures accepted == [] && this.replies == replies
    {
      accepted, this.replies := [], replies;
    }

    /** esp_wolfssl_write */
    method Write(data: seq<byte>) returns (code: int)
      requires replies != []
      modifies this
      ensures replies == old(replies)[1..] && code == WriteCode(old(replies)[0], |data|)
      ensures accepted == old(accepted) + (if code > 0 then data[..code] else [])
    {
      var a := replies[0];
      replies := replies[1..];
      var ret := Accepted(a, |data|);
      if ret <= 0 {
        return ConvertError(a.err);
      }
      accepted := accepted + data[..ret];
      return ret;
    }

    /** esp_wolfssl_read into the first `room` bytes of buf */
    method Read(buf: array<byte>, room: nat) returns (code: int)
      requires replies != [] && room <= buf.Length
      modifies this, buf
      ensures replies == old(replies)[1..] && accepted == old(accepted)
      ensures code == ReadCode(old(replies)[0], room) && code <= room
      ensures code > 0 ==> code <= |old(replies)[0].data| && buf[..code] == old(replies)[0].data[..code]
    {
      var a := replies[0];
      replies := replies[1..];
      var ret := Filled(a, room);
      if ret < 0 {
        if a.err == WOLFSSL_ERROR_ZERO_RETURN {
          return 0;
        }
        return ConvertError(a.err);
      }
      forall i | 0 <= i < ret {
        buf[i] := a.data[i];
      }
      return ret;
    }
  }

  // ----- sending the request

  datatype SendEnd = Sent | Aborted(code: int) | StillSending

  /** Does this answer make the write loop give up? */
  predicate Fatal(code: int) {
    code < 0 && !IsWant(code)
  }

  /** How the loop goes on from `written` bytes, for these replies. */
  function Sending(request: seq<byte>, written: nat, replies: seq<Reply>): (nat, SendEnd)
    requires written <= |request|
    decreases |replies|
  {
    if replies == [] then (written, StillSending)
    else
      var code := WriteCode(replies[0], |request| - written);
      if Fatal(code) then (written, Aborted(code))
      else
        var w := if code >= 0 then written + code else written;
        if w >= |request| then (w, Sent) else Sending(request, w, replies[1..])
  }

  /** The write loop of https_get_request, followed as long as there are replies. */
  method SendRequest(link: Link, request: seq<byte>) returns (end: SendEnd, written: nat)
    modifies link
    ensures written <= |request| && link.accepted == old(link.accepted) + request[..written]
    ensures end == Sent ==> written == |request|
    ensures |link.replies| <= |old(link.replies)|
    ensures var used := |old(link.replies)| - |link.replies|;
            && link.replies == old(link.replies)[used..]
            && (written, end) == Sending(request, 0, old(link.replies))
  {
    written := 0;
    ghost var replies := link.replies;
    while true
      invariant written <= |request| && link.accepted == old(link.accepted) + request[..written]
      invariant |link.replies| <= |replies| && link.replies == replies[|replies| - |link.replies|..]
      invariant Sending(request, written, link.replies) == Sending(request, 0, replies)
      decreases |link.replies|
    {
      if link.replies == [] {
        return StillSending, written;
      }
      ghost var offered := request[written..];
      var ret := link.Write(request[written..]);
      assert ret > 0 ==> request[..written] + offered[..ret] == request[..written + ret];
      if ret >= 0 {
        written := written + ret;
      } else if ret != ESP_TLS_ERR_SSL_WANT_READ && ret != ESP_TLS_ERR_SSL_WANT_WRITE {
        return Aborted(ret), written;
      }
      if written >= |request| {
        return Sent, written;
      }
    }
  }

  /** The write failed, and wolfSSL's error code is neither of the two that mean "call again", nor 0, nor
      one that the translation takes for one of ESP-TLS's own two. */
  predicate FatalReply(a: Reply) {
    && a.ret <= 0
    && a.err != WOLFSSL_ERROR_WANT_READ && a.err != WOLFSSL_ERROR_WANT_WRITE && a.err != 0
    && a.err != 26880 && a.err != -26880 && a.err != 26752 && a.err != -26752
  }

  /** The loop gives up on an answer exactly if it is fatal: in particular it tries again after a failed
      write whose error code is 0. */
  lemma FatalExactly(a: Reply, offered: nat)
    requires offered > 0
    ensures Fatal(WriteCode(a, offered)) <==> FatalReply(a)
    ensures FatalReply(a) ==> WriteCode(a, offered) == ConvertError(a.err) == (if a.err > 0 then -a.err else a.err)
    ensures a.ret > 0 ==> WriteCode(a, offered) > 0
  {
    ConversionFaithful(a.err);
  }

  /** The loop gives up at exactly the first fatal reply before the request is out, with its code, and
      otherwise ends only with the whole request accepted. */
  lemma {:induction false} SendingEnds(request: seq<byte>, written: nat, replies: seq<Reply>) returns (k: nat)
    requires written < |request|
    ensures k <= |replies| && forall i :: 0 <= i < k ==> !FatalReply(replies[i])
    ensures var (w, end) := Sending(request, written, replies);
            && written <= w <= |request|
            && match end
               case Sent => w == |request| && k > 0 && replies[k - 1].ret > 0
               case Aborted(code) => k < |replies| && FatalReply(replies[k]) && code == ConvertError(replies[k].err)
                                     && w < |request|
               case StillSending => k == |replies| && w < |request|
    decreases |replies|
  {
    k := 0;
    if replies != [] {
      FatalExactly(replies[0], |request| - written);
    }
    if replies != [] && !FatalReply(replies[0]) {
      var code := WriteCode(replies[0], |request| - written);
      var w := if code >= 0 then written + code else written;
      k := 1;
      if w < |request| {
        var k1 := SendingEnds(request, w, replies[1..]);
        k := k1 + 1;
        assert forall i :: 0 < i < k ==> replies[i] == replies[1..][i - 1];
      }
    }
  }

  /** An empty request takes one attempt: anything but a fatal code ends the loop. */
  lemma SendingNothing(replies: seq<Reply>)
    requires replies != []
    ensures var code := ConvertError(replies[0].err);
            Sending([], 0, replies) == (0, if Fatal(code) then Aborted(code) else Sent)
  {
    assert Accepted(replies[0], 0) <= 0;
  }

  // ----- reading the response

  const NEWLINE: byte := 10
  const BUF_SIZE := 512

  datatype ReadEnd = Closed | ReadFailed(code: int) | StillReading

  /** putchar, over and over */
  method PutChars(output: seq<byte>, buf: array<byte>, len: nat) returns (output': seq<byte>)
    requires len <= buf.Length
    ensures output' == output + buf[..len]
  {
    output' := output;
    var i := 0;
    while i < len
      invariant 0 <= i <= len && output' == output + buf[..i]
    {
      assert buf[..i + 1] == buf[..i] + [buf[i]];
      output' := output' + [buf[i]];
      i := i + 1;
    }
  }

  /** The bytes an answer puts into the buffer. */
  function Chunk(a: Reply): seq<byte> {
    var n := Filled(a, BUF_SIZE - 1);
    if n > 0 then a.data[..n] else []
  }

  function Reading(replies: seq<Reply>): (seq<byte>, ReadEnd) {
    if replies == [] then ([], StillReading)
    else
      var code := ReadCode(replies[0], BUF_SIZE - 1);
      if IsWant(code) then Reading(replies[1..])
      else if code < 0 then ([], ReadFailed(code))
      else if code == 0 then ([], Closed)
      else
        var (rest, end) := Reading(replies[1..]);
        (Chunk(replies[0]) + [NEWLINE] + rest, end)
  }

  lemma Regroup(a: seq<byte>, b: seq<byte>, c: seq<byte>, d: seq<byte>)
    ensures a + b + c + d == a + (b + c + d)
  {
  }

  /** The read loop of https_get_request, followed as long as there are replies; `output` is what it
      prints. */
  method ReadResponse(link: Link) returns (output: seq<byte>, end: ReadEnd)
    modifies link
    ensures (output, end) == Reading(old(link.replies))
  {
    output := [];
    var buf := new byte[BUF_SIZE];
    ghost var replies := link.replies;
    assert [] + Reading(replies).0 == Reading(replies).0;
    while true
      invariant Reading(replies) == (output + Reading(link.replies).0, Reading(link.replies).1)
      decreases |link.replies|
    {
      assert output + [] == output;
      if link.replies == [] {
        return output, StillReading;
      }
      ghost var a := link.replies[0];
      forall i | 0 <= i < buf.Length {
        buf[i] := 0;
      }
      var ret := link.Read(buf, BUF_SIZE - 1);
      if ret == ESP_TLS_ERR_SSL_WANT_WRITE || ret == ESP_TLS_ERR_SSL_WANT_READ {
        continue;
      } else if ret < 0 {
        return output, ReadFailed(ret);
      } else if ret == 0 {
        return output, Closed;
      }
      ghost var before := output;
      output := PutChars(output, buf, ret);
      output := output + [NEWLINE];
      assert a.data[..ret] == Chunk(a);
      Regroup(before, Chunk(a), [NEWLINE], Reading(link.replies).0);
    }
  }

  /** Everything that arrived, in order: the chunks that are not empty. */
  function Arrived(replies: seq<Reply>): seq<seq<byte>> {
    if replies == [] then []
    else if Chunk(replies[0]) != [] then [Chunk(replies[0])] + Arrived(replies[1..])
    else Arrived(replies[1..])
  }

  function Lines(chunks: seq<seq<byte>>): seq<byte> {
    if chunks == [] then [] else chunks[0] + [NEWLINE] + Lines(chunks[1..])
  }

  /** The read failed for now: wolfSSL's error code means "call again", or is one that the translation takes
      for one of ESP-TLS's own two. */
  predicate AgainReply(a: Reply) {
    && a.ret < 0
    && (a.err == WOLFSSL_ERROR_WANT_READ || a.err == WOLFSSL_ERROR_WANT_WRITE
        || a.err == 26880 || a.err == -26880 || a.err == 26752 || a.err == -26752)
  }

  /** Nothing arrived and nothing failed, or the read failed with close-notify or with error code 0. */
  predicate ClosingReply(a: Reply) {
    Filled(a, BUF_SIZE - 1) == 0 || (a.ret < 0 && (a.err == WOLFSSL_ERROR_ZERO_RETURN || a.err == 0))
  }

  /** The read failed, and in no way that means "again" or "closed". */
  predicate FailingReply(a: Reply) {
    a.ret < 0 && !AgainReply(a) && !ClosingReply(a)
  }

  /** What the loop makes of a reply, by result and error code alone. */
  lemma ReadsExactly(a: Reply)
    ensures var code := ReadCode(a, BUF_SIZE - 1);
            && (code > 0 <==> Chunk(a) != [])
            && (code == 0 <==> ClosingReply(a))
            && (IsWant(code) <==> AgainReply(a))
            && (code < 0 && !IsWant(code) <==> FailingReply(a))
            && (FailingReply(a) ==> code == if a.err > 0 then -a.err else a.err)
  {
    ConversionFaithful(a.err);
  }

  /** A reply after which the loop goes on. */
  predicate GoesOn(a: Reply) {
    Chunk(a) != [] || AgainReply(a)
  }

  lemma ArrivedCons(replies: seq<Reply>, k: nat)
    requires replies != [] && k <= |replies| - 1
    ensures var (a, rest) := (replies[0], Arrived(replies[1..][..k]));
            Lines(Arrived(replies[..k + 1])) == (if Chunk(a) != [] then Chunk(a) + [NEWLINE] else []) + Lines(rest)
  {
    assert replies[..k + 1][1..] == replies[1..][..k];
    var rest := Arrived(replies[1..][..k]);
    if Chunk(replies[0]) != [] {
      assert ([Chunk(replies[0])] + rest)[1..] == rest;
    } else {
      assert [] + Lines(rest) == Lines(rest);
    }
  }

  /** The read loop is lossless: it stops at the first reply that closes or fails, and prints every
      chunk that arrived before it, in order, each on a line of its own.  "Call again" prints nothing
      and never ends the loop. */
  lemma {:induction false} ReadingIsLossless(replies: seq<Reply>) returns (k: nat)
    ensures k <= |replies| && forall i :: 0 <= i < k ==> GoesOn(replies[i])
    ensures Reading(replies).0 == Lines(Arrived(replies[..k]))
    ensures match Reading(replies).1
            case StillReading => k == |replies|
            case Closed => k < |replies| && ClosingReply(replies[k])
            case ReadFailed(code) => k < |replies| && FailingReply(replies[k])
                                     && code == if replies[k].err > 0 then -replies[k].err else replies[k].err
    decreases |replies|
  {
    k := 0;
    if replies != [] {
      ReadsExactly(replies[0]);
    }
    if replies != [] && GoesOn(replies[0]) {
      var k1 := ReadingIsLossless(replies[1..]);
      k := k1 + 1;
      ArrivedCons(replies, k1);
      assert forall i :: 0 < i < k ==> replies[i] == replies[1..][i - 1];
      if AgainReply(replies[0]) {
        assert Chunk(replies[0]) == [];
      }
    }
  }
}

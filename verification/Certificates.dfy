/** Certificate buffers: the bounded search for a PEM header and the normalisation of a CA buffer
    before it is handed to wolfSSL. */
module Certificates {
  import opened Platform

  /** No C object is longer than PTRDIFF_MAX on the 32-bit targets. */
  const OBJECT_MAX := 0x7FFF_FFFF

  const UINT32 := 0x1_0000_0000

  /** "-----BEGIN " and "-----BEGIN CERTIFICATE-----" in ASCII. */
  const BEGIN: seq<byte> := [45, 45, 45, 45, 45, 66, 69, 71, 73, 78, 32]
  const BEGIN_CERTIFICATE: seq<byte> :=
    BEGIN + [67, 69, 82, 84, 73, 70, 73, 67, 65, 84, 69, 45, 45, 45, 45, 45]

  predicate MatchAt(header: seq<byte>, buf: seq<byte>, i: nat) {
    i + |header| <= |buf| && buf[i..i + |header|] == header
  }

  ghost predicate OccursIn(header: seq<byte>, buf: seq<byte>) {
    exists i: nat :: MatchAt(header, buf, i)
  }

  /** The search of the C code as a function: try every offset from `i` on. */
  predicate HasHeader(header: seq<byte>, buf: seq<byte>, i: nat := 0)
    ensures HasHeader(header, buf, i) <==> exists k: nat :: i <= k && MatchAt(header, buf, k)
    decreases |buf| - i
  {
    i + |header| <= |buf| && (MatchAt(header, buf, i) || (i < |buf| && HasHeader(header, buf, i + 1)))
  }

  /** esp_wolfssl_buf_has_pem_header.  `i + header_len` is an unsigned 32-bit sum: below a length of
      2^32 - 1 it never wraps, so the search ends and reads only inside the buffer. */
  method BufHasPemHeader(buf: Option<seq<byte>>, header: seq<byte>) returns (found: bool)
    requires buf.Some? ==> |buf.value| < UINT32 - 1
    requires |header| < UINT32
    ensures found <==> buf.Some? && OccursIn(header, buf.value)
  {
    if buf.None? || |buf.value| < |header| {
      return false;
    }
    var b := buf.value;
    var i := 0;
    while (i + |header|) % UINT32 <= |b|
      invariant 0 <= i && i + |header| <= |b| + 1
      invariant forall k: nat :: k < i ==> !MatchAt(header, b, k)
      decreases |b| + 1 - i
    {
      if b[i..i + |header|] == header {
        assert MatchAt(header, b, i);
        return true;
      }
      i := i + 1;
    }
    return false;
  }

  /** Appending a byte that is not in the header does not change the outcome of the search. */
  lemma AppendAbsentByte(header: seq<byte>, p: seq<byte>, x: byte)
    requires header != [] && x !in header
    ensures HasHeader(header, p + [x]) == HasHeader(header, p)
  {
    forall i: nat ensures MatchAt(header, p + [x], i) <==> MatchAt(header, p, i) {
      if i + |header| <= |p| {
        assert (p + [x])[i..i + |header|] == p[i..i + |header|];
      } else if i + |header| == |p| + 1 {
        assert (p + [x])[i..i + |header|][|header| - 1] == x;
      }
    }
  }

  /** A memory object and the range of it that is shown to wolfSSL. */
  datatype Presented = Presented(mem: seq<byte>, len: nat, format: Format, copied: bool)

  function CertFormat(cert: seq<byte>): Format {
    if HasHeader(BEGIN_CERTIFICATE, cert) then Pem else Asn1
  }

  function KeyFormat(key: seq<byte>): Format {
    if HasHeader(BEGIN, key) then Pem else Asn1
  }

  /** What esp_load_wolfssl_verify_buffer shows wolfSSL for a CA certificate. */
  function PresentCa(cert: seq<byte>): (r: Presented)
    ensures r.len <= |r.mem|
    ensures r.format == Pem ==> r.len < |r.mem| && r.mem[r.len] == 0
  {
    if CertFormat(cert) == Asn1 then Presented(cert, |cert|, Asn1, false)
    else if cert != [] && cert[|cert| - 1] == 0 then Presented(cert, |cert| - 1, Pem, false)
    else Presented(cert + [0], |cert|, Pem, true)
  }

  function Shown(cert: seq<byte>): (seq<byte>, Format) {
    var p := PresentCa(cert);
    (p.mem[..p.len], p.format)
  }

  /** wolfSSL sees the caller's bytes: all of them, or in a NUL-terminated PEM all but the NUL. */
  lemma ShownBytes(cert: seq<byte>)
    ensures Shown(cert).0 == cert
            || (cert != [] && cert[|cert| - 1] == 0 && CertFormat(cert) == Pem
                && Shown(cert).0 == cert[..|cert| - 1])
    ensures Shown(cert).1 == CertFormat(cert)
  {
    assert (cert + [0])[..|cert|] == cert;
    assert cert[..|cert|] == cert;
  }

  /** Terminator invariance: a PEM buffer is presented the same with and without its NUL; only the
      unterminated one needs a copy. */
  lemma TerminatorInvariance(p: seq<byte>)
    requires OccursIn(BEGIN_CERTIFICATE, p) && p != [] && p[|p| - 1] != 0
    ensures Shown(p) == Shown(p + [0]) == (p, Pem)
    ensures PresentCa(p).mem == PresentCa(p + [0]).mem
    ensures PresentCa(p).copied && !PresentCa(p + [0]).copied
  {
    AppendAbsentByte(BEGIN_CERTIFICATE, p, 0);
    assert (p + [0])[..|p|] == p;
  }

  /** A DER buffer is shown byte for byte, trailing NULs included; appending one changes it. */
  lemma DerIsNotTrimmed(p: seq<byte>)
    requires !OccursIn(BEGIN_CERTIFICATE, p)
    ensures Shown(p) == (p, Asn1) && Shown(p + [0]) == (p + [0], Asn1)
  {
    AppendAbsentByte(BEGIN_CERTIFICATE, p, 0);
    assert p[..|p|] == p && (p + [0])[..|p + [0]|] == p + [0];
  }
}

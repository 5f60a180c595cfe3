/** The outgoing datagram queue of a DTLS session: length-prefixed envelopes in one
    array, compacted before it grows, each offered to `SSL_write` as a whole. The
    broker sends one envelope per completed socket send; the agent and the peer
    drain recursively. */
module Datagrams {
  import opened Bytes

  const FIRST_CAP: nat := 4096
  const LEN_MAX: nat := 0xFFFF_FFFF

  /** `SSL_write` of one envelope: taken whole, taken in part, to be retried, or
      failed. An exhausted script answers Want. */
  datatype Answer = Took | Short | Want | Failed

  datatype Role = Broker | Client

  /** The layout of a queue of envelopes. */
  function Pack(es: seq<seq<byte>>): (s: seq<byte>)
    ensures |s| >= 4 * |es| && (es == [] ==> s == [])
  {
    if es == [] then [] else U32(|es[0]|) + es[0] + Pack(es[1..])
  }

  /** What a reader of the array finds. */
  function Unpack(s: seq<byte>): (r: Option<seq<seq<byte>>>)
    decreases |s|
  {
    if s == [] then Some([])
    else if |s| < 4 || ReadU32(s) > |s| - 4 then None
    else
      var n := ReadU32(s);
      match Unpack(s[4 + n..])
      case None => None
      case Some(es) => Some([s[4..4 + n]] + es)
  }

  predicate Sized(es: seq<seq<byte>>) {
    forall i :: 0 <= i < |es| ==> |es[i]| <= LEN_MAX
  }

  /** The head of a packed queue. */
  lemma Head(es: seq<seq<byte>>)
    requires Sized(es) && es != []
    ensures var s := Pack(es);
      && |s| >= 4 + |es[0]| && ReadU32(s) == |es[0]|
      && s[4..4 + |es[0]|] == es[0] && s[4 + |es[0]|..] == Pack(es[1..])
  {
    var e, t := es[0], Pack(es[1..]);
    hide U32, ReadU32;
    U32RoundTrip(|e|, e + t);
    assert Pack(es) == U32(|e|) + (e + t);
    Behind(U32(|e|), e, t);
  }

  /** A slice, and what was copied in behind it. */
  lemma Appended(s: seq<byte>, s': seq<byte>, off: nat, len: nat, data: seq<byte>)
    requires off <= len && len + |data| <= |s| == |s'| && s'[..len] == s[..len] && s'[len..len + |data|] == data
    ensures s'[off..len + |data|] == s[off..len] + data
  {
    assert s'[off..len] == s'[..len][off..] == s[..len][off..] == s[off..len];
  }

  /** Where the parts of a concatenation are. */
  lemma Behind(p: seq<byte>, e: seq<byte>, t: seq<byte>)
    ensures var s := p + (e + t); |s| >= |p| + |e| && s[|p|..|p| + |e|] == e && s[|p| + |e|..] == t
  {
  }

  /** The array parses back into exactly the queued envelopes. */
  lemma {:induction false} UnpackPack(es: seq<seq<byte>>)
    requires Sized(es)
    ensures Unpack(Pack(es)) == Some(es)
    decreases |es|
  {
    if es != [] {
      hide Pack, ReadU32;
      Head(es);
      UnpackPack(es[1..]);
      UnpackHead(Pack(es), es[0], es[1..]);
      assert [es[0]] + es[1..] == es;
    }
  }

  lemma UnpackHead(s: seq<byte>, e: seq<byte>, es: seq<seq<byte>>)
    requires |s| >= 4 + |e| && ReadU32(s) == |e| && s[4..4 + |e|] == e && Unpack(s[4 + |e|..]) == Some(es)
    ensures Unpack(s) == Some([e] + es)
  {
    hide ReadU32;
  }

  lemma {:induction false} PackSnoc(es: seq<seq<byte>>, e: seq<byte>)
    ensures Pack(es + [e]) == Pack(es) + (U32(|e|) + e)
    decreases |es|
  {
    hide U32;
    if es == [] {
      assert Pack([e]) == U32(|e|) + e + Pack([e][1..]);
    } else {
      assert (es + [e])[1..] == es[1..] + [e];
      PackSnoc(es[1..], e);
      assert U32(|es[0]|) + es[0] + (Pack(es[1..]) + (U32(|e|) + e)) ==
             (U32(|es[0]|) + es[0] + Pack(es[1..])) + (U32(|e|) + e);
    }
  }

  function Next(ssl: seq<Answer>): Answer {
    if ssl == [] then Want else ssl[0]
  }

  /** The answers after which the broker sends nothing at all. */
  predicate Stuck(a: Answer) {
    a.Failed? || a.Short?
  }

  function Rest(ssl: seq<Answer>): seq<Answer> {
    if ssl == [] then [] else ssl[1..]
  }

  /** How many of `n` envelopes the next answers take, one after the other. */
  function Taken(ssl: seq<Answer>, n: nat): (k: nat)
    ensures k <= n && k <= |ssl|
    ensures forall i :: 0 <= i < k ==> ssl[i].Took?
    ensures k < n ==> k == |ssl| || !ssl[k].Took?
    decreases n
  {
    if n == 0 || ssl == [] || !ssl[0].Took? then 0 else 1 + Taken(ssl[1..], n - 1)
  }

  /** A drain took the envelopes the answers allow, in order; a failure closes. */
  ghost predicate Drained(ssl: seq<Answer>, q: seq<seq<byte>>, t: seq<seq<byte>>,
                          q': seq<seq<byte>>, t': seq<seq<byte>>, closed: bool) {
    var k := Taken(ssl, |q|);
    q' == q[k..] && t' == t + q[..k] && (closed <==> k < |q| && k < |ssl| && ssl[k].Failed?)
  }

  lemma DrainedOne(ssl: seq<Answer>, q: seq<seq<byte>>, t: seq<seq<byte>>,
                   q': seq<seq<byte>>, t': seq<seq<byte>>, closed: bool)
    requires q != [] && Next(ssl).Took? && Drained(ssl[1..], q[1..], t + [q[0]], q', t', closed)
    ensures Drained(ssl, q, t, q', t', closed)
  {
    var k := Taken(ssl[1..], |q[1..]|);
    assert q[1..][k..] == q[1 + k..];
    assert (t + [q[0]]) + q[1..][..k] == t + q[..1 + k];
  }

  lemma DrainedNone(ssl: seq<Answer>, q: seq<seq<byte>>, t: seq<seq<byte>>)
    requires q == [] || !Next(ssl).Took?
    ensures Drained(ssl, q, t, q, t, q != [] && Next(ssl).Failed?)
  {
  }

  class Queue {
    const role: Role
    const maxPackets: nat
    const maxBytes: nat
    var outq: array<byte>
    var off: nat
    var len: nat
    var packets: nat
    var inflight: bool       // broker: a socket send is outstanding
    var closing: bool
    var ssl: seq<Answer>
    ghost var queue: seq<seq<byte>>
    ghost var admitted: seq<seq<byte>>
    ghost var taken: seq<seq<byte>>

    ghost predicate Valid()
      reads this, outq
    {
      && off <= len <= outq.Length
      && (outq.Length <= FIRST_CAP || outq.Length <= 2 * maxBytes)
      && outq[off..len] == Pack(queue) && Sized(queue) && packets == |queue|
      && packets <= maxPackets && len - off <= maxBytes
      && admitted == taken + queue
    }

    /** The queue as `outq_packets` and the array describe it. */
    lemma Parses()
      requires Valid()
      ensures Unpack(outq[off..len]) == Some(queue) && packets == |queue|
    {
      UnpackPack(queue);
    }

    constructor (role: Role, maxPackets: nat, maxBytes: nat, ssl: seq<Answer>)
      ensures Valid() && fresh(outq) && queue == admitted == taken == [] && !closing && !inflight
      ensures this.role == role && this.maxPackets == maxPackets && this.maxBytes == maxBytes && this.ssl == ssl
    {
      this.role, this.maxPackets, this.maxBytes, this.ssl := role, maxPackets, maxBytes, ssl;
      outq := new byte[0];
      off, len, packets, inflight, closing := 0, 0, 0, false, false;
      queue, admitted, taken := [], [], [];
    }

    /** Compact, then grow if the unsent octets and the new record still do not fit. */
    method Reserve(n: nat)
      requires Valid() && len - off + n <= maxBytes && len + n > outq.Length
      modifies this`outq, this`off, this`len, outq
      ensures Valid() && (outq == old(outq) || fresh(outq)) && off == 0 && len == old(len - off)
      ensures len + n <= outq.Length
    {
      hide Pack, Sized, NextCap;
      ghost var s := outq[off..len];
      if off != 0 {
        MoveDown(outq, off, len);
        len, off := len - off, 0;
      }
      assert outq[off..len] == s;
      if len + n > outq.Length { Extend(n); }
    }

    /** Growth of a compacted queue. */
    method Extend(n: nat)
      requires off == 0 && len <= outq.Length < len + n <= maxBytes
      requires outq.Length <= FIRST_CAP || outq.Length <= 2 * maxBytes
      modifies this`outq
      ensures fresh(outq) && len + n <= outq.Length && outq[off..len] == old(outq[off..len])
      ensures outq.Length <= FIRST_CAP || outq.Length <= 2 * maxBytes
    {
      var ncap := Double(outq.Length, FIRST_CAP, len + n);
      ghost var was := outq;
      outq := Realloc(outq, ncap);
      assert outq[..len] == outq[..was.Length][..len] == was[..][..len] == was[..len];
      assert outq[off..len] == outq[..len];
    }

    /** Writes the record behind the queue. */
    method Put(data: seq<byte>)
      requires Valid() && packets < maxPackets && |data| <= LEN_MAX
      requires len + 4 + |data| <= outq.Length && len - off + 4 + |data| <= maxBytes
      modifies this`len, this`packets, this`queue, this`admitted, outq
      ensures Valid() && queue == old(queue) + [data] && admitted == old(admitted) + [data]
    {
      hide Pack, U32;
      var record := U32(|data|) + data;
      ghost var was := outq[..];
      CopyIn(outq, len, record);
      PackSnoc(queue, data);
      Appended(was, outq[..], off, len, record);
      len, packets := len + 4 + |data|, packets + 1;
      queue, admitted := queue + [data], admitted + [data];
    }

    /** The length prefix of the first record. */
    method HeadLen() returns (n: nat)
      requires Valid() && queue != []
      ensures n == |queue[0]| && off + 4 + n <= len && outq[off + 4..off + 4 + n] == queue[0]
      ensures outq[off + 4 + n..len] == Pack(queue[1..])
    {
      hide Pack;
      ghost var s := outq[off..len];
      Head(queue);
      assert outq[off..off + 4] == s[..4];
      n := ReadU32(outq[off..off + 4]);
      assert outq[off + 4..off + 4 + n] == s[4..4 + n] && outq[off + 4 + n..len] == s[4 + n..];
    }

    /** The first record was sent. */
    method Dequeue(n: nat)
      requires Valid() && queue != [] && off + 4 + n <= len && outq[off + 4 + n..len] == Pack(queue[1..])
      modifies this`off, this`len, this`packets, this`queue, this`taken
      ensures Valid() && queue == old(queue)[1..] && taken == old(taken) + [old(queue)[0]]
      ensures len - off < old(len - off)
    {
      hide Pack;
      assert taken + queue == (taken + [queue[0]]) + queue[1..];
      off, packets := off + 4 + n, packets - 1;
      queue, taken := queue[1..], taken + [queue[0]];
      if off == len {
        off, len := 0, 0;
        assert outq[off..len] == [];
      }
    }

    /** One `SSL_write` of the whole head envelope. */
    method Offer() returns (a: Answer)
      requires Valid() && queue != []
      modifies this`off, this`len, this`packets, this`ssl, this`queue, this`taken
      ensures Valid()
      ensures a == Next(old(ssl)) && ssl == Rest(old(ssl))
      ensures a.Took? ==> queue == old(queue)[1..] && taken == old(taken) + [old(queue)[0]] && len - off < old(len - off)
      ensures !a.Took? ==> queue == old(queue) && taken == old(taken)
    {
      hide Pack;
      var n := HeadLen();
      a, ssl := Next(ssl), Rest(ssl);
      if a.Took? { Dequeue(n); }
    }

    /** `pump_out` of the broker: at most one envelope per call, then one socket send
        if DTLS produced anything (`out`). */
    method BrokerPump(out: bool)
      requires Valid()
      modifies this`off, this`len, this`packets, this`ssl, this`queue, this`taken, this`inflight
      ensures Valid()
      ensures old(closing || inflight) || old(queue) == [] || !Next(old(ssl)).Took?
              ==> queue == old(queue) && taken == old(taken)
      ensures !old(closing || inflight) && old(queue) != [] && Next(old(ssl)).Took?
              ==> queue == old(queue)[1..] && taken == old(taken) + [old(queue)[0]]
      ensures inflight <==> old(inflight) || (!old(closing) && out && (old(queue) != [] ==> !Stuck(Next(old(ssl)))))
    {
      hide Pack;
      if closing || inflight { return; }
      if off < len {
        var a := Offer();
        if Stuck(a) { return; }
      }
      if out { inflight := true; }
    }

    /** `pump_out` of the agent and the peer: as many envelopes as DTLS takes. A
        failure stops the session. */
    method ClientPump()
      requires Valid()
      modifies this`off, this`len, this`packets, this`ssl, this`queue, this`taken, this`closing
      ensures Valid()
      ensures if old(closing) then closing && queue == old(queue) && taken == old(taken)
              else Drained(old(ssl), old(queue), old(taken), queue, taken, closing)
      decreases len - off
    {
      hide Pack, Drained;
      if closing { return; }
      if off == len {
        DrainedNone(ssl, queue, taken);
        return;
      }
      var a := Offer();
      if !a.Took? {
        DrainedNone(old(ssl), queue, taken);
        closing := a.Failed?;
        return;
      }
      ClientPump();
      DrainedOne(old(ssl), old(queue), old(taken), queue, taken, closing);
    }

    /** `session_queue`, `udp_queue`: admit the envelope whole or drop it whole. */
    method Enqueue(data: seq<byte>) returns (ok: bool)
      requires Valid()
      modifies this`outq, this`off, this`len, this`packets, this`queue, this`admitted, outq
      ensures Valid() && (outq == old(outq) || fresh(outq))
      ensures ok <==> !closing && old(packets) < maxPackets && |data| <= LEN_MAX
                      && old(len - off) + 4 + |data| <= maxBytes
      ensures if ok then queue == old(queue) + [data] && admitted == old(admitted) + [data]
              else queue == old(queue) && admitted == old(admitted)
    {
      hide Pack;
      if closing { return false; }
      if packets >= maxPackets || |data| > LEN_MAX || len - off + 4 + |data| > maxBytes { return false; }
      if len + 4 + |data| > outq.Length { Reserve(4 + |data|); }
      Put(data);
      return true;
    }

    /** A whole submission: admission, then whatever the role can send at once. What
        was admitted is what was taken, once and in order, and what still waits. */
    method Submit(data: seq<byte>, out: bool) returns (ok: bool)
      requires Valid()
      modifies this, outq
      ensures Valid() && (outq == old(outq) || fresh(outq))
      ensures ok <==> old(!closing && packets < maxPackets) && |data| <= LEN_MAX
                      && old(len - off) + 4 + |data| <= maxBytes
      ensures admitted == if ok then old(admitted) + [data] else old(admitted)
      ensures old(taken) <= taken
    {
      hide Pack;
      ok := Enqueue(data);
      if ok {
        if role.Broker? { BrokerPump(out); } else { ClientPump(); }
      }
    }

    /** `send_done` of the broker. */
    method SendDone(out: bool)
      requires Valid()
      modifies this
      ensures Valid() && outq == old(outq) && admitted == old(admitted) && old(taken) <= taken
      ensures !closing && old(queue) != [] && Next(old(ssl)).Took? ==> taken == old(taken) + [old(queue)[0]]
    {
      hide Pack;
      inflight := false;
      BrokerPump(out);
    }
  }
}

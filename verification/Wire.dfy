/** What a leg puts on its socket, in order: data octets and the half-close
    signal (a TCP FIN, or the TLS close_notify alert). */
module Wire {
  import opened Bytes

  datatype Token = Data(octet: byte) | Close

  /** What a call into a leg made it call back: nothing, the low-water callback or
      the error callback. */
  datatype Fired = Quiet | Low | Error

  /** The result of offering octets to a leg: TM_OK, TM_ERR_BUSY or TM_ERR. */
  datatype Status = Ok | Busy | Refused

  /** The rest of a script of environment answers. */
  function Tail<T>(x: seq<T>): seq<T> {
    if x == [] then [] else x[1..]
  }

  function Tokens(s: seq<byte>): (t: seq<Token>)
    ensures |t| == |s|
    ensures forall i :: 0 <= i < |s| ==> t[i] == Data(s[i])
  {
    seq(|s|, i requires 0 <= i < |s| => Data(s[i]))
  }

  lemma TokensConcat(a: seq<byte>, b: seq<byte>)
    ensures Tokens(a + b) == Tokens(a) + Tokens(b)
  {
  }

  /** The half-close discipline: whatever was handed over is a prefix of the
      accepted octets followed by one close signal. So the signal appears at most
      once, only after every accepted octet, and nothing follows it. */
  ghost predicate Disciplined(handed: seq<Token>, accepted: seq<byte>) {
    handed <= Tokens(accepted) + [Close]
  }

  lemma DisciplinedClose(handed: seq<Token>, accepted: seq<byte>)
    requires Disciplined(handed, accepted)
    ensures Close in handed <==> handed == Tokens(accepted) + [Close]
  {
    if Close in handed {
      var i :| 0 <= i < |handed| && handed[i] == Close;
      assert handed[i] == (Tokens(accepted) + [Close])[i];
      assert i == |accepted|;
    }
  }

  /** A reader that has taken the octets `got` off a FIFO channel fed by a
      disciplined writer has a prefix of what the writer accepted. */
  lemma ChannelPrefix(got: seq<byte>, handed: seq<Token>, accepted: seq<byte>)
    requires Tokens(got) <= handed && Disciplined(handed, accepted)
    ensures got <= accepted
  {
    var all := Tokens(accepted) + [Close];
    forall i | 0 <= i < |got|
      ensures i < |accepted| && got[i] == accepted[i]
    {
      assert Tokens(got)[i] == handed[i] == all[i];
    }
    if |got| > 0 {
      var last := |got| - 1;
      assert Tokens(got)[last] == handed[last] == all[last];
    }
  }

  /** The data octets in front of `t`, up to a close signal. */
  function Octets(t: seq<Token>): (s: seq<byte>)
    ensures Tokens(s) <= t
  {
    if t == [] || t[0].Close? then [] else [t[0].octet] + Octets(t[1..])
  }

  lemma {:induction false} OctetsBack(s: seq<byte>)
    ensures Octets(Tokens(s)) == s
    decreases |s|
  {
    if s != [] {
      assert Tokens(s)[1..] == Tokens(s[1..]);
      OctetsBack(s[1..]);
    }
  }

  lemma TokensInjective(a: seq<byte>, b: seq<byte>)
    requires Tokens(a) == Tokens(b)
    ensures a == b
  {
    assert |a| == |Tokens(a)| == |b|;
    forall i | 0 <= i < |a| ensures a[i] == b[i] {
      assert Tokens(a)[i] == Tokens(b)[i];
    }
  }

  /** Reading the next octets off a channel keeps what was read a prefix of it. */
  lemma ReadNext(got: seq<byte>, handed: seq<Token>, n: nat)
    requires Tokens(got) <= handed && n <= |Octets(handed[|got|..])|
    ensures Tokens(got + Octets(handed[|got|..])[..n]) <= handed
  {
    var data := Octets(handed[|got|..])[..n];
    TokensConcat(got, data);
    assert Tokens(data) <= handed[|got|..];
    assert handed == handed[..|got|] + handed[|got|..];
  }

  /** A reader that finds the close signal next has everything. */
  lemma ChannelEnd(got: seq<byte>, handed: seq<Token>, accepted: seq<byte>)
    requires handed == Tokens(got) + [Close] && Disciplined(handed, accepted)
    ensures got == accepted && Close in handed
  {
    assert handed[|got|] == Close;
    DisciplinedClose(handed, accepted);
    assert Tokens(got) == handed[..|handed| - 1] == Tokens(accepted);
    TokensInjective(got, accepted);
  }
}

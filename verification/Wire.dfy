/** What goes over the control channel, and the loops that move it
    (src/probdata/probdata_control.cpp:245-350).
 */
module Wire {
  import opened Numbers

  type Byte = b: int | 0 <= b < 256

  // An int in memory order of a little-endian host
  function EncodeInt(n: Int32): (s: seq<Byte>)
    ensures |s| == 4
  {
    var u := if n < 0 then n + 0x1_0000_0000 else n;
    [u % 256, u / 256 % 256, u / 65536 % 256, u / 16777216]
  }

  function DecodeInt(s: seq<Byte>): Int32
    requires |s| == 4
  {
    var u: int := s[0] as int + 256 * s[1] as int + 65536 * s[2] as int + 16777216 * s[3] as int;
    if u > 0x7fff_ffff then u - 0x1_0000_0000 else u
  }

  lemma IntRoundTrip(n: Int32)
    ensures DecodeInt(EncodeInt(n)) == n
  {
    var u := if n < 0 then n + 0x1_0000_0000 else n;
    assert u == 256 * (u / 256) + u % 256;
    assert u / 256 == 256 * (u / 65536) + u / 256 % 256;
    assert u / 65536 == 256 * (u / 16777216) + u / 65536 % 256;
  }

  // The four bytes are the number modulo 2^32, the least significant first.
  lemma IntBytes(n: Int32)
    ensures var s := EncodeInt(n);
      var u := s[0] as int + 256 * (s[1] as int + 256 * (s[2] as int + 256 * s[3] as int));
      u == if n < 0 then n + 0x1_0000_0000 else n
  {
    IntRoundTrip(n);
    var s := EncodeInt(n);
    var u := if n < 0 then n + 0x1_0000_0000 else n;
    assert u == 256 * (u / 256) + u % 256;
    assert u / 256 == 256 * (u / 65536) + u / 256 % 256;
    assert u / 65536 == 256 * (u / 16777216) + u / 65536 % 256;
  }

  // struct probdata_ctrlmsg, packed
  function EncodeMsg(udtOnly: Int32, maxBuf: Int32): (s: seq<Byte>)
    ensures |s| == 8
  {
    EncodeInt(udtOnly) + EncodeInt(maxBuf)
  }

  lemma MsgRoundTrip(udtOnly: Int32, maxBuf: Int32)
    ensures var s := EncodeMsg(udtOnly, maxBuf); DecodeInt(s[..4]) == udtOnly && DecodeInt(s[4..]) == maxBuf
  {
    var s := EncodeMsg(udtOnly, maxBuf);
    assert s[..4] == EncodeInt(udtOnly) && s[4..] == EncodeInt(maxBuf);
    IntRoundTrip(udtOnly);
    IntRoundTrip(maxBuf);
  }

  // The flag comes first, the buffer limit after it.
  lemma MsgBytes(udtOnly: Int32, maxBuf: Int32, k: nat)
    requires k < 4
    ensures EncodeMsg(udtOnly, maxBuf)[k] == EncodeInt(udtOnly)[k]
    ensures EncodeMsg(udtOnly, maxBuf)[4 + k] == EncodeInt(maxBuf)[k]
  {
  }

  // A status code travels as one signed char.
  function StatusByte(code: int): Byte
    requires -128 <= code < 128
  {
    if code < 0 then code + 256 else code
  }

  function SignedChar(b: Byte): int {
    if b >= 128 then b - 256 else b
  }

  lemma CodeBytes(code: int)
    requires -128 <= code < 128
    ensures SignedChar(StatusByte(code)) == code && (StatusByte(code) as int - code) % 256 == 0
  {
  }

  function Lesser(a: Int32, b: Int32): Int32 {
    if a > b then b else a
  }

  // One end of a connected socket: what is still to arrive before the peer closes, and what was written.
  class Socket {
    var incoming: seq<Byte>
    var outgoing: seq<Byte>

    constructor (incoming: seq<Byte>)
      ensures this.incoming == incoming && outgoing == []
    {
      this.incoming, outgoing := incoming, [];
    }

    // read(): an error, the end of the stream, or some of the bytes asked for
    method Read(count: nat) returns (r: int, data: seq<Byte>)
      requires count > 0
      modifies this`incoming
      ensures r < 0 ==> incoming == old(incoming) && data == []
      ensures r >= 0 ==> r <= count && r <= |old(incoming)|
      ensures r >= 0 ==> data == old(incoming)[..r] && incoming == old(incoming)[r..]
      ensures r == 0 ==> incoming == []
    {
      var most := if count < |incoming| then count else |incoming|;
      r :| -1 <= r <= most && (r == 0 ==> incoming == []);
      if r < 0 {
        data := [];
      } else {
        data := incoming[..r];
        incoming := incoming[r..];
      }
    }

    // write(): an error, nothing, or some of the bytes offered
    method Write(data: seq<Byte>) returns (r: int)
      requires data != []
      modifies this`outgoing
      ensures r < 0 ==> outgoing == old(outgoing)
      ensures r >= 0 ==> r <= |data| && outgoing == old(outgoing) + data[..r]
    {
      r :| -1 <= r <= |data|;
      if r >= 0 {
        outgoing := outgoing + data[..r];
      }
    }

    // probdata_ctrl_chan_recv_Nbytes: however read() fragments, the answer is the next `count` bytes,
    // or all there are if the peer closes before.  On an error the bytes read so far are lost.
    method RecvNbytes(count: int) returns (n: int, buf: seq<Byte>)
      modifies this`incoming
      ensures n >= 0 ==> n <= |old(incoming)| && buf == old(incoming)[..n] && incoming == old(incoming)[n..]
      ensures n >= 0 && count >= 0 ==> n == if count < |old(incoming)| then count else |old(incoming)|
      ensures count <= 0 ==> n == 0
      ensures -1 <= n && |incoming| <= |old(incoming)| && incoming == old(incoming)[|old(incoming)| - |incoming|..]
    {
      buf := [];
      var left := count;
      while left > 0
        invariant count > 0 ==> 0 <= left && left + |buf| == count
        invariant count <= 0 ==> left == count && buf == []
        invariant |buf| <= |old(incoming)| && buf == old(incoming)[..|buf|] && incoming == old(incoming)[|buf|..]
      {
        var r, data := Read(left);
        if r < 0 {
          return -1, buf;
        } else if r == 0 {
          break;
        }
        assert old(incoming)[..|buf|] + data == old(incoming)[..|buf| + r];
        left := left - r;
        buf := buf + data;
      }
      n := count - left;
    }

    // probdata_ctrl_chan_send_Nbytes: unless a write fails the answer is the full length, but the whole
    // buffer was only written if no write stalled at 0.
    method SendNbytes(data: seq<Byte>) returns (n: int, ghost written: nat, ghost stalled: bool)
      modifies this`outgoing
      ensures n == -1 || n == |data|
      ensures written <= |data| && outgoing == old(outgoing) + data[..written]
      ensures n >= 0 ==> (written == |data| <==> !stalled)
    {
      var left := data;
      written, stalled := 0, false;
      while left != []
        invariant written <= |data| && left == data[written..] && !stalled
        invariant outgoing == old(outgoing) + data[..written]
        decreases |left|
      {
        var r := Write(left);
        if r < 0 {
          return -1, written, false;
        }
        assert data[..written] + left[..r] == data[..written + r];
        written := written + r;
        if r == 0 {
          stalled := true;
          break;
        }
        left := left[r..];
      }
      n := |data|;
    }
  }

  // What a message buffer holds after receiving into it: the bytes that came, over what it held before
  function Heard(incoming: seq<Byte>, before: seq<Byte>): (data: seq<Byte>)
    requires |before| == 8
    ensures |data| == 8
  {
    if |incoming| < 8 then incoming + before[|incoming|..] else incoming[..8]
  }

  // Whatever came, byte k of the buffer is byte k of what came, or what was there if that did not come.
  lemma HeardByte(incoming: seq<Byte>, before: seq<Byte>, k: nat)
    requires |before| == 8 && k < 8
    ensures Heard(incoming, before)[k] == if k < |incoming| then incoming[k] else before[k]
  {
  }

  // A whole message is heard as it was sent.
  lemma HeardWhole(incoming: seq<Byte>, before: seq<Byte>, udtOnly: Int32, maxBuf: Int32)
    requires |before| == 8 && EncodeMsg(udtOnly, maxBuf) <= incoming
    ensures var data := Heard(incoming, before); DecodeInt(data[..4]) == udtOnly && DecodeInt(data[4..]) == maxBuf
  {
    assert Heard(incoming, before) == EncodeMsg(udtOnly, maxBuf);
    MsgRoundTrip(udtOnly, maxBuf);
  }

  // The fields of struct probdata that the handshake uses; ctrlMaxBuf is prob_control->host_max_buf.
  class Endpoint {
    var udtOnly: Int32
    var hostMaxBuf: Int32
    var ctrlMaxBuf: Int32

    constructor (udtOnly: Int32, hostMaxBuf: Int32)
      ensures this.udtOnly == udtOnly && this.hostMaxBuf == this.ctrlMaxBuf == hostMaxBuf
    {
      this.udtOnly, this.hostMaxBuf, ctrlMaxBuf := udtOnly, hostMaxBuf, hostMaxBuf;
    }

    // probdata_ctrl_chan_ctrlmsg_exchange_srv.  A peer that closes early is not noticed: the server then
    // takes over what its uninitialised buffer held, here `junk`.
    method ExchangeServer(sock: Socket, junk: seq<Byte>) returns (ok: bool)
      requires |junk| == 8
      modifies this, sock
      ensures ok ==> var data := Heard(old(sock.incoming), junk);
        udtOnly == DecodeInt(data[..4]) && hostMaxBuf == ctrlMaxBuf == Lesser(DecodeInt(data[4..]), old(hostMaxBuf))
      ensures ok ==> sock.incoming == old(sock.incoming)[if |old(sock.incoming)| < 8 then |old(sock.incoming)| else 8..]
      ensures ok ==> exists k ::
        0 <= k <= 8 && sock.outgoing == old(sock.outgoing) + EncodeMsg(udtOnly, hostMaxBuf)[..k]
    {
      var n, got := sock.RecvNbytes(8);
      if n < 0 {
        return false;
      }
      var data := got + junk[n..];
      assert data == Heard(old(sock.incoming), junk);
      udtOnly := DecodeInt(data[..4]);
      var theirs := DecodeInt(data[4..]);
      hostMaxBuf := if theirs > hostMaxBuf then hostMaxBuf else theirs;
      ctrlMaxBuf := hostMaxBuf;
      ghost var written, stalled;
      n, written, stalled := sock.SendNbytes(EncodeMsg(udtOnly, hostMaxBuf));
      ok := n >= 0;
    }

    // probdata_ctrl_chan_ctrlmsg_exchange_cli.  Here the bytes that did not come are the client's own; the
    // reply's first field is not looked at.
    method ExchangeClient(sock: Socket) returns (ok: bool)
      modifies this, sock
      ensures udtOnly == old(udtOnly)
      ensures ok ==> var data := Heard(old(sock.incoming), EncodeMsg(udtOnly, old(ctrlMaxBuf)));
        hostMaxBuf == ctrlMaxBuf == Lesser(DecodeInt(data[4..]), old(hostMaxBuf))
      ensures ok ==> sock.incoming == old(sock.incoming)[if |old(sock.incoming)| < 8 then |old(sock.incoming)| else 8..]
      ensures ok ==> exists k ::
        0 <= k <= 8 && sock.outgoing == old(sock.outgoing) + EncodeMsg(udtOnly, old(ctrlMaxBuf))[..k]
    {
      var own := EncodeMsg(udtOnly, ctrlMaxBuf);
      ghost var written, stalled;
      var n;
      n, written, stalled := sock.SendNbytes(own);
      if n < 0 {
        return false;
      }
      var got;
      n, got := sock.RecvNbytes(8);
      if n < 0 {
        return false;
      }
      var data := got + own[n..];
      assert data == Heard(old(sock.incoming), own);
      var theirs := DecodeInt(data[4..]);
      hostMaxBuf := if theirs > hostMaxBuf then hostMaxBuf else theirs;
      ctrlMaxBuf := hostMaxBuf;
      ok := true;
    }
  }
}

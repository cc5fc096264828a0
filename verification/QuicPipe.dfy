/** The QUIC control pipe. Unlike the buffered pipes its exact read collects into a buffer
    of its own, so a read that is dropped halfway loses what it had collected. */
module QuicBytes {
  import opened BytePipes

  /** One exact read of n bytes. `arrivals` says how many bytes each turn finds, until the
      read completes or is dropped; the stream itself is what the peer has sent. */
  function ReadExactly(stream: seq<byte>, n: nat, arrivals: seq<nat>): (seq<byte>, Outcome)
    decreases |arrivals|
  {
    if n == 0 then (stream, Ready([]))
    else if arrivals == [] then (stream, Pending)
    else
      var k := Least(arrivals[0], n, |stream|);
      var (rest, o) := ReadExactly(stream[k..], n - k, arrivals[1..]);
      (rest, if o.Ready? then Ready(stream[..k] + o.bytes) else o)
  }

  function Least(a: nat, b: nat, c: nat): (r: nat)
    ensures r <= a && r <= b && r <= c && (r == a || r == b || r == c)
  {
    if a <= b && a <= c then a else if b <= c then b else c
  }

  lemma Regrouped(stream: seq<byte>, k: nat, bytes: seq<byte>, rest: seq<byte>)
    requires k <= |stream| && bytes + rest == stream[k..]
    ensures stream[..k] + bytes + rest == stream
  {
    assert stream[..k] + bytes + rest == stream[..k] + (bytes + rest);
    assert stream[..k] + stream[k..] == stream;
  }

  /** A completed read takes the next n bytes. */
  lemma {:induction false} CompletedReadIsPlain(stream: seq<byte>, n: nat, arrivals: seq<nat>)
    requires ReadExactly(stream, n, arrivals).1.Ready?
    ensures var (rest, o) := ReadExactly(stream, n, arrivals); |o.bytes| == n && o.bytes + rest == stream
    decreases |arrivals|
  {
    if n != 0 && arrivals != [] {
      var k := Least(arrivals[0], n, |stream|);
      CompletedReadIsPlain(stream[k..], n - k, arrivals[1..]);
      var (rest, o) := ReadExactly(stream[k..], n - k, arrivals[1..]);
      Regrouped(stream, k, o.bytes, rest);
    } else {
      assert [] + stream == stream;
    }
  }

  /** A dropped read loses a prefix shorter than it asked for. */
  lemma {:induction false} DroppedReadLosesPrefix(stream: seq<byte>, n: nat, arrivals: seq<nat>) returns (lost: nat)
    requires ReadExactly(stream, n, arrivals).1.Pending?
    ensures lost < n && lost <= |stream| && ReadExactly(stream, n, arrivals).0 == stream[lost..]
    decreases |arrivals|
  {
    if arrivals == [] {
      lost := 0;
    } else {
      var k := Least(arrivals[0], n, |stream|);
      var more := DroppedReadLosesPrefix(stream[k..], n - k, arrivals[1..]);
      lost := k + more;
      assert stream[k..][more..] == stream[lost..];
    }
  }

  /** No turn found a byte. */
  ghost predicate NothingFound(stream: seq<byte>, arrivals: seq<nat>) {
    stream == [] || forall i :: 0 <= i < |arrivals| ==> arrivals[i] == 0
  }

  /** A dropped read leaves the stream as it was exactly when it had found nothing. */
  lemma {:induction false} DroppedReadHarmlessExactlyWhen(stream: seq<byte>, n: nat, arrivals: seq<nat>)
    requires ReadExactly(stream, n, arrivals).1.Pending?
    ensures ReadExactly(stream, n, arrivals).0 == stream <==> NothingFound(stream, arrivals)
    decreases |arrivals|
  {
    if arrivals != [] {
      var k := Least(arrivals[0], n, |stream|);
      if k == 0 {
        assert stream[0..] == stream;
        DroppedReadHarmlessExactlyWhen(stream, n, arrivals[1..]);
        assert forall i :: 0 < i < |arrivals| ==> arrivals[i] == arrivals[1..][i - 1];
        assert forall i :: 0 <= i < |arrivals| - 1 ==> arrivals[1..][i] == arrivals[i + 1];
      } else {
        var more := DroppedReadLosesPrefix(stream[k..], n - k, arrivals[1..]);
        assert arrivals[0] > 0;
        assert |ReadExactly(stream, n, arrivals).0| == |stream| - k - more;
      }
    }
  }

  /** So a dropped state read, the only read that the control loop drops and goes on from, is always harmless. */
  lemma DroppedStateReadHarmless(stream: seq<byte>, arrivals: seq<nat>)
    requires ReadExactly(stream, 1, arrivals).1.Pending?
    ensures ReadExactly(stream, 1, arrivals).0 == stream
  {
    var lost := DroppedReadLosesPrefix(stream, 1, arrivals);
  }

  /** A longer read is not: dropped after half of a length prefix, it loses that half. */
  lemma DroppedLengthLosesBytes()
    ensures ReadExactly([0, 0, 0, 9], 4, [2]) == ([0, 9], Pending)
  {
    var stream: seq<byte> := [0, 0, 0, 9];
    assert stream[2..] == [0, 9];
    assert ReadExactly(stream[2..], 2, []) == (stream[2..], Pending);
    assert [2][1..] == [];
  }

  class QuicPipe {
    var receive: seq<byte>

    constructor (receive: seq<byte>)
      ensures this.receive == receive
    {
      this.receive := receive;
    }

    method ReadExact(n: nat, arrivals: seq<nat>) returns (o: Outcome)
      modifies this
      ensures (receive, o) == ReadExactly(old(receive), n, arrivals)
    {
      var buffer: seq<byte> := [];
      var i := 0;
      assert arrivals[0..] == arrivals;
      ResumedFromStart(receive, n, arrivals);
      while |buffer| < n && i < |arrivals|
        invariant |buffer| <= n && i <= |arrivals|
        invariant ReadExactly(old(receive), n, arrivals) == Resumed(buffer, receive, n - |buffer|, arrivals[i..])
      {
        var k := Least(arrivals[i], n - |buffer|, |receive|);
        ResumedStep(buffer, receive, n - |buffer|, arrivals[i..]);
        assert arrivals[i..][1..] == arrivals[i + 1..];
        buffer := buffer + receive[..k];
        receive := receive[k..];
        i := i + 1;
      }
      if |buffer| < n {
        return Pending;
      }
      assert buffer + [] == buffer;
      return Ready(buffer);
    }
  }

  /** The read that already holds `buffer`. */
  function Resumed(buffer: seq<byte>, stream: seq<byte>, n: nat, arrivals: seq<nat>): (seq<byte>, Outcome) {
    var (rest, o) := ReadExactly(stream, n, arrivals);
    (rest, if o.Ready? then Ready(buffer + o.bytes) else o)
  }

  lemma ResumedFromStart(stream: seq<byte>, n: nat, arrivals: seq<nat>)
    ensures Resumed([], stream, n, arrivals) == ReadExactly(stream, n, arrivals)
  {
    var o := ReadExactly(stream, n, arrivals).1;
    if o.Ready? {
      assert [] + o.bytes == o.bytes;
    }
  }

  lemma ResumedStep(buffer: seq<byte>, stream: seq<byte>, n: nat, arrivals: seq<nat>)
    requires n > 0 && arrivals != []
    ensures var k := Least(arrivals[0], n, |stream|);
            Resumed(buffer, stream, n, arrivals) == Resumed(buffer + stream[..k], stream[k..], n - k, arrivals[1..])
  {
    var k := Least(arrivals[0], n, |stream|);
    var o := ReadExactly(stream[k..], n - k, arrivals[1..]).1;
    if o.Ready? {
      assert buffer + (stream[..k] + o.bytes) == buffer + stream[..k] + o.bytes;
    }
  }
}

/** The singly linked list of iperf streams and the byte count that one measurement
    takes from it: SLIST_* of lib/iperf3/queue.h and f_get_perf_from_iperf.
 */
module Streams {

  const WORD: int := 0x1_0000_0000_0000_0000
  type UInt64 = n: int | 0 <= n < WORD

  class Stream {
    var next: Stream?
    var bytesSent: UInt64
    var bytesOmitted: UInt64

    constructor (sent: UInt64, omitted: UInt64)
      ensures next == null && bytesSent == sent && bytesOmitted == omitted
    {
      next, bytesSent, bytesOmitted := null, sent, omitted;
    }
  }

  // The bytes really sent outside the omitted warm-up, as an unbounded sum.
  ghost function Payload(s: seq<Stream>): int
    reads s
  {
    if s == [] then 0 else Payload(s[..|s| - 1]) + s[|s| - 1].bytesSent - s[|s| - 1].bytesOmitted
  }

  // One pass of an accumulator over 64-bit words: wrapping at every step or once at the end is the same.
  lemma WrapsOnce(sum: int, x: int)
    ensures (sum % WORD + x % WORD) % WORD == (sum + x) % WORD
  {
  }

  lemma PayloadGrows(s: seq<Stream>, i: nat)
    requires i < |s|
    ensures Payload(s[..i + 1]) % WORD == (Payload(s[..i]) % WORD + (s[i].bytesSent - s[i].bytesOmitted) % WORD) % WORD
  {
    assert s[..i + 1][..i] == s[..i];
    WrapsOnce(Payload(s[..i]), s[i].bytesSent - s[i].bytesOmitted);
  }

  ghost function Total(ns: seq<int>): int {
    if ns == [] then 0 else ns[0] + Total(ns[1..])
  }

  lemma {:induction false} TotalEnds(ns: seq<int>, n: int)
    ensures Total(ns + [n]) == Total(ns) + n
  {
    if ns == [] {
      assert [n][1..] == [];
    } else {
      assert (ns + [n])[1..] == ns[1..] + [n];
      TotalEnds(ns[1..], n);
    }
  }

  // All bytes that were sent less all that were omitted
  lemma {:induction false} PayloadTotals(s: seq<Stream>, sent: seq<int>, omitted: seq<int>)
    requires |s| == |sent| == |omitted|
    requires forall i :: 0 <= i < |s| ==> sent[i] == s[i].bytesSent && omitted[i] == s[i].bytesOmitted
    ensures Payload(s) == Total(sent) - Total(omitted)
    decreases |s|
  {
    if s != [] {
      var n := |s| - 1;
      PayloadTotals(s[..n], sent[..n], omitted[..n]);
      assert sent[..n] + [sent[n]] == sent && omitted[..n] + [omitted[n]] == omitted;
      TotalEnds(sent[..n], sent[n]);
      TotalEnds(omitted[..n], omitted[n]);
    }
  }

  // Bytes over seconds, in Mb/s
  function RateOf(bytes: int, seconds: real): (r: real)
    requires seconds > 0.0
    ensures r * (seconds * 1000000.0) == 8.0 * bytes as real
  {
    Quotient(8.0 * bytes as real, seconds * 1000.0 * 1000.0, seconds * 1000000.0);
    8.0 * bytes as real / (seconds * 1000.0 * 1000.0)
  }

  lemma Quotient(x: real, d: real, e: real)
    requires d > 0.0 && e == d
    ensures x / d * e == x
  {
  }

  lemma Unwrapped(n: int)
    requires 0 <= n < WORD
    ensures n % WORD == n
  {
  }

  // A double: a number, or what a division by a duration of 0 yields
  datatype Rate = NoStreams | Rate(total: UInt64, mbps: real) | Infinite(total: UInt64) | NotANumber

  class StreamList {
    var first: Stream?
    ghost var elements: seq<Stream>

    ghost predicate Valid()
      reads this, elements
    {
      && (forall i, j :: 0 <= i < j < |elements| ==> elements[i] != elements[j])
      && first == (if elements == [] then null else elements[0])
      && (forall i :: 0 <= i < |elements| - 1 ==> elements[i].next == elements[i + 1])
      && (elements != [] ==> elements[|elements| - 1].next == null)
    }

    // SLIST_INIT
    constructor ()
      ensures Valid() && elements == []
    {
      first, elements := null, [];
    }

    // SLIST_INSERT_HEAD
    method InsertHead(e: Stream)
      requires Valid() && e !in elements
      modifies this, e`next
      ensures Valid() && elements == [e] + old(elements)
    {
      e.next := first;
      first := e;
      elements := [e] + elements;
    }

    // SLIST_REMOVE walks to the predecessor; the element has to be in the list.
    method Remove(e: Stream, ghost k: nat)
      requires Valid() && k < |elements| && elements[k] == e
      modifies this, elements`next
      ensures Valid() && elements == old(elements[..k] + elements[k + 1..])
      ensures e.next == old(e.next)
    {
      ghost var es, rest := elements, elements[..k] + elements[k + 1..];
      assert forall j :: 0 <= j < |rest| ==> rest[j] == es[if j < k then j else j + 1];
      if first == e {
        first := first.next;
        elements := rest;
      } else {
        var current := first;
        ghost var i := 0;
        while current.next != e
          invariant 0 <= i < k && current == elements[i]
          decreases k - i
        {
          assert elements[i].next == elements[i + 1];
          current := current.next;
          i := i + 1;
        }
        assert i + 1 == k by { assert elements[i].next == elements[i + 1]; }
        current.next := current.next.next;
        elements := rest;
      }
    }

    // The SLIST_FOREACH loop of f_get_perf_from_iperf, in 64-bit unsigned arithmetic.
    method MeasuredRate(seconds: real) returns (r: Rate)
      requires Valid() && seconds >= 0.0
      ensures r.NoStreams? <==> elements == []
      ensures elements != [] ==> (seconds > 0.0 <==> r.Rate?)
      ensures r.NotANumber? ==> Payload(elements) % WORD == 0
      ensures r.Infinite? ==> r.total == Payload(elements) % WORD > 0
      ensures r.Rate? ==> r.total == Payload(elements) % WORD && r.mbps * (seconds * 1000000.0) == 8.0 * r.total as real
      ensures r.Rate? && 0 <= Payload(elements) < WORD ==> r.total == Payload(elements)
    {
      if first == null {
        return NoStreams;
      }
      var total: UInt64 := 0;
      var sp := first;
      ghost var i := 0;
      while sp != null
        invariant 0 <= i <= |elements|
        invariant sp == if i < |elements| then elements[i] else null
        invariant total == Payload(elements[..i]) % WORD
        decreases |elements| - i
      {
        var sent := (sp.bytesSent - sp.bytesOmitted) % WORD;
        PayloadGrows(elements, i);
        total := (total + sent) % WORD;
        sp := sp.next;
        i := i + 1;
      }
      assert elements[..i] == elements;
      if 0 <= Payload(elements) < WORD {
        Unwrapped(Payload(elements));
      }
      if seconds > 0.0 {
        r := Rate(total, RateOf(total, seconds));
      } else if total > 0 {
        r := Infinite(total);
      } else {
        r := NotANumber;
      }
    }
  }
}

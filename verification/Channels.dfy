/** Two parties that exchange a fixed list of messages over one FIFO byte queue a direction,
    each sending its own messages and receiving the other's in the common order, in pieces of any size.
 */
module Channels {
  import opened Wire
  import opened Parties

  datatype Message = Message(fromClient: bool, kind: Kind, body: seq<Byte>)

  // A side is at message i with `left` pieces of work before it, or with k of its bytes transferred.
  datatype Pos = Pos(i: nat, left: nat, k: nat)

  predicate Within(ms: seq<Message>, q: Pos) {
    && q.i <= |ms| && (q.left > 0 ==> q.k == 0)
    && if q.i < |ms| then q.k < |ms[q.i].body| else q.k == 0 && q.left == 0
  }

  // All bytes of one side's messages before message i
  function Stream(ms: seq<Message>, fromClient: bool, i: nat): seq<Byte>
    requires i <= |ms|
  {
    if i == 0 then []
    else Stream(ms, fromClient, i - 1) + if ms[i - 1].fromClient == fromClient then ms[i - 1].body else []
  }

  function Whole(ms: seq<Message>, fromClient: bool): seq<Byte> {
    Stream(ms, fromClient, |ms|)
  }

  lemma {:induction false} StreamGrows(ms: seq<Message>, fromClient: bool, i: nat, j: nat)
    requires i <= j <= |ms|
    ensures Stream(ms, fromClient, i) <= Stream(ms, fromClient, j)
    decreases j
  {
    if i < j {
      StreamGrows(ms, fromClient, i, j - 1);
    }
  }

  // How far a side has come in one direction of the channel
  function Reached(ms: seq<Message>, fromClient: bool, q: Pos): nat
    requires q.i <= |ms|
  {
    |Stream(ms, fromClient, q.i)| + if q.i < |ms| && ms[q.i].fromClient == fromClient then q.k else 0
  }

  // The queue holds what the sender has written and the receiver has not read.
  predicate Channel(ms: seq<Message>, fromClient: bool, queue: seq<Byte>, sender: Pos, receiver: Pos)
    requires sender.i <= |ms| && receiver.i <= |ms|
  {
    var a, b := Reached(ms, fromClient, receiver), Reached(ms, fromClient, sender);
    a <= b <= |Whole(ms, fromClient)| && queue == Whole(ms, fromClient)[a..b]
  }

  lemma Stretch<T>(w: seq<T>, before: seq<T>, body: seq<T>)
    requires before + body <= w
    ensures w[|before|..|before| + |body|] == body
  {
    assert w[..|before + body|] == before + body;
  }

  lemma Slice<T>(w: seq<T>, o: nat, b: nat, k: nat, n: nat)
    requires o <= b <= |w| && k + n <= b - o
    ensures w[o..b][k..k + n] == w[o + k..o + k + n]
  {
    var t := w[o..b];
    var x, y := t[k..k + n], w[o + k..o + k + n];
    forall j | 0 <= j < n
      ensures x[j] == y[j]
    {
      assert x[j] == t[k + j] == w[o + k + j];
    }
  }

  // A stretch grows by the next part of the stretch it ends in.
  lemma Extended<T>(w: seq<T>, a: nat, o: nat, b: nat, k: nat, n: nat)
    requires o <= b <= |w| && k + n <= b - o && a <= o + k
    ensures w[a..o + k] + w[o..b][k..k + n] == w[a..o + k + n]
  {
    Slice(w, o, b, k, n);
    Joined(w, a, o + k, o + k + n);
  }

  lemma Joined<T>(w: seq<T>, a: nat, b: nat, c: nat)
    requires a <= b <= c <= |w|
    ensures w[a..b] + w[b..c] == w[a..c]
  {
  }

  // Message i is the stretch of its side's stream between |Stream(i)| and |Stream(i + 1)|.
  lemma BodyInStream(ms: seq<Message>, i: nat)
    requires i < |ms|
    ensures var m := ms[i]; var a := |Stream(ms, m.fromClient, i)|;
      && a + |m.body| == |Stream(ms, m.fromClient, i + 1)| <= |Whole(ms, m.fromClient)|
      && Whole(ms, m.fromClient)[a..a + |m.body|] == m.body
  {
    var m := ms[i];
    StreamGrows(ms, m.fromClient, i + 1, |ms|);
    Stretch(Whole(ms, m.fromClient), Stream(ms, m.fromClient, i), m.body);
  }

  // The position after n more bytes of the message, where the next one has `work` pieces before it
  function Ahead(ms: seq<Message>, work: nat, q: Pos, n: nat): Pos
    requires q.i < |ms|
  {
    if q.k + n < |ms[q.i].body| then q.(k := q.k + n) else Pos(q.i + 1, work, 0)
  }

  lemma ReachedAhead(ms: seq<Message>, fromClient: bool, work: nat, q: Pos, n: nat)
    requires q.i < |ms| && q.k + n <= |ms[q.i].body|
    ensures Reached(ms, fromClient, Ahead(ms, work, q, n)) ==
            Reached(ms, fromClient, q) + if ms[q.i].fromClient == fromClient then n else 0
  {
  }

  // Writing n more bytes of the sender's message
  lemma Written(ms: seq<Message>, fromClient: bool, queue: seq<Byte>, work: nat, sender: Pos, receiver: Pos, n: nat)
    requires sender.i < |ms| && receiver.i <= |ms| && Channel(ms, fromClient, queue, sender, receiver)
    requires ms[sender.i].fromClient == fromClient && sender.k + n <= |ms[sender.i].body|
    ensures Channel(ms, fromClient, queue + ms[sender.i].body[sender.k..sender.k + n],
                    Ahead(ms, work, sender, n), receiver)
  {
    BodyInStream(ms, sender.i);
    ReachedAhead(ms, fromClient, work, sender, n);
    var body, w, o := ms[sender.i].body, Whole(ms, fromClient), |Stream(ms, fromClient, sender.i)|;
    Extended(w, Reached(ms, fromClient, receiver), o, o + |body|, sender.k, n);
  }

  // A stretch of w that starts k into the body between o and o + |body| is the body from k on.
  lemma NextBytes<T>(w: seq<T>, o: nat, body: seq<T>, k: nat, b: nat, n: nat)
    requires o + |body| <= |w| && w[o..o + |body|] == body && k + n <= |body| && o + k + n <= b <= |w|
    ensures w[o + k..b][..n] == body[k..k + n] && w[o + k..b][n..] == w[o + k + n..b]
  {
    Slice(w, o, o + |body|, k, n);
    Slice(w, o + k, b, 0, n);
    Slice(w, o + k, b, n, b - o - k - n);
  }

  // Reading n bytes: they are the next bytes of the receiver's message.
  lemma Consumed(ms: seq<Message>, fromClient: bool, queue: seq<Byte>, work: nat, sender: Pos, receiver: Pos, n: nat)
    requires sender.i <= |ms| && receiver.i < |ms| && n <= |queue| && Channel(ms, fromClient, queue, sender, receiver)
    requires ms[receiver.i].fromClient == fromClient && receiver.k + n <= |ms[receiver.i].body|
    ensures Channel(ms, fromClient, queue[n..], sender, Ahead(ms, work, receiver, n))
    ensures ms[receiver.i].body[..receiver.k] + queue[..n] == ms[receiver.i].body[..receiver.k + n]
  {
    BodyInStream(ms, receiver.i);
    ReachedAhead(ms, fromClient, work, receiver, n);
    var body, w, o := ms[receiver.i].body, Whole(ms, fromClient), |Stream(ms, fromClient, receiver.i)|;
    NextBytes(w, o, body, receiver.k, Reached(ms, fromClient, sender), n);
    Joined(body, 0, receiver.k, receiver.k + n);
  }

  // The other direction does not notice a transfer.
  lemma Kept(ms: seq<Message>, fromClient: bool, queue: seq<Byte>, work: nat, q: Pos, other: Pos, n: nat)
    requires q.i < |ms| && other.i <= |ms| && q.k + n <= |ms[q.i].body| && ms[q.i].fromClient != fromClient
    ensures Channel(ms, fromClient, queue, q, other) ==> Channel(ms, fromClient, queue, Ahead(ms, work, q, n), other)
    ensures Channel(ms, fromClient, queue, other, q) ==> Channel(ms, fromClient, queue, other, Ahead(ms, work, q, n))
  {
    ReachedAhead(ms, fromClient, work, q, n);
  }

  // ---------- Both directions ----------

  // The queues between a side at q and the other at r
  predicate Queues(ms: seq<Message>, side: bool, out: seq<Byte>, inn: seq<Byte>, q: Pos, r: Pos)
    requires q.i <= |ms| && r.i <= |ms|
  {
    Channel(ms, side, out, q, r) && Channel(ms, !side, inn, r, q)
  }

  lemma QueuesWritten(ms: seq<Message>, side: bool, out: seq<Byte>, inn: seq<Byte>, work: nat, q: Pos, r: Pos, n: nat)
    requires q.i < |ms| && r.i <= |ms| && Queues(ms, side, out, inn, q, r)
    requires ms[q.i].fromClient == side && q.k + n <= |ms[q.i].body|
    ensures Queues(ms, side, out + ms[q.i].body[q.k..q.k + n], inn, Ahead(ms, work, q, n), r)
  {
    Written(ms, side, out, work, q, r, n);
    Kept(ms, !side, inn, work, q, r, n);
  }

  lemma QueuesRead(ms: seq<Message>, side: bool, out: seq<Byte>, inn: seq<Byte>, work: nat, q: Pos, r: Pos, n: nat)
    requires q.i < |ms| && r.i <= |ms| && Queues(ms, side, out, inn, q, r) && n <= |inn|
    requires ms[q.i].fromClient != side && q.k + n <= |ms[q.i].body|
    ensures Queues(ms, side, out, inn[n..], Ahead(ms, work, q, n), r)
    ensures ms[q.i].body[..q.k] + inn[..n] == ms[q.i].body[..q.k + n]
  {
    Consumed(ms, !side, inn, work, r, q, n);
    Kept(ms, side, out, work, q, r, n);
  }

  lemma QueuesWorked(ms: seq<Message>, side: bool, out: seq<Byte>, inn: seq<Byte>, q: Pos, r: Pos, left: nat)
    requires q.i <= |ms| && r.i <= |ms| && Queues(ms, side, out, inn, q, r)
    ensures Queues(ms, side, out, inn, q.(left := left), r)
  {
  }

  // A message that is received has been sent.
  lemma SentBefore(ms: seq<Message>, f: bool, queue: seq<Byte>, sender: Pos, receiver: Pos, j: nat)
    requires Within(ms, sender) && Within(ms, receiver) && j < receiver.i
    requires Channel(ms, f, queue, sender, receiver) && ms[j].fromClient == f && ms[j].body != []
    ensures j < sender.i
  {
    if sender.i <= j {
      StreamGrows(ms, f, sender.i, j);
      StreamGrows(ms, f, j + 1, receiver.i);
      if sender.i < j {
        StreamGrows(ms, f, sender.i + 1, j);
      }
    }
  }

  // A receiver that is ahead of the sender only skipped messages of the other direction.
  lemma NothingBetween(ms: seq<Message>, f: bool, queue: seq<Byte>, sender: Pos, receiver: Pos)
    requires Within(ms, sender) && Within(ms, receiver) && Channel(ms, f, queue, sender, receiver)
    ensures forall j :: sender.i <= j < receiver.i && ms[j].body != [] ==> ms[j].fromClient != f
  {
    forall j | sender.i <= j < receiver.i && ms[j].body != []
      ensures ms[j].fromClient != f
    {
      if ms[j].fromClient == f {
        SentBefore(ms, f, queue, sender, receiver, j);
      }
    }
  }

  // Bytes of a message that its sender has completed are waiting for a receiver that is not past it.
  lemma SomethingToRead(ms: seq<Message>, queue: seq<Byte>, sender: Pos, receiver: Pos)
    requires Within(ms, sender) && Within(ms, receiver) && receiver.i < sender.i
    requires Channel(ms, ms[receiver.i].fromClient, queue, sender, receiver)
    ensures queue != []
  {
    StreamGrows(ms, ms[receiver.i].fromClient, receiver.i + 1, sender.i);
  }

  // ---------- What has been transferred ----------

  // The messages one side has sent before message i, as its log has them
  function Log(ms: seq<Message>, fromClient: bool, i: nat): seq<Item>
    requires i <= |ms|
  {
    if i == 0 then [] else
    var m := ms[i - 1];
    Log(ms, fromClient, i - 1) + if m.fromClient == fromClient then [Item(m.kind, m.body)] else []
  }

  lemma {:induction false} LogGrows(ms: seq<Message>, f: bool, i: nat, j: nat)
    requires i <= j <= |ms|
    ensures Log(ms, f, i) <= Log(ms, f, j)
    ensures (forall k :: i <= k < j ==> ms[k].fromClient != f) ==> Log(ms, f, i) == Log(ms, f, j)
    decreases j
  {
    if i < j {
      LogGrows(ms, f, i, j - 1);
    }
  }

  // What the receiver has in its log is what the sender has first in its own.
  lemma LogReceived(ms: seq<Message>, f: bool, queue: seq<Byte>, sender: Pos, receiver: Pos)
    requires Within(ms, sender) && Within(ms, receiver) && Channel(ms, f, queue, sender, receiver)
    requires forall i :: 0 <= i < |ms| ==> ms[i].body != []
    ensures Log(ms, f, receiver.i) <= Log(ms, f, sender.i)
  {
    if receiver.i <= sender.i {
      LogGrows(ms, f, receiver.i, sender.i);
    } else {
      NothingBetween(ms, f, queue, sender, receiver);
      LogGrows(ms, f, sender.i, receiver.i);
    }
  }
}

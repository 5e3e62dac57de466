/** Two programs that follow a plan: a common order of messages, with the state of each program when
    it comes to each message and the work it does before.  Whatever the plan is, and however the
    transfers are cut into pieces, every move leads from positions in the plan to positions in the plan.
 */
module Plans {
  import opened Wire
  import opened Parties
  import opened Sessions
  import opened Channels

  // A program, but for its history, about to transfer a message; the work it does before; and its status
  // before that work
  datatype Stop = Stop(party: Party, pre: seq<Work>, arriving: int)

  // Each side has a stop at every message, and one at the end.
  datatype Plan = Plan(ms: seq<Message>, clients: seq<Stop>, servers: seq<Stop>, hasTcp: bool, hasUdt: bool)
  {
    predicate Sized() {
      |clients| == |servers| == |ms| + 1 && |ms| >= 2
    }

    function At(side: bool, i: nat): Stop
      requires Sized() && i <= |ms|
    {
      if side then clients[i] else servers[i]
    }
  }

  function Works(ws: seq<Work>): (r: seq<Action>)
    ensures |r| == |ws|
  {
    if ws == [] then [] else [Do(ws[0])] + Works(ws[1..])
  }

  // How a side's program starts the transfer of a message
  function Transfer(m: Message, sends: bool): Action {
    if sends then Send(m.kind, m.body, 0) else Recv(m.kind, |m.body|)
  }

  // ---------- What makes a plan ----------

  // The program when the message is transferred, its history left as it was
  function After(c: Party, m: Message, hasTcp: bool, hasUdt: bool): Party
    requires c.todo != []
  {
    var rest := c.(todo := c.todo[1..]);
    if m.fromClient == c.client then rest else Received(rest, m.kind, m.body, hasTcp, hasUdt)
  }

  // The stop belongs to the message, and the program goes from it to the next one.  The server's
  // answer to the last code depends on the workers that there are then.
  predicate StopGood(d: Plan, side: bool, i: nat, hasTcp: bool, hasUdt: bool)
    requires d.Sized() && i < |d.ms|
  {
    var s, m, next := d.At(side, i), d.ms[i], d.At(side, i + 1);
    && m.body != [] && s.party.client == side && s.party.got == [] && GiveUp !in s.pre
    && s.party.todo != [] && s.party.todo[0] == Transfer(m, m.fromClient == side)
    && (if SetEstablished in s.pre then s.pre == [SetEstablished] && s.party.status == CTRL_CHAN_EST
        else s.arriving == s.party.status)
    && ((!side && i == |d.ms| - 2 ==> hasTcp == d.hasTcp && hasUdt == d.hasUdt) ==>
        After(s.party, m, hasTcp, hasUdt) ==
        next.party.(todo := Works(next.pre) + next.party.todo, status := next.arriving))
  }

  predicate EndGood(d: Plan, side: bool)
    requires d.Sized()
  {
    var s := d.At(side, |d.ms|);
    s.party.todo == [] && s.party.got == [] && s.pre == [] && s.arriving == s.party.status
  }

  ghost predicate Good(d: Plan) {
    && d.Sized() && EndGood(d, true) && EndGood(d, false)
    && forall side, i: nat, hasTcp, hasUdt | i < |d.ms| :: StopGood(d, side, i, hasTcp, hasUdt)
  }

  // ---------- Positions ----------

  // What is left of a program at a position; `rest` starts with the transfer of the message.
  function TodoAt(pre: seq<Work>, rest: seq<Action>, q: Pos): seq<Action>
    requires q.left <= |pre|
  {
    if q.left > 0 then Works(pre[|pre| - q.left..]) + rest
    else if rest != [] && rest[0].Send? then [rest[0].(at := q.k)] + rest[1..]
    else rest
  }

  // The bytes of the message that have arrived
  function GotAt(rest: seq<Action>, body: seq<Byte>, q: Pos): seq<Byte>
    requires q.k <= |body|
  {
    if rest != [] && rest[0].Recv? then body[..q.k] else []
  }

  // The work that lies before message i, and before the position
  function DidBefore(d: Plan, side: bool, i: nat): seq<Work>
    requires d.Sized() && i <= |d.ms|
  {
    if i == 0 then [] else DidBefore(d, side, i - 1) + d.At(side, i - 1).pre
  }

  predicate Fits(d: Plan, side: bool, q: Pos) {
    d.Sized() && Within(d.ms, q) && q.left <= |d.At(side, q.i).pre|
  }

  function DidAt(d: Plan, side: bool, q: Pos): seq<Work>
    requires Fits(d, side, q)
  {
    var pre := d.At(side, q.i).pre;
    DidBefore(d, side, q.i) + pre[..|pre| - q.left]
  }

  function BodyAt(d: Plan, i: nat): seq<Byte> {
    if i < |d.ms| then d.ms[i].body else []
  }

  // A position determines everything about its side.
  function Base(d: Plan, side: bool, q: Pos): Party
    requires Fits(d, side, q)
  {
    var s := d.At(side, q.i);
    s.party.(todo := TodoAt(s.pre, s.party.todo, q), got := GotAt(s.party.todo, BodyAt(d, q.i), q),
             status := if q.left > 0 then s.arriving else s.party.status)
  }

  function State(d: Plan, side: bool, q: Pos): Party
    requires Fits(d, side, q)
  {
    Base(d, side, q).(sent := Log(d.ms, side, q.i), received := Log(d.ms, !side, q.i), did := DidAt(d, side, q))
  }

  // Work comes first; then the transfer, as far as it has got.
  lemma TodoHead(pre: seq<Work>, rest: seq<Action>, q: Pos)
    requires q.left <= |pre| && rest != [] && !rest[0].Do?
    ensures var todo := TodoAt(pre, rest, q);
      && todo != [] && (todo[0].Do? <==> q.left > 0)
      && (q.left > 0 ==> todo[0] == Do(pre[|pre| - q.left]))
      && (q.left == 0 ==> todo[0] == (if rest[0].Send? then rest[0].(at := q.k) else rest[0]) && todo[1..] == rest[1..])
  {
  }

  lemma TodoBefore(pre: seq<Work>, rest: seq<Action>, q: Pos, ws: seq<Work>)
    requires 0 < q.left <= |pre| && ws == pre[|pre| - q.left..]
    ensures TodoAt(pre, rest, q) == Works(ws) + rest && |ws| == q.left
  {
  }

  lemma WorksThen(ws: seq<Work>, more: seq<Work>, rest: seq<Action>)
    requires ws != [] && more == ws[1..]
    ensures Works(ws) + rest != [] && (Works(ws) + rest)[1..] == Works(more) + rest
  {
  }

  // One piece of work done, where more is left or not
  lemma TodoWorked(pre: seq<Work>, rest: seq<Action>, q: Pos, r: Pos)
    requires 0 < q.left <= |pre| && q.k == 0 && r == q.(left := q.left - 1)
    requires rest != [] && !rest[0].Do? && (rest[0].Send? ==> rest[0].at == 0)
    ensures TodoAt(pre, rest, q) != [] && TodoAt(pre, rest, q)[1..] == TodoAt(pre, rest, r)
  {
    var ws, more := pre[|pre| - q.left..], pre[|pre| - r.left..];
    TodoBefore(pre, rest, q, ws);
    WorksThen(ws, more, rest);
    if r.left > 0 {
      TodoBefore(pre, rest, r, more);
    } else {
      TodoFresh([], rest, q.i);
      assert more == [];
    }
  }

  // n more bytes of a message written, but not all
  lemma TodoSent(pre: seq<Work>, rest: seq<Action>, q: Pos, n: nat)
    requires q.left == 0 && rest != [] && rest[0].Send?
    ensures var todo := TodoAt(pre, rest, q);
      todo != [] && [todo[0].(at := q.k + n)] + todo[1..] == TodoAt(pre, rest, q.(k := q.k + n))
  {
  }

  // A new message, with all of its work before it
  lemma TodoFresh(pre: seq<Work>, rest: seq<Action>, i: nat)
    requires rest == [] || (!rest[0].Do? && (rest[0].Send? ==> rest[0].at == 0))
    ensures Works(pre) + rest == TodoAt(pre, rest, Pos(i, |pre|, 0))
  {
    if pre == [] {
      assert Works(pre) + rest == rest;
      if rest != [] {
        assert rest == [rest[0]] + rest[1..];
      }
    } else {
      assert pre[0..] == pre;
    }
  }

  // ---------- One side ----------

  lemma StopIs(d: Plan, side: bool, i: nat, hasTcp: bool, hasUdt: bool)
    requires Good(d) && i < |d.ms|
    ensures StopGood(d, side, i, hasTcp, hasUdt)
  {
  }

  lemma Head(d: Plan, side: bool, q: Pos)
    requires Good(d) && Fits(d, side, q) && q.i < |d.ms|
    ensures var c, m, pre := State(d, side, q), d.ms[q.i], d.At(side, q.i).pre;
      && c.todo != [] && (c.todo[0].Do? <==> q.left > 0)
      && (q.left > 0 ==> c.todo[0] == Do(pre[|pre| - q.left]))
      && (q.left == 0 ==>
            c.todo[0] == if m.fromClient == side then Send(m.kind, m.body, q.k) else Recv(m.kind, |m.body|))
      && (q.left == 0 ==> c.todo[1..] == d.At(side, q.i).party.todo[1..])
      && c.got == if m.fromClient == side then [] else m.body[..q.k]
  {
    var rest := d.At(side, q.i).party.todo;
    assert State(d, side, q).todo == TodoAt(d.At(side, q.i).pre, rest, q);
    assert State(d, side, q).got == GotAt(rest, d.ms[q.i].body, q);
    StopIs(d, side, q.i, d.hasTcp, d.hasUdt);
    TodoHead(d.At(side, q.i).pre, d.At(side, q.i).party.todo, q);
  }

  // A side that still has something to do has not come to the end.
  lemma Busy(d: Plan, side: bool, q: Pos)
    requires Good(d) && Fits(d, side, q)
    ensures State(d, side, q).todo != [] <==> q.i < |d.ms|
  {
    if q.i < |d.ms| {
      Head(d, side, q);
    }
  }

  // Its position when message i is transferred, and when n more bytes are
  function Past(d: Plan, side: bool, i: nat): Pos
    requires d.Sized() && i < |d.ms|
  {
    Pos(i + 1, |d.At(side, i + 1).pre|, 0)
  }

  function Further(d: Plan, side: bool, q: Pos, n: nat): Pos
    requires d.Sized() && q.i < |d.ms|
  {
    Ahead(d.ms, |d.At(side, q.i + 1).pre|, q, n)
  }

  // A side that has just come to a message: all of its work is before it, and nothing of it transferred.
  lemma FreshFits(d: Plan, side: bool, i: nat, q: Pos)
    requires Good(d) && i <= |d.ms| && q == Pos(i, |d.At(side, i).pre|, 0)
    ensures Fits(d, side, q) && GotAt(d.At(side, i).party.todo, BodyAt(d, i), q) == [] == d.At(side, i).party.got
    ensures d.At(side, i).pre == [] ==> d.At(side, i).arriving == d.At(side, i).party.status
  {
    if i < |d.ms| {
      StopIs(d, side, i, d.hasTcp, d.hasUdt);
    }
  }

  lemma FreshTodo(d: Plan, side: bool, i: nat, q: Pos)
    requires Good(d) && i <= |d.ms| && q == Pos(i, |d.At(side, i).pre|, 0)
    ensures var s := d.At(side, i); TodoAt(s.pre, s.party.todo, q) == Works(s.pre) + s.party.todo
  {
    if i < |d.ms| {
      StopIs(d, side, i, d.hasTcp, d.hasUdt);
    }
    TodoFresh(d.At(side, i).pre, d.At(side, i).party.todo, i);
  }

  lemma FreshBase(d: Plan, side: bool, i: nat, q: Pos)
    requires Good(d) && i <= |d.ms| && q == Pos(i, |d.At(side, i).pre|, 0)
    ensures Fits(d, side, q)
    ensures var s := d.At(side, i);
      Base(d, side, q) == s.party.(todo := Works(s.pre) + s.party.todo, status := s.arriving)
  {
    FreshFits(d, side, i, q);
    FreshTodo(d, side, i, q);
  }

  lemma Arrives(d: Plan, side: bool, i: nat, hasTcp: bool, hasUdt: bool)
    requires Good(d) && i < |d.ms|
    requires !side && i == |d.ms| - 2 ==> hasTcp == d.hasTcp && hasUdt == d.hasUdt
    ensures Fits(d, side, Past(d, side, i)) && d.At(side, i).party.todo != []
    ensures After(d.At(side, i).party, d.ms[i], hasTcp, hasUdt) == Base(d, side, Past(d, side, i))
  {
    StopIs(d, side, i, hasTcp, hasUdt);
    FreshBase(d, side, i + 1, Past(d, side, i));
  }

  lemma DidOn(d: Plan, side: bool, i: nat)
    requires d.Sized() && i < |d.ms| && Fits(d, side, Past(d, side, i)) && Fits(d, side, Pos(i, 0, 0))
    ensures DidAt(d, side, Past(d, side, i)) == DidAt(d, side, Pos(i, 0, 0))
  {
    var pre, next := d.At(side, i).pre, d.At(side, i + 1).pre;
    assert pre[..|pre|] == pre && next[..0] == [];
  }

  // The history of a side that has transferred message i
  lemma Transferred(d: Plan, side: bool, q: Pos)
    requires Fits(d, side, q) && q.i < |d.ms| && q.left == 0 && Fits(d, side, Past(d, side, q.i))
    ensures var m, r := d.ms[q.i], Past(d, side, q.i);
      && State(d, side, r).sent ==
         State(d, side, q).sent + (if m.fromClient == side then [Item(m.kind, m.body)] else [])
      && State(d, side, r).received ==
         State(d, side, q).received + (if m.fromClient == side then [] else [Item(m.kind, m.body)])
      && State(d, side, r).did == State(d, side, q).did
  {
    DidOn(d, side, q.i);
  }

  lemma SentAll(d: Plan, side: bool, q: Pos, n: nat)
    requires Good(d) && Fits(d, side, q) && q.i < |d.ms| && q.left == 0
    requires d.ms[q.i].fromClient == side && q.k + n == |d.ms[q.i].body|
    ensures (Head(d, side, q); var r := Past(d, side, q.i);
      Fits(d, side, r) && Wrote(State(d, side, q), n) == State(d, side, r))
  {
    Head(d, side, q);
    StopIs(d, side, q.i, d.hasTcp, d.hasUdt);
    Arrives(d, side, q.i, d.hasTcp, d.hasUdt);
    Transferred(d, side, q);
    var s, c := d.At(side, q.i), State(d, side, q);
    assert c.(todo := c.todo[1..]) ==
           s.party.(todo := s.party.todo[1..], sent := c.sent, received := c.received, did := c.did);
  }

  lemma SentSome(d: Plan, side: bool, q: Pos, n: nat)
    requires Good(d) && Fits(d, side, q) && q.i < |d.ms| && q.left == 0
    requires d.ms[q.i].fromClient == side && q.k + n < |d.ms[q.i].body|
    ensures (Head(d, side, q); var r := q.(k := q.k + n);
      Fits(d, side, r) && Wrote(State(d, side, q), n) == State(d, side, r))
  {
    Head(d, side, q);
    StopIs(d, side, q.i, d.hasTcp, d.hasUdt);
    TodoSent(d.At(side, q.i).pre, d.At(side, q.i).party.todo, q, n);
    OnlyTodo(d, side, q, q.(k := q.k + n));
  }

  // A sender's state depends on how far it has got only in what it has left to do.
  lemma OnlyTodo(d: Plan, side: bool, q: Pos, r: Pos)
    requires Fits(d, side, q) && Fits(d, side, r) && q.i == r.i < |d.ms| && q.left == r.left == 0
    requires var rest := d.At(side, q.i).party.todo; rest != [] && rest[0].Send?
    ensures State(d, side, r) == State(d, side, q).(todo := TodoAt(d.At(side, q.i).pre, d.At(side, q.i).party.todo, r))
  {
  }

  // A program does not look at its history.
  lemma StatusApart(c: Party, bytes: seq<Byte>, hasTcp: bool, hasUdt: bool,
                    sent: seq<Item>, received: seq<Item>, did: seq<Work>)
    ensures Received(c.(sent := sent, received := received, did := did), Status, bytes, hasTcp, hasUdt) ==
            Received(c, Status, bytes, hasTcp, hasUdt).(sent := sent, received := received, did := did)
  {
    if |bytes| == 1 {
      var next := c.(status := SignedChar(bytes[0]));
      assert Reaction(next, hasTcp, hasUdt) ==
             Reaction(next.(sent := sent, received := received, did := did), hasTcp, hasUdt);
    }
  }

  lemma FieldsApart(c: Party, kind: Kind, bytes: seq<Byte>, hasTcp: bool, hasUdt: bool,
                    sent: seq<Item>, received: seq<Item>, did: seq<Work>)
    requires kind != Status
    ensures Received(c.(sent := sent, received := received, did := did), kind, bytes, hasTcp, hasUdt) ==
            Received(c, kind, bytes, hasTcp, hasUdt).(sent := sent, received := received, did := did)
  {
  }

  lemma HistoryApart(c: Party, kind: Kind, bytes: seq<Byte>, hasTcp: bool, hasUdt: bool,
                     sent: seq<Item>, received: seq<Item>, did: seq<Work>)
    ensures Received(c.(sent := sent, received := received, did := did), kind, bytes, hasTcp, hasUdt) ==
            Received(c, kind, bytes, hasTcp, hasUdt).(sent := sent, received := received, did := did)
  {
    if kind == Status {
      StatusApart(c, bytes, hasTcp, hasUdt, sent, received, did);
    } else {
      FieldsApart(c, kind, bytes, hasTcp, hasUdt, sent, received, did);
    }
  }

  // The last bytes of a message
  lemma TookAll(c: Party, base: Party, bytes: seq<Byte>, m: Message, hasTcp: bool, hasUdt: bool)
    requires c.(got := [], sent := base.sent, received := base.received, did := base.did) == base
    requires c.todo != [] && c.todo[0] == Recv(m.kind, |m.body|) && m.fromClient != c.client && c.got + bytes == m.body
    ensures Took(c, bytes, hasTcp, hasUdt) ==
            After(base, m, hasTcp, hasUdt).(
              sent := c.sent, received := c.received + [Item(m.kind, m.body)], did := c.did)
  {
    var rest, received := base.(todo := base.todo[1..]), c.received + [Item(m.kind, m.body)];
    HistoryApart(rest, m.kind, m.body, hasTcp, hasUdt, c.sent, received, c.did);
    assert c.(todo := c.todo[1..], got := [], received := received) ==
           rest.(sent := c.sent, received := received, did := c.did);
  }

  lemma GotAll(d: Plan, side: bool, q: Pos, bytes: seq<Byte>, hasTcp: bool, hasUdt: bool)
    requires Good(d) && Fits(d, side, q) && q.i < |d.ms| && q.left == 0
    requires d.ms[q.i].fromClient != side && d.ms[q.i].body[..q.k] + bytes == d.ms[q.i].body
    requires !side && q.i == |d.ms| - 2 ==> hasTcp == d.hasTcp && hasUdt == d.hasUdt
    ensures (Head(d, side, q); var r := Past(d, side, q.i);
      Fits(d, side, r) && Took(State(d, side, q), bytes, hasTcp, hasUdt) == State(d, side, r))
  {
    Head(d, side, q);
    StopIs(d, side, q.i, d.hasTcp, d.hasUdt);
    Arrives(d, side, q.i, hasTcp, hasUdt);
    Transferred(d, side, q);
    TookAll(State(d, side, q), d.At(side, q.i).party, bytes, d.ms[q.i], hasTcp, hasUdt);
  }

  lemma GotSome(d: Plan, side: bool, q: Pos, bytes: seq<Byte>, hasTcp: bool, hasUdt: bool)
    requires Good(d) && Fits(d, side, q) && q.i < |d.ms| && q.left == 0
    requires var m := d.ms[q.i];
      m.fromClient != side && q.k + |bytes| < |m.body| && m.body[..q.k] + bytes == m.body[..q.k + |bytes|]
    ensures (Head(d, side, q); var r := q.(k := q.k + |bytes|);
      Fits(d, side, r) && Took(State(d, side, q), bytes, hasTcp, hasUdt) == State(d, side, r))
  {
    Head(d, side, q);
    StopIs(d, side, q.i, d.hasTcp, d.hasUdt);
  }

  lemma DidMore(d: Plan, side: bool, q: Pos)
    requires Fits(d, side, q) && q.left > 0 && Fits(d, side, q.(left := q.left - 1))
    ensures var pre := d.At(side, q.i).pre;
      DidAt(d, side, q.(left := q.left - 1)) == DidAt(d, side, q) + [pre[|pre| - q.left]]
  {
    var pre := d.At(side, q.i).pre;
    assert pre[..|pre| - (q.left - 1)] == pre[..|pre| - q.left] + [pre[|pre| - q.left]];
  }

  lemma Does(d: Plan, side: bool, q: Pos)
    requires Good(d) && Fits(d, side, q) && q.i < |d.ms| && q.left > 0
    ensures (Head(d, side, q); var r := q.(left := q.left - 1);
      Fits(d, side, r) && Worked(State(d, side, q)) == State(d, side, r))
  {
    Head(d, side, q);
    StopIs(d, side, q.i, d.hasTcp, d.hasUdt);
    DidMore(d, side, q);
    TodoWorked(d.At(side, q.i).pre, d.At(side, q.i).party.todo, q, q.(left := q.left - 1));
  }

  // ---------- All of a side's work ----------

  lemma {:induction false} DidGrows(d: Plan, side: bool, i: nat, j: nat)
    requires d.Sized() && i <= j <= |d.ms|
    ensures DidBefore(d, side, i) <= DidBefore(d, side, j)
    decreases j
  {
    if i < j {
      DidGrows(d, side, i, j - 1);
    }
  }

  // A side that has come to a position has done a first part of its work, and at the end all of it.
  lemma DidInOrder(d: Plan, side: bool, q: Pos)
    requires Fits(d, side, q) && EndGood(d, side)
    ensures DidAt(d, side, q) <= DidBefore(d, side, |d.ms|)
    ensures q.i == |d.ms| ==> DidAt(d, side, q) == DidBefore(d, side, |d.ms|)
  {
    if q.i < |d.ms| {
      DidGrows(d, side, q.i + 1, |d.ms|);
      var pre := d.At(side, q.i).pre;
      assert DidAt(d, side, q) <= DidBefore(d, side, q.i) + pre == DidBefore(d, side, q.i + 1);
    }
  }

  lemma DidStep(d: Plan, side: bool, i: nat, next: nat)
    requires d.Sized() && next == i + 1 <= |d.ms|
    ensures DidBefore(d, side, next) == DidBefore(d, side, i) + d.At(side, i).pre
  {
  }

  // No work from message i on before message j
  lemma {:induction false} DidNothing(d: Plan, side: bool, i: nat, j: nat)
    requires d.Sized() && i <= j <= |d.ms| && forall k :: i <= k < j ==> d.At(side, k).pre == []
    ensures DidBefore(d, side, j) == DidBefore(d, side, i)
    decreases j
  {
    if i < j {
      DidNothing(d, side, i, j - 1);
      DidStep(d, side, j - 1, j);
    }
  }

  lemma DidNext(d: Plan, side: bool, i: nat, next: nat, j: nat, before: seq<Work>, pre: seq<Work>)
    requires d.Sized() && next == i + 1 <= j <= |d.ms| && DidBefore(d, side, i) == before && d.At(side, i).pre == pre
    requires forall k :: next <= k < j ==> d.At(side, k).pre == []
    ensures DidBefore(d, side, j) == before + pre
  {
    DidNothing(d, side, next, j);
    DidStep(d, side, i, next);
  }

  // ---------- Both sides and the queues ----------

  predicate Stands(d: Plan, side: bool, w: World, q: Pos) {
    Fits(d, side, q) && w.Side(side) == State(d, side, q)
  }

  // One side is at q and the other at r, and the queues hold what is between them.
  predicate Apart(d: Plan, side: bool, w: World, q: Pos, r: Pos) {
    Stands(d, side, w, q) && Stands(d, !side, w, r) && Queues(d.ms, side, w.Queue(side), w.Queue(!side), q, r)
  }

  predicate InPlan(d: Plan, w: World, cq: Pos, sq: Pos) {
    Apart(d, true, w, cq, sq)
  }

  lemma Turned(d: Plan, w: World, q: Pos, r: Pos)
    ensures Apart(d, false, w, r, q) <==> Apart(d, true, w, q, r)
  {
  }

  lemma Sends(d: Plan, side: bool, q: Pos, n: nat)
    requires Good(d) && Fits(d, side, q)
    requires var c := State(d, side, q); c.todo != [] && c.todo[0].Send? && c.todo[0].at + n <= |c.todo[0].buf|
    ensures q.i < |d.ms| && q.left == 0 && d.ms[q.i].fromClient == side && q.k + n <= |d.ms[q.i].body|
    ensures var c := State(d, side, q); c.todo[0].buf == d.ms[q.i].body && c.todo[0].at == q.k
    ensures var r := Further(d, side, q, n); Fits(d, side, r) && Wrote(State(d, side, q), n) == State(d, side, r)
  {
    Busy(d, side, q);
    Head(d, side, q);
    if q.k + n == |d.ms[q.i].body| {
      SentAll(d, side, q, n);
    } else {
      SentSome(d, side, q, n);
    }
  }

  // What this side reads are the next bytes of the message it expects.
  lemma Expects(d: Plan, side: bool, q: Pos, n: nat)
    requires Good(d) && Fits(d, side, q)
    requires var c := State(d, side, q); c.todo != [] && c.todo[0].Recv? && |c.got| + n <= c.todo[0].need
    ensures q.i < |d.ms| && q.left == 0 && d.ms[q.i].fromClient != side && q.k + n <= |d.ms[q.i].body|
  {
    Busy(d, side, q);
    Head(d, side, q);
  }

  lemma Takes(d: Plan, side: bool, q: Pos, bytes: seq<Byte>, hasTcp: bool, hasUdt: bool)
    requires Good(d) && Fits(d, side, q) && q.i < |d.ms| && q.left == 0 && d.ms[q.i].fromClient != side
    requires var body := d.ms[q.i].body; q.k + |bytes| <= |body| && body[..q.k] + bytes == body[..q.k + |bytes|]
    requires !side && q.i == |d.ms| - 2 ==> hasTcp == d.hasTcp && hasUdt == d.hasUdt
    ensures (Head(d, side, q); var r := Further(d, side, q, |bytes|);
      Fits(d, side, r) && Took(State(d, side, q), bytes, hasTcp, hasUdt) == State(d, side, r))
  {
    Head(d, side, q);
    var body := d.ms[q.i].body;
    if q.k + |bytes| == |body| {
      assert body[..|body|] == body && Further(d, side, q, |bytes|) == Past(d, side, q.i);
      GotAll(d, side, q, bytes, hasTcp, hasUdt);
    } else {
      assert Further(d, side, q, |bytes|) == q.(k := q.k + |bytes|);
      GotSome(d, side, q, bytes, hasTcp, hasUdt);
    }
  }

  lemma Labours(d: Plan, side: bool, q: Pos)
    requires Good(d) && Fits(d, side, q)
    requires var c := State(d, side, q); c.todo != [] && c.todo[0].Do?
    ensures q.i < |d.ms| && q.left > 0
    ensures State(d, side, q).todo[0] == Do(d.At(side, q.i).pre[|d.At(side, q.i).pre| - q.left])
    ensures var r := q.(left := q.left - 1); Fits(d, side, r) && Worked(State(d, side, q)) == State(d, side, r)
  {
    Busy(d, side, q);
    Head(d, side, q);
    Does(d, side, q);
  }

  // ---------- Every move ----------

  // Whose move it is, if it is not a worker's
  predicate MoveOf(m: Move, side: bool) {
    (m.Write? || m.Read? || m.Act?) && m.side == side
  }

  // Where a move leads that side
  function Next(d: Plan, side: bool, q: Pos, m: Move): Pos
    requires d.Sized()
  {
    if q.i >= |d.ms| || !MoveOf(m, side) then q
    else if !m.Act? then Further(d, side, q, m.n)
    else if q.left > 0 then q.(left := q.left - 1)
    else q
  }

  lemma WriteStands(d: Plan, side: bool, w: World, q: Pos, n: nat)
    requires Good(d) && Stands(d, side, w, q) && Enabled(w, Write(side, n))
    ensures q.i < |d.ms| && q.left == 0 && 0 < n && q.k + n <= |d.ms[q.i].body| && d.ms[q.i].fromClient == side
    ensures Stands(d, side, Apply(w, Write(side, n)), Further(d, side, q, n))
    ensures Apply(w, Write(side, n)).Queue(side) == w.Queue(side) + d.ms[q.i].body[q.k..q.k + n]
    ensures Apply(w, Write(side, n)).Queue(!side) == w.Queue(!side)
  {
    Sends(d, side, q, n);
    SideApplied(w, Write(side, n));
  }

  lemma ReadBounds(d: Plan, side: bool, w: World, q: Pos, n: nat)
    requires Good(d) && Stands(d, side, w, q) && Enabled(w, Read(side, n))
    ensures q.i < |d.ms| && q.left == 0 && 0 < n && q.k + n <= |d.ms[q.i].body| && d.ms[q.i].fromClient != side
  {
    Expects(d, side, q, n);
  }

  lemma ReadStands(d: Plan, side: bool, w: World, q: Pos, n: nat)
    requires Good(d) && Stands(d, side, w, q) && Enabled(w, Read(side, n))
    requires q.i < |d.ms| && q.left == 0 && d.ms[q.i].fromClient != side
    requires q.k + n <= |d.ms[q.i].body| && d.ms[q.i].body[..q.k] + w.Queue(!side)[..n] == d.ms[q.i].body[..q.k + n]
    requires !side && q.i == |d.ms| - 2 ==> !w.tcp.NoTcp? == d.hasTcp && !w.udt.NoUdt? == d.hasUdt
    ensures Stands(d, side, Apply(w, Read(side, n)), Further(d, side, q, n))
    ensures Apply(w, Read(side, n)).Queue(side) == w.Queue(side)
    ensures Apply(w, Read(side, n)).Queue(!side) == w.Queue(!side)[n..]
  {
    Takes(d, side, q, w.Queue(!side)[..n], !w.tcp.NoTcp?, !w.udt.NoUdt?);
    SideApplied(w, Read(side, n));
  }

  lemma ActStands(d: Plan, side: bool, w: World, q: Pos)
    requires Good(d) && Stands(d, side, w, q) && Enabled(w, Act(side))
    ensures q.i < |d.ms| && q.left > 0
    ensures w.Side(side).todo[0] == Do(d.At(side, q.i).pre[|d.At(side, q.i).pre| - q.left])
    ensures Stands(d, side, Apply(w, Act(side)), q.(left := q.left - 1))
    ensures Apply(w, Act(side)).Queue(side) == w.Queue(side) && Apply(w, Act(side)).Queue(!side) == w.Queue(!side)
  {
    Labours(d, side, q);
    SideApplied(w, Act(side));
  }

  lemma OtherStands(d: Plan, w: World, r: Pos, m: Move)
    requires Enabled(w, m) && (m.Write? || m.Read? || m.Act?) && Stands(d, !m.side, w, r)
    ensures Stands(d, !m.side, Apply(w, m), r)
  {
    SideApplied(w, m);
  }

  lemma WriteQueues(d: Plan, side: bool, w: World, q: Pos, r: Pos, n: nat)
    requires d.Sized() && q.i < |d.ms| && r.i <= |d.ms| && Queues(d.ms, side, w.Queue(side), w.Queue(!side), q, r)
    requires d.ms[q.i].fromClient == side && q.k + n <= |d.ms[q.i].body|
    ensures Queues(d.ms, side, w.Queue(side) + d.ms[q.i].body[q.k..q.k + n], w.Queue(!side), Further(d, side, q, n), r)
  {
    QueuesWritten(d.ms, side, w.Queue(side), w.Queue(!side), |d.At(side, q.i + 1).pre|, q, r, n);
  }

  lemma WriteMoves(d: Plan, side: bool, w: World, q: Pos, r: Pos, n: nat)
    requires Good(d) && Apart(d, side, w, q, r) && Enabled(w, Write(side, n))
    ensures q.i < |d.ms| && q.left == 0 && 0 < n && q.k + n <= |d.ms[q.i].body|
    ensures Apart(d, side, Apply(w, Write(side, n)), Further(d, side, q, n), r)
  {
    WriteStands(d, side, w, q, n);
    WriteQueues(d, side, w, q, r, n);
    OtherStands(d, w, r, Write(side, n));
  }

  // The bytes read are the next ones of the message, and the queues stay in step.
  lemma ReadQueues(d: Plan, side: bool, w: World, q: Pos, r: Pos, n: nat)
    requires d.Sized() && q.i < |d.ms| && r.i <= |d.ms| && Queues(d.ms, side, w.Queue(side), w.Queue(!side), q, r)
    requires d.ms[q.i].fromClient != side && q.k + n <= |d.ms[q.i].body| && n <= |w.Queue(!side)|
    ensures d.ms[q.i].body[..q.k] + w.Queue(!side)[..n] == d.ms[q.i].body[..q.k + n]
    ensures Queues(d.ms, side, w.Queue(side), w.Queue(!side)[n..], Further(d, side, q, n), r)
  {
    QueuesRead(d.ms, side, w.Queue(side), w.Queue(!side), |d.At(side, q.i + 1).pre|, q, r, n);
  }

  lemma ReadMoves(d: Plan, side: bool, w: World, q: Pos, r: Pos, n: nat)
    requires Good(d) && Apart(d, side, w, q, r) && Enabled(w, Read(side, n))
    requires !side && q.i == |d.ms| - 2 && q.left == 0 ==> !w.tcp.NoTcp? == d.hasTcp && !w.udt.NoUdt? == d.hasUdt
    ensures q.i < |d.ms| && q.left == 0 && 0 < n && q.k + n <= |d.ms[q.i].body|
    ensures Apart(d, side, Apply(w, Read(side, n)), Further(d, side, q, n), r)
  {
    ReadBounds(d, side, w, q, n);
    ReadQueues(d, side, w, q, r, n);
    ReadStands(d, side, w, q, n);
    OtherStands(d, w, r, Read(side, n));
  }

  lemma ActMoves(d: Plan, side: bool, w: World, q: Pos, r: Pos)
    requires Good(d) && Apart(d, side, w, q, r) && Enabled(w, Act(side))
    ensures q.i < |d.ms| && q.left > 0
    ensures w.Side(side).todo[0] == Do(d.At(side, q.i).pre[|d.At(side, q.i).pre| - q.left])
    ensures Apart(d, side, Apply(w, Act(side)), q.(left := q.left - 1), r)
  {
    ActStands(d, side, w, q);
    QueuesWorked(d.ms, side, w.Queue(side), w.Queue(!side), q, r, q.left - 1);
    OtherStands(d, w, r, Act(side));
  }

  lemma NextIs(d: Plan, side: bool, q: Pos, r: Pos, m: Move)
    requires d.Sized() && q.i < |d.ms| && MoveOf(m, side) && (m.Act? <==> q.left > 0)
    ensures Next(d, side, q, m) == if m.Act? then q.(left := q.left - 1) else Further(d, side, q, m.n)
    ensures Next(d, !side, r, m) == r
  {
  }

  lemma SideMoves(d: Plan, side: bool, w: World, q: Pos, r: Pos, m: Move)
    requires Good(d) && Apart(d, side, w, q, r) && Enabled(w, m) && MoveOf(m, side)
    requires !side && q.i == |d.ms| - 2 && q.left == 0 ==> !w.tcp.NoTcp? == d.hasTcp && !w.udt.NoUdt? == d.hasUdt
    ensures Apart(d, side, Apply(w, m), Next(d, side, q, m), r) && Next(d, !side, r, m) == r
  {
    match m {
      case Write(_, n) => WriteMoves(d, side, w, q, r, n);
      case Read(_, n) => ReadMoves(d, side, w, q, r, n);
      case Act(_) => ActMoves(d, side, w, q, r);
    }
    NextIs(d, side, q, r, m);
  }

  // What a side's move says about where the side is
  lemma MoveFrom(d: Plan, side: bool, w: World, q: Pos, m: Move)
    requires Good(d) && Stands(d, side, w, q) && Enabled(w, m) && MoveOf(m, side)
    ensures q.i < |d.ms| && (q.left > 0 <==> m.Act?)
    ensures !m.Act? ==> 0 < m.n && q.k + m.n <= |d.ms[q.i].body|
    ensures m.Act? ==> w.Side(side).todo[0] == Do(d.At(side, q.i).pre[|d.At(side, q.i).pre| - q.left])
  {
    Busy(d, side, q);
    Head(d, side, q);
  }

  lemma WorkersStay(d: Plan, w: World, cq: Pos, sq: Pos, m: Move)
    requires InPlan(d, w, cq, sq) && Enabled(w, m) && !MoveOf(m, true) && !MoveOf(m, false)
    ensures InPlan(d, Apply(w, m), cq, sq) && Next(d, true, cq, m) == cq && Next(d, false, sq, m) == sq
  {
  }

  // Every move of either side, whatever its size, and those of the workers
  lemma PlanKept(d: Plan, w: World, cq: Pos, sq: Pos, m: Move)
    requires Good(d) && InPlan(d, w, cq, sq) && Enabled(w, m)
    requires sq.i == |d.ms| - 2 && sq.left == 0 ==> !w.tcp.NoTcp? == d.hasTcp && !w.udt.NoUdt? == d.hasUdt
    ensures InPlan(d, Apply(w, m), Next(d, true, cq, m), Next(d, false, sq, m))
  {
    if MoveOf(m, true) {
      SideMoves(d, true, w, cq, sq, m);
    } else if MoveOf(m, false) {
      Turned(d, w, cq, sq);
      SideMoves(d, false, w, sq, cq, m);
      Turned(d, Apply(w, m), cq, Next(d, false, sq, m));
    } else {
      WorkersStay(d, w, cq, sq, m);
    }
  }
}

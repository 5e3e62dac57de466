/** What holds of every session, however the moves of the two parties and the two workers are
    interleaved and however their transfers are cut into pieces.
 */
module SessionTheorems {
  import opened Wire
  import opened Parties
  import opened Sessions
  import opened Channels
  import opened Plans
  import opened Choreography
  import opened SessionInvariant

  // The worlds that a session can come to
  predicate Run(p: Session, moves: seq<Move>) {
    p.Valid() && Possible(Init(p), moves)
  }

  function End(p: Session, moves: seq<Move>): World
    requires Run(p, moves)
  {
    Exec(Init(p), moves)
  }

  lemma Stand(p: Session, moves: seq<Move>) returns (cq: Pos, sq: Pos)
    requires Run(p, moves)
    ensures Inv(p, End(p, moves), cq, sq)
  {
    InitInv(p);
    RunKeepsInv(p, Init(p), Pos(0, 0, 0), Pos(0, 0, 0), moves);
    cq, sq := Ran(p, true, Pos(0, 0, 0), moves), Ran(p, false, Pos(0, 0, 0), moves);
  }

  // ---------- Framing ----------

  // Each completed receive of one party is the matching send of the other: the same kind, the same bytes.
  lemma Framing(p: Session, moves: seq<Move>)
    requires Run(p, moves)
    ensures var w := End(p, moves);
      w.server.received <= w.client.sent && w.client.received <= w.server.sent
  {
    var w := End(p, moves);
    var cq, sq := Stand(p, moves);
    ClientHolds(p, cq);
    ServerHolds(p, sq);
    LogReceived(Messages(p), true, w.c2s, cq, sq);
    LogReceived(Messages(p), false, w.s2c, sq, cq);
  }

  // When a session is finished, all that was sent has been received.
  lemma NothingLost(p: Session, moves: seq<Move>)
    requires Run(p, moves) && Finished(End(p, moves))
    ensures var w := End(p, moves); w.server.received == w.client.sent && w.client.received == w.server.sent
  {
    var cq, sq := Stand(p, moves);
    PlanGood(p);
    Busy(PlanOf(p), true, cq);
    Busy(PlanOf(p), false, sq);
    ClientHolds(p, cq);
    ServerHolds(p, sq);
  }

  // ---------- The handshake ----------

  // The party has received the other's control message.
  predicate Shaken(log: seq<Item>) {
    exists i :: 0 <= i < |log| && log[i].kind == Ctrl
  }

  lemma ShakenGrows(before: seq<Item>, more: seq<Item>)
    requires |more| <= 1
    ensures Shaken(before + more) <==> Shaken(before) || (more != [] && more[0].kind == Ctrl)
  {
    var log := before + more;
    if Shaken(before) {
      var k :| 0 <= k < |before| && before[k].kind == Ctrl;
      assert log[k].kind == Ctrl;
    }
    if more != [] {
      assert log[|before|] == more[0];
    }
  }

  lemma {:induction false} ShakenAt(ms: seq<Message>, fromClient: bool, i: nat, at: nat)
    requires i <= |ms| && at < |ms|
    requires forall k :: 0 <= k < |ms| ==> (ms[k].kind == Ctrl && ms[k].fromClient == fromClient <==> k == at)
    ensures Shaken(Log(ms, fromClient, i)) <==> i > at
    decreases i
  {
    if i > 0 {
      ShakenAt(ms, fromClient, i - 1, at);
      var m := ms[i - 1];
      ShakenGrows(Log(ms, fromClient, i - 1), if m.fromClient == fromClient then [Item(m.kind, m.body)] else []);
    }
  }

  lemma CtrlMessages(p: Session, fromClient: bool, k: nat)
    requires p.Valid() && k < Length(p)
    ensures var m := MessageAt(p, k); m.kind == Ctrl && m.fromClient == fromClient <==> k == if fromClient then 6 else 7
  {
  }

  lemma ShakenWhen(p: Session, ms: seq<Message>, fromClient: bool, i: nat)
    requires p.Valid() && i <= Length(p) && ms == Messages(p)
    ensures Shaken(Log(ms, fromClient, i)) <==> i > if fromClient then 6 else 7
  {
    forall k | 0 <= k < |ms|
      ensures ms[k].kind == Ctrl && ms[k].fromClient == fromClient <==> k == if fromClient then 6 else 7
    {
      CtrlMessages(p, fromClient, k);
    }
    ShakenAt(ms, fromClient, i, if fromClient then 6 else 7);
  }

  lemma ClientHolds(p: Session, q: Pos)
    requires p.Valid() && Fits(PlanOf(p), true, q)
    ensures var c := State(PlanOf(p), true, q);
      && c.udtOnly == p.udtOnly && (q.i > 7 ==> c.hostMaxBuf == c.ctrlMaxBuf == Agreed(p))
      && (c.status >= RUN_M2M_DB ==> q.i > 7)
      && c.received == Log(Messages(p), false, q.i) && c.sent == Log(Messages(p), true, q.i)
  {
  }

  lemma ServerHolds(p: Session, q: Pos)
    requires p.Valid() && Fits(PlanOf(p), false, q)
    ensures var s := State(PlanOf(p), false, q);
      && (q.i > 6 ==> s.hostMaxBuf == s.ctrlMaxBuf == Agreed(p) && s.udtOnly == p.udtOnly)
      && (s.status >= RUN_M2M_DB ==> q.i > 6)
      && s.received == Log(Messages(p), true, q.i) && s.sent == Log(Messages(p), false, q.i)
  {
  }

  // Once a party has the other's control message it holds the agreed values, and from then on for good.
  lemma Agreement(p: Session, moves: seq<Move>)
    requires Run(p, moves)
    ensures var w := End(p, moves); var least := if p.clientMax < p.serverMax then p.clientMax else p.serverMax;
      && (Shaken(w.client.received) ==> w.client.hostMaxBuf == w.client.ctrlMaxBuf == least)
      && (Shaken(w.server.received) ==>
            w.server.hostMaxBuf == w.server.ctrlMaxBuf == least && w.server.udtOnly == p.udtOnly)
      && w.client.udtOnly == p.udtOnly
      && (w.client.status >= RUN_M2M_DB ==> Shaken(w.client.received))
      && (w.server.status >= RUN_M2M_DB ==> Shaken(w.server.received))
  {
    var w := End(p, moves);
    var cq, sq := Stand(p, moves);
    ClientHolds(p, cq);
    ServerHolds(p, sq);
    ShakenWhen(p, Messages(p), false, cq.i);
    ShakenWhen(p, Messages(p), true, sq.i);
  }

  // ---------- The status codes ----------

  lemma ClientStatusGrows(p: Session, i: nat, j: nat)
    requires i <= j <= Length(p)
    ensures ClientStatus(p, i) <= ClientStatus(p, j)
  {
  }

  lemma ServerStatusGrows(p: Session, i: nat, left: nat, j: nat, left': nat)
    requires i < j <= Length(p) || (i == j <= Length(p) && left' <= left)
    ensures ServerStatus(p, i, left) <= ServerStatus(p, j, left')
  {
  }

  lemma ClientStatusIs(p: Session, q: Pos)
    requires p.Valid() && Fits(PlanOf(p), true, q)
    ensures State(PlanOf(p), true, q).status == ClientStatus(p, q.i)
  {
  }

  lemma ServerStatusIs(p: Session, q: Pos)
    requires p.Valid() && Fits(PlanOf(p), false, q)
    ensures State(PlanOf(p), false, q).status == ServerStatus(p, q.i, q.left)
  {
  }

  lemma StatusIs(p: Session, w: World, cq: Pos, sq: Pos)
    requires p.Valid() && Inv(p, w, cq, sq)
    ensures cq.i <= Length(p) && w.client.status == ClientStatus(p, cq.i)
    ensures sq.i <= Length(p) && w.server.status == ServerStatus(p, sq.i, sq.left)
  {
    ClientStatusIs(p, cq);
    ServerStatusIs(p, sq);
  }

  lemma Onwards(d: Plan, side: bool, q: Pos, m: Move)
    requires d.Sized()
    ensures var r := Next(d, side, q, m); r.i > q.i || (r.i == q.i && r.left <= q.left)
  {
  }

  // No move takes a party back to a smaller code.
  lemma StatusGrows(p: Session, moves: seq<Move>, m: Move)
    requires Run(p, moves) && Enabled(End(p, moves), m)
    ensures var v, w := End(p, moves), Apply(End(p, moves), m);
      v.client.status <= w.client.status && v.server.status <= w.server.status
  {
    var w := End(p, moves);
    var cq, sq := Stand(p, moves);
    MoveKeepsInv(p, w, cq, sq, m);
    var c, s := Next(PlanOf(p), true, cq, m), Next(PlanOf(p), false, sq, m);
    StatusIs(p, w, cq, sq);
    StatusIs(p, Apply(w, m), c, s);
    Onwards(PlanOf(p), true, cq, m);
    Onwards(PlanOf(p), false, sq, m);
    ClientStatusGrows(p, cq.i, c.i);
    ServerStatusGrows(p, sq.i, sq.left, s.i, s.left);
  }

  // The party has received a status code.
  predicate Heeds(before: Party, after: Party) {
    |after.received| > |before.received| && after.received[|after.received| - 1].kind == Status
  }

  function StatusAt(p: Session, side: bool, i: nat, left: nat): int
    requires i <= Length(p)
  {
    if side then ClientStatus(p, i) else ServerStatus(p, i, left)
  }

  lemma StatusHeld(p: Session, side: bool, q: Pos)
    requires p.Valid() && Fits(PlanOf(p), side, q)
    ensures State(PlanOf(p), side, q).status == StatusAt(p, side, q.i, q.left)
  {
    if side {
      ClientStatusIs(p, q);
    } else {
      ServerStatusIs(p, q);
    }
  }

  lemma CodesRise(p: Session, side: bool, i: nat, next: nat, left: nat)
    requires p.Valid() && i < next == i + 1 <= Length(p)
    requires MessageAt(p, i).kind == Status && MessageAt(p, i).fromClient != side
    ensures StatusAt(p, side, i, 0) < StatusAt(p, side, next, left)
  {
  }

  lemma LogEnds(ms: seq<Message>, f: bool, i: nat, j: nat)
    requires i <= j <= |ms| && j <= i + 1 && |Log(ms, f, j)| > |Log(ms, f, i)|
    ensures j == i + 1 && ms[i].fromClient == f && Log(ms, f, j)[|Log(ms, f, j)| - 1] == Item(ms[i].kind, ms[i].body)
  {
  }

  lemma HeedsAt(d: Plan, side: bool, q: Pos, r: Pos)
    requires Fits(d, side, q) && Fits(d, side, r) && q.i <= r.i <= q.i + 1
    requires Heeds(State(d, side, q), State(d, side, r))
    ensures r.i == q.i + 1 && d.ms[q.i].kind == Status && d.ms[q.i].fromClient != side
  {
    LogEnds(d.ms, !side, q.i, r.i);
  }

  lemma SideHeeds(p: Session, side: bool, q: Pos, r: Pos)
    requires p.Valid() && Fits(PlanOf(p), side, q) && Fits(PlanOf(p), side, r)
    requires q.i <= r.i <= q.i + 1 && (r.i > q.i ==> q.left == 0)
    requires Heeds(State(PlanOf(p), side, q), State(PlanOf(p), side, r))
    ensures State(PlanOf(p), side, q).status < State(PlanOf(p), side, r).status
  {
    HeedsAt(PlanOf(p), side, q, r);
    CodesRise(p, side, q.i, r.i, r.left);
    StatusHeld(p, side, q);
    StatusHeld(p, side, r);
  }

  // A side comes to the next message only when it has no work left.
  lemma Steps(d: Plan, side: bool, w: World, q: Pos, m: Move)
    requires Good(d) && Stands(d, side, w, q) && Enabled(w, m)
    ensures var r := Next(d, side, q, m); q.i <= r.i <= q.i + 1 && (r.i > q.i ==> q.left == 0)
  {
    if MoveOf(m, side) {
      MoveFrom(d, side, w, q, m);
    }
  }

  // Every code that a party receives is larger than the one it had.
  lemma StatusRises(p: Session, moves: seq<Move>, m: Move, side: bool)
    requires Run(p, moves) && Enabled(End(p, moves), m)
    ensures var v, w := End(p, moves).Side(side), Apply(End(p, moves), m).Side(side);
      Heeds(v, w) ==> v.status < w.status
  {
    var w, d := End(p, moves), PlanOf(p);
    var cq, sq := Stand(p, moves);
    MoveKeepsInv(p, w, cq, sq, m);
    var q := if side then cq else sq;
    PlanGood(p);
    Steps(d, side, w, q, m);
    if Heeds(w.Side(side), Apply(w, m).Side(side)) {
      SideHeeds(p, side, q, Next(d, side, q, m));
    }
  }

  // The message of the server that the client's status comes from, and the status of a server past it
  function Source(i: nat): nat
    requires i >= 3
  {
    if i == 3 then 2 else if i <= 5 then 3 else if i <= 9 then 5 else (i - 10) / 2 * 2 + 9
  }

  lemma SourceSends(p: Session, i: nat)
    requires p.Valid() && 3 <= i <= Length(p)
    ensures Source(i) < i && !MessageAt(p, Source(i)).fromClient
  {
  }

  lemma StatusFrom(p: Session, i: nat, k: nat, left: nat)
    requires p.Valid() && 3 <= i <= Length(p) && Source(i) < k <= Length(p)
    ensures ClientStatus(p, i) <= ServerStatus(p, k, left)
  {
  }

  lemma StatusBehind(p: Session, ms: seq<Message>, queue: seq<Byte>, cq: Pos, sq: Pos)
    requires p.Valid() && ms == Messages(p)
    requires Within(ms, cq) && Within(ms, sq) && Channel(ms, false, queue, sq, cq)
    ensures ClientStatus(p, cq.i) <= ServerStatus(p, sq.i, sq.left)
  {
    if cq.i >= 3 {
      var j := Source(cq.i);
      SourceSends(p, cq.i);
      assert ms[j] == MessageAt(p, j);
      SentBefore(ms, false, queue, sq, cq, j);
      StatusFrom(p, cq.i, sq.i, sq.left);
    }
  }

  // The client's code is never ahead of the server's.
  lemma ClientBehind(p: Session, moves: seq<Move>)
    requires Run(p, moves)
    ensures End(p, moves).client.status <= End(p, moves).server.status
  {
    var w := End(p, moves);
    var cq, sq := Stand(p, moves);
    StatusIs(p, w, cq, sq);
    var d := PlanOf(p);
    StatusBehind(p, d.ms, w.s2c, cq, sq);
  }

  // What was agreed does not change any more.
  lemma AgreementKept(p: Session, moves: seq<Move>, m: Move)
    requires Run(p, moves) && Enabled(End(p, moves), m)
    ensures var v, w := End(p, moves), Apply(End(p, moves), m);
      && (Shaken(v.client.received) ==>
            v.client.hostMaxBuf == w.client.hostMaxBuf && v.client.ctrlMaxBuf == w.client.ctrlMaxBuf
            && v.client.udtOnly == w.client.udtOnly)
      && (Shaken(v.server.received) ==>
            v.server.hostMaxBuf == w.server.hostMaxBuf && v.server.ctrlMaxBuf == w.server.ctrlMaxBuf
            && v.server.udtOnly == w.server.udtOnly)
  {
    var v, d := End(p, moves), PlanOf(p);
    var cq, sq := Stand(p, moves);
    MoveKeepsInv(p, v, cq, sq, m);
    Onwards(d, true, cq, m);
    Onwards(d, false, sq, m);
    ClientHolds(p, cq);
    ServerHolds(p, sq);
    ClientHolds(p, Next(d, true, cq, m));
    ServerHolds(p, Next(d, false, sq, m));
    ShakenWhen(p, d.ms, false, cq.i);
    ShakenWhen(p, d.ms, true, sq.i);
  }

  // ---------- The work ----------

  // All that each side does in the session, in this order
  function AllWork(p: Session, side: bool): seq<Work> {
    if side then
      if p.mode != Memory then [SearchDisk, CopyTcp, CopyUdt]
      else if UsesTcp(p) then [SearchMemory, RunTcp, RunUdt] else [SearchMemory, RunUdt]
    else
      if p.mode != Memory then [SetEstablished, XddTcp, XddUdt]
      else if !UsesTcp(p) then [SetEstablished, StartUdt, JoinUdt]
      else if p.udtOnly > 0 then [SetEstablished, StartTcp, StartUdt, JoinUdt, JoinTcp]
      else [SetEstablished, StartTcp, CancelTcp, JoinTcp, StartUdt, JoinUdt, JoinTcp]
  }

  // A client's plan has work before messages 10, 12 and 14 only, a server's before message 3 and from 11 on.
  lemma ClientShare(d: Plan, a: seq<Work>, b: seq<Work>)
    requires d.Sized() && |d.ms| >= 14 && d.At(true, 10).pre == a && d.At(true, 12).pre == b
    requires forall k: nat :: k < |d.ms| && (k < 10 || k % 2 == 1) ==> d.At(true, k).pre == []
    ensures DidBefore(d, true, 14) == a + b
  {
    DidNothing(d, true, 0, 10);
    DidNext(d, true, 10, 11, 12, [], a);
    DidNext(d, true, 12, 13, 14, a, b);
  }

  lemma ServerShare(d: Plan, s: seq<Work>, a: seq<Work>, b: seq<Work>, c: seq<Work>)
    requires d.Sized() && |d.ms| >= 14 && d.At(false, 3).pre == s
    requires d.At(false, 11).pre == a && d.At(false, 12).pre == b && d.At(false, 13).pre == c
    requires forall k: nat :: k < 11 && k != 3 ==> d.At(false, k).pre == []
    ensures DidBefore(d, false, 14) == s + a + b + c
  {
    DidNothing(d, false, 0, 3);
    DidNext(d, false, 3, 4, 11, [], s);
    DidNext(d, false, 11, 12, 12, s, a);
    DidNext(d, false, 12, 13, 13, s + a, b);
    DidNext(d, false, 13, 14, 14, s + a + b, c);
  }

  lemma ServerEnds(d: Plan, before: seq<Work>, e: seq<Work>, f: seq<Work>)
    requires d.Sized() && |d.ms| == 16 && DidBefore(d, false, 14) == before
    requires d.At(false, 14).pre == e && d.At(false, 15).pre == f
    ensures DidBefore(d, false, 16) == before + e + f
  {
    DidNext(d, false, 14, 15, 15, before, e);
    DidNext(d, false, 15, 16, 16, before + e, f);
  }

  lemma ClientPieces(p: Session)
    requires p.Valid()
    ensures ClientPre(p, 10) + ClientPre(p, 12) + (if Length(p) == 16 then ClientPre(p, 14) else []) == AllWork(p, true)
    ensures forall k: nat :: k < Length(p) && (k < 10 || k % 2 == 1) ==> ClientPre(p, k) == []
    ensures Length(p) in {14, 16}
  {
  }

  lemma ServerPieces(p: Session)
    requires p.Valid()
    ensures ServerPre(p, 3) + ServerPre(p, 11) + ServerPre(p, 12) + ServerPre(p, 13) +
            (if Length(p) == 16 then ServerPre(p, 14) else []) + (if Length(p) == 16 then ServerPre(p, 15) else [])
            == AllWork(p, false)
    ensures forall k: nat :: k < 11 && k != 3 ==> ServerPre(p, k) == []
    ensures Length(p) in {14, 16}
  {
  }

  lemma PresOf(p: Session, d: Plan, side: bool)
    requires p.Valid() && d == PlanOf(p)
    ensures forall k: nat :: k < |d.ms| ==> d.At(side, k).pre == if side then ClientPre(p, k) else ServerPre(p, k)
  {
  }

  lemma AllOfClient(p: Session, d: Plan, a: seq<Work>, b: seq<Work>)
    requires p.Valid() && d == PlanOf(p) && a == ClientPre(p, 10) && b == ClientPre(p, 12)
    ensures DidBefore(d, true, |d.ms|) == AllWork(p, true)
  {
    ClientPieces(p);
    PresOf(p, d, true);
    ClientShare(d, a, b);
    if |d.ms| == 16 {
      DidNext(d, true, 14, 15, 16, a + b, ClientPre(p, 14));
    }
  }

  lemma AllOfServer(p: Session, d: Plan, s: seq<Work>, a: seq<Work>, b: seq<Work>, c: seq<Work>)
    requires p.Valid() && d == PlanOf(p) && s == ServerPre(p, 3)
    requires a == ServerPre(p, 11) && b == ServerPre(p, 12) && c == ServerPre(p, 13)
    ensures DidBefore(d, false, |d.ms|) == AllWork(p, false)
  {
    ServerPieces(p);
    PresOf(p, d, false);
    ServerShare(d, s, a, b, c);
    if |d.ms| == 16 {
      ServerEnds(d, s + a + b + c, ServerPre(p, 14), ServerPre(p, 15));
    }
  }

  lemma SideWork(p: Session, d: Plan, side: bool)
    requires p.Valid() && d == PlanOf(p)
    ensures DidBefore(d, side, |d.ms|) == AllWork(p, side)
  {
    if side {
      AllOfClient(p, d, ClientPre(p, 10), ClientPre(p, 12));
    } else {
      AllOfServer(p, d, ServerPre(p, 3), ServerPre(p, 11), ServerPre(p, 12), ServerPre(p, 13));
    }
  }

  // What a side has done is a first part of its work, and all of it when the session is finished.
  lemma WorkInOrder(p: Session, moves: seq<Move>, side: bool)
    requires Run(p, moves)
    ensures End(p, moves).Side(side).did <= AllWork(p, side)
    ensures Finished(End(p, moves)) ==> End(p, moves).Side(side).did == AllWork(p, side)
  {
    var d := PlanOf(p);
    var cq, sq := Stand(p, moves);
    var q := if side then cq else sq;
    PlanGood(p);
    DidInOrder(d, side, q);
    SideWork(p, d, side);
    if Finished(End(p, moves)) {
      Busy(d, side, q);
    }
  }

  // ---------- The workers ----------

  lemma ClientWorksAt(p: Session, q: Pos, work: Work)
    requires p.Valid() && Fits(PlanOf(p), true, q)
    requires var c := State(PlanOf(p), true, q); c.todo != [] && c.todo[0] == Do(work)
    ensures q.i < Length(p) && q.left > 0 && work in ClientPre(p, q.i)
  {
    PlanGood(p);
    Busy(PlanOf(p), true, q);
    Head(PlanOf(p), true, q);
  }

  lemma ProfilesLate(p: Session, i: nat, work: Work)
    requires p.Valid() && i <= Length(p) && work in ClientPre(p, i) && (work == RunTcp || work == RunUdt)
    ensures ClientStatus(p, i) >= RUN_M2M_DB
  {
  }

  // The client profiles only after the handshake.
  lemma ProfilesShaken(p: Session, moves: seq<Move>, work: Work)
    requires Run(p, moves) && (work == RunTcp || work == RunUdt)
    requires var c := End(p, moves).client; c.todo != [] && c.todo[0] == Do(work)
    ensures End(p, moves).client.status >= RUN_M2M_DB && Shaken(End(p, moves).client.received)
  {
    var cq, sq := Stand(p, moves);
    ClientWorksAt(p, cq, work);
    ProfilesLate(p, cq.i, work);
    ClientStatusIs(p, cq);
    Agreement(p, moves);
  }

  lemma ServerWorksAt(p: Session, q: Pos, work: Work)
    requires p.Valid() && Fits(PlanOf(p), false, q)
    requires var s := State(PlanOf(p), false, q); s.todo != [] && s.todo[0] == Do(work)
    ensures q.i < Length(p) && q.left > 0 && ServerPre(p, q.i)[|ServerPre(p, q.i)| - q.left] == work
  {
    PlanGood(p);
    Busy(PlanOf(p), false, q);
    Head(PlanOf(p), false, q);
  }

  // Where the pieces of work are
  lemma Places(p: Session, i: nat, work: Work)
    requires p.Valid() && i <= Length(p)
    ensures work in ServerPre(p, i) && work == CancelTcp ==> i == 13 && UsesTcp(p) && p.udtOnly <= 0
    ensures work in ServerPre(p, i) && work == JoinTcp ==> UsesTcp(p) && (i == 15 || (i == 13 && p.udtOnly <= 0))
    ensures work in ServerPre(p, i) && work == JoinUdt ==> p.mode == Memory && i == DoneEcho(p)
    ensures work in ServerPre(p, i) && work == StartUdt ==> p.mode == Memory && i == UdtEcho(p) + 1
    ensures work in ClientPre(p, i) && work == RunTcp ==> UsesTcp(p) && i == 12
  {
    if i == 8 || i == 9 || i == 10 || i == 11 || i == 12 || i == 13 || i == 14 || i == 15 {
    }
  }

  lemma WorkerAt(p: Session, tcp: TcpWorker, udt: UdtWorker, q: Pos, work: Work)
    requires p.Valid() && q.i < Length(p) && 0 < q.left <= |ServerPre(p, q.i)|
    requires ServerPre(p, q.i)[|ServerPre(p, q.i)| - q.left] == work && TcpIn(p, tcp, q) && UdtIn(p, udt, q)
    ensures work == CancelTcp ==> tcp.TcpLive? || tcp.TcpExited?
    ensures work == JoinTcp ==>
      ServerStatus(p, q.i, |ServerPre(p, q.i)|) == if q.i == 13 then RUN_M2M_UDT else PROGRAM_DONE
    ensures work == JoinTcp && q.i == 13 ==> tcp == TcpLive(true) || tcp.TcpExited?
    ensures work == JoinTcp && q.i != 13 ==>
      if p.udtOnly > 0 then !p.found && tcp in {TcpLive(false), TcpExited(true)} else tcp.TcpJoined?
    ensures work == JoinUdt ==> !udt.NoUdt? && ServerStatus(p, q.i, |ServerPre(p, q.i)|) == PROGRAM_DONE
  {
  }

  // The TCP worker that the server is about to cancel exists; and at the end an uncancelled one is
  // waited for only in a UDT-only session whose history search failed.
  lemma WorkerSafety(p: Session, moves: seq<Move>)
    requires Run(p, moves)
    ensures var w := End(p, moves); w.server.todo != [] ==>
      && (w.server.todo[0] == Do(CancelTcp) ==> w.tcp.TcpLive? || w.tcp.TcpExited?)
      && (w.server.todo[0] == Do(JoinTcp) && w.server.status == RUN_M2M_UDT ==>
            w.tcp == TcpLive(true) || w.tcp.TcpExited?)
      && (w.server.todo[0] == Do(JoinTcp) && w.server.status == PROGRAM_DONE ==>
            if p.udtOnly > 0 then !p.found && w.tcp in {TcpLive(false), TcpExited(true)} else w.tcp.TcpJoined?)
      && (w.server.todo[0] == Do(JoinUdt) ==> !w.udt.NoUdt? && w.server.status == PROGRAM_DONE)
  {
    var w := End(p, moves);
    var cq, sq := Stand(p, moves);
    if w.server.todo != [] && w.server.todo[0].Do? {
      var work := w.server.todo[0].work;
      ServerWorksAt(p, sq, work);
      WorkerAt(p, w.tcp, w.udt, sq, work);
    }
  }

  // The client sends the codes and the server the echoes.
  lemma Directions(p: Session, ms: seq<Message>, i: nat)
    requires p.Valid() && 8 <= i < Length(p) && ms == Messages(p)
    ensures ms[i].fromClient == (i % 2 == 0) && ms[i].body != []
  {
  }

  // With the client about to send a code, the server waits for it.
  lemma ServerWaits(ms: seq<Message>, w: World, cq: Pos, sq: Pos)
    requires 0 < cq.i < |ms| && Within(ms, cq) && Within(ms, sq)
    requires Channel(ms, true, w.c2s, cq, sq) && Channel(ms, false, w.s2c, sq, cq)
    requires ms[cq.i].fromClient && !ms[cq.i - 1].fromClient && ms[cq.i].body != [] && ms[cq.i - 1].body != []
    ensures sq.i == cq.i
  {
    SentBefore(ms, false, w.s2c, sq, cq, cq.i - 1);
    if sq.i > cq.i {
      SentBefore(ms, true, w.c2s, cq, sq, cq.i);
    }
  }

  lemma RunsTcp(p: Session, ms: seq<Message>, w: World, cq: Pos, sq: Pos)
    requires p.Valid() && ms == Messages(p) && cq.i == 12 && UsesTcp(p) && TcpIn(p, w.tcp, sq)
    requires Within(ms, cq) && Within(ms, sq) && Channel(ms, true, w.c2s, cq, sq) && Channel(ms, false, w.s2c, sq, cq)
    ensures w.tcp in {TcpLive(false), TcpExited(true)}
  {
    Directions(p, ms, cq.i - 1);
    Directions(p, ms, cq.i);
    ServerWaits(ms, w, cq, sq);
  }

  // While the client profiles TCP the server's worker is up, unless it gave up by itself; and there is
  // a UDT worker only when the TCP worker, if it was to be cancelled, is gone.
  lemma PhaseExclusion(p: Session, moves: seq<Move>)
    requires Run(p, moves)
    ensures var w := End(p, moves);
      && (w.client.todo != [] && w.client.todo[0] == Do(RunTcp) ==> w.tcp in {TcpLive(false), TcpExited(true)})
      && (!w.udt.NoUdt? && p.udtOnly <= 0 ==> w.tcp.TcpJoined?)
  {
    var w := End(p, moves);
    var cq, sq := Stand(p, moves);
    if w.client.todo != [] && w.client.todo[0] == Do(RunTcp) {
      ClientWorksAt(p, cq, RunTcp);
      Places(p, cq.i, RunTcp);
      RunsTcp(p, Messages(p), w, cq, sq);
    }
    if !w.udt.NoUdt? && p.udtOnly <= 0 {
      UdtAfterTcp(p, w.tcp, w.udt, sq);
    }
  }

  lemma UdtAfterTcp(p: Session, tcp: TcpWorker, udt: UdtWorker, q: Pos)
    requires p.Valid() && TcpIn(p, tcp, q) && UdtIn(p, udt, q) && !udt.NoUdt? && p.udtOnly <= 0
    ensures tcp.TcpJoined?
  {
  }
}

/** Why sessions end: every move but one kind uses something up, some move that has to come is
    possible until both programs are done, and the one kind of session for which that fails.
 */
module SessionProgress {
  import opened Parties
  import opened Sessions
  import opened Channels
  import opened Plans
  import opened Choreography
  import opened SessionInvariant
  import opened SessionTheorems

  // ---------- What is left to do ----------

  // The bytes to transfer from message i on, and the work after it, each piece counting three
  function Rest(d: Plan, side: bool, i: nat): nat
    requires d.Sized() && i <= |d.ms|
    decreases |d.ms| - i
  {
    if i == |d.ms| then 0 else |d.ms[i].body| + 3 * |d.At(side, i + 1).pre| + Rest(d, side, i + 1)
  }

  function Cost(d: Plan, side: bool, q: Pos): (c: nat)
    requires Fits(d, side, q)
    ensures q.i < |d.ms| ==> c > 0
  {
    Rest(d, side, q.i) + 3 * q.left - q.k
  }

  function WorkerCost(tcp: TcpWorker, udt: UdtWorker): nat {
    (if tcp.TcpLive? then 1 else 0) + (if udt.UdtServing? then 2 else if udt.UdtReady? then 1 else 0)
  }

  function Remaining(d: Plan, w: World, cq: Pos, sq: Pos): nat
    requires Fits(d, true, cq) && Fits(d, false, sq)
  {
    Cost(d, true, cq) + Cost(d, false, sq) + WorkerCost(w.tcp, w.udt)
  }

  lemma FurtherCosts(d: Plan, side: bool, q: Pos, n: nat)
    requires Fits(d, side, q) && q.i < |d.ms| && 0 < n && q.k + n <= |d.ms[q.i].body| && q.left == 0
    requires Fits(d, side, Further(d, side, q, n))
    ensures Cost(d, side, Further(d, side, q, n)) < Cost(d, side, q)
  {
  }

  // What a side's move uses up
  lemma SideCosts(d: Plan, side: bool, w: World, q: Pos, m: Move)
    requires Good(d) && Stands(d, side, w, q) && Enabled(w, m) && Fits(d, side, Next(d, side, q, m))
    ensures Cost(d, side, Next(d, side, q, m)) <=
            Cost(d, side, q) - if !MoveOf(m, side) then 0 else if m.Act? then 3 else 1
  {
    if MoveOf(m, side) {
      MoveFrom(d, side, w, q, m);
      if !m.Act? {
        FurtherCosts(d, side, q, m.n);
      }
    }
  }

  lemma WorkersCost(w: World, m: Move)
    requires Enabled(w, m)
    ensures WorkerCost(Apply(w, m).tcp, Apply(w, m).udt) - WorkerCost(w.tcp, w.udt) <=
      (match m
       case Act(_) => 1
       case UdtEnters => 1
       case Write(_, _) => 0
       case Read(_, _) => 0
       case _ => -1)
  {
  }

  // Every move uses something up, except that the UDT worker can take another round.
  lemma MoveCosts(d: Plan, w: World, cq: Pos, sq: Pos, m: Move)
    requires Good(d) && InPlan(d, w, cq, sq) && Enabled(w, m)
    requires sq.i == |d.ms| - 2 && sq.left == 0 ==> !w.tcp.NoTcp? == d.hasTcp && !w.udt.NoUdt? == d.hasUdt
    ensures var c, s := Next(d, true, cq, m), Next(d, false, sq, m);
      && Fits(d, true, c) && Fits(d, false, s)
      && Remaining(d, Apply(w, m), c, s) <= Remaining(d, w, cq, sq) + if m.UdtEnters? then 1 else -1
  {
    PlanKept(d, w, cq, sq, m);
    WorkersCost(w, m);
    SideCosts(d, true, w, cq, m);
    SideCosts(d, false, w, sq, m);
  }

  function Rounds(moves: seq<Move>): nat {
    if moves == [] then 0 else (if moves[0].UdtEnters? then 1 else 0) + Rounds(moves[1..])
  }

  // What there is to do in the whole session
  function Budget(p: Session): nat
    requires p.Valid()
  {
    Rest(PlanOf(p), true, 0) + Rest(PlanOf(p), false, 0)
  }

  lemma {:induction false} RunCosts(p: Session, d: Plan, w: World, cq: Pos, sq: Pos, moves: seq<Move>)
    requires p.Valid() && d == PlanOf(p) && Possible(w, moves)
    requires InPlan(d, w, cq, sq) && TcpIn(p, w.tcp, sq) && UdtIn(p, w.udt, sq)
    ensures |moves| <= Remaining(d, w, cq, sq) + 2 * Rounds(moves)
    decreases |moves|
  {
    if moves != [] {
      var m := moves[0];
      PlanGood(p);
      WorkersAtEnd(p, w.tcp, w.udt, sq);
      MoveCosts(d, w, cq, sq, m);
      MoveKeepsInv(p, w, cq, sq, m);
      RunCosts(p, d, Apply(w, m), Next(d, true, cq, m), Next(d, false, sq, m), moves[1..]);
    }
  }

  // No session runs forever: but for rounds of the UDT worker, the number of moves is bounded from the start.
  lemma SessionBound(p: Session, moves: seq<Move>)
    requires Run(p, moves)
    ensures |moves| <= Budget(p) + 2 * Rounds(moves)
  {
    InitInv(p);
    RunCosts(p, PlanOf(p), Init(p), Pos(0, 0, 0), Pos(0, 0, 0), moves);
  }

  // ---------- Progress ----------

  // The moves that have to come: a live TCP worker need not give up, nor the UDT worker leave while
  // its guard holds, and it need not take another round.
  predicate Sure(w: World, m: Move) {
    Enabled(w, m) &&
    match m
    case TcpGivesUp => false
    case UdtEnters => false
    case UdtLeaves => w.udt.UdtReady? && w.server.status != RUN_M2M_UDT
    case _ => true
  }

  // The server waits for a TCP worker that nobody has cancelled.
  predicate Stuck(w: World) {
    w.server.todo != [] && w.server.todo[0] == Do(JoinTcp) && w.tcp == TcpLive(false)
  }

  // A side that expects a message which the other one has sent can read on.
  lemma ReadGoesOn(d: Plan, side: bool, w: World, q: Pos, r: Pos)
    requires Good(d) && Apart(d, side, w, q, r) && q.i < r.i && q.left == 0 && d.ms[q.i].fromClient != side
    ensures Sure(w, Read(side, 1))
  {
    Head(d, side, q);
    SomethingToRead(d.ms, w.Queue(!side), r, q);
  }

  lemma WriteGoesOn(d: Plan, side: bool, w: World, q: Pos)
    requires Good(d) && Stands(d, side, w, q) && q.i < |d.ms| && q.left == 0 && d.ms[q.i].fromClient == side
    ensures Sure(w, Write(side, 1))
  {
    Head(d, side, q);
  }

  // A transfer or work of the client, or a transfer of the server, that can go on
  lemma TransferGoesOn(d: Plan, w: World, cq: Pos, sq: Pos) returns (m: Move)
    requires Good(d) && InPlan(d, w, cq, sq) && (cq.i < |d.ms| || sq.i < |d.ms|) && sq.left == 0
    requires cq.i < |d.ms| && cq.left > 0 ==> Sure(w, Act(true))
    ensures Sure(w, m)
  {
    if cq.i < |d.ms| && cq.left > 0 {
      m := Act(true);
    } else if cq.i < |d.ms| && d.ms[cq.i].fromClient {
      WriteGoesOn(d, true, w, cq);
      m := Write(true, 1);
    } else if sq.i < |d.ms| && !d.ms[sq.i].fromClient {
      WriteGoesOn(d, false, w, sq);
      m := Write(false, 1);
    } else if cq.i < sq.i {
      ReadGoesOn(d, true, w, cq, sq);
      m := Read(true, 1);
    } else {
      Turned(d, w, cq, sq);
      ReadGoesOn(d, false, w, sq, cq);
      m := Read(false, 1);
    }
  }

  // The client's work waits for nothing.
  lemma ClientReady(w: World, work: Work)
    requires ClientWork(work) && w.client.todo != [] && w.client.todo[0] == Do(work)
    ensures Sure(w, Act(true))
  {
  }

  lemma ClientGoesOn(p: Session, d: Plan, w: World, q: Pos)
    requires p.Valid() && d == PlanOf(p) && Stands(d, true, w, q) && q.i < |d.ms| && q.left > 0
    ensures Sure(w, Act(true))
  {
    PlanGood(p);
    Head(d, true, q);
    ClientWorks(p, q.i);
    var pre := d.At(true, q.i).pre;
    assert pre == ClientPre(p, q.i) && pre[|pre| - q.left] in pre;
    ClientReady(w, pre[|pre| - q.left]);
  }

  // The server's work, or a worker that it waits for
  lemma WorkGoesOn(w: World, work: Work) returns (m: Move)
    requires w.server.todo != [] && w.server.todo[0] == Do(work)
    requires work == CancelTcp ==> !w.tcp.NoTcp?
    requires work == JoinTcp ==> !w.tcp.NoTcp?
    requires work == JoinUdt ==> !w.udt.NoUdt? && w.server.status == PROGRAM_DONE
    ensures Stuck(w) || Sure(w, m)
  {
    if work == JoinTcp && w.tcp.TcpLive? {
      m := TcpStops;
    } else if work == JoinUdt && w.udt.UdtServing? {
      m := UdtReturns;
    } else if work == JoinUdt && w.udt.UdtReady? {
      m := UdtLeaves;
    } else {
      m := Act(false);
    }
  }

  lemma ServerGoesOn(p: Session, d: Plan, w: World, q: Pos) returns (m: Move)
    requires p.Valid() && d == PlanOf(p) && Stands(d, false, w, q) && q.i < |d.ms| && q.left > 0
    requires TcpIn(p, w.tcp, q) && UdtIn(p, w.udt, q)
    ensures Stuck(w) || Sure(w, m)
  {
    PlanGood(p);
    Head(d, false, q);
    var pre := ServerPre(p, q.i);
    var work := pre[|pre| - q.left];
    WorkerAt(p, w.tcp, w.udt, q, work);
    m := WorkGoesOn(w, work);
  }

  lemma BothAtEnd(p: Session, d: Plan, w: World, cq: Pos, sq: Pos)
    requires p.Valid() && d == PlanOf(p) && InPlan(d, w, cq, sq) && cq.i == sq.i == |d.ms|
    ensures Finished(w)
  {
  }

  lemma GoesOn(p: Session, d: Plan, w: World, cq: Pos, sq: Pos) returns (m: Move)
    requires p.Valid() && d == PlanOf(p) && InPlan(d, w, cq, sq) && TcpIn(p, w.tcp, sq) && UdtIn(p, w.udt, sq)
    ensures Finished(w) || Stuck(w) || Sure(w, m)
  {
    PlanGood(p);
    if cq.i == |d.ms| && sq.i == |d.ms| {
      BothAtEnd(p, d, w, cq, sq);
      m := Act(true);
    } else if sq.left > 0 {
      m := ServerGoesOn(p, d, w, sq);
    } else {
      if cq.i < |d.ms| && cq.left > 0 {
        ClientGoesOn(p, d, w, cq);
      }
      m := TransferGoesOn(d, w, cq, sq);
    }
  }

  // Whatever has happened, the session is through, or some move has to come, or the server is stuck,
  // which takes a UDT-only session without an answer in the history.
  lemma Progress(p: Session, moves: seq<Move>)
    requires Run(p, moves)
    ensures var w := End(p, moves);
      && (Finished(w) || Stuck(w) || exists m :: Sure(w, m))
      && (Stuck(w) ==> p.mode == Memory && p.udtOnly > 0 && !p.found)
  {
    var cq, sq := Stand(p, moves);
    var m := GoesOn(p, PlanOf(p), End(p, moves), cq, sq);
    if Stuck(End(p, moves)) {
      StuckWhere(p, End(p, moves), cq, sq);
    }
  }

  lemma StuckWhere(p: Session, w: World, cq: Pos, sq: Pos)
    requires p.Valid() && Inv(p, w, cq, sq) && Stuck(w)
    ensures UsesTcp(p) && p.udtOnly > 0 && sq == Pos(15, 1, 0)
  {
    ServerWorksAt(p, sq, JoinTcp);
    WorkerAt(p, w.tcp, w.udt, sq, JoinTcp);
    Places(p, sq.i, JoinTcp);
    PreSizes(p, sq.i);
  }

  // ---------- To the end ----------

  // A run of moves that have to come
  predicate SureRun(w: World, moves: seq<Move>)
    ensures SureRun(w, moves) ==> Possible(w, moves)
    decreases |moves|
  {
    moves == [] || (Sure(w, moves[0]) && SureRun(Apply(w, moves[0]), moves[1..]))
  }

  lemma {:induction false} EndReached(p: Session, d: Plan, w: World, cq: Pos, sq: Pos) returns (moves: seq<Move>)
    requires p.Valid() && d == PlanOf(p) && InPlan(d, w, cq, sq) && TcpIn(p, w.tcp, sq) && UdtIn(p, w.udt, sq)
    ensures SureRun(w, moves) && (Finished(Exec(w, moves)) || Stuck(Exec(w, moves)))
    decreases Remaining(d, w, cq, sq)
  {
    var m := GoesOn(p, d, w, cq, sq);
    if Finished(w) || Stuck(w) {
      moves := [];
    } else {
      PlanGood(p);
      WorkersAtEnd(p, w.tcp, w.udt, sq);
      MoveCosts(d, w, cq, sq, m);
      MoveKeepsInv(p, w, cq, sq, m);
      var rest := EndReached(p, d, Apply(w, m), Next(d, true, cq, m), Next(d, false, sq, m));
      moves := [m] + rest;
      assert moves[1..] == rest;
    }
  }

  // Every session but a UDT-only one without an answer in the history can be finished from every
  // world it comes to, by the moves that have to come.
  lemma Completes(p: Session, moves: seq<Move>) returns (more: seq<Move>)
    requires Run(p, moves) && !(p.mode == Memory && p.udtOnly > 0 && !p.found)
    ensures SureRun(End(p, moves), more) && Run(p, moves + more) && Finished(End(p, moves + more))
  {
    var cq, sq := Stand(p, moves);
    more := EndReached(p, PlanOf(p), End(p, moves), cq, sq);
    ExecTwice(Init(p), moves, more);
    Progress(p, moves + more);
  }

  // A TCP worker that was not cancelled and did not give up is still up.
  lemma {:induction false} StillUp(w: World, moves: seq<Move>)
    requires Possible(w, moves) && TcpGivesUp !in moves
    requires w.tcp in {NoTcp, TcpLive(false), TcpLive(true), TcpExited(false), TcpJoined(false)}
    ensures Exec(w, moves).tcp in {NoTcp, TcpLive(false), TcpLive(true), TcpExited(false), TcpJoined(false)}
    decreases |moves|
  {
    if moves != [] {
      StillUp(Apply(w, moves[0]), moves[1..]);
    }
  }

  lemma FinishedTcp(p: Session, moves: seq<Move>)
    requires Run(p, moves) && Finished(End(p, moves)) && UsesTcp(p)
    ensures End(p, moves).tcp.TcpJoined? && (p.udtOnly > 0 ==> End(p, moves).tcp == TcpJoined(true))
  {
    var cq, sq := Stand(p, moves);
    PlanGood(p);
    Busy(PlanOf(p), false, sq);
  }

  // A UDT-only session without an answer in the history ends only if the TCP worker fails ten times in a row.
  lemma EndsOnlyByFailure(p: Session, moves: seq<Move>)
    requires Run(p, moves) && Finished(End(p, moves))
    requires p.mode == Memory && p.udtOnly > 0 && !p.found
    ensures TcpGivesUp in moves
  {
    FinishedTcp(p, moves);
    if TcpGivesUp !in moves {
      StillUp(Init(p), moves);
    }
  }

  lemma NotAmong<T>(x: T, first: T, rest: seq<T>, all: seq<T>)
    requires all == [first] + rest && x != first && x !in rest
    ensures x !in all
  {
  }

  lemma {:induction false} SureKeepsWorker(w: World, moves: seq<Move>)
    requires SureRun(w, moves)
    ensures TcpGivesUp !in moves
    decreases |moves|
  {
    if moves != [] {
      var m, rest := moves[0], moves[1..];
      SureKeepsWorker(Apply(w, m), rest);
      NotAmong(TcpGivesUp, m, rest, moves);
    }
  }

  // The deadlock is real, and exactly in these sessions.
  lemma DeadlockExactly(p: Session)
    requires p.Valid()
    ensures (exists moves :: Run(p, moves) && Stuck(End(p, moves))) <==> p.mode == Memory && p.udtOnly > 0 && !p.found
  {
    if p.mode == Memory && p.udtOnly > 0 && !p.found {
      InitInv(p);
      var moves := EndReached(p, PlanOf(p), Init(p), Pos(0, 0, 0), Pos(0, 0, 0));
      SureKeepsWorker(Init(p), moves);
      assert Run(p, moves);
      if Finished(End(p, moves)) {
        EndsOnlyByFailure(p, moves);
      }
      assert Stuck(End(p, moves));
    }
    if exists moves :: Run(p, moves) && Stuck(End(p, moves)) {
      var moves :| Run(p, moves) && Stuck(End(p, moves));
      Progress(p, moves);
    }
  }

  // Once stuck, nothing that has to come comes.
  lemma StuckIsDead(p: Session, moves: seq<Move>, m: Move)
    requires Run(p, moves) && Stuck(End(p, moves))
    ensures !Sure(End(p, moves), m)
  {
    var w := End(p, moves);
    var cq, sq := Stand(p, moves);
    StuckWhere(p, w, cq, sq);
    ClientThere(p, PlanOf(p), w, cq, sq);
    ClientIdle(p, PlanOf(p), w, cq, sq);
    StuckUdt(p, w, sq);
    NothingSure(w, m);
  }

  lemma NothingSure(w: World, m: Move)
    requires Stuck(w) && w.s2c == [] && w.client.todo != [] && w.client.todo[0].Recv?
    requires w.udt == UdtJoined
    ensures !Sure(w, m)
  {
  }

  lemma StuckUdt(p: Session, w: World, sq: Pos)
    requires UsesTcp(p) && sq == Pos(15, 1, 0) && UdtIn(p, w.udt, sq)
    ensures w.udt == UdtJoined
  {
  }

  // While the server works before the last echo, the client waits for it with nothing to read.
  lemma ClientThere(p: Session, d: Plan, w: World, cq: Pos, sq: Pos)
    requires p.Valid() && d == PlanOf(p) && InPlan(d, w, cq, sq) && sq == Pos(15, 1, 0) && UsesTcp(p)
    ensures cq.i == 15
  {
    Directions(p, d.ms, 14);
    Directions(p, d.ms, 15);
    SentBefore(d.ms, true, w.c2s, cq, sq, 14);
    if cq.i > 15 {
      SentBefore(d.ms, false, w.s2c, sq, cq, 15);
    }
  }

  lemma ClientIdle(p: Session, d: Plan, w: World, cq: Pos, sq: Pos)
    requires p.Valid() && d == PlanOf(p) && InPlan(d, w, cq, sq) && sq == Pos(15, 1, 0) && UsesTcp(p) && cq.i == 15
    ensures w.s2c == [] && w.client.todo != [] && w.client.todo[0].Recv?
  {
    PlanGood(p);
    Directions(p, d.ms, 15);
    assert ClientPre(p, 15) == [];
    Head(d, true, cq);
  }
}

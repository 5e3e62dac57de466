/** Where the two sides stand in the common order of messages, what that says about the queues
    and the workers, and that every move keeps it.
 */
module SessionInvariant {
  import opened Parties
  import opened Sessions
  import opened Channels
  import opened Plans
  import opened Choreography

  // ---------- The workers ----------

  // Where the server sends the echoes of RUN_M2M_TCP, RUN_M2M_UDT and PROGRAM_DONE
  function UdtEcho(p: Session): nat {
    if UsesTcp(p) then 13 else 11
  }

  function DoneEcho(p: Session): nat {
    if UsesTcp(p) then 15 else 13
  }

  // Whether the server has done all of its work before message i but `most` pieces
  predicate Beyond(q: Pos, i: nat, most: nat) {
    q.i > i || (q.i == i && q.left <= most)
  }

  predicate TcpStarted(p: Session, q: Pos) { UsesTcp(p) && Beyond(q, 11, 0) }
  predicate TcpCancelled(p: Session, q: Pos) { UsesTcp(p) && p.udtOnly <= 0 && Beyond(q, 13, 1) }
  predicate TcpWaited(p: Session, q: Pos) { UsesTcp(p) && ((p.udtOnly <= 0 && Beyond(q, 13, 0)) || Beyond(q, 15, 0)) }
  predicate UdtStarted(p: Session, q: Pos) { p.mode == Memory && Beyond(q, UdtEcho(p) + 1, 0) }
  predicate UdtWaited(p: Session, q: Pos) { p.mode == Memory && Beyond(q, DoneEcho(p), if UsesTcp(p) then 1 else 0) }

  predicate TcpIn(p: Session, tcp: TcpWorker, q: Pos) {
    if !TcpStarted(p, q) then tcp == NoTcp
    else if TcpWaited(p, q) then tcp.TcpJoined? && (p.udtOnly > 0 ==> tcp.gaveUp)
    else if TcpCancelled(p, q) then tcp == TcpLive(true) || tcp.TcpExited?
    else tcp == TcpLive(false) || tcp == TcpExited(true)
  }

  predicate UdtIn(p: Session, udt: UdtWorker, q: Pos) {
    if !UdtStarted(p, q) then udt == NoUdt
    else if UdtWaited(p, q) then udt == UdtJoined
    else udt.UdtReady? || udt.UdtServing? || udt.UdtExited?
  }

  // ---------- The invariant ----------

  predicate Inv(p: Session, w: World, cq: Pos, sq: Pos)
    requires p.Valid()
  {
    InPlan(PlanOf(p), w, cq, sq) && TcpIn(p, w.tcp, sq) && UdtIn(p, w.udt, sq)
  }

  lemma InitInv(p: Session)
    requires p.Valid()
    ensures Inv(p, Init(p), Pos(0, 0, 0), Pos(0, 0, 0))
  {
    assert Init(p).client.todo == ClientTodo(p, 0);
    assert Init(p).server.todo == ServerTodo(p, 0);
  }

  // The pieces of work before the messages that matter to the workers
  lemma PreSizes(p: Session, i: nat)
    requires p.Valid() && i <= Length(p)
    ensures UsesTcp(p) && i == 11 ==> ServerPre(p, i) == [StartTcp]
    ensures UsesTcp(p) && i == 13 ==> ServerPre(p, i) == if p.udtOnly > 0 then [] else [CancelTcp, JoinTcp]
    ensures p.mode == Memory && i == DoneEcho(p) ==>
      ServerPre(p, i) == if UsesTcp(p) then [JoinUdt, JoinTcp] else [JoinUdt]
    ensures p.mode == Memory && i == UdtEcho(p) + 1 ==> ServerPre(p, i) == [StartUdt]
    ensures i == 3 ==> ServerPre(p, i) == [SetEstablished]
    ensures p.mode == Memory && i !in {3, 11, 13, 15, UdtEcho(p) + 1} ==> ServerPre(p, i) == []
    ensures p.mode == Memory && i == 11 && !UsesTcp(p) ==> ServerPre(p, i) == []
    ensures p.mode == Memory ==> Length(p) == DoneEcho(p) + 1
  {
  }

  // Which workers there are when PROGRAM_DONE is about to arrive
  lemma WorkersAtEnd(p: Session, tcp: TcpWorker, udt: UdtWorker, q: Pos)
    requires p.Valid() && q.i <= Length(p) && TcpIn(p, tcp, q) && UdtIn(p, udt, q)
    ensures q.i == Length(p) - 2 && q.left == 0 ==> !tcp.NoTcp? == UsesTcp(p) && !udt.NoUdt? == (p.mode == Memory)
  {
  }

  // Transfers do not change what the workers may be.
  lemma WorkersKept(p: Session, tcp: TcpWorker, udt: UdtWorker, q: Pos, r: Pos)
    requires p.Valid() && q.i < Length(p) && q.left == 0 && TcpIn(p, tcp, q) && UdtIn(p, udt, q)
    requires (r.i == q.i && r.left == 0) || (r.i == q.i + 1 && r.left == |ServerPre(p, q.i + 1)|)
    ensures TcpIn(p, tcp, r) && UdtIn(p, udt, r)
  {
  }

  // What a piece of the server's work does to the workers
  lemma WorkersWorked(p: Session, w: World, q: Pos)
    requires p.Valid() && q.i < Length(p) && 0 < q.left <= |ServerPre(p, q.i)|
    requires TcpIn(p, w.tcp, q) && UdtIn(p, w.udt, q)
    requires WorkReady(w, ServerPre(p, q.i)[|ServerPre(p, q.i)| - q.left])
    ensures var work, r := ServerPre(p, q.i)[|ServerPre(p, q.i)| - q.left], q.(left := q.left - 1);
      TcpIn(p, TcpAfter(w.tcp, work), r) && UdtIn(p, UdtAfter(w.udt, work), r)
  {
  }

  // ---------- Every move ----------

  lemma WorkersMove(p: Session, w: World, q: Pos, m: Move)
    requires p.Valid() && Enabled(w, m) && TcpIn(p, w.tcp, q) && UdtIn(p, w.udt, q)
    requires MoveOf(m, false) ==> q.i < Length(p) && (q.left > 0 <==> m.Act?)
    requires m == Act(false) ==> q.left <= |ServerPre(p, q.i)|
    requires m == Act(false) ==> w.server.todo[0] == Do(ServerPre(p, q.i)[|ServerPre(p, q.i)| - q.left])
    requires m == Act(true) ==> ClientWork(w.client.todo[0].work)
    ensures var d, v := PlanOf(p), Apply(w, m);
      TcpIn(p, v.tcp, Next(d, false, q, m)) && UdtIn(p, v.udt, Next(d, false, q, m))
  {
    if m == Act(false) {
      WorkersWorked(p, w, q);
    } else if MoveOf(m, false) {
      WorkersKept(p, w.tcp, w.udt, q, Next(PlanOf(p), false, q, m));
    } else {
      WorkersAlone(p, w, q, m);
    }
  }

  // The client has no hand in the server's workers.
  predicate ClientWork(work: Work) {
    work in {SearchMemory, SearchDisk, RunTcp, RunUdt, CopyTcp, CopyUdt}
  }

  lemma ClientWorks(p: Session, i: nat)
    requires p.Valid() && i <= Length(p)
    ensures forall work <- ClientPre(p, i) :: ClientWork(work)
  {
  }

  // Moves of the client and of the workers
  lemma WorkersAlone(p: Session, w: World, q: Pos, m: Move)
    requires p.Valid() && Enabled(w, m) && TcpIn(p, w.tcp, q) && UdtIn(p, w.udt, q) && !MoveOf(m, false)
    requires m == Act(true) ==> ClientWork(w.client.todo[0].work)
    ensures TcpIn(p, Apply(w, m).tcp, q) && UdtIn(p, Apply(w, m).udt, q)
  {
  }

  // The invariant is kept by every move, whatever its party and its size.
  lemma MoveKeepsInv(p: Session, w: World, cq: Pos, sq: Pos, m: Move)
    requires p.Valid() && Inv(p, w, cq, sq) && Enabled(w, m)
    ensures Inv(p, Apply(w, m), Next(PlanOf(p), true, cq, m), Next(PlanOf(p), false, sq, m))
  {
    PlanMoves(p, PlanOf(p), w, cq, sq, m);
    ServerMoves(p, PlanOf(p), w, sq, m);
    ClientMoves(p, PlanOf(p), w, cq, m);
    WorkersMove(p, w, sq, m);
  }

  lemma PlanMoves(p: Session, d: Plan, w: World, cq: Pos, sq: Pos, m: Move)
    requires p.Valid() && d == PlanOf(p) && Enabled(w, m)
    requires InPlan(d, w, cq, sq) && TcpIn(p, w.tcp, sq) && UdtIn(p, w.udt, sq)
    ensures InPlan(d, Apply(w, m), Next(d, true, cq, m), Next(d, false, sq, m))
  {
    PlanGood(p);
    WorkersAtEnd(p, w.tcp, w.udt, sq);
    PlanKept(d, w, cq, sq, m);
  }

  lemma ServerMoves(p: Session, d: Plan, w: World, q: Pos, m: Move)
    requires p.Valid() && d == PlanOf(p) && Stands(d, false, w, q) && Enabled(w, m)
    ensures MoveOf(m, false) ==> q.i < |d.ms| && (q.left > 0 <==> m.Act?)
    ensures m == Act(false) ==> w.server.todo[0] == Do(ServerPre(p, q.i)[|ServerPre(p, q.i)| - q.left])
  {
    PlanGood(p);
    if MoveOf(m, false) {
      MoveFrom(d, false, w, q, m);
    }
  }

  lemma ClientMoves(p: Session, d: Plan, w: World, q: Pos, m: Move)
    requires p.Valid() && d == PlanOf(p) && Stands(d, true, w, q) && Enabled(w, m)
    ensures m == Act(true) ==> ClientWork(w.client.todo[0].work)
  {
    PlanGood(p);
    if m == Act(true) {
      MoveFrom(d, true, w, q, m);
      ClientWorks(p, q.i);
    }
  }

  // Every run leads from positions to positions.
  function Ran(p: Session, side: bool, q: Pos, moves: seq<Move>): Pos
    requires p.Valid()
    decreases |moves|
  {
    if moves == [] then q else Ran(p, side, Next(PlanOf(p), side, q, moves[0]), moves[1..])
  }

  lemma {:induction false} RunKeepsInv(p: Session, w: World, cq: Pos, sq: Pos, moves: seq<Move>)
    requires p.Valid() && Inv(p, w, cq, sq) && Possible(w, moves)
    ensures Inv(p, Exec(w, moves), Ran(p, true, cq, moves), Ran(p, false, sq, moves))
    decreases |moves|
  {
    if moves != [] {
      var m, d := moves[0], PlanOf(p);
      MoveKeepsInv(p, w, cq, sq, m);
      RunKeepsInv(p, Apply(w, m), Next(d, true, cq, m), Next(d, false, sq, m), moves[1..]);
    }
  }
}

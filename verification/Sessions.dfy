/** A session: both programs, a FIFO byte queue in each direction, and the server's two workers.
    Every read and write moves an arbitrary part of what it could move.
 */
module Sessions {
  import opened Numbers
  import opened Wire
  import opened Parties

  // What the two sides start with
  datatype Session = Session(
    id: seq<Byte>, ip: seq<Byte>, mode: Mode, found: bool,
    udtOnly: Int32, clientMax: Int32, serverMax: Int32, serverUdtOnly: Int32)
  {
    // The command line refuses a lone destination file, and inet_ntoa() yields 7 to 15 characters.
    predicate Valid() {
      |id| == ID_SIZE && 7 <= |ip| <= 15 && mode != DstOnly
    }
  }

  // A worker that gave up ended on its own after too many errors.
  datatype TcpWorker = NoTcp | TcpLive(cancelled: bool) | TcpExited(gaveUp: bool) | TcpJoined(gaveUp: bool)
  datatype UdtWorker = NoUdt | UdtReady | UdtServing | UdtExited | UdtJoined

  // A side is named by whether it is the client; its queue holds what it has sent and the other not read.
  datatype World = World(client: Party, server: Party, c2s: seq<Byte>, s2c: seq<Byte>, tcp: TcpWorker, udt: UdtWorker)
  {
    function Side(side: bool): Party {
      if side then client else server
    }

    function Queue(side: bool): seq<Byte> {
      if side then c2s else s2c
    }

    function With(side: bool, c: Party, mine: seq<Byte>, other: seq<Byte>): World {
      if side then this.(client := c, c2s := mine, s2c := other) else this.(server := c, s2c := mine, c2s := other)
    }
  }

  function Init(p: Session): World {
    World(
      Party(true, 0, false, [Send(Ident, p.id, 0), Recv(AddrLength, 4)], [], p.mode, p.found,
            p.udtOnly, p.clientMax, p.clientMax, p.id, [], [], [], []),
      Party(false, PROGRAM_START, false,
            [Recv(Ident, ID_SIZE), Send(AddrLength, EncodeInt(if |p.ip| <= 15 then |p.ip| else 0), 0),
             Send(Addr, p.ip, 0), Do(SetEstablished), Code(CTRL_CHAN_EST), Recv(Status, 1)],
            [], Memory, false, p.serverUdtOnly, p.serverMax, p.serverMax, [], [], [], [], []),
      [], [], NoTcp, NoUdt)
  }

  datatype Move =
    | Write(side: bool, n: nat) | Read(side: bool, n: nat) | Act(side: bool)
    | TcpStops        // the TCP worker honours a cancellation
    | TcpGivesUp      // ten errors in a row, or its reset fails
    | UdtEnters       // the UDT worker finds status == P_RUN_M2M_UDT and serves a run
    | UdtReturns      // tpg_server_run returns
    | UdtLeaves       // the guard fails, a limit is reached, or a reset fails

  // A join waits for its worker; joining a worker again returns at once.
  predicate WorkReady(w: World, work: Work) {
    match work
    case CancelTcp => !w.tcp.NoTcp?
    case JoinTcp => w.tcp.TcpExited? || w.tcp.TcpJoined?
    case JoinUdt => w.udt.UdtExited? || w.udt.UdtJoined?
    case _ => true
  }

  function TcpAfter(tcp: TcpWorker, work: Work): TcpWorker {
    match work
    case StartTcp => TcpLive(false)
    case CancelTcp => if tcp.TcpLive? then TcpLive(true) else tcp
    case JoinTcp => if tcp.TcpExited? then TcpJoined(tcp.gaveUp) else tcp
    case _ => tcp
  }

  function UdtAfter(udt: UdtWorker, work: Work): UdtWorker {
    match work
    case StartUdt => UdtReady
    case JoinUdt => if udt.UdtExited? then UdtJoined else udt
    case _ => udt
  }

  // ---------- One step, and runs of them ----------

  predicate Enabled(w: World, m: Move) {
    match m
    case Write(side, n) =>
      var todo := w.Side(side).todo;
      n > 0 && todo != [] && todo[0].Send? && todo[0].at + n <= |todo[0].buf|
    case Read(side, n) =>
      var todo := w.Side(side).todo;
      n > 0 && todo != [] && todo[0].Recv? && |w.Side(side).got| + n <= todo[0].need && n <= |w.Queue(!side)|
    case Act(side) =>
      var todo := w.Side(side).todo;
      todo != [] && todo[0].Do? && WorkReady(w, todo[0].work)
    case TcpStops => w.tcp == TcpLive(true)
    case TcpGivesUp => w.tcp.TcpLive?
    case UdtEnters => w.udt.UdtReady? && w.server.status == RUN_M2M_UDT
    case UdtReturns => w.udt.UdtServing?
    case UdtLeaves => w.udt.UdtReady? || w.udt.UdtServing?
  }

  function Apply(w: World, m: Move): World
    requires Enabled(w, m)
  {
    match m
    case Write(side, n) =>
      var a := w.Side(side).todo[0];
      w.With(side, Wrote(w.Side(side), n), w.Queue(side) + a.buf[a.at..a.at + n], w.Queue(!side))
    case Read(side, n) =>
      var c := Took(w.Side(side), w.Queue(!side)[..n], !w.tcp.NoTcp?, !w.udt.NoUdt?);
      w.With(side, c, w.Queue(side), w.Queue(!side)[n..])
    case Act(side) =>
      var work := w.Side(side).todo[0].work;
      w.With(side, Worked(w.Side(side)), w.Queue(side), w.Queue(!side)).(
        tcp := TcpAfter(w.tcp, work), udt := UdtAfter(w.udt, work))
    case TcpStops => w.(tcp := TcpExited(false))
    case TcpGivesUp => w.(tcp := TcpExited(true))
    case UdtEnters => w.(udt := UdtServing)
    case UdtReturns => w.(udt := UdtReady)
    case UdtLeaves => w.(udt := UdtExited)
  }

  // What a side's move does to that side, to the queues, and to the other side
  lemma SideApplied(w: World, m: Move)
    requires Enabled(w, m) && (m.Write? || m.Read? || m.Act?)
    ensures var v, c := Apply(w, m), w.Side(m.side);
      && v.Side(!m.side) == w.Side(!m.side)
      && match m
         case Write(side, n) =>
           && v.Side(side) == Wrote(c, n) && v.Queue(!side) == w.Queue(!side)
           && v.Queue(side) == w.Queue(side) + c.todo[0].buf[c.todo[0].at..c.todo[0].at + n]
         case Read(side, n) =>
           && v.Side(side) == Took(c, w.Queue(!side)[..n], !w.tcp.NoTcp?, !w.udt.NoUdt?)
           && v.Queue(side) == w.Queue(side) && v.Queue(!side) == w.Queue(!side)[n..]
         case Act(side) =>
           v.Side(side) == Worked(c) && v.Queue(side) == w.Queue(side) && v.Queue(!side) == w.Queue(!side)
  {
  }

  // The world after a list of moves, each of which has to be enabled.
  predicate Possible(w: World, ms: seq<Move>)
    decreases |ms|
  {
    ms == [] || (Enabled(w, ms[0]) && Possible(Apply(w, ms[0]), ms[1..]))
  }

  function Exec(w: World, ms: seq<Move>): World
    requires Possible(w, ms)
    decreases |ms|
  {
    if ms == [] then w else Exec(Apply(w, ms[0]), ms[1..])
  }

  lemma ExecFirst(w: World, m: Move, rest: seq<Move>, all: seq<Move>)
    requires all == [m] + rest && Enabled(w, m)
    ensures Possible(w, all) <==> Possible(Apply(w, m), rest)
    ensures Possible(w, all) ==> Exec(w, all) == Exec(Apply(w, m), rest)
  {
    assert all[0] == m && all[1..] == rest;
  }

  lemma FirstApart<T>(m: T, rest: seq<T>, more: seq<T>, all: seq<T>)
    requires all != [] && m == all[0] && rest == all[1..]
    ensures all + more == [m] + (rest + more)
  {
  }

  lemma {:induction false} ExecTwice(w: World, first: seq<Move>, more: seq<Move>)
    requires Possible(w, first) && Possible(Exec(w, first), more)
    ensures Possible(w, first + more) && Exec(w, first + more) == Exec(Exec(w, first), more)
    decreases |first|
  {
    if first == [] {
      assert first + more == more;
    } else {
      var m, rest := first[0], first[1..];
      FirstApart(m, rest, more, first);
      ExecTwice(Apply(w, m), rest, more);
      ExecFirst(w, m, rest + more, first + more);
    }
  }

  predicate Finished(w: World) {
    && w.client.status == PROGRAM_DONE && w.client.todo == [] && !w.client.failed
    && w.server.status == PROGRAM_DONE && w.server.todo == []
    && w.c2s == [] && w.s2c == []
  }
}

/** The session on the heap: struct probdata as an object that its handlers update in place, and the
    two of them connected by queues.  Its every step is one move of `Sessions`, so that what is proved
    of all runs holds of these objects.
 */
module Programs {
  import opened Numbers
  import opened Wire
  import opened Parties
  import opened Sessions
  import opened SessionTheorems

  // struct probdata, its control flow in `todo`; the ghost fields are what has happened to it.
  class Program {
    const client: bool
    const mode: Mode
    const found: bool
    var status: int
    var failed: bool
    var udtOnly: Int32
    var hostMaxBuf: Int32
    var ctrlMaxBuf: Int32
    var id: seq<Byte>
    var localIp: seq<Byte>
    var todo: seq<Action>
    var got: seq<Byte>
    ghost var sent: seq<Item>
    ghost var received: seq<Item>
    ghost var did: seq<Work>

    ghost function View(): Party
      reads this
    {
      Party(client, status, failed, todo, got, mode, found, udtOnly, hostMaxBuf, ctrlMaxBuf, id, localIp,
            sent, received, did)
    }

    constructor (c: Party)
      ensures View() == c
    {
      client, mode, found := c.client, c.mode, c.found;
      status, failed, todo, got := c.status, c.failed, c.todo, c.got;
      udtOnly, hostMaxBuf, ctrlMaxBuf, id, localIp := c.udtOnly, c.hostMaxBuf, c.ctrlMaxBuf, c.id, c.localIp;
      sent, received, did := c.sent, c.received, c.did;
    }

    // write() takes n more bytes of what is being sent.
    method Write(n: nat) returns (bytes: seq<Byte>)
      requires todo != [] && todo[0].Send? && todo[0].at + n <= |todo[0].buf|
      modifies this
      ensures bytes == old(todo[0].buf[todo[0].at..todo[0].at + n])
      ensures View() == Wrote(old(View()), n)
    {
      var a := todo[0];
      bytes := a.buf[a.at..a.at + n];
      if a.at + n < |a.buf| {
        todo := [a.(at := a.at + n)] + todo[1..];
      } else {
        todo := todo[1..];
        sent := sent + [Item(a.kind, a.buf)];
      }
    }

    // The address of the client: first its length, then its characters
    method ProcAddress(kind: Kind, bytes: seq<Byte>)
      requires kind == AddrLength || kind == Addr
      modifies this
      ensures View() == Received(old(View()), kind, bytes, false, false)
    {
      if kind == AddrLength {
        if |bytes| == 4 {
          var n := DecodeInt(bytes);
          todo := [Recv(Addr, if n < 0 then 0 else n)] + todo;
        }
      } else {
        localIp := bytes;
        status := PROGRAM_START;
        todo := ClientPoll(status);
      }
    }

    // A status code sets the status, and the switch of the side says what follows.
    method ProcStatus(bytes: seq<Byte>, hasTcp: bool, hasUdt: bool)
      modifies this
      ensures View() == Received(old(View()), Status, bytes, hasTcp, hasUdt)
    {
      if |bytes| == 1 {
        status := SignedChar(bytes[0]);
        if client {
          todo := ClientActions(status, mode, found, udtOnly, ctrlMaxBuf) + ClientPoll(status);
        } else {
          todo := ServerActions(status, udtOnly, hasTcp, hasUdt) + ServerPoll(status);
        }
      }
    }

    // The other side's half of the handshake; the server takes the flag over and answers.
    method ProcCtrl(bytes: seq<Byte>)
      modifies this
      ensures View() == Received(old(View()), Ctrl, bytes, false, false)
    {
      if |bytes| == 8 {
        ctrlMaxBuf := Lesser(DecodeInt(bytes[4..]), hostMaxBuf);
        hostMaxBuf := ctrlMaxBuf;
        if !client {
          udtOnly := DecodeInt(bytes[..4]);
          todo := [Send(Ctrl, EncodeMsg(udtOnly, ctrlMaxBuf), 0)] + todo;
        }
      }
    }

    // read() has yielded more bytes; when all are there, they are acted upon.
    method Read(bytes: seq<Byte>, hasTcp: bool, hasUdt: bool)
      requires todo != [] && todo[0].Recv?
      modifies this
      ensures View() == Took(old(View()), bytes, hasTcp, hasUdt)
    {
      var a := todo[0];
      got := got + bytes;
      if |got| >= a.need {
        var whole := got;
        todo, got := todo[1..], [];
        received := received + [Item(a.kind, whole)];
        match a.kind
        case Ident => id := whole;
        case AddrLength => ProcAddress(AddrLength, whole);
        case Addr => ProcAddress(Addr, whole);
        case Status => ProcStatus(whole, hasTcp, hasUdt);
        case Ctrl => ProcCtrl(whole);
      }
    }

    method Act() returns (work: Work)
      requires todo != [] && todo[0].Do?
      modifies this
      ensures work == old(todo[0].work) && View() == Worked(old(View()))
    {
      work := todo[0].work;
      todo := todo[1..];
      did := did + [work];
      if work == GiveUp {
        failed, todo := true, [];
      } else if work == SetEstablished {
        status := CTRL_CHAN_EST;
      }
    }
  }

  // Both programs, the bytes on their way, and the server's workers
  class Network {
    const client: Program
    const server: Program
    var c2s: seq<Byte>
    var s2c: seq<Byte>
    var tcp: TcpWorker
    var udt: UdtWorker
    ghost const session: Session
    ghost var moves: seq<Move>

    ghost function View(): World
      reads this, client, server
    {
      World(client.View(), server.View(), c2s, s2c, tcp, udt)
    }

    // The objects are where a run of the session ends.
    ghost predicate Valid()
      reads this, client, server
    {
      client != server && Run(session, moves) && View() == End(session, moves)
    }

    constructor (p: Session)
      requires p.Valid()
      ensures Valid() && session == p && moves == [] && fresh(client) && fresh(server)
      ensures View() == Init(p)
    {
      client := new Program(Init(p).client);
      server := new Program(Init(p).server);
      c2s, s2c, tcp, udt := [], [], NoTcp, NoUdt;
      session, moves := p, [];
    }

    method WriteStep(side: bool, n: nat)
      requires client != server && Enabled(View(), Move.Write(side, n))
      modifies this`c2s, this`s2c, client, server
      ensures View() == Apply(old(View()), Move.Write(side, n))
    {
      if side {
        var bytes := client.Write(n);
        c2s := c2s + bytes;
      } else {
        var bytes := server.Write(n);
        s2c := s2c + bytes;
      }
    }

    method ReadStep(side: bool, n: nat)
      requires client != server && Enabled(View(), Move.Read(side, n))
      modifies this`c2s, this`s2c, client, server
      ensures View() == Apply(old(View()), Move.Read(side, n))
    {
      if side {
        client.Read(s2c[..n], !tcp.NoTcp?, !udt.NoUdt?);
        s2c := s2c[n..];
      } else {
        server.Read(c2s[..n], !tcp.NoTcp?, !udt.NoUdt?);
        c2s := c2s[n..];
      }
    }

    method ActStep(side: bool)
      requires client != server && Enabled(View(), Move.Act(side))
      modifies this`tcp, this`udt, client, server
      ensures View() == Apply(old(View()), Move.Act(side))
    {
      var work: Work;
      if side {
        work := client.Act();
      } else {
        work := server.Act();
      }
      tcp, udt := TcpAfter(tcp, work), UdtAfter(udt, work);
    }

    method WorkerStep(m: Move)
      requires client != server && Enabled(View(), m) && !m.Write? && !m.Read? && !m.Act?
      modifies this`tcp, this`udt
      ensures View() == Apply(old(View()), m)
    {
      match m
      case TcpStops => tcp := TcpExited(false);
      case TcpGivesUp => tcp := TcpExited(true);
      case UdtEnters => udt := UdtServing;
      case UdtReturns => udt := UdtReady;
      case UdtLeaves => udt := UdtExited;
    }

    // One step of the running system
    method Step(m: Move)
      requires Valid() && Enabled(View(), m)
      modifies this, client, server
      ensures Valid() && View() == Apply(old(View()), m) && moves == old(moves) + [m]
    {
      RunMore(session, moves, m);
      match m {
        case Write(side, n) => WriteStep(side, n);
        case Read(side, n) => ReadStep(side, n);
        case Act(side) => ActStep(side);
        case _ => WorkerStep(m);
      }
      moves := moves + [m];
    }

    // Any schedule that is possible can be played on the objects.
    method Play(ms: seq<Move>)
      requires Valid() && Possible(View(), ms)
      modifies this, client, server
      ensures Valid() && View() == Exec(old(View()), ms)
      decreases |ms|
    {
      if ms != [] {
        var m, rest := ms[0], ms[1..];
        FirstApart(m, rest, [], ms);
        ExecFirst(View(), m, rest, ms);
        Step(m);
        Play(rest);
      }
    }

    // What holds of every run holds of the objects.
    lemma Holds()
      requires Valid()
      ensures server.received <= client.sent && client.received <= server.sent
      ensures client.did <= AllWork(session, true) && server.did <= AllWork(session, false)
      ensures client.status <= server.status
      ensures Shaken(client.received) && Shaken(server.received) ==>
        client.ctrlMaxBuf == server.ctrlMaxBuf && client.udtOnly == server.udtOnly
    {
      Framing(session, moves);
      WorkInOrder(session, moves, true);
      WorkInOrder(session, moves, false);
      ClientBehind(session, moves);
      Agreement(session, moves);
    }
  }

  lemma RunMore(p: Session, moves: seq<Move>, m: Move)
    requires Run(p, moves) && Enabled(End(p, moves), m)
    ensures Run(p, moves + [m]) && End(p, moves + [m]) == Apply(End(p, moves), m)
  {
    ExecTwice(Init(p), moves, [m]);
  }
}

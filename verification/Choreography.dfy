/** The one order of messages that a session of given parameters follows, and the states in which
    the two programs are when they come to each message.  Neither program knows this order: that
    they keep to it is what the session invariant proves.
 */
module Choreography {
  import opened Numbers
  import opened Wire
  import opened Parties
  import opened Sessions
  import opened Channels
  import opened Plans

  // All messages of the session in their order
  function Messages(p: Session): (ms: seq<Message>)
    requires p.Valid()
    ensures |ms| == Length(p)
    ensures forall i :: 0 <= i < |ms| ==> ms[i] == MessageAt(p, i) && ms[i].body != []
  {
    seq(Length(p), i requires 0 <= i < Length(p) => MessageAt(p, i))
  }

  // The codes that follow the handshake, each sent by the client and then echoed by the server
  function Codes(p: Session): (cs: seq<int>)
    ensures 3 <= |cs| <= 4 && forall c <- cs :: 4 <= c <= 10
  {
    if p.mode != Memory then [RUN_D2D_DB, RUN_D2D_TCP, RUN_D2D_UDT, PROGRAM_DONE]
    else if UsesTcp(p) then [RUN_M2M_DB, RUN_M2M_TCP, RUN_M2M_UDT, PROGRAM_DONE]
    else [RUN_M2M_DB, RUN_M2M_UDT, PROGRAM_DONE]
  }

  // TCP is profiled unless -t was given and the history had an answer.
  predicate UsesTcp(p: Session) {
    p.mode == Memory && !(p.found && p.udtOnly > 0)
  }

  function Agreed(p: Session): Int32 {
    Lesser(p.clientMax, p.serverMax)
  }

  function Length(p: Session): nat {
    8 + 2 * |Codes(p)|
  }

  function CodeAt(p: Session, i: nat): int
    requires 8 <= i < Length(p)
  {
    Codes(p)[(i - 8) / 2]
  }

  function MessageAt(p: Session, i: nat): (m: Message)
    requires p.Valid() && i < Length(p)
    ensures m.body != []
  {
    if i == 0 then Message(true, Ident, p.id)
    else if i == 1 then Message(false, AddrLength, EncodeInt(|p.ip|))
    else if i == 2 then Message(false, Addr, p.ip)
    else if i == 3 then Message(false, Status, [CTRL_CHAN_EST])
    else if i == 4 then Message(true, Status, [TWOWAY_HANDSHAKE])
    else if i == 5 then Message(false, Status, [TWOWAY_HANDSHAKE])
    else if i == 6 then Message(true, Ctrl, EncodeMsg(p.udtOnly, p.clientMax))
    else if i == 7 then Message(false, Ctrl, EncodeMsg(p.udtOnly, Agreed(p)))
    else Message(i % 2 == 0, Status, [StatusByte(Codes(p)[(i - 8) / 2])])
  }

  // ---------- The client at message i ----------

  function ClientStatus(p: Session, i: nat): int
    requires i <= Length(p)
  {
    if i < 3 then 0 else if i == 3 then PROGRAM_START else if i <= 5 then CTRL_CHAN_EST
    else if i <= 9 then TWOWAY_HANDSHAKE else Codes(p)[(i - 10) / 2]
  }

  // What it does before it comes to the message
  function ClientPre(p: Session, i: nat): seq<Work>
    requires i <= Length(p)
  {
    if i < 10 || i % 2 == 1 then [] else
    var code := Codes(p)[(i - 10) / 2];
    if code == RUN_M2M_DB then [SearchMemory] else if code == RUN_D2D_DB then [SearchDisk]
    else if code == RUN_M2M_TCP then [RunTcp] else if code == RUN_M2M_UDT then [RunUdt]
    else if code == RUN_D2D_TCP then [CopyTcp] else if code == RUN_D2D_UDT then [CopyUdt] else []
  }

  function ClientTodo(p: Session, i: nat): seq<Action>
    requires p.Valid() && i <= Length(p)
  {
    if i == Length(p) then []
    else if i == 0 then [Send(Ident, p.id, 0), Recv(AddrLength, 4)]
    else if i == 1 then [Recv(AddrLength, 4)]
    else if i == 2 then [Recv(Addr, |p.ip|)]
    else if i == 4 then [Code(TWOWAY_HANDSHAKE), Recv(Status, 1)]
    else if i == 6 then
      [Send(Ctrl, EncodeMsg(p.udtOnly, p.clientMax), 0), Recv(Ctrl, 8), Code(Codes(p)[0]), Recv(Status, 1)]
    else if i == 7 then [Recv(Ctrl, 8), Code(Codes(p)[0]), Recv(Status, 1)]
    else if i >= 8 && i % 2 == 0 then [Code(CodeAt(p, i)), Recv(Status, 1)]
    else [Recv(Status, 1)]
  }

  function ClientAt(p: Session, i: nat): Party
    requires p.Valid() && i <= Length(p)
  {
    var most := if i < 8 then p.clientMax else Agreed(p);
    Party(true, ClientStatus(p, i), false, ClientTodo(p, i), [], p.mode, p.found, p.udtOnly, most, most,
          p.id, if i < 3 then [] else p.ip, [], [], [])
  }

  // ---------- The server at message i ----------

  // Its status, with `left` pieces of work still to do before the message
  function ServerStatus(p: Session, i: nat, left: nat): int
    requires i <= Length(p)
  {
    if i < 3 || (i == 3 && left > 0) then PROGRAM_START else if i <= 4 then CTRL_CHAN_EST
    else if i <= 8 then TWOWAY_HANDSHAKE else Codes(p)[(i - 9) / 2]
  }

  function ServerPre(p: Session, i: nat): seq<Work>
    requires i <= Length(p)
  {
    if i == 3 then [SetEstablished]
    else if i < 9 then []
    else
      var code := Codes(p)[(i - 9) / 2];
      if i % 2 == 0 then (if code == RUN_M2M_UDT then [StartUdt] else [])
      else if code == RUN_M2M_TCP then [StartTcp]
      else if code == RUN_M2M_UDT then (if p.udtOnly > 0 then [] else [CancelTcp, JoinTcp])
      else if code == RUN_D2D_TCP then [XddTcp]
      else if code == RUN_D2D_UDT then [XddUdt]
      else if code == PROGRAM_DONE then
        (if p.mode == Memory then [JoinUdt] else []) + (if UsesTcp(p) then [JoinTcp] else [])
      else []
  }

  function ServerTodo(p: Session, i: nat): seq<Action>
    requires p.Valid() && i <= Length(p)
  {
    var greet := [Code(CTRL_CHAN_EST), Recv(Status, 1)];
    if i == Length(p) then []
    else if i == 0 then
      [Recv(Ident, ID_SIZE), Send(AddrLength, EncodeInt(|p.ip|), 0), Send(Addr, p.ip, 0), Do(SetEstablished)] + greet
    else if i == 1 then [Send(AddrLength, EncodeInt(|p.ip|), 0), Send(Addr, p.ip, 0), Do(SetEstablished)] + greet
    else if i == 2 then [Send(Addr, p.ip, 0), Do(SetEstablished)] + greet
    else if i == 3 then greet
    else if i == 5 then [Code(TWOWAY_HANDSHAKE), Recv(Ctrl, 8), Recv(Status, 1)]
    else if i == 6 then [Recv(Ctrl, 8), Recv(Status, 1)]
    else if i == 7 then [Send(Ctrl, EncodeMsg(p.udtOnly, Agreed(p)), 0), Recv(Status, 1)]
    else if i >= 9 && i % 2 == 1 then
      var code := CodeAt(p, i);
      [Code(code)] + (if code == RUN_M2M_UDT then [Do(StartUdt)] else []) + ServerPoll(code)
    else [Recv(Status, 1)]
  }

  // The server with `left` pieces of work still to do before the message
  function ServerAt(p: Session, i: nat, left: nat): Party
    requires p.Valid() && i <= Length(p)
  {
    var most := if i < 7 then p.serverMax else Agreed(p);
    Party(false, ServerStatus(p, i, left), false, ServerTodo(p, i), [], Memory, false,
          if i < 7 then p.serverUdtOnly else p.udtOnly, most, most, if i < 1 then [] else p.id, [], [], [], [])
  }

  // ---------- Both programs keep to the order ----------

  lemma ClientFirst(p: Session, i: nat)
    requires p.Valid() && i < Length(p)
    ensures var m := MessageAt(p, i); ClientTodo(p, i) != [] && ClientTodo(p, i)[0] == Transfer(m, m.fromClient)
  {
  }

  lemma ServerFirst(p: Session, i: nat)
    requires p.Valid() && i < Length(p)
    ensures var m := MessageAt(p, i); ServerTodo(p, i) != [] && ServerTodo(p, i)[0] == Transfer(m, !m.fromClient)
  {
  }

  // The client when it has completed message i
  function ClientDone(p: Session, i: nat, hasTcp: bool, hasUdt: bool): Party
    requires p.Valid() && i < Length(p)
  {
    ClientFirst(p, i);
    After(ClientAt(p, i), MessageAt(p, i), hasTcp, hasUdt)
  }

  // The client's answer to the echo of a code is what leads to the next message.
  lemma ClientReacts(p: Session, i: nat)
    requires p.Valid() && 9 <= i < Length(p) && i % 2 == 1
    ensures var code := CodeAt(p, i);
      ClientActions(code, p.mode, p.found, p.udtOnly, Agreed(p)) + ClientPoll(code) ==
      Works(ClientPre(p, i + 1)) + ClientTodo(p, i + 1)
  {
    var code := CodeAt(p, i);
    assert (i - 8) / 2 == (i - 9) / 2 && (i + 1 - 10) / 2 == (i - 9) / 2 && (i + 1 - 8) / 2 == (i - 9) / 2 + 1;
    assert Works([]) == [];
    assert forall w: Work :: Works([w]) == [Do(w)];
    if i == 9 {
    } else if i == 11 {
    } else if i == 13 {
    } else {
      assert i == 15;
    }
  }

  lemma ClientAdvances(p: Session, i: nat, hasTcp: bool, hasUdt: bool)
    requires p.Valid() && i < Length(p)
    ensures ClientDone(p, i, hasTcp, hasUdt) ==
            ClientAt(p, i + 1).(todo := Works(ClientPre(p, i + 1)) + ClientTodo(p, i + 1))
  {
    if i < 8 {
      ClientAdvancesEarly(p, i, hasTcp, hasUdt);
    } else {
      ClientAdvancesLate(p, i, hasTcp, hasUdt);
    }
  }

  lemma ClientAdvancesEarly(p: Session, i: nat, hasTcp: bool, hasUdt: bool)
    requires p.Valid() && i < 8
    ensures ClientDone(p, i, hasTcp, hasUdt) ==
            ClientAt(p, i + 1).(todo := Works(ClientPre(p, i + 1)) + ClientTodo(p, i + 1))
  {
    assert Works(ClientPre(p, i + 1)) + ClientTodo(p, i + 1) == ClientTodo(p, i + 1);
    if i == 1 {
      ClientReadsLength(p, hasTcp, hasUdt);
    } else if i == 7 {
      ClientReadsCtrl(p, hasTcp, hasUdt);
    } else if i < 4 {
      ClientGreets(p, i, hasTcp, hasUdt);
    } else {
      ClientShakes(p, i, hasTcp, hasUdt);
    }
  }

  lemma ClientReadsLength(p: Session, hasTcp: bool, hasUdt: bool)
    requires p.Valid()
    ensures ClientDone(p, 1, hasTcp, hasUdt) == ClientAt(p, 2)
  {
  }

  lemma ClientReadsCtrl(p: Session, hasTcp: bool, hasUdt: bool)
    requires p.Valid()
    ensures ClientDone(p, 7, hasTcp, hasUdt) == ClientAt(p, 8)
  {
    MsgRoundTrip(p.udtOnly, Agreed(p));
    assert ClientAt(p, 7).todo[1..] == [Code(Codes(p)[0]), Recv(Status, 1)];
  }

  lemma ClientGreets(p: Session, i: nat, hasTcp: bool, hasUdt: bool)
    requires p.Valid() && i in {0, 2, 3}
    ensures ClientDone(p, i, hasTcp, hasUdt) == ClientAt(p, i + 1)
  {
  }

  lemma ClientShakes(p: Session, i: nat, hasTcp: bool, hasUdt: bool)
    requires p.Valid() && i in {4, 5, 6}
    ensures ClientDone(p, i, hasTcp, hasUdt) == ClientAt(p, i + 1)
  {
  }

  lemma ClientAdvancesLate(p: Session, i: nat, hasTcp: bool, hasUdt: bool)
    requires p.Valid() && 8 <= i < Length(p)
    ensures ClientDone(p, i, hasTcp, hasUdt) ==
            ClientAt(p, i + 1).(todo := Works(ClientPre(p, i + 1)) + ClientTodo(p, i + 1))
  {
    if i % 2 == 1 {
      ClientHandles(p, i, hasTcp, hasUdt);
    } else {
      ClientSends(p, i, hasTcp, hasUdt);
    }
  }

  lemma ClientHandles(p: Session, i: nat, hasTcp: bool, hasUdt: bool)
    requires p.Valid() && 9 <= i < Length(p) && i % 2 == 1
    ensures ClientDone(p, i, hasTcp, hasUdt) ==
            ClientAt(p, i + 1).(todo := Works(ClientPre(p, i + 1)) + ClientTodo(p, i + 1))
  {
    ClientReacts(p, i);
    assert (i + 1 - 10) / 2 == (i - 8) / 2;
  }

  lemma ClientSends(p: Session, i: nat, hasTcp: bool, hasUdt: bool)
    requires p.Valid() && 8 <= i < Length(p) && i % 2 == 0
    ensures ClientDone(p, i, hasTcp, hasUdt) ==
            ClientAt(p, i + 1).(todo := Works(ClientPre(p, i + 1)) + ClientTodo(p, i + 1))
  {
    assert ClientPre(p, i + 1) == [] && Works([]) == [];
    assert i > 8 ==> (i + 1 - 10) / 2 == (i - 10) / 2;
  }

  // The same for the server, which asks at PROGRAM_DONE which workers there are
  function ServerDone(p: Session, i: nat, hasTcp: bool, hasUdt: bool): Party
    requires p.Valid() && i < Length(p)
  {
    ServerFirst(p, i);
    After(ServerAt(p, i, 0), MessageAt(p, i), hasTcp, hasUdt)
  }

  // The server's answer to a code
  lemma ServerReacts(p: Session, i: nat, hasTcp: bool, hasUdt: bool)
    requires p.Valid() && 8 <= i < Length(p) && i % 2 == 0
    requires i == Length(p) - 2 ==> hasTcp == UsesTcp(p) && hasUdt == (p.mode == Memory)
    ensures var code := CodeAt(p, i);
      ServerActions(code, p.udtOnly, hasTcp, hasUdt) + ServerPoll(code) ==
      Works(ServerPre(p, i + 1)) + ServerTodo(p, i + 1)
  {
    assert (i + 1 - 9) / 2 == (i - 8) / 2 && (i + 1 - 8) / 2 == (i - 8) / 2;
    assert Works([]) == [];
    assert forall w: Work :: Works([w]) == [Do(w)];
    assert forall v: Work, w: Work :: Works([v, w]) == [Do(v), Do(w)] by {
      forall v: Work, w: Work ensures Works([v, w]) == [Do(v), Do(w)] {
        assert [v, w][1..] == [w];
      }
    }
    if i == 8 {
    } else if i == 10 {
    } else if i == 12 {
    } else {
      assert i == 14;
    }
  }

  lemma ServerAdvances(p: Session, i: nat, hasTcp: bool, hasUdt: bool)
    requires p.Valid() && i < Length(p)
    requires i == Length(p) - 2 ==> hasTcp == UsesTcp(p) && hasUdt == (p.mode == Memory)
    ensures var pre := ServerPre(p, i + 1);
      ServerDone(p, i, hasTcp, hasUdt) == ServerAt(p, i + 1, |pre|).(todo := Works(pre) + ServerTodo(p, i + 1))
  {
    if i < 8 {
      ServerAdvancesEarly(p, i, hasTcp, hasUdt);
    } else {
      ServerAdvancesLate(p, i, hasTcp, hasUdt);
    }
  }

  lemma ServerAdvancesEarly(p: Session, i: nat, hasTcp: bool, hasUdt: bool)
    requires p.Valid() && i < 8
    ensures var pre := ServerPre(p, i + 1);
      ServerDone(p, i, hasTcp, hasUdt) == ServerAt(p, i + 1, |pre|).(todo := Works(pre) + ServerTodo(p, i + 1))
  {
    if i != 2 {
      assert Works(ServerPre(p, i + 1)) + ServerTodo(p, i + 1) == ServerTodo(p, i + 1);
    }
    if i < 3 {
      ServerGreets(p, i, hasTcp, hasUdt);
    } else if i == 6 {
      ServerReadsCtrl(p, hasTcp, hasUdt);
    } else {
      ServerShakes(p, i, hasTcp, hasUdt);
    }
  }

  lemma ServerGreets(p: Session, i: nat, hasTcp: bool, hasUdt: bool)
    requires p.Valid() && i < 3
    ensures ServerDone(p, i, hasTcp, hasUdt) ==
            ServerAt(p, i + 1, if i == 2 then 1 else 0).(
              todo := (if i == 2 then [Do(SetEstablished)] else []) + ServerTodo(p, i + 1))
    ensures i == 2 ==> Works(ServerPre(p, 3)) == [Do(SetEstablished)]
  {
  }

  lemma ServerReadsCtrl(p: Session, hasTcp: bool, hasUdt: bool)
    requires p.Valid()
    ensures ServerDone(p, 6, hasTcp, hasUdt) == ServerAt(p, 7, 0)
  {
    MsgRoundTrip(p.udtOnly, p.clientMax);
    assert ServerAt(p, 6, 0).todo[1..] == [Recv(Status, 1)];
  }

  lemma ServerShakes(p: Session, i: nat, hasTcp: bool, hasUdt: bool)
    requires p.Valid() && i in {3, 4, 5, 7}
    ensures ServerDone(p, i, hasTcp, hasUdt) == ServerAt(p, i + 1, 0)
  {
    if i == 4 {
      assert ServerActions(TWOWAY_HANDSHAKE, p.serverUdtOnly, hasTcp, hasUdt) + ServerPoll(TWOWAY_HANDSHAKE) ==
             ServerTodo(p, 5);
    }
  }

  lemma ServerAdvancesLate(p: Session, i: nat, hasTcp: bool, hasUdt: bool)
    requires p.Valid() && 8 <= i < Length(p)
    requires i == Length(p) - 2 ==> hasTcp == UsesTcp(p) && hasUdt == (p.mode == Memory)
    ensures var pre := ServerPre(p, i + 1);
      ServerDone(p, i, hasTcp, hasUdt) == ServerAt(p, i + 1, |pre|).(todo := Works(pre) + ServerTodo(p, i + 1))
  {
    if i % 2 == 0 {
      ServerHandles(p, i, hasTcp, hasUdt);
    } else {
      ServerEchoes(p, i, hasTcp, hasUdt);
    }
  }

  lemma ServerHandles(p: Session, i: nat, hasTcp: bool, hasUdt: bool)
    requires p.Valid() && 8 <= i < Length(p) && i % 2 == 0
    requires i == Length(p) - 2 ==> hasTcp == UsesTcp(p) && hasUdt == (p.mode == Memory)
    ensures var pre := ServerPre(p, i + 1);
      ServerDone(p, i, hasTcp, hasUdt) == ServerAt(p, i + 1, |pre|).(todo := Works(pre) + ServerTodo(p, i + 1))
  {
    ServerReacts(p, i, hasTcp, hasUdt);
    assert (i + 1 - 9) / 2 == (i - 8) / 2;
  }

  // After its echo the server is left with what it does before the next code arrives.
  lemma EchoLeaves(p: Session, i: nat)
    requires p.Valid() && 9 <= i < Length(p) && i % 2 == 1
    ensures ServerTodo(p, i)[1..] == Works(ServerPre(p, i + 1)) + ServerTodo(p, i + 1)
  {
    assert (i - 8) / 2 == (i - 9) / 2 && (i + 1 - 9) / 2 == (i - 9) / 2;
    assert Works([]) == [] && Works([StartUdt]) == [Do(StartUdt)];
  }

  lemma ServerEchoes(p: Session, i: nat, hasTcp: bool, hasUdt: bool)
    requires p.Valid() && 9 <= i < Length(p) && i % 2 == 1
    ensures var pre := ServerPre(p, i + 1);
      ServerDone(p, i, hasTcp, hasUdt) == ServerAt(p, i + 1, |pre|).(todo := Works(pre) + ServerTodo(p, i + 1))
  {
    EchoLeaves(p, i);
    assert (i + 1 - 9) / 2 == (i - 9) / 2;
  }

  // ---------- The plan ----------

  function StopAt(p: Session, side: bool, i: nat): Stop
    requires p.Valid() && i <= Length(p)
  {
    if side then Stop(ClientAt(p, i), ClientPre(p, i), ClientStatus(p, i))
    else Stop(ServerAt(p, i, 0), ServerPre(p, i), ServerStatus(p, i, |ServerPre(p, i)|))
  }

  function PlanOf(p: Session): (d: Plan)
    requires p.Valid()
    ensures d.Sized() && d.ms == Messages(p) && |d.ms| == Length(p)
    ensures forall side, i: nat :: i <= Length(p) ==> d.At(side, i) == StopAt(p, side, i)
    ensures d.hasTcp == UsesTcp(p) && d.hasUdt == (p.mode == Memory)
  {
    var n := Length(p) + 1;
    Plan(Messages(p), seq(n, i requires 0 <= i < n => StopAt(p, true, i)),
         seq(n, i requires 0 <= i < n => StopAt(p, false, i)), UsesTcp(p), p.mode == Memory)
  }

  // What is done before a message leaves the status alone, but for SetEstablished.
  lemma ClientArrives(p: Session, i: nat)
    requires p.Valid() && i < Length(p)
    ensures GiveUp !in ClientPre(p, i) && SetEstablished !in ClientPre(p, i)
  {
  }

  lemma ServerArrives(p: Session, i: nat)
    requires p.Valid() && i < Length(p)
    ensures GiveUp !in ServerPre(p, i)
    ensures if SetEstablished in ServerPre(p, i)
            then ServerPre(p, i) == [SetEstablished] && ServerStatus(p, i, 0) == CTRL_CHAN_EST
            else ServerStatus(p, i, |ServerPre(p, i)|) == ServerStatus(p, i, 0)
  {
  }

  // The state of each side leads to its next one.
  lemma Leads(p: Session, side: bool, i: nat, hasTcp: bool, hasUdt: bool)
    requires p.Valid() && i < Length(p)
    requires !side && i == Length(p) - 2 ==> hasTcp == UsesTcp(p) && hasUdt == (p.mode == Memory)
    ensures var s, next := StopAt(p, side, i).party, StopAt(p, side, i + 1);
      && s.todo != []
      && After(s, MessageAt(p, i), hasTcp, hasUdt) ==
         next.party.(todo := Works(next.pre) + next.party.todo, status := next.arriving)
  {
    if side {
      ClientFirst(p, i);
      ClientAdvances(p, i, hasTcp, hasUdt);
    } else {
      ServerFirst(p, i);
      ServerAdvances(p, i, hasTcp, hasUdt);
    }
  }

  lemma Begins(p: Session, side: bool, i: nat)
    requires p.Valid() && i < Length(p)
    ensures var m, s := MessageAt(p, i), StopAt(p, side, i).party;
      s.client == side && s.got == [] && s.todo != [] && s.todo[0] == Transfer(m, m.fromClient == side)
  {
    if side {
      ClientFirst(p, i);
    } else {
      ServerFirst(p, i);
    }
  }

  lemma Keeps(p: Session, d: Plan, side: bool, i: nat, hasTcp: bool, hasUdt: bool)
    requires p.Valid() && i < Length(p) && d.Sized() && |d.ms| == Length(p) && d.ms[i] == MessageAt(p, i)
    requires d.At(side, i) == StopAt(p, side, i) && d.At(side, i + 1) == StopAt(p, side, i + 1)
    requires d.hasTcp == UsesTcp(p) && d.hasUdt == (p.mode == Memory)
    ensures StopGood(d, side, i, hasTcp, hasUdt)
  {
    Begins(p, side, i);
    if side {
      ClientArrives(p, i);
    } else {
      ServerArrives(p, i);
    }
    if !side && i == |d.ms| - 2 ==> hasTcp == d.hasTcp && hasUdt == d.hasUdt {
      Leads(p, side, i, hasTcp, hasUdt);
    }
  }

  // The programs follow the plan of every session.
  lemma PlanGood(p: Session)
    requires p.Valid()
    ensures Good(PlanOf(p))
  {
    var d := PlanOf(p);
    forall side, i: nat, hasTcp, hasUdt | i < |d.ms|
      ensures StopGood(d, side, i, hasTcp, hasUdt)
    {
      Keeps(p, d, side, i, hasTcp, hasUdt);
    }
    Finishes(p, d, true);
    Finishes(p, d, false);
  }

  lemma Finishes(p: Session, d: Plan, side: bool)
    requires p.Valid() && d == PlanOf(p)
    ensures EndGood(d, side)
  {
  }
}

/** What goes over the channel in a whole session, byte by byte, and who each side then holds the other to be. */
module Transcripts {
  import opened Wire
  import opened Parties
  import opened Sessions
  import opened Channels
  import opened Plans
  import opened Choreography
  import opened SessionTheorems

  function CodeItems(codes: seq<Byte>): (r: seq<Item>)
    ensures |r| == |codes| && forall i :: 0 <= i < |codes| ==> r[i] == Item(Status, [codes[i]])
  {
    seq(|codes|, i requires 0 <= i < |codes| => Item(Status, [codes[i]]))
  }

  // The codes after the handshake, as they are numbered in src/probdata/probdata.h
  function Phases(p: Session): seq<Byte> {
    if p.mode != Memory then [7, 8, 9, 10]
    else if p.found && p.udtOnly > 0 then [4, 6, 10]
    else [4, 5, 6, 10]
  }

  // What one side sends, first to last
  function Greeting(p: Session, client: bool): seq<Item>
    requires p.Valid()
  {
    if client then
      [Item(Ident, p.id), Item(Status, [3]), Item(Ctrl, EncodeInt(p.udtOnly) + EncodeInt(p.clientMax))]
    else
      var least := if p.clientMax < p.serverMax then p.clientMax else p.serverMax;
      [Item(AddrLength, EncodeInt(|p.ip|)), Item(Addr, p.ip), Item(Status, [2]), Item(Status, [3]),
       Item(Ctrl, EncodeInt(p.udtOnly) + EncodeInt(least))]
  }

  lemma LogStep(ms: seq<Message>, f: bool, i: nat, next: nat, before: seq<Item>, m: Message)
    requires next == i + 1 <= |ms| && Log(ms, f, i) == before && ms[i] == m
    ensures Log(ms, f, next) == if m.fromClient == f then before + [Item(m.kind, m.body)] else before
  {
  }

  lemma PhasesAre(p: Session)
    requires p.Valid()
    ensures |Phases(p)| == |Codes(p)| && forall j :: 0 <= j < |Codes(p)| ==> Phases(p)[j] == StatusByte(Codes(p)[j])
  {
  }

  // The messages of the handshake
  lemma Openings(p: Session, ms: seq<Message>)
    requires p.Valid() && ms == Messages(p)
    ensures |ms| >= 8
    ensures ms[0] == Message(true, Ident, p.id) && ms[1] == Message(false, AddrLength, EncodeInt(|p.ip|))
    ensures ms[2] == Message(false, Addr, p.ip) && ms[3] == Message(false, Status, [2])
    ensures ms[4] == Message(true, Status, [3]) && ms[5] == Message(false, Status, [3])
    ensures ms[6] == Message(true, Ctrl, EncodeInt(p.udtOnly) + EncodeInt(p.clientMax))
    ensures ms[7] == Message(false, Ctrl, EncodeInt(p.udtOnly) +
                                          EncodeInt(if p.clientMax < p.serverMax then p.clientMax else p.serverMax))
  {
  }

  // Who sends the messages of the handshake
  predicate Alternates(ms: seq<Message>) {
    && |ms| >= 8 && ms[0].fromClient && !ms[1].fromClient && !ms[2].fromClient && !ms[3].fromClient
    && ms[4].fromClient && !ms[5].fromClient && ms[6].fromClient && !ms[7].fromClient
  }

  function ItemOf(m: Message): Item {
    Item(m.kind, m.body)
  }

  lemma ClientOpens(ms: seq<Message>, a: Item, b: Item, c: Item)
    requires Alternates(ms) && ItemOf(ms[0]) == a && ItemOf(ms[4]) == b && ItemOf(ms[6]) == c
    ensures Log(ms, true, 8) == [a, b, c]
  {
    LogStep(ms, true, 0, 1, [], ms[0]);
    LogStep(ms, true, 1, 2, [a], ms[1]);
    LogStep(ms, true, 2, 3, [a], ms[2]);
    LogStep(ms, true, 3, 4, [a], ms[3]);
    LogStep(ms, true, 4, 5, [a], ms[4]);
    LogStep(ms, true, 5, 6, [a, b], ms[5]);
    LogStep(ms, true, 6, 7, [a, b], ms[6]);
    LogStep(ms, true, 7, 8, [a, b, c], ms[7]);
  }

  lemma ServerGreets(ms: seq<Message>, a: Item, b: Item, c: Item)
    requires Alternates(ms) && ItemOf(ms[1]) == a && ItemOf(ms[2]) == b && ItemOf(ms[3]) == c
    ensures Log(ms, false, 4) == [a, b, c]
  {
    LogStep(ms, false, 0, 1, [], ms[0]);
    LogStep(ms, false, 1, 2, [], ms[1]);
    LogStep(ms, false, 2, 3, [a], ms[2]);
    LogStep(ms, false, 3, 4, [a, b], ms[3]);
  }

  lemma ServerOpens(ms: seq<Message>, before: seq<Item>, e: Item, f: Item)
    requires Alternates(ms) && Log(ms, false, 4) == before && ItemOf(ms[5]) == e && ItemOf(ms[7]) == f
    ensures Log(ms, false, 8) == before + [e] + [f]
  {
    LogStep(ms, false, 4, 5, before, ms[4]);
    LogStep(ms, false, 5, 6, before, ms[5]);
    LogStep(ms, false, 6, 7, before + [e], ms[6]);
    LogStep(ms, false, 7, 8, before + [e], ms[7]);
  }

  lemma Opens(p: Session, ms: seq<Message>, client: bool)
    requires p.Valid() && ms == Messages(p)
    ensures Log(ms, client, 8) == Greeting(p, client)
  {
    var g := Greeting(p, client);
    Openings(p, ms);
    if client {
      ClientOpens(ms, g[0], g[1], g[2]);
    } else {
      ServerGreets(ms, g[0], g[1], g[2]);
      ServerOpens(ms, [g[0], g[1], g[2]], g[3], g[4]);
    }
  }

  // The j-th code and its echo
  lemma Echoes(p: Session, ms: seq<Message>, j: nat, i: nat)
    requires p.Valid() && ms == Messages(p) && j < |Codes(p)| && i == 8 + 2 * j
    ensures i + 1 < |ms| && |Phases(p)| == |Codes(p)|
    ensures ms[i] == Message(true, Status, [Phases(p)[j]]) && ms[i + 1] == Message(false, Status, [Phases(p)[j]])
  {
    PhasesAre(p);
  }

  lemma OneMore(codes: seq<Byte>, j: nat)
    requires j < |codes|
    ensures CodeItems(codes[..j + 1]) == CodeItems(codes[..j]) + [Item(Status, [codes[j]])]
  {
  }

  lemma CodeLogged(ms: seq<Message>, client: bool, i: nat, mid: nat, next: nat, code: Byte, before: seq<Item>)
    requires mid == i + 1 && next == mid + 1 <= |ms| && Log(ms, client, i) == before
    requires ms[i] == Message(true, Status, [code]) && ms[mid] == Message(false, Status, [code])
    ensures Log(ms, client, next) == before + [Item(Status, [code])]
  {
    LogStep(ms, client, i, mid, before, ms[i]);
    LogStep(ms, client, mid, next, Log(ms, client, mid), ms[mid]);
  }

  lemma Regroup(a: seq<Item>, b: seq<Item>, c: seq<Item>)
    ensures a + b + c == a + (b + c)
  {
  }

  // A code and its echo; the codes from message 8 on
  predicate EchoAt(ms: seq<Message>, code: Byte, i: nat) {
    && i + 1 < |ms| && ms[i] == Message(true, Status, [code]) && ms[i + 1] == Message(false, Status, [code])
  }

  predicate Echoed(ms: seq<Message>, codes: seq<Byte>) {
    forall j :: 0 <= j < |codes| ==> EchoAt(ms, codes[j], 8 + 2 * j)
  }

  lemma {:induction false} CodesLogged(ms: seq<Message>, client: bool, k: nat, i: nat, codes: seq<Byte>, g: seq<Item>)
    requires |ms| >= 8 && Log(ms, client, 8) == g && Echoed(ms, codes) && k <= |codes| && i == 8 + 2 * k
    ensures i <= |ms| && Log(ms, client, i) == g + CodeItems(codes[..k])
    decreases k
  {
    if k == 0 {
      assert CodeItems(codes[..0]) == [];
    } else {
      var j, last := k - 1, i - 2;
      CodesLogged(ms, client, j, last, codes, g);
      assert EchoAt(ms, codes[j], 8 + 2 * j);
      CodeLogged(ms, client, last, last + 1, i, codes[j], Log(ms, client, last));
      OneMore(codes, j);
      Regroup(g, CodeItems(codes[..j]), [Item(Status, [codes[j]])]);
    }
  }

  // All that one side sends
  function Transcript(p: Session, client: bool): seq<Item>
    requires p.Valid()
  {
    Greeting(p, client) + CodeItems(Phases(p))
  }

  lemma EchoIs(p: Session, ms: seq<Message>, j: nat)
    requires p.Valid() && ms == Messages(p) && j < |Phases(p)|
    ensures EchoAt(ms, Phases(p)[j], 8 + 2 * j)
  {
    PhasesAre(p);
    Echoes(p, ms, j, 8 + 2 * j);
  }

  lemma PhasesEchoed(p: Session, ms: seq<Message>)
    requires p.Valid() && ms == Messages(p)
    ensures Echoed(ms, Phases(p))
  {
    forall j | 0 <= j < |Phases(p)|
      ensures EchoAt(ms, Phases(p)[j], 8 + 2 * j)
    {
      EchoIs(p, ms, j);
    }
  }

  lemma PhasesCounted(p: Session)
    requires p.Valid()
    ensures |Messages(p)| == 8 + 2 * |Phases(p)|
  {
    PhasesAre(p);
  }

  lemma AllLogged(p: Session, ms: seq<Message>, client: bool)
    requires p.Valid() && ms == Messages(p)
    ensures Log(ms, client, |ms|) == Transcript(p, client)
  {
    PhasesCounted(p);
    PhasesEchoed(p, ms);
    Opens(p, ms, client);
    var codes := Phases(p);
    CodesLogged(ms, client, |codes|, |ms|, codes, Greeting(p, client));
    assert codes[..|codes|] == codes;
  }

  // In every reachable state each side has sent, and received, a first part of these lists, and in a
  // finished session all of them.
  lemma SessionTranscript(p: Session, moves: seq<Move>, side: bool)
    requires Run(p, moves)
    ensures End(p, moves).Side(side).sent <= Transcript(p, side)
    ensures End(p, moves).Side(side).received <= Transcript(p, !side)
    ensures Finished(End(p, moves)) ==>
      End(p, moves).Side(side).sent == Transcript(p, side) && End(p, moves).Side(side).received == Transcript(p, !side)
  {
    var ms := Messages(p);
    var cq, sq := Stand(p, moves);
    var q := if side then cq else sq;
    LogGrows(ms, side, q.i, |ms|);
    LogGrows(ms, !side, q.i, |ms|);
    AllLogged(p, ms, side);
    AllLogged(p, ms, !side);
    PlanGood(p);
    Busy(PlanOf(p), side, q);
  }

  // ---------- Who the other is ----------

  lemma Known(p: Session, side: bool, q: Pos)
    requires p.Valid() && Fits(PlanOf(p), side, q)
    ensures var c := State(PlanOf(p), side, q);
      && c.received == Log(Messages(p), !side, q.i)
      && if side then c.id == p.id && (q.i >= 3 ==> c.localIp == p.ip) else q.i >= 1 ==> c.id == p.id
  {
  }

  // Once it has received it, the server holds the id that the client made, and the client the address that
  // the server saw it under.
  lemma Introduced(p: Session, moves: seq<Move>)
    requires Run(p, moves)
    ensures var w := End(p, moves);
      && w.client.id == p.id && |p.id| == 32
      && (w.server.received != [] ==> w.server.id == w.client.id)
      && (|w.client.received| >= 2 ==> w.client.localIp == p.ip)
  {
    var w := End(p, moves);
    var cq, sq := Stand(p, moves);
    Known(p, true, cq);
    Known(p, false, sq);
    if cq.i < 3 {
      Openings(p, Messages(p));
      Unheard(p, Messages(p), cq.i);
    }
  }

  lemma Unheard(p: Session, ms: seq<Message>, i: nat)
    requires p.Valid() && ms == Messages(p) && i < 3
    ensures |Log(ms, false, i)| < 2
  {
    Openings(p, ms);
    LogStep(ms, false, 0, 1, [], ms[0]);
    LogStep(ms, false, 1, 2, [], ms[1]);
  }

  // ---------- When the work is done ----------

  function Last(log: seq<Item>): Item {
    if log == [] then Item(Status, []) else log[|log| - 1]
  }

  // The codes that a side received last, and sent last, when it comes to a piece of work
  predicate Phase(side: bool, work: Work, received: int, sent: int) {
    match work
    case SearchMemory => side && received == sent == 4
    case RunTcp => side && received == sent == 5
    case RunUdt => side && received == sent == 6
    case SearchDisk => side && received == sent == 7
    case CopyTcp => side && received == sent == 8
    case CopyUdt => side && received == sent == 9
    case StartTcp => !side && received == 5 && sent == 4
    case CancelTcp => !side && received == 6 && sent == 5
    case JoinTcp => !side && ((received == 6 && sent == 5) || (received == 10 && sent == 6))
    case StartUdt => !side && received == sent == 6
    case JoinUdt => !side && received == 10 && sent == 6
    case XddTcp => !side && received == 8 && sent == 7
    case XddUdt => !side && received == 9 && sent == 8
    case _ => false
  }

  predicate Moment(p: Session, side: bool, work: Work, received: Item, sent: Item) {
    if work == SetEstablished then !side && received == Item(Ident, p.id) && sent == Item(Addr, p.ip)
    else
      && received.kind == sent.kind == Status && |received.bytes| == |sent.bytes| == 1
      && Phase(side, work, received.bytes[0], sent.bytes[0])
  }

  lemma LastTwo(ms: seq<Message>, f: bool, i: nat, j: nat, k: nat)
    requires j == i - 1 && k == j - 1 && i <= |ms| && ms[j].fromClient == f && ms[k].fromClient != f
    ensures Last(Log(ms, f, i)) == ItemOf(ms[j]) && Last(Log(ms, !f, i)) == ItemOf(ms[k])
  {
    LogStep(ms, f, j, i, Log(ms, f, j), ms[j]);
    LogStep(ms, !f, j, i, Log(ms, !f, j), ms[j]);
    LogStep(ms, !f, k, j, Log(ms, !f, k), ms[k]);
  }

  lemma LastOpening(ms: seq<Message>)
    requires Alternates(ms)
    ensures Last(Log(ms, true, 3)) == ItemOf(ms[0]) && Last(Log(ms, false, 3)) == ItemOf(ms[2])
  {
    LogStep(ms, true, 0, 1, [], ms[0]);
    LogStep(ms, true, 1, 2, [ItemOf(ms[0])], ms[1]);
    LogStep(ms, true, 2, 3, [ItemOf(ms[0])], ms[2]);
    LogStep(ms, false, 2, 3, Log(ms, false, 2), ms[2]);
  }

  lemma ClientCodes(p: Session, i: nat, work: Work)
    requires p.Valid() && i < Length(p) && work in ClientPre(p, i)
    ensures i >= 10 && i % 2 == 0 && Phase(true, work, CodeAt(p, i - 1), CodeAt(p, i - 2))
  {
  }

  lemma ServerCodes(p: Session, i: nat, work: Work)
    requires p.Valid() && i < Length(p) && work in ServerPre(p, i) && i != 3
    ensures i >= 10
    ensures if i % 2 == 0 then Phase(false, work, CodeAt(p, i - 2), CodeAt(p, i - 1))
            else Phase(false, work, CodeAt(p, i - 1), CodeAt(p, i - 2))
  {
  }

  lemma CodeMessage(p: Session, ms: seq<Message>, i: nat, code: int)
    requires p.Valid() && ms == Messages(p) && 8 <= i < Length(p) && code == CodeAt(p, i)
    ensures 0 <= code < 256 && ms[i] == Message(i % 2 == 0, Status, [code])
  {
  }

  lemma ClientMoment(p: Session, ms: seq<Message>, i: nat, work: Work)
    requires p.Valid() && ms == Messages(p) && i < Length(p) && work in ClientPre(p, i)
    ensures Moment(p, true, work, Last(Log(ms, false, i)), Last(Log(ms, true, i)))
  {
    ClientCodes(p, i, work);
    LastCodes(p, ms, false, i, i - 1, i - 2, CodeAt(p, i - 1), CodeAt(p, i - 2));
  }

  lemma LastCodes(p: Session, ms: seq<Message>, f: bool, i: nat, j: nat, k: nat, latter: int, former: int)
    requires p.Valid() && ms == Messages(p) && 10 <= i <= Length(p) && j == i - 1 && k == j - 1 && f == (j % 2 == 0)
    requires latter == CodeAt(p, j) && former == CodeAt(p, k)
    ensures 0 <= latter < 256 && 0 <= former < 256
    ensures Last(Log(ms, f, i)) == Item(Status, [latter]) && Last(Log(ms, !f, i)) == Item(Status, [former])
  {
    CodeMessage(p, ms, j, latter);
    CodeMessage(p, ms, k, former);
    LastItems(ms, f, i, j, k, latter, former);
  }

  lemma LastItems(ms: seq<Message>, f: bool, i: nat, j: nat, k: nat, latter: Byte, former: Byte)
    requires j == i - 1 && k == j - 1 && i <= |ms|
    requires ms[j] == Message(f, Status, [latter]) && ms[k] == Message(!f, Status, [former])
    ensures Last(Log(ms, f, i)) == Item(Status, [latter]) && Last(Log(ms, !f, i)) == Item(Status, [former])
  {
    LastTwo(ms, f, i, j, k);
  }

  lemma ServerMoment(p: Session, ms: seq<Message>, i: nat, work: Work)
    requires p.Valid() && ms == Messages(p) && i < Length(p) && work in ServerPre(p, i)
    ensures Moment(p, false, work, Last(Log(ms, true, i)), Last(Log(ms, false, i)))
  {
    if i == 3 {
      Openings(p, ms);
      LastOpening(ms);
    } else {
      ServerCodes(p, i, work);
      LastCodes(p, ms, i % 2 == 1, i, i - 1, i - 2, CodeAt(p, i - 1), CodeAt(p, i - 2));
    }
  }

  // Whenever a side is about to do a piece of work, in whatever run, it is between these two messages.
  lemma WorkMoment(p: Session, moves: seq<Move>, side: bool, work: Work)
    requires Run(p, moves)
    requires var c := End(p, moves).Side(side); c.todo != [] && c.todo[0] == Do(work)
    ensures var c := End(p, moves).Side(side); Moment(p, side, work, Last(c.received), Last(c.sent))
  {
    var cq, sq := Stand(p, moves);
    if side {
      ClientWorksAt(p, cq, work);
      ClientMoment(p, Messages(p), cq.i, work);
    } else {
      ServerWorksAt(p, sq, work);
      ServerMoment(p, Messages(p), sq.i, work);
    }
  }

  // ---------- The status ----------

  // How much each side has received before message i of the handshake
  lemma OpeningHeard(ms: seq<Message>, i: nat)
    requires Alternates(ms) && i <= 8
    ensures |Log(ms, false, i)| == [0, 0, 1, 2, 3, 3, 4, 4, 5][i]
    ensures |Log(ms, true, i)| == [0, 1, 1, 1, 1, 2, 2, 3, 3][i]
    decreases i
  {
    if i > 0 {
      OpeningHeard(ms, i - 1);
      LogStep(ms, false, i - 1, i, Log(ms, false, i - 1), ms[i - 1]);
      LogStep(ms, true, i - 1, i, Log(ms, true, i - 1), ms[i - 1]);
    }
  }

  // The status that a side has by what it has received, and by whether the server has answered the connection
  predicate StatusBy(client: bool, received: seq<Item>, greeted: bool, status: int) {
    if client then
      if |received| < 2 then status == 0 else if |received| == 2 then status == 1
      else if |received| == 5 then status == 3 else Last(received).bytes == [status]
    else
      if |received| < 2 then status == (if greeted then 2 else 1)
      else if |received| == 3 then status == 3 else Last(received).bytes == [status]
  }

  lemma LastHeard(ms: seq<Message>, f: bool, i: nat, j: nat)
    requires j < i <= j + 2 && i <= |ms| && ms[j].fromClient == f && (i == j + 2 ==> ms[j + 1].fromClient != f)
    ensures Last(Log(ms, f, i)) == ItemOf(ms[j])
  {
    LogStep(ms, f, j, j + 1, Log(ms, f, j), ms[j]);
    if i == j + 2 {
      LogStep(ms, f, j + 1, i, Log(ms, f, j + 1), ms[j + 1]);
    }
  }

  lemma ClientOpened(p: Session, ms: seq<Message>, i: nat)
    requires p.Valid() && ms == Messages(p) && i < 10
    ensures StatusBy(true, Log(ms, false, i), false, ClientStatus(p, i))
  {
    Openings(p, ms);
    OpeningHeard(ms, if i < 8 then i else 8);
    if i == 9 {
      LogStep(ms, false, 8, 9, Log(ms, false, 8), ms[8]);
    } else if 4 <= i < 8 {
      LastHeard(ms, false, i, if i < 6 then 3 else 5);
    }
  }

  lemma ClientByHeard(p: Session, ms: seq<Message>, i: nat)
    requires p.Valid() && ms == Messages(p) && i <= Length(p)
    ensures StatusBy(true, Log(ms, false, i), false, ClientStatus(p, i))
  {
    if i < 10 {
      ClientOpened(p, ms, i);
    } else {
      Openings(p, ms);
      MoreHeard(ms, i);
      ClientCode(p, ms, i, if i % 2 == 0 then i - 1 else i - 2);
    }
  }

  lemma ClientCode(p: Session, ms: seq<Message>, i: nat, j: nat)
    requires p.Valid() && ms == Messages(p) && 10 <= i <= Length(p) && j == if i % 2 == 0 then i - 1 else i - 2
    ensures Last(Log(ms, false, i)).bytes == [ClientStatus(p, i)]
  {
    assert ClientStatus(p, i) == CodeAt(p, j);
    HeardCode(p, ms, false, i, j, CodeAt(p, j));
  }

  lemma HeardCode(p: Session, ms: seq<Message>, f: bool, i: nat, j: nat, code: int)
    requires p.Valid() && ms == Messages(p) && 8 <= j < i <= j + 2 && i <= Length(p) && f == (j % 2 == 0)
    requires code == CodeAt(p, j)
    ensures 0 <= code < 256 && Last(Log(ms, f, i)) == Item(Status, [code])
  {
    CodeMessage(p, ms, j, code);
    if i == j + 2 {
      CodeMessage(p, ms, j + 1, CodeAt(p, j + 1));
    }
    LastHeard(ms, f, i, j);
  }

  lemma MoreHeard(ms: seq<Message>, i: nat)
    requires Alternates(ms) && 9 <= i <= |ms| && ms[8].fromClient && (i > 9 ==> !ms[9].fromClient)
    ensures |Log(ms, true, i)| > 3 && (i > 9 ==> |Log(ms, false, i)| > 5)
  {
    OpeningHeard(ms, 8);
    LogStep(ms, true, 8, 9, Log(ms, true, 8), ms[8]);
    LogStep(ms, false, 8, 9, Log(ms, false, 8), ms[8]);
    LogGrows(ms, true, 9, i);
    if i > 9 {
      LogStep(ms, false, 9, 10, Log(ms, false, 9), ms[9]);
      LogGrows(ms, false, 10, i);
    }
  }

  lemma ServerByHeard(p: Session, ms: seq<Message>, i: nat, left: nat)
    requires p.Valid() && ms == Messages(p) && i <= Length(p)
    ensures StatusBy(false, Log(ms, true, i), i > 3 || (i == 3 && left == 0), ServerStatus(p, i, left))
  {
    Openings(p, ms);
    if i < 9 {
      OpeningHeard(ms, i);
      if i == 5 || i == 6 {
        LastHeard(ms, true, i, 4);
      }
    } else {
      MoreHeard(ms, i);
      ServerCode(p, ms, i, left, if i % 2 == 1 then i - 1 else i - 2);
    }
  }

  lemma ServerCode(p: Session, ms: seq<Message>, i: nat, left: nat, j: nat)
    requires p.Valid() && ms == Messages(p) && 9 <= i <= Length(p) && j == if i % 2 == 1 then i - 1 else i - 2
    ensures Last(Log(ms, true, i)).bytes == [ServerStatus(p, i, left)]
  {
    assert ServerStatus(p, i, left) == CodeAt(p, j);
    HeardCode(p, ms, true, i, j, CodeAt(p, j));
  }

  lemma FirstDone(d: Plan, q: Pos)
    requires Fits(d, false, q) && |d.ms| > 3 && d.At(false, 3).pre == [SetEstablished]
    requires forall k: nat :: k < 3 ==> d.At(false, k).pre == []
    ensures DidAt(d, false, q) != [] <==> q.i > 3 || (q.i == 3 && q.left == 0)
  {
    DidNothing(d, false, 0, if q.i < 3 then q.i else 3);
    if q.i > 3 {
      DidNext(d, false, 3, 4, 4, [], [SetEstablished]);
      DidGrows(d, false, 4, q.i);
    }
  }

  lemma Greeted(p: Session, d: Plan, q: Pos)
    requires p.Valid() && d == PlanOf(p) && Fits(d, false, q)
    ensures DidAt(d, false, q) != [] <==> q.i > 3 || (q.i == 3 && q.left == 0)
  {
    ServerPieces(p);
    PresOf(p, d, false);
    FirstDone(d, q);
  }

  // Each side's status is the last code that it received; 1 and then 2 stand for a connection, and the client has
  // none before it knows its address.
  lemma StatusHeard(p: Session, moves: seq<Move>, side: bool)
    requires Run(p, moves)
    ensures var c := End(p, moves).Side(side); StatusBy(side, c.received, c.did != [], c.status)
  {
    var d := PlanOf(p);
    var cq, sq := Stand(p, moves);
    StatusHeld(p, side, if side then cq else sq);
    if side {
      ClientByHeard(p, d.ms, cq.i);
    } else {
      ServerByHeard(p, d.ms, sq.i, sq.left);
      Greeted(p, d, sq);
    }
  }

  // The UDT worker begins to serve a run only between the codes 6 and 10 of the client.
  lemma ServesInPhase(p: Session, moves: seq<Move>)
    requires Run(p, moves) && Enabled(End(p, moves), UdtEnters)
    ensures Last(End(p, moves).server.received) == Item(Status, [6])
  {
    var cq, sq := Stand(p, moves);
    StatusHeld(p, false, sq);
    CodeHeld(p, Messages(p), sq.i, sq.left, if sq.i % 2 == 1 then sq.i - 1 else sq.i - 2);
  }

  lemma CodeHeld(p: Session, ms: seq<Message>, i: nat, left: nat, j: int)
    requires p.Valid() && ms == Messages(p) && i <= Length(p) && j == if i % 2 == 1 then i - 1 else i - 2
    requires ServerStatus(p, i, left) == 6
    ensures Last(Log(ms, true, i)) == Item(Status, [6])
  {
    assert i >= 9 && CodeAt(p, j) == 6;
    HeardCode(p, ms, true, i, j, 6);
  }
}

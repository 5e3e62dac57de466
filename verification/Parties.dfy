/** The client and the server as programs on the control channel: what each does about a
    status code (src/probdata/probdata_client.cpp:192-469 and src/probdata/probdata_server.cpp:186-379),
    and how received bytes enter its fields.
 */
module Parties {
  import opened Numbers
  import opened Wire

  // Status codes (src/probdata/probdata.h:21-33)
  const PROGRAM_START := 1
  const CTRL_CHAN_EST := 2
  const TWOWAY_HANDSHAKE := 3
  const RUN_M2M_DB := 4
  const RUN_M2M_TCP := 5
  const RUN_M2M_UDT := 6
  const RUN_D2D_DB := 7
  const RUN_D2D_TCP := 8
  const RUN_D2D_UDT := 9
  const PROGRAM_DONE := 10
  const SERVER_ERROR := -20
  const CLIENT_TERMINATE := -21
  const ACCESS_DENIED := -22

  const ID_SIZE := 32

  // What a stretch of bytes is for the program that sends it, or for the one that reads it
  datatype Kind = Ident | AddrLength | Addr | Status | Ctrl

  // Steps that are not transfers
  datatype Work =
    | SetEstablished
    | StartTcp | CancelTcp | JoinTcp | StartUdt | JoinUdt | XddTcp | XddUdt                    // the server
    | SearchMemory | SearchDisk | RunTcp | RunUdt | CopyTcp | CopyUdt | GiveUp                 // the client

  // A send with `at` bytes written, a receive, or some work; a program is a list of these.
  datatype Action = Send(kind: Kind, buf: seq<Byte>, at: nat) | Recv(kind: Kind, need: nat) | Do(work: Work)

  function Code(code: int): Action
    requires -128 <= code < 128
  {
    Send(Status, [StatusByte(code)], 0)
  }

  // Memory-to-memory, disk-to-disk (-S), or only a destination file (-V), which the command line refuses
  datatype Mode = Memory | Disk | DstOnly

  // A completed transfer
  datatype Item = Item(kind: Kind, bytes: seq<Byte>)

  // struct probdata of either side, with what it is about to do and what it has got of the current
  // receive.  `found` is whether the history search of the memory mode succeeds; the last three are history.
  datatype Party = Party(
    client: bool, status: int, failed: bool, todo: seq<Action>, got: seq<Byte>, mode: Mode, found: bool,
    udtOnly: Int32, hostMaxBuf: Int32, ctrlMaxBuf: Int32, id: seq<Byte>, localIp: seq<Byte>,
    sent: seq<Item>, received: seq<Item>, did: seq<Work>)

  // ---------- The client ----------

  // The switch of probdata_client_proc_ctrl_packet
  function ClientActions(status: int, mode: Mode, found: bool, udtOnly: Int32, ctrlMaxBuf: Int32): seq<Action> {
    if status == CTRL_CHAN_EST then [Code(TWOWAY_HANDSHAKE)]
    else if status == TWOWAY_HANDSHAKE then
      [Send(Ctrl, EncodeMsg(udtOnly, ctrlMaxBuf), 0), Recv(Ctrl, 8)] +
      match mode
      case Memory => [Code(RUN_M2M_DB)]
      case Disk => [Code(RUN_D2D_DB)]
      case DstOnly => [Code(CLIENT_TERMINATE), Do(GiveUp)]
    else if status == RUN_D2D_DB then [Do(SearchDisk), Code(RUN_D2D_TCP)]   // that search always fails
    else if status == RUN_D2D_TCP then [Do(CopyTcp), Code(RUN_D2D_UDT)]
    else if status == RUN_D2D_UDT then [Do(CopyUdt), Code(PROGRAM_DONE)]
    else if status == RUN_M2M_DB then
      [Do(SearchMemory), Code(if found && udtOnly > 0 then RUN_M2M_UDT else RUN_M2M_TCP)]
    else if status == RUN_M2M_TCP then [Do(RunTcp), Code(RUN_M2M_UDT)]
    else if status == RUN_M2M_UDT then [Do(RunUdt), Code(PROGRAM_DONE)]
    else if status == PROGRAM_DONE || status == SERVER_ERROR || status == ACCESS_DENIED then []
    else [Do(GiveUp)]
  }

  // The loop polls again unless the program is done.
  function ClientPoll(status: int): seq<Action> {
    if status == PROGRAM_DONE then [] else [Recv(Status, 1)]
  }

  // ---------- The server ----------

  // The switch of probdata_server_proc_ctrl_packet; the worker pointers say which workers were created.
  function ServerActions(status: int, udtOnly: Int32, hasTcp: bool, hasUdt: bool): seq<Action> {
    if status == TWOWAY_HANDSHAKE then [Code(TWOWAY_HANDSHAKE), Recv(Ctrl, 8)]
    else if status == RUN_D2D_DB then [Code(RUN_D2D_DB)]
    else if status == RUN_D2D_TCP then [Do(XddTcp), Code(RUN_D2D_TCP)]
    else if status == RUN_D2D_UDT then [Do(XddUdt), Code(RUN_D2D_UDT)]
    else if status == RUN_M2M_DB then [Code(RUN_M2M_DB)]
    else if status == RUN_M2M_TCP then [Do(StartTcp), Code(RUN_M2M_TCP)]
    else if status == RUN_M2M_UDT then
      (if udtOnly > 0 then [] else [Do(CancelTcp), Do(JoinTcp)]) + [Code(RUN_M2M_UDT), Do(StartUdt)]
    else if status == PROGRAM_DONE then
      (if hasUdt then [Do(JoinUdt)] else []) + (if hasTcp then [Do(JoinTcp)] else []) + [Code(PROGRAM_DONE)]
    else []
  }

  function ServerPoll(status: int): seq<Action> {
    if status == PROGRAM_DONE || status == SERVER_ERROR || status == CLIENT_TERMINATE then [] else [Recv(Status, 1)]
  }

  // ---------- Both ----------

  // What a side does about its status code, and whether it polls again
  function Reaction(c: Party, hasTcp: bool, hasUdt: bool): seq<Action> {
    if c.client then ClientActions(c.status, c.mode, c.found, c.udtOnly, c.ctrlMaxBuf) + ClientPoll(c.status)
    else ServerActions(c.status, c.udtOnly, hasTcp, hasUdt) + ServerPoll(c.status)
  }

  // A completed receive, the rest of the program being c.todo
  function Received(c: Party, kind: Kind, bytes: seq<Byte>, hasTcp: bool, hasUdt: bool): Party {
    match kind
    case Ident => c.(id := bytes)
    case AddrLength =>
      if |bytes| != 4 then c else
      var n := DecodeInt(bytes);
      c.(todo := [Recv(Addr, if n < 0 then 0 else n)] + c.todo)
    case Addr => c.(localIp := bytes, status := PROGRAM_START, todo := ClientPoll(PROGRAM_START))
    case Status =>
      if |bytes| != 1 then c else
      var next := c.(status := SignedChar(bytes[0]));
      next.(todo := Reaction(next, hasTcp, hasUdt))
    case Ctrl =>
      if |bytes| != 8 then c else
      var agreed := Lesser(DecodeInt(bytes[4..]), c.hostMaxBuf);
      if c.client then c.(hostMaxBuf := agreed, ctrlMaxBuf := agreed)
      else
        var udtOnly := DecodeInt(bytes[..4]);
        c.(udtOnly := udtOnly, hostMaxBuf := agreed, ctrlMaxBuf := agreed,
           todo := [Send(Ctrl, EncodeMsg(udtOnly, agreed), 0)] + c.todo)
  }

  // n more bytes of a send written, some bytes of a receive taken, a piece of work done
  function Wrote(c: Party, n: nat): Party
    requires c.todo != [] && c.todo[0].Send? && c.todo[0].at + n <= |c.todo[0].buf|
  {
    var a := c.todo[0];
    if a.at + n < |a.buf| then c.(todo := [a.(at := a.at + n)] + c.todo[1..])
    else c.(todo := c.todo[1..], sent := c.sent + [Item(a.kind, a.buf)])
  }

  function Took(c: Party, bytes: seq<Byte>, hasTcp: bool, hasUdt: bool): Party
    requires c.todo != [] && c.todo[0].Recv?
  {
    var a, got := c.todo[0], c.got + bytes;
    if |got| < a.need then c.(got := got)
    else
      var rest := c.(todo := c.todo[1..], got := [], received := c.received + [Item(a.kind, got)]);
      Received(rest, a.kind, got, hasTcp, hasUdt)
  }

  function Worked(c: Party): Party
    requires c.todo != [] && c.todo[0].Do?
  {
    var work := c.todo[0].work;
    c.(todo := if work == GiveUp then [] else c.todo[1..], failed := c.failed || work == GiveUp,
       status := if work == SetEstablished then CTRL_CHAN_EST else c.status, did := c.did + [work])
  }

  // The codes that no error-free session brings: the client gives up on those that it does not know, and when it
  // has only a destination file; the server polls on, except after P_SERVER_ERROR and P_CLIENT_TERMINATE.
  lemma OddCode(c: Party, b: Byte, hasTcp: bool, hasUdt: bool)
    requires c.todo == [Recv(Status, 1)] && c.got == []
    ensures var d := Took(c, [b], hasTcp, hasUdt);
      if c.client then
        && (b == 234 || b == 236 ==> d.todo == [Recv(Status, 1)])
        && (b < 2 || 10 < b < 234 || b == 235 || b > 236 ==>
              d.todo == [Do(GiveUp), Recv(Status, 1)] && Worked(d).failed && Worked(d).todo == [])
        && (b == 3 && c.mode.DstOnly? ==>
              d.todo == [Send(Ctrl, EncodeMsg(c.udtOnly, c.ctrlMaxBuf), 0), Recv(Ctrl, 8),
                         Send(Status, [235], 0), Do(GiveUp), Recv(Status, 1)])
      else
        && (b == 235 || b == 236 ==> d.todo == [])
        && (b < 3 || 10 < b < 235 || b > 236 ==> d.todo == [Recv(Status, 1)])
  {
    assert [] + [b] == [b];
  }
}

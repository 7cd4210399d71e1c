/** The server's objects (src/coreinstance.h, src/session.h) and the fields that their methods update in
    place. Each object is compared with its value in the state machine: Rep says that it stands for that
    value, and each method takes an object that stands for a value to one that stands for the next value. */
module Objects {
  import opened Framing
  import opened Auth
  import opened Writers
  import opened HttpRequest
  import opened HttpResponse
  import opened Model
  import opened Machine

  lemma {:induction false} FlatConcat<T>(a: seq<seq<T>>, b: seq<seq<T>>)
    ensures Flat(a + b) == Flat(a) + Flat(b)
  {
    if b == [] {
      assert a + b == a;
      assert Flat(a) + [] == Flat(a);
    } else {
      var n := |b| - 1;
      FlatConcat(a, b[..n]);
      assert (a + b)[..|a + b|-1] == a + b[..n];
    }
  }

  lemma {:induction false} LastOfFinds(queue: seq<Entry>, id: nat)
    ensures LastOf(queue, id).Some? <==> InQueue(queue, id)
  {
    if queue != [] {
      var n := |queue| - 1;
      LastOfFinds(queue[..n], id);
      if InQueue(queue, id) && queue[n].clientID != id {
        var i :| 0 <= i < |queue| && queue[i].clientID == id;
        assert queue[..n][i].clientID == id;
      }
      if InQueue(queue[..n], id) {
        var i :| 0 <= i < n && queue[..n][i].clientID == id;
        assert queue[i].clientID == id;
      }
    }
  }

  lemma OneMoreOut(codes: string -> Code, kind: Kind, outs: seq<Out>, o: Out)
    ensures Bytes(codes, kind, outs + [o]) == Bytes(codes, kind, outs) + Chunk(codes, kind, outs, o)
    ensures CountStatus(outs + [o]) == CountStatus(outs) + if o.Status? then 1 else 0
    ensures Finished(outs + [o]) == (Finished(outs) || Ends(CountStatus(outs) == 0, o))
  {
    assert (outs + [o])[..|outs|] == outs;
  }

  lemma LaterStatus(codes: string -> Code, line: Line, from: nat)
    ensures HttpChunk(codes, false, Status(line, from)) == line
  {
  }

  /** What a line from a core makes of the session it is routed to. */
  function Heard(k: Core, line: Line, c: nat, x: Session): Session {
    if !k.Busy() then x else Written(x, if k.expectingReply then Status(line, c) else Data(line, c))
  }

  // ---------------------------------------------------------------- commands

  /** A command while it is being transferred from its client. */
  class CommandQEntry {
    var command: Line
    var dataset: seq<Line>
    const clientID: nat
    var acceptsData: bool
    var dataFinished: bool

    constructor (clientID: nat, command: Line)
      ensures Value() == NewEntry(clientID, command)
    {
      this.clientID, this.command, dataset := clientID, command, [];
      acceptsData, dataFinished := Opens(command), !Opens(command);
    }

    function Value(): Entry
      reads this
    {
      Entry(command, dataset, clientID, acceptsData, dataFinished)
    }

    predicate Flushable()
      reads this
    {
      !acceptsData || dataFinished
    }

    method AppendToDataset(line: Line)
      modifies this
      ensures Value() == old(Value()).Append(line)
    {
      if !acceptsData || dataFinished {
        return;
      }
      dataset := dataset + [line];
      dataFinished := SplitString(line, BLANKS) == [];
    }
  }

  // ---------------------------------------------------------------- cores

  class CoreInstance {
    const instanceID: nat
    const name: string
    const writer: NonblockWriter
    var commandQ: seq<Entry>
    var lastClientID: nat
    var expectingReply: bool
    var expectingDataset: bool
    var processRunning: bool
    var linebuf: string

    /** This core stands for k; what it wrote to the process is k's stream, byte for byte. */
    ghost predicate Rep(k: Core)
      reads this, writer
    {
      && k.name == name && k.life == (if processRunning then Running else Stopped)
      && k.commandQ == commandQ && k.lastClientID == lastClientID
      && k.expectingReply == expectingReply && k.expectingDataset == expectingDataset && k.linebuf == linebuf
      && writer.Valid() && writer.written == Flat(k.stream)
    }

    /** A core whose process was started. */
    constructor (instanceID: nat, name: string)
      ensures this.instanceID == instanceID && Rep(FreshCore(name))
      ensures fresh(writer) && writer.owner == -1 - instanceID
    {
      this.instanceID, this.name := instanceID, name;
      writer := new NonblockWriter(-1 - instanceID);
      commandQ, lastClientID, linebuf := [], 0, "";
      expectingReply, expectingDataset, processRunning := false, false, true;
    }

    /** The last queued command of a client. */
    method FindLastClientCommand(clientID: nat) returns (found: Option<nat>)
      ensures found == LastOf(commandQ, clientID)
    {
      var i := |commandQ|;
      assert commandQ[..i] == commandQ;
      while i > 0
        invariant 0 <= i <= |commandQ|
        invariant LastOf(commandQ, clientID) == LastOf(commandQ[..i], clientID)
      {
        i := i - 1;
        assert commandQ[..i+1][..i] == commandQ[..i];
        if commandQ[i].clientID == clientID {
          return Some(i);
        }
      }
      return None;
    }

    method HasDataForClient(clientID: nat, ghost k: Core) returns (has: bool)
      requires Rep(k)
      ensures has == k.HasData(clientID)
    {
      LastOfFinds(commandQ, clientID);
      var last := FindLastClientCommand(clientID);
      has := (lastClientID == clientID && (expectingReply || expectingDataset)) || last.Some?;
    }

    /** Writes out commands from the queue while the core is idle. */
    method FlushCommandQ(ghost k: Core)
      requires Rep(k)
      modifies this, writer
      ensures Rep(FlushCore(k))
    {
      hide Flat;
      ghost var written := false;
      while commandQ != [] && !expectingReply && !expectingDataset && commandQ[0].Flushable()
        invariant Rep(if written then FlushCore(k) else k)
        invariant written ==> expectingReply
        decreases if expectingReply then 0 else 1
      {
        var c := commandQ[0];
        WriteCommand(c);
        FlatConcat(k.stream, c.Block());
        lastClientID := c.clientID;
        expectingReply := true;
        expectingDataset := false;
        commandQ := commandQ[1..];
        written := true;
      }
    }

    /** The command line, then the lines of its data set. */
    method WriteCommand(c: Entry)
      requires writer.Valid()
      modifies writer
      ensures writer.Valid() && writer.written == old(writer.written) + Flat(c.Block())
    {
      ghost var was := writer.written;
      writer.Write(c.command);
      FlatAppend([], c.command);
      assert [] + [c.command] == [c.command];
      for i := 0 to |c.dataset|
        invariant writer.Valid() && writer.written == was + Flat([c.command] + c.dataset[..i])
      {
        FlatAppend([c.command] + c.dataset[..i], c.dataset[i]);
        assert [c.command] + c.dataset[..i+1] == [c.command] + c.dataset[..i] + [c.dataset[i]];
        writer.Write(c.dataset[i]);
      }
      assert c.dataset[..|c.dataset|] == c.dataset;
    }

    method QueueCommand(ce: Entry, ghost a: Accepted, ghost k: Core)
      requires Rep(k)
      modifies this
      ensures Rep(k.(commandQ := k.commandQ + [ce], accepted := k.accepted + [a]))
    {
      commandQ := commandQ + [ce];
    }

    /** A line of text from the process is routed to the client of the last command, if there still is one. */
    method LineFromCore(line: Line, sc: SessionContext?, ghost k: Core, ghost x: Session)
      requires Rep(k)
      requires sc != null ==> sc.Rep(x) && sc.writer != writer
      modifies this, sc, if sc == null then {} else {sc.writer}
      ensures Rep(CoreHears(k, line))
      ensures sc != null ==> sc.curCommand == old(sc.curCommand)
      ensures sc != null ==> sc.Rep(Heard(k, line, instanceID, x))
    {
      hide Flat, Written, SessionContext.RepInput, SessionContext.RepOutput, Opens;
      if expectingReply {
        expectingReply := false;
        if Opens(line) {
          expectingDataset := true;
        }
        if sc != null {
          sc.ForwardStatusline(line, instanceID, x);
        }
      } else if expectingDataset {
        if SplitString(line, BLANKS) == [] {
          expectingDataset := false;
        }
        if sc != null {
          sc.ForwardDataset(line, instanceID, x);
        }
      }
    }

    /** Part of removeSession: an unfinished data set of the client would be ended. */
    method EndDatasetOf(clientID: nat, ghost k: Core)
      requires Rep(k)
      modifies this
      ensures Rep(EndDataset(k, clientID))
    {
      LastOfInRange(commandQ, clientID);
      var cqe := FindLastClientCommand(clientID);
      if cqe.Some? && commandQ[cqe.value].acceptsData && !commandQ[cqe.value].dataFinished {
        commandQ := commandQ[cqe.value := commandQ[cqe.value].Append("\n\n")];
      }
    }
  }

  // ---------------------------------------------------------------- sessions

  /** A client connection; the fields from request on are those of HTTPSessionContext. */
  class SessionContext {
    const clientID: nat
    const connectionType: Kind
    const codes: string -> Code
    const writer: NonblockWriter
    var accessLevel: Level
    var coreID: nat
    var linebuf: string
    var lineQueue: seq<Line>
    var curCommand: CommandQEntry?
    var shutDown: bool
    var request: seq<Line>
    var commandsExecuted: nat
    var conversationFinished: bool

    /** This session stands for x; what it wrote is the bytes of x's output calls. */
    ghost predicate Rep(x: Session)
      reads this, writer, curCommand
    {
      && RepInput(x) && RepOutput(x)
    }

    ghost predicate RepInput(x: Session)
      reads this, curCommand
    {
      && x.kind == connectionType && x.level == accessLevel && x.coreID == coreID && x.linebuf == linebuf
      && x.lineQueue == lineQueue && x.request == request
      && (if curCommand == null then x.curCommand == None
          else x.curCommand == Some(curCommand.Value()) && curCommand.clientID == clientID)
    }

    ghost predicate RepOutput(x: Session)
      reads this, writer
    {
      && x.kind == connectionType && x.closing == shutDown
      && writer.Valid() && writer.written == Bytes(codes, connectionType, x.out)
      && (connectionType.Http? ==> commandsExecuted == CountStatus(x.out) && conversationFinished == Finished(x.out))
    }

    /** Histories other than the output do not show in the object. */
    lemma RepIgnoresHistory(x: Session, y: Session)
      requires Rep(x)
      requires x == y.(issued := x.issued, received := x.received, requests := x.requests, jumped := x.jumped,
                      warned := x.warned)
      ensures Rep(y)
    {
    }

    constructor (clientID: nat, kind: Kind, codes: string -> Code)
      ensures this.clientID == clientID && this.codes == codes && connectionType == kind
      ensures Rep(FreshSession(kind))
      ensures curCommand == null && fresh(writer) && writer.owner == clientID
    {
      this.clientID, connectionType, this.codes := clientID, kind, codes;
      writer := new NonblockWriter(clientID);
      accessLevel, coreID, linebuf, lineQueue, curCommand := Read, 0, "", [], null;
      shutDown, request, commandsExecuted, conversationFinished := false, [], 0, false;
    }

    method ForwardStatusline(line: Line, from: nat, ghost x: Session)
      requires Rep(x)
      modifies this, writer
      ensures curCommand == old(curCommand) && Rep(Written(x, Status(line, from)))
    {
      hide Bytes, Finished, CountStatus, HttpChunk;
      OneMoreOut(codes, connectionType, x.out, Status(line, from));
      if connectionType.Tcp? {
        writer.Write(line);
        return;
      }
      ghost var was := writer.written;
      commandsExecuted := commandsExecuted + 1;
      if commandsExecuted > 1 {
        assert HttpChunk(codes, false, Status(line, from)) == line by { LaterStatus(codes, line, from); }
        writer.Write(line);
        return;
      }
      FirstStatusline(line, from);
    }

    /** The first status line to an HTTP client makes the response header. */
    method FirstStatusline(line: Line, from: nat)
      requires writer.Valid()
      modifies writer, `shutDown, `conversationFinished
      ensures writer.Valid()
      ensures writer.written == old(writer.written) + HttpChunk(codes, true, Status(line, from))
      ensures shutDown == (old(shutDown) || Blank(line))
      ensures conversationFinished == (old(conversationFinished) || (!Blank(line) && !Opens(line)))
    {
      hide Header, EnsureNewline, Opens;
      var replyWords := SplitString(line, BLANKS);
      if replyWords == [] {
        HttpWriteErrorResponse("500 Internal Server Error", NO_STATUS, "");
        shutDown := true;
      } else {
        var headerStatusLine := "X-GraphProcessor: " + line;
        var code := codes(replyWords[0]);
        ghost var was := writer.written;
        if code.error {
          HttpWriteErrorResponse(code.title, line, headerStatusLine);
        } else {
          HttpWriteResponseHeader(code.title, headerStatusLine);
          writer.Write(line);
          assert writer.written == was + (Header(code.title, headerStatusLine) + line);
        }
        if !Opens(line) {
          conversationFinished := true;
        }
      }
    }

    method ForwardDataset(line: Line, from: nat, ghost x: Session)
      requires Rep(x)
      modifies this, writer
      ensures curCommand == old(curCommand) && Rep(Written(x, Data(line, from)))
    {
      hide Bytes, Finished, CountStatus;
      OneMoreOut(codes, connectionType, x.out, Data(line, from));
      writer.Write(line);
      if connectionType.Http? && SplitString(line, BLANKS) == [] {
        conversationFinished := true;
      }
    }

    method CommandNotFound(text: string, ghost x: Session)
      requires Rep(x)
      modifies this, writer
      ensures curCommand == old(curCommand) && Rep(Written(x, NotFound(text)))
    {
      hide Bytes, Finished, CountStatus, Header, EnsureNewline;
      OneMoreOut(codes, connectionType, x.out, NotFound(text));
      if connectionType.Tcp? {
        writer.Write(FAIL + " " + text + "\n");
      } else {
        HttpWriteErrorResponse("501 Not Implemented", FAIL + " " + text, "");
        conversationFinished := true;
      }
    }

    /** Any of the three. */
    method Put(o: Out, ghost x: Session)
      requires Rep(x)
      modifies this, writer
      ensures curCommand == old(curCommand) && Rep(Written(x, o))
    {
      hide RepInput, RepOutput;
      match o {
        case Status(text, from) => ForwardStatusline(text, from, x);
        case Data(text, from) => ForwardDataset(text, from, x);
        case NotFound(text) => CommandNotFound(text, x);
      }
    }

    method HttpWriteResponseHeader(title: string, optionalField: string)
      requires writer.Valid()
      modifies writer
      ensures writer.Valid() && writer.written == old(writer.written) + Header(title, optionalField)
    {
      hide TrimRight;
      ghost var was := writer.written;
      var statusLine, contentType, end := "HTTP/1.0 " + title + "\r\n", "Content-Type: text/plain\r\n", "\r\n";
      writer.Write(statusLine);
      writer.Write(contentType);
      ghost var optional := "";
      if optionalField != "" {
        var field := StripTrailing(optionalField);
        writer.Write(field);
        writer.Write(end);
        optional := field + end;
        Regroup(was + statusLine + contentType, field, end);
      }
      assert writer.written == was + statusLine + contentType + optional;
      writer.Write(end);
      FourParts(was, statusLine, contentType, optional, end);
    }

    lemma Regroup(a: string, b: string, c: string)
      ensures a + b + c == a + (b + c)
    {
    }

    lemma FourParts(a: string, b: string, c: string, d: string, e: string)
      ensures a + b + c + d + e == a + (b + c + d + e)
    {
    }

    static method StripTrailing(s: string) returns (field: string)
      ensures field == TrimRight(s)
    {
      field := s;
      while field != "" && IsSpace(field[|field|-1])
        invariant TrimRight(field) == TrimRight(s)
        decreases |field|
      {
        field := field[..|field|-1];
      }
    }

    method HttpWriteErrorResponse(title: string, description: string, optionalField: string)
      requires writer.Valid()
      modifies writer
      ensures writer.Valid()
      ensures writer.written == old(writer.written) + (Header(title, optionalField) + EnsureNewline(description))
    {
      ghost var was := writer.written;
      HttpWriteResponseHeader(title, optionalField);
      writer.Write(description);
      if description != "" && description[|description|-1] != '\n' {
        writer.Write("\n");
      }
      assert writer.written == was + (Header(title, optionalField) + EnsureNewline(description));
    }
  }
}

/** What a client reads: a TCP client the lines of its answers, one after the other; an HTTP client a message
    with them as its body. */
module Responses {
  import opened Framing
  import opened Auth
  import opened HttpRequest
  import opened HttpResponse
  import opened Model
  import opened Machine
  import opened Invariants
  import opened Inputs
  import opened ClientLines
  import opened Reachable
  import opened Theorems

  // ---------------------------------------------------------------- lines of an answer

  /** An answer of the server as a line of text. */
  function AnswerText(o: Out): Line {
    if o.NotFound? then "FAILED! " + o.text + "\n" else o.text
  }

  function AnswerTexts(outs: seq<Out>): seq<Line> {
    seq(|outs|, i requires 0 <= i < |outs| => AnswerText(outs[i]))
  }

  /** The reply of the core to a command, as far as it has come. */
  function ReplyTo(cores: Cores, iss: Issue): Block {
    if iss.fwd.Some? && iss.fwd.value.core in cores then cores[iss.fwd.value.core].ReplyAt(iss.fwd.value.index) else []
  }

  /** The lines that answer a command: what the server itself says, then the core's reply as the core sent it. */
  function Said(cores: Cores, iss: Issue): seq<Line> {
    AnswerTexts(iss.served) + ReplyTo(cores, iss)
  }

  function SaidAll(cores: Cores, issued: seq<Issue>): seq<Line> {
    if issued == [] then [] else SaidAll(cores, issued[..|issued|-1]) + Said(cores, issued[|issued|-1])
  }

  lemma TextsOfOwn(cores: Cores, iss: Issue)
    ensures AnswerTexts(Own(cores, iss)) == Said(cores, iss)
  {
  }

  lemma {:induction false} TextsOfOwns(cores: Cores, issued: seq<Issue>)
    ensures AnswerTexts(Owns(cores, issued)) == SaidAll(cores, issued)
  {
    hide Own, Said;
    if issued != [] {
      var n := |issued| - 1;
      TextsOfOwns(cores, issued[..n]);
      TextsOfOwn(cores, issued[n]);
      assert AnswerTexts(Owns(cores, issued))
          == AnswerTexts(Owns(cores, issued[..n])) + AnswerTexts(Own(cores, issued[n]));
    }
  }

  // ---------------------------------------------------------------- TCP

  lemma TcpReadsText(o: Out)
    ensures TcpChunk(o) == AnswerText(o)
  {
    assert FAIL + " " + o.text + "\n" == "FAILED! " + o.text + "\n";
  }

  lemma {:induction false} TcpReadsTexts(codes: string -> Code, outs: seq<Out>)
    ensures Bytes(codes, Tcp, outs) == Flat(AnswerTexts(outs))
  {
    hide TcpChunk, AnswerText, HttpChunk;
    if outs == [] {
      assert AnswerTexts(outs) == [];
    } else {
      var n := |outs| - 1;
      TcpReadsTexts(codes, outs[..n]);
      TcpReadsText(outs[n]);
      assert AnswerTexts(outs) == AnswerTexts(outs[..n]) + [AnswerText(outs[n])];
      FlatAppend(AnswerTexts(outs[..n]), AnswerText(outs[n]));
    }
  }

  /** The bytes of a TCP session's outputs are the lines that answer its commands, joined. */
  lemma TcpReadsAnswers(codes: string -> Code, cores: Cores, issued: seq<Issue>)
    ensures Bytes(codes, Tcp, Owns(cores, issued)) == Flat(SaidAll(cores, issued))
  {
    TcpReadsTexts(codes, Owns(cores, issued));
    TextsOfOwns(cores, issued);
  }

  // ---------------------------------------------------------------- HTTP messages

  /** A message as section 4.1 of RFC 1945 has it: the lines before the first empty one, and what follows. */
  datatype Message = Message(head: seq<string>, body: string)

  function LineEnd(s: string): (n: Option<nat>)
    ensures n.Some? ==> n.value + 2 <= |s| && s[n.value..n.value+2] == "\r\n"
  {
    if |s| < 2 then None
    else if s[0] == '\r' && s[1] == '\n' then Some(0)
    else
      var n := LineEnd(s[1..]);
      if n.None? then None else Some(n.value + 1)
  }

  function ReadMessage(s: string): Option<Message>
    decreases |s|
  {
    var n := LineEnd(s);
    if n.None? then None
    else if n.value == 0 then Some(Message([], s[2..]))
    else
      var rest := ReadMessage(s[n.value+2..]);
      if rest.None? then None else Some(Message([s[..n.value]] + rest.value.head, rest.value.body))
  }

  predicate Unbroken(s: string) {
    '\r' !in s && '\n' !in s
  }

  lemma {:induction false} LineEndIs(line: string, rest: string)
    requires '\r' !in line
    ensures LineEnd(line + ("\r\n" + rest)) == Some(|line|)
  {
    var s := line + ("\r\n" + rest);
    if line == "" {
      assert s == "\r\n" + rest;
    } else {
      assert line[0] in line;
      LineEndIs(line[1..], rest);
      assert s[1..] == line[1..] + ("\r\n" + rest);
    }
  }

  lemma ReadLine(line: string, rest: string)
    requires '\r' !in line
    ensures ReadMessage(line + ("\r\n" + rest)) ==
      if line == "" then Some(Message([], rest))
      else if ReadMessage(rest).None? then None
      else Some(Message([line] + ReadMessage(rest).value.head, ReadMessage(rest).value.body))
  {
    var s := line + ("\r\n" + rest);
    LineEndIs(line, rest);
    assert s[|line|+2..] == rest && s[..|line|] == line;
  }

  /** A message as it travels. */
  function Sent(head: seq<string>, body: string): string {
    if head == [] then "\r\n" + body else head[0] + ("\r\n" + Sent(head[1..], body))
  }

  /** Reading undoes writing: the head ends where the body begins. */
  lemma {:induction false} SentReads(head: seq<string>, body: string)
    requires forall l :: l in head ==> l != "" && '\r' !in l
    ensures ReadMessage(Sent(head, body)) == Some(Message(head, body))
  {
    hide ReadMessage;
    if head == [] {
      ReadLine("", body);
      assert "" + ("\r\n" + body) == "\r\n" + body;
    } else {
      assert head == [head[0]] + head[1..];
      assert forall l :: l in head[1..] ==> l in head;
      SentReads(head[1..], body);
      ReadLine(head[0], Sent(head[1..], body));
    }
  }

  /** The lines of a response header. */
  function HeadLines(title: string, field: string): seq<string> {
    ["HTTP/1.0 " + title, "Content-Type: text/plain"] + if field != "" then [field] else []
  }

  lemma HeaderIsSent(title: string, field: string, body: string)
    requires field != "" ==> TrimRight(field) != ""
    ensures Header(title, field) + body == Sent(HeadLines(title, if field != "" then TrimRight(field) else ""), body)
  {
    hide TrimRight;
    var end := "\r\n" + body;
    assert Sent([], body) == end;
    var trimmed := TrimRight(field);
    assert [trimmed][1..] == [];
    var fields := if field != "" then [trimmed] else [];
    assert Sent(fields, body) == if field != "" then trimmed + ("\r\n" + end) else end;
    var type_ := "Content-Type: text/plain";
    assert ([type_] + fields)[1..] == fields;
    assert Sent([type_] + fields, body) == type_ + ("\r\n" + Sent(fields, body));
    var status := "HTTP/1.0 " + title;
    assert ([status] + ([type_] + fields))[1..] == [type_] + fields;
    assert HeadLines(title, if field != "" then trimmed else "") == [status] + ([type_] + fields);
    assert Header(title, field) + body == status + ("\r\n" + (type_ + ("\r\n" + Sent(fields, body))));
  }

  lemma HeaderReads(title: string, field: string, body: string)
    requires Unbroken(title) && Unbroken(TrimRight(field)) && (field != "" ==> TrimRight(field) != "")
    ensures ReadMessage(Header(title, field) + body)
      == Some(Message(HeadLines(title, if field != "" then TrimRight(field) else ""), body))
  {
    hide TrimRight, ReadMessage, Header, Sent;
    HeaderIsSent(title, field, body);
    SentReads(HeadLines(title, if field != "" then TrimRight(field) else ""), body);
  }

  /** What the lines of an answer make of the message: a status line first, the data behind it. */
  function StatusMessage(codes: string -> Code, lines: seq<Line>): Message
    requires lines != []
  {
    var words := SplitString(lines[0], BLANKS);
    if words == [] then
      Message(HeadLines("500 Internal Server Error", ""),
              "Received empty status line from core. Please report.\n" + Flat(lines[1..]))
    else
      var first := if codes(words[0]).error && !EndsLine(lines[0]) then lines[0] + "\n" else lines[0];
      Message(HeadLines(codes(words[0]).title, TrimRight("X-GraphProcessor: " + lines[0])), first + Flat(lines[1..]))
  }

  /** No line breaks in what goes into the header. */
  predicate Fits(codes: string -> Code, line: Line) {
    var words := SplitString(line, BLANKS);
    words != [] ==> Unbroken(codes(words[0]).title) && Unbroken(TrimRight("X-GraphProcessor: " + line))
  }

  lemma {:induction false} TrimKeepsFirst(s: string, n: nat)
    requires 0 < n <= |s| && !IsSpace(s[n-1])
    ensures |TrimRight(s)| >= n && TrimRight(s)[..n] == s[..n]
    decreases |s|
  {
    if IsSpace(s[|s|-1]) {
      TrimKeepsFirst(s[..|s|-1], n);
      assert s[..|s|-1][..n] == s[..n];
    }
  }

  lemma FieldIsNotEmpty(line: Line)
    ensures TrimRight("X-GraphProcessor: " + line) != ""
  {
    TrimKeepsFirst("X-GraphProcessor: " + line, 1);
  }

  lemma LaterTexts(before: seq<Out>, o: Out)
    requires before != []
    ensures AnswerTexts(before) != [] && AnswerTexts(before + [o]) != []
    ensures Flat(AnswerTexts(before + [o])[1..]) == Flat(AnswerTexts(before)[1..]) + AnswerText(o)
  {
    hide AnswerText, Flat;
    assert AnswerTexts(before + [o])[1..] == AnswerTexts(before)[1..] + [AnswerText(o)];
    FlatAppend(AnswerTexts(before)[1..], AnswerText(o));
  }

  /** Only the first status line makes a header. */
  lemma {:induction false} OneHeaderThenTexts(codes: string -> Code, outs: seq<Out>)
    requires outs != [] && outs[0].Status? && forall i :: 1 <= i < |outs| ==> !outs[i].NotFound?
    ensures AnswerTexts(outs) != []
    ensures Bytes(codes, Http, outs) == HttpChunk(codes, true, outs[0]) + Flat(AnswerTexts(outs)[1..])
    ensures CountStatus(outs) >= 1
  {
    hide HttpChunk, TcpChunk, AnswerText, Chunk, Bytes, Flat, AnswerTexts;
    var n := |outs| - 1;
    var before, first := outs[..n], HttpChunk(codes, true, outs[0]);
    assert outs == before + [outs[n]];
    if n == 0 {
      assert outs == [outs[0]];
      OneChunk(codes, outs[0]);
      OneText(outs[0]);
      assert first + "" == first;
    } else {
      OneHeaderThenTexts(codes, before);
      LaterBytes(codes, before, outs[n]);
      LaterTexts(before, outs[n]);
      assert first + Flat(AnswerTexts(before)[1..]) + AnswerText(outs[n])
          == first + (Flat(AnswerTexts(before)[1..]) + AnswerText(outs[n]));
    }
  }

  lemma OneText(o: Out)
    ensures AnswerTexts([o]) == [AnswerText(o)] && Flat(AnswerTexts([o])[1..]) == ""
  {
    assert AnswerTexts([o])[1..] == [];
  }

  lemma OneChunk(codes: string -> Code, o: Out)
    ensures Bytes(codes, Http, [o]) == HttpChunk(codes, true, o)
  {
    hide HttpChunk;
    assert [o][..0] == [];
    assert Bytes(codes, Http, []) == "";
    assert "" + HttpChunk(codes, true, o) == HttpChunk(codes, true, o);
  }

  lemma LaterBytes(codes: string -> Code, before: seq<Out>, o: Out)
    requires CountStatus(before) >= 1 && !o.NotFound?
    ensures Bytes(codes, Http, before + [o]) == Bytes(codes, Http, before) + AnswerText(o)
    ensures CountStatus(before + [o]) >= 1
  {
    hide HttpChunk, AnswerText;
    assert (before + [o])[..|before|] == before;
    LaterChunk(codes, o);
  }

  lemma LaterChunk(codes: string -> Code, o: Out)
    requires !o.NotFound?
    ensures HttpChunk(codes, false, o) == AnswerText(o)
  {
  }

  /** The bytes of a response, read as a message: its head is the status, the type and the status line as a
      field, and its body is the text of the answer, nothing left out and nothing added. */
  lemma HttpReadsAnswer(codes: string -> Code, outs: seq<Out>)
    requires outs != [] && outs[0].Status? && forall i :: 1 <= i < |outs| ==> !outs[i].NotFound?
    requires Fits(codes, outs[0].text)
    ensures ReadMessage(Bytes(codes, Http, outs)) == Some(StatusMessage(codes, AnswerTexts(outs)))
  {
    hide Bytes, HttpChunk, ReadMessage, StatusMessage, AnswerText, Flat;
    var line, data := outs[0].text, AnswerTexts(outs)[1..];
    OneHeaderThenTexts(codes, outs);
    FirstChunkReads(codes, line, outs[0].from, data);
    assert AnswerTexts(outs)[0] == line by { StatusText(outs[0]); }
    assert AnswerTexts(outs) == [line] + data;
  }

  lemma StatusText(o: Out)
    requires o.Status?
    ensures AnswerText(o) == o.text
  {
  }

  lemma FirstChunkReads(codes: string -> Code, line: Line, from: nat, data: seq<Line>)
    requires Fits(codes, line)
    ensures ReadMessage(HttpChunk(codes, true, Status(line, from)) + Flat(data))
      == Some(StatusMessage(codes, [line] + data))
  {
    hide Header, TrimRight, ReadMessage, Flat, HeadLines, SplitString;
    var rest := Flat(data);
    assert ([line] + data)[1..] == data;
    var words := SplitString(line, BLANKS);
    if words == [] {
      EmptyStatusReads(rest);
    } else {
      var code, field := codes(words[0]), "X-GraphProcessor: " + line;
      FieldIsNotEmpty(line);
      assert field != "" by { assert field[0] == 'X'; }
      var first := if code.error then EnsureNewline(line) else line;
      HeaderReads(code.title, field, first + rest);
      assert Header(code.title, field) + first + rest == Header(code.title, field) + (first + rest);
      NotEmpty(line);
    }
  }

  lemma NotEmpty(line: Line)
    ensures SplitString(line, BLANKS) != [] ==> line != ""
  {
  }

  lemma EmptyStatusReads(rest: string)
    ensures ReadMessage(Header("500 Internal Server Error", "") + EnsureNewline(NO_STATUS) + rest)
      == Some(Message(HeadLines("500 Internal Server Error", ""),
                      "Received empty status line from core. Please report.\n" + rest))
  {
    hide Header, TrimRight, ReadMessage;
    var title := "500 Internal Server Error";
    TrimmedNothing();
    HeaderReads(title, "", EnsureNewline(NO_STATUS) + rest);
    assert Header(title, "") + EnsureNewline(NO_STATUS) + rest == Header(title, "") + (EnsureNewline(NO_STATUS) + rest);
    assert EnsureNewline(NO_STATUS) == "Received empty status line from core. Please report.\n";
  }

  lemma TrimmedNothing()
    ensures TrimRight("") == ""
  {
  }

  /** The report of an unknown command is a message by itself. */
  lemma HttpReadsNotFound(codes: string -> Code, text: string)
    ensures ReadMessage(Bytes(codes, Http, [NotFound(text)]))
      == Some(Message(HeadLines("501 Not Implemented", ""),
                      "FAILED! " + text + if text != "" && text[|text|-1] == '\n' then "" else "\n"))
  {
    hide Header, TrimRight, ReadMessage, HeadLines, Bytes;
    OneChunk(codes, NotFound(text));
    TrimmedNothing();
    var body := FAIL + " " + text;
    assert body == "FAILED! " + text;
    HeaderReads("501 Not Implemented", "", EnsureNewline(body));
    assert body + "" == body;
    if text != "" {
      assert body[|body|-1] == text[|text|-1];
    } else {
      assert body[|body|-1] == ' ';
    }
  }

  // ---------------------------------------------------------------- runs

  /** The message that an HTTP client is sent for a command answered by these lines. */
  ghost predicate Answers(codes: string -> Code, outs: seq<Out>, lines: seq<Line>, sent: string) {
    && outs != [] && lines != []
    && (outs[0].Status? && Fits(codes, lines[0]) ==> ReadMessage(sent) == Some(StatusMessage(codes, lines)))
    && (outs[0].NotFound? ==>
          exists text :: lines == ["FAILED! " + text + "\n"] && ReadMessage(sent)
            == Some(Message(HeadLines("501 Not Implemented", ""),
                            "FAILED! " + text + if text != "" && text[|text|-1] == '\n' then "" else "\n")))
  }

  /** When the loop ends the conversation of an HTTP session that sent one request, what it was sent is a
      message: a complete head, then the lines that answer the command, the core's whole reply among them. */
  lemma ResponseIsMessage(w: World, events: seq<Event>, id: nat, drained: set<nat>)
    requires HelpIsKnown(w)
    requires var s := Run(w, events);
      IsClient(s, id) && ConversationOver(s, id, drained) && s.sessions[id].requests <= 1
    ensures var s := Run(w, events); var x := s.sessions[id];
      && |x.issued| == 1 && Complete(s.cores, x.issued[0])
      && Answers(w.codes, x.out, Said(s.cores, x.issued[0]), Bytes(w.codes, Http, x.out))
  {
    hide Run, Own, Complete, Bytes, CountHeaders, Finished, HelpIsKnown, ReadMessage, StatusMessage, HeadLines, Said;
    var s := Run(w, events);
    var x := s.sessions[id];
    HttpResponseComplete(w, events, id, drained);
    TextsOfOwn(s.cores, x.issued[0]);
    if x.out[0].Status? {
      StatusText(x.out[0]);
      if Fits(w.codes, x.out[0].text) {
        HttpReadsAnswer(w.codes, x.out);
      }
    } else {
      HttpReadsNotFound(w.codes, x.out[0].text);
      assert x.out == [NotFound(x.out[0].text)];
      assert AnswerTexts(x.out) == ["FAILED! " + x.out[0].text + "\n"];
    }
  }

  /** A status line from a core fits into the header if the title does. */
  lemma CoreLineFits(codes: string -> Code, line: Line)
    requires Proper(line) && '\r' !in line
    requires SplitString(line, BLANKS) != [] ==> Unbroken(codes(SplitString(line, BLANKS)[0]).title)
    ensures Fits(codes, line)
  {
    hide SplitString;
    var field := "X-GraphProcessor: " + line;
    var front := field[..|field|-1];
    assert front == "X-GraphProcessor: " + line[..|line|-1];
    assert TrimRight(field) == TrimRight(front);
    TrimIsPrefix(front);
    assert forall c :: c in TrimRight(front) ==> c in front;
    assert forall c :: c in line[..|line|-1] ==> c in line;
  }

  lemma {:induction false} InFlat<T>(blocks: seq<seq<T>>, i: nat, x: T)
    requires i < |blocks| && x in blocks[i]
    ensures x in Flat(blocks)
  {
    var n := |blocks| - 1;
    if i < n {
      InFlat(blocks[..n], i, x);
    }
  }

  /** So every status line of a core that only speaks when asked fits into a header, whatever it says. */
  lemma CoreStatusFits(w: World, events: seq<Event>, c: nat, i: nat)
    requires c in Run(w, events).cores && !Run(w, events).cores[c].chatty
    requires var k := Run(w, events).cores[c]; i < |k.replies| && k.replies[i] != []
    requires forall word :: Unbroken(w.codes(word).title)
    ensures Fits(w.codes, Run(w, events).cores[c].replies[i][0])
  {
    hide Run, Fifo, Stream, AnsweredBut, ReplyState;
    var k := Run(w, events).cores[c];
    ReachedCore(w, events, c);
    InFlat(k.replies, i, k.replies[i][0]);
    CoreLinesAreProper(w, events, c, k.replies[i][0]);
    CoreLineFits(w.codes, k.replies[i][0]);
  }

  lemma {:induction false} TrimIsPrefix(s: string)
    ensures TrimRight(s) <= s
    decreases |s|
  {
    if s != "" && IsSpace(s[|s|-1]) {
      TrimIsPrefix(s[..|s|-1]);
    }
  }

  // ---------------------------------------------------------------- the end of a conversation

  /** The core is answering this client, or holds a command of it. */
  ghost predicate Holds(k: Core, id: nat) {
    (k.lastClientID == id && (k.expectingReply || k.expectingDataset))
    || exists e :: e in k.commandQ && e.clientID == id
  }

  /** The sweep ends the conversations of exactly those HTTP sessions whose output is finished and gone and for
      which their core, if it runs, holds nothing; it does nothing else. */
  lemma SweepEndsIff(s: State, drained: set<nat>, id: nat)
    requires id in s.sessions
    ensures var x, t := s.sessions[id], Sweep(s, drained);
      && t.cores == s.cores && t.marked == s.marked && t.sessions.Keys == s.sessions.Keys
      && t.sessions[id] == x.(closing := t.sessions[id].closing)
      && var over := x.kind.Http? && Finished(x.out) && id in drained
           && (IsRunning(s, x.coreID) ==> !Holds(s.cores[x.coreID], id));
         t.sessions[id].closing <==> (x.closing || over)
  {
    hide Finished;
    var x := s.sessions[id];
    if IsRunning(s, x.coreID) {
      HoldsIsData(s.cores[x.coreID], id);
    }
  }

  lemma HoldsIsData(k: Core, id: nat)
    ensures Holds(k, id) <==> k.HasData(id)
  {
    if e :| e in k.commandQ && e.clientID == id {
      var i :| 0 <= i < |k.commandQ| && k.commandQ[i] == e;
      assert k.commandQ[i].clientID == id;
    }
  }

  /** This output call ends the conversation: the report of an unknown command, an empty data line, or a first
      status line that is not empty and announces no data. */
  predicate EndsAt(outs: seq<Out>, i: nat) {
    i < |outs| &&
    match outs[i]
    case NotFound(_) => true
    case Data(text, _) => Blank(text)
    case Status(text, _) => i == 0 && !Blank(text) && !Opens(text)
  }

  lemma {:induction false} FinishedIff(outs: seq<Out>)
    requires outs != [] && (outs[0].Status? || |outs| == 1)
    ensures Finished(outs) <==> exists i :: EndsAt(outs, i)
    ensures outs[0].Status? ==> CountStatus(outs) >= 1
  {
    hide Blank, Opens;
    var n := |outs| - 1;
    var before := outs[..n];
    if n == 0 {
      assert !Finished(before) && CountStatus(before) == 0;
      assert Finished(outs) <==> EndsAt(outs, 0);
    } else {
      FinishedIff(before);
      forall i: nat | i < n ensures EndsAt(outs, i) <==> EndsAt(before, i) {
      }
      assert Ends(CountStatus(before) == 0, outs[n]) <==> EndsAt(outs, n);
      if i: nat :| EndsAt(outs, i) && i < n {
        assert EndsAt(before, i);
      }
      if i: nat :| EndsAt(before, i) {
        assert EndsAt(outs, i);
      }
    }
  }

  predicate BlankAt(b: Block, i: nat) {
    0 < i < |b| && Blank(b[i])
  }

  /** A data set is finished by its empty line. */
  lemma BlankEndsBlock(b: Block)
    requires b == [] || Open(b) || Whole(b)
    ensures (exists i :: BlankAt(b, i)) <==> Whole(b) && Opens(b[0])
  {
    hide Blank, Opens;
    if b != [] && Whole(b) && Opens(b[0]) {
      assert BlankAt(b, |b| - 1);
    }
  }

  /** The reply of a core, passed on by itself or behind the server's help. */
  lemma ReplyFinishesIff(served: seq<Out>, reply: Block, c: nat)
    requires served == [] || HelpHead(served)
    requires reply == [] || Open(reply) || Whole(reply)
    ensures Finished(served + ReplyOuts(reply, c))
      <==> Whole(reply) && (if served == [] then !Blank(reply[0]) else Opens(reply[0]))
  {
    hide Blank, Opens, Finished, Whole, Open;
    var outs := served + ReplyOuts(reply, c);
    var m := |served|;
    BlankEndsBlock(reply);
    if outs == [] {
      NothingFinishes();
    } else {
      FinishedIff(outs);
      forall i: nat | m < i < |outs| ensures EndsAt(outs, i) <==> BlankAt(reply, i - m) {
      }
      forall i: nat | i < m ensures !EndsAt(outs, i) {
      }
      if i: nat :| BlankAt(reply, i) {
        assert EndsAt(outs, m + i);
      }
      if i: nat :| EndsAt(outs, i) {
        assert i > m ==> BlankAt(reply, i - m);
      }
      if reply != [] {
        assert EndsAt(outs, m) <==> m == 0 && !Blank(reply[0]) && !Opens(reply[0]);
        WholeWithoutData(reply);
        OpensIsNotBlank(reply[0]);
      }
    }
  }

  lemma NothingFinishes()
    ensures !Finished([]) && !Whole([])
  {
  }

  lemma WholeWithoutData(b: Block)
    requires b != [] && (Open(b) || Whole(b))
    ensures !Opens(b[0]) ==> Whole(b)
  {
  }

  lemma OpensIsNotBlank(line: Line)
    ensures Opens(line) ==> !Blank(line)
  {
    OpensByLastWord(line);
  }

  /** A whole reply leaves nothing at any running core for the session of one command. */
  lemma NothingLeft(w: World, s: State, id: nat, c: nat)
    requires Inv(w, s, 0) && id in s.sessions && |s.sessions[id].issued| == 1 && IsRunning(s, c)
    requires var iss := s.sessions[id].issued[0]; iss.fwd.Some? ==> Whole(ReplyTo(s.cores, iss))
    ensures !s.cores[c].HasData(id)
  {
    hide End, NoneStranded, Routes, Delivered, Turn, CoreOk, Whole, Forwards;
    assert CoreFine(w, c, s.cores[c], s.coreIDCounter, s.sessionIDCounter);
    assert SessionOk(w, s.cores, id, s.sessions[id], id !in s.marked, true);
    if s.cores[c].HasData(id) {
      var k := ShownIsUnsettled(s.cores, id, s.sessions[id], c);
      var r := s.sessions[id].issued[0].fwd.value;
      DoneIsWhole(s.cores[c], r.index);
      assert false by { NeverBoth(ReplyTo(s.cores, s.sessions[id].issued[0])); }
    }
  }

  lemma NeverBoth(b: Block)
    ensures !(Whole(b) && (b == [] || Open(b)))
  {
  }

  /** Exactly when the loop ends the conversation of an HTTP session whose only request went to a core: its output
      is gone, the core's reply is whole, and, if that is the whole answer, its status line is not empty, or, if
      it follows the server's own help, it brings a data set. */
  lemma ConversationEndsIff(w: World, events: seq<Event>, id: nat, drained: set<nat>)
    requires HelpIsKnown(w) && IsClient(Run(w, events), id)
    requires var x := Run(w, events).sessions[id];
      x.kind.Http? && x.requests <= 1 && |x.issued| == 1 && x.issued[0].fwd.Some?
    ensures var s := Run(w, events); var iss := s.sessions[id].issued[0];
      var reply := ReplyTo(s.cores, iss);
      ConversationOver(s, id, drained) <==>
        id in drained && Whole(reply) && if iss.served == [] then !Blank(reply[0]) else Opens(reply[0])
  {
    hide Run, CoreOk, HelpIsKnown, Finished, Own, ReplyOuts, Whole, Open, CurrentOk, LinesOk, QueueOk, LevelOk,
      NoneStranded, Blank, Opens, HelpHead;
    var s := Run(w, events);
    var x := s.sessions[id];
    var iss := x.issued[0];
    var r := iss.fwd.value;
    AlwaysInv(w, events);
    ReachedSession(w, events, id);
    assert RefOk(s.cores, id, 0, iss, r) && x.out == Own(s.cores, iss) by {
      MidDelivers(s.cores, id, x);
      OwnsOfOne(s.cores, x.issued);
    }
    ReachedCore(w, events, r.core);
    DoneIsWhole(s.cores[r.core], r.index);
    OwnIs(s.cores, iss);
    ReplyFinishesIff(iss.served, ReplyTo(s.cores, iss), r.core);
    if Whole(ReplyTo(s.cores, iss)) && IsRunning(s, x.coreID) {
      NothingLeft(w, s, id, x.coreID);
    }
  }

  lemma OwnIs(cores: Cores, iss: Issue)
    requires iss.fwd.Some? && iss.fwd.value.core in cores
    ensures Own(cores, iss) == iss.served + ReplyOuts(ReplyTo(cores, iss), iss.fwd.value.core)
  {
  }

  /** The same if the server answered by itself: its answer is finished and gone. */
  lemma AnsweredConversationEndsIff(w: World, events: seq<Event>, id: nat, drained: set<nat>)
    requires HelpIsKnown(w) && IsClient(Run(w, events), id)
    requires var x := Run(w, events).sessions[id];
      x.kind.Http? && x.requests <= 1 && |x.issued| == 1 && x.issued[0].fwd.None?
    ensures var s := Run(w, events); var x := s.sessions[id];
      ConversationOver(s, id, drained) <==> id in drained && exists i :: EndsAt(x.issued[0].served, i)
  {
    hide Run, CoreOk, HelpIsKnown, Finished, Own, Whole, Open, CurrentOk, LinesOk, QueueOk, LevelOk, NoneStranded,
      Blank, Opens, EndsAt;
    var s := Run(w, events);
    var x := s.sessions[id];
    AlwaysInv(w, events);
    ReachedSession(w, events, id);
    assert x.out == Own(s.cores, x.issued[0]) by {
      MidDelivers(s.cores, id, x);
      OwnsOfOne(s.cores, x.issued);
    }
    assert x.out == x.issued[0].served by { OwnOfServed(s.cores, x.issued[0]); }
    if x.out == [] {
      NothingFinishes();
      assert forall i :: !EndsAt(x.out, i) by { NothingEnds(); }
    } else {
      FinishedIff(x.out);
    }
    if IsRunning(s, x.coreID) {
      NothingLeft(w, s, id, x.coreID);
    }
  }

  lemma NothingEnds()
    ensures forall i :: !EndsAt([], i)
  {
  }

  lemma {:induction false} NoStatusYet(outs: seq<Out>)
    ensures CountStatus(outs) == 0 <==> forall o :: o in outs ==> !o.Status?
  {
    if outs != [] {
      var n := |outs| - 1;
      NoStatusYet(outs[..n]);
      assert outs == outs[..n] + [outs[n]];
    }
  }

  /** A line from a core shuts its client down exactly if it is an empty status line, and the first to an HTTP
      client. */
  lemma EmptyStatusCloses(s: State, c: nat, line: Line)
    requires c in s.cores && s.cores[c].Busy() && IsClient(s, s.cores[c].lastClientID)
    ensures var k, t := s.cores[c], LineFromCore(s, c, line);
      var x := s.sessions[k.lastClientID];
      && k.lastClientID in t.sessions
      && (t.sessions[k.lastClientID].closing <==>
            x.closing || (x.kind.Http? && k.expectingReply && AllBlank(line) && forall o :: o in x.out ==> !o.Status?))
  {
    hide CountStatus, Blank, CoreHears;
    NoStatusYet(s.sessions[s.cores[c].lastClientID].out);
    BlankIffAllBlank(line);
  }

  lemma OwnOfServed(cores: Cores, iss: Issue)
    requires iss.fwd.None?
    ensures Own(cores, iss) == iss.served
  {
  }
}

/** What the commands that manage graphs do, from any state and however the command came to be run: typed,
    held until the drain loop ran it, or sent over HTTP. */
module ServerCommands {
  import opened Framing
  import opened Auth
  import opened HttpRequest
  import opened HttpResponse
  import opened Model
  import opened Theorems

  /** The command consists of these words, with no data set and nothing redirected. */
  predicate Asks(e: Entry, words: seq<string>) {
    SplitString(e.command, BLANKS) == words && e.dataset == [] && '<' !in e.command && '>' !in e.command
  }

  /** No other running core has this name. */
  ghost predicate OnlyNamed(s: State, c: nat, name: string) {
    NamedRunning(s, c, name) && forall d :: NamedRunning(s, d, name) ==> d == c
  }

  /** The server gave one answer, and the session is otherwise as it was. */
  predicate GotAnswer(x: Session, y: Session, o: Out) {
    y.out == x.out + [o] && y.level == x.level && y.lineQueue == x.lineQueue && y.curCommand == x.curCommand
  }

  lemma FoundNamed(s: State, c: nat, name: string)
    requires OnlyNamed(s, c, name)
    ensures FindNamed(s, name) == Some(c)
  {
  }

  lemma CommandExecutes(w: World, s: State, id: nat, e: Entry, words: seq<string>)
    requires id in s.sessions && Asks(e, words) && words != [] && words[0] in SERVER_COMMANDS
    ensures var b := Begin(s, id, e.Block());
      ProcessCommand(w, s, id, e) == Execute(w, w.answers(s.tick), b, id, words) && b.cores == s.cores
  {
    hide Execute, SplitString;
  }

  lemma VoidExecutes(w: World, a: Answer, b: State, id: nat, words: seq<string>)
    requires id in b.sessions && b.sessions[id].issued != [] && words != []
    requires words[0] in {"create-graph", "use-graph", "drop-graph", "shutdown"}
    requires words[0] == "use-graph" || b.sessions[id].level.Admin?
    ensures Execute(w, a, b, id, words) == Emit(ExecuteVoid(w, a, b, id, words), id, Status(a.status, 0))
  {
    hide ExecuteVoid, Emit;
  }

  /** `use-graph NAME` leaves the session at the running core of that name; all cores go on as they were. There
      is a complaint exactly if the core left behind runs and still has something for the session. */
  lemma UseGraphConnects(w: World, s: State, id: nat, e: Entry, name: string, c: nat)
    requires id in s.sessions && Asks(e, ["use-graph", name]) && OnlyNamed(s, c, name)
    ensures var t := ProcessCommand(w, s, id, e);
      && t.sessions[id].coreID == c && t.cores == s.cores
      && GotAnswer(s.sessions[id], t.sessions[id], Status(w.answers(s.tick).status, 0))
      && var was := s.sessions[id].coreID;
         t.sessions[id].warned <==> (s.sessions[id].warned || (IsRunning(s, was) && s.cores[was].HasData(id)))
  {
    hide FindNamed, Execute, SplitString, CountStatus, Blank;
    var a, b := w.answers(s.tick), Begin(s, id, e.Block());
    CommandExecutes(w, s, id, e, ["use-graph", name]);
    VoidExecutes(w, a, b, id, ["use-graph", name]);
    assert OnlyNamed(b, c, name) by { SameCoresOnly(s, b, c, name); }
    FoundNamed(b, c, name);
  }

  lemma SameCoresOnly(s: State, b: State, c: nat, name: string)
    requires OnlyNamed(s, c, name) && b.cores == s.cores
    ensures OnlyNamed(b, c, name)
  {
    forall d | NamedRunning(b, d, name) ensures d == c {
      assert NamedRunning(s, d, name);
    }
  }

  lemma SameCoresNone(s: State, b: State, name: string)
    requires NoneNamed(s, name) && b.cores == s.cores
    ensures NoneNamed(b, name)
  {
    forall c | c in b.cores ensures !NamedRunning(b, c, name) {
      assert !NamedRunning(s, c, name);
    }
  }

  /** If no core of that name runs, the session stays where it is. */
  lemma UseGraphFails(w: World, s: State, id: nat, e: Entry, name: string)
    requires id in s.sessions && Asks(e, ["use-graph", name]) && NoneNamed(s, name)
    ensures var t := ProcessCommand(w, s, id, e);
      && t.sessions[id].coreID == s.sessions[id].coreID && t.cores == s.cores
      && GotAnswer(s.sessions[id], t.sessions[id], Status(w.answers(s.tick).status, 0))
  {
    hide FindNamed, Execute, SplitString, CountStatus, Blank;
    var a, b := w.answers(s.tick), Begin(s, id, e.Block());
    CommandExecutes(w, s, id, e, ["use-graph", name]);
    VoidExecutes(w, a, b, id, ["use-graph", name]);
    SameCoresNone(s, b, name);
  }

  /** A name that may be given to a graph. */
  predicate Nameable(name: string) {
    && name != "" && name[0] !in "0123456789"
    && forall c :: c in name ==> 'a' <= c <= 'z' || 'A' <= c <= 'Z' || '0' <= c <= '9' || c in "-_"
  }

  lemma NameableIsValid(name: string)
    ensures Nameable(name) <==> ValidGraphName(name)
  {
    if name != "" {
      assert name[0] in "0123456789" <==> '0' <= name[0] <= '9' by { DigitsAre(name[0]); }
      forall c ensures c in "-_" <==> c == '-' || c == '_' {
        assert "-_"[0] == '-' && "-_"[1] == '_';
      }
      assert forall i :: 0 <= i < |name| ==> name[i] in name;
    }
  }

  lemma DigitsAre(c: char)
    ensures c in "0123456789" <==> '0' <= c <= '9'
  {
    if '0' <= c <= '9' {
      assert "0123456789"[c as int - '0' as int] == c;
    }
  }

  /** `create-graph NAME` of an admin makes a running core of that name, with the next ID and nothing to do,
      exactly if the name may be given, no running core has it, and the process could be started. Nobody is
      connected to it by that, and the other cores go on as they were. An ID whose process did not start is not
      given to another core. */
  lemma CreateGraphCreatesIff(w: World, s: State, id: nat, e: Entry, name: string)
    requires id in s.sessions && Asks(e, ["create-graph", name]) && s.sessions[id].level.Admin?
    requires CoresAreCounted(s)
    ensures var t, n := ProcessCommand(w, s, id, e), s.coreIDCounter + 1;
      && (if Nameable(name) && NoneNamed(s, name) && w.answers(s.tick).started then
            && n !in s.cores && t.cores.Keys == s.cores.Keys + {n} && NamedRunning(t, n, name)
            && !t.cores[n].Busy() && t.cores[n].commandQ == [] && t.cores[n].accepted == []
            && forall c :: c in s.cores ==> t.cores[c] == s.cores[c]
          else t.cores == s.cores)
      && t.coreIDCounter == (if Nameable(name) && NoneNamed(s, name) then n else s.coreIDCounter)
      && t.sessions[id].coreID == s.sessions[id].coreID
      && GotAnswer(s.sessions[id], t.sessions[id], Status(w.answers(s.tick).status, 0))
  {
    hide FindNamed, Execute, SplitString, CountStatus, Blank, Nameable, NoneNamed;
    var a, b := w.answers(s.tick), Begin(s, id, e.Block());
    CommandExecutes(w, s, id, e, ["create-graph", name]);
    VoidExecutes(w, a, b, id, ["create-graph", name]);
    NameableIsValid(name);
    assert NoneNamed(b, name) <==> NoneNamed(s, name) by { BothNone(s, b, name); }
  }

  ghost predicate CoresAreCounted(s: State) {
    forall c :: c in s.cores ==> c <= s.coreIDCounter
  }

  lemma BothNone(s: State, b: State, name: string)
    requires b.cores == s.cores
    ensures NoneNamed(b, name) <==> NoneNamed(s, name)
  {
    if NoneNamed(s, name) { SameCoresNone(s, b, name); }
    if NoneNamed(b, name) { SameCoresNone(b, s, name); }
  }

  /** `drop-graph NAME` of an admin makes the running core of that name stop counting as running, exactly if its
      process could be killed; it is still read from, and nothing else changes. */
  lemma DropGraphStopsIff(w: World, s: State, id: nat, e: Entry, name: string, c: nat)
    requires id in s.sessions && Asks(e, ["drop-graph", name]) && s.sessions[id].level.Admin? && OnlyNamed(s, c, name)
    ensures var t := ProcessCommand(w, s, id, e);
      && c in t.cores && IsPresent(t, c) && (IsRunning(t, c) <==> !w.answers(s.tick).killed)
      && t.cores == s.cores[c := s.cores[c].(life := t.cores[c].life, doneAtStop := t.cores[c].doneAtStop)]
      && t.sessions[id].coreID == s.sessions[id].coreID
      && GotAnswer(s.sessions[id], t.sessions[id], Status(w.answers(s.tick).status, 0))
  {
    hide FindNamed, Execute, SplitString, CountStatus, Blank;
    var a, b := w.answers(s.tick), Begin(s, id, e.Block());
    CommandExecutes(w, s, id, e, ["drop-graph", name]);
    VoidExecutes(w, a, b, id, ["drop-graph", name]);
    assert OnlyNamed(b, c, name) by { SameCoresOnly(s, b, c, name); }
    FoundNamed(b, c, name);
    assert s.cores[c := s.cores[c]] == s.cores;
  }

  /** `shutdown` of an admin makes the session's running core stop counting as running; the core has been sent
      the bare command if its table has it, at any level. No other core changes. */
  lemma ShutdownStopsOwnCore(w: World, s: State, id: nat, e: Entry, c: nat)
    requires id in s.sessions && Asks(e, ["shutdown"]) && s.sessions[id].level.Admin?
    requires s.sessions[id].coreID == c && IsRunning(s, c)
    ensures var t := ProcessCommand(w, s, id, e);
      && t.cores.Keys == s.cores.Keys && IsPresent(t, c) && !IsRunning(t, c)
      && (forall d :: d in s.cores && d != c ==> t.cores[d] == s.cores[d])
      && (if Permitted(w.table, "shutdown\n", Admin) then
            && |t.cores[c].accepted| == |s.cores[c].accepted| + 1 && s.cores[c].accepted <= t.cores[c].accepted
            && t.cores[c].accepted[|s.cores[c].accepted|].entry.Block() == ["shutdown\n"]
          else t.cores[c].accepted == s.cores[c].accepted)
      && t.sessions[id].coreID == c && t.sessions[id].level == Admin
  {
    hide Execute, SplitString, CountStatus, Blank, ForwardToCore, Permitted, Known, CoreCommand;
    var a, b := w.answers(s.tick), Begin(s, id, e.Block());
    CommandExecutes(w, s, id, e, ["shutdown"]);
    VoidExecutes(w, a, b, id, ["shutdown"]);
    TakenIffPermitted(w, a, b, id, NewEntry(id, SHUTDOWN_LINE));
    ForwardKeepsRest(w, a, b, id, NewEntry(id, SHUTDOWN_LINE));
    assert NewEntry(id, SHUTDOWN_LINE).Block() == ["shutdown\n"];
  }

  lemma ForwardKeepsRest(w: World, a: Answer, s: State, id: nat, e: Entry)
    requires id in s.sessions && s.sessions[id].issued != [] && IsRunning(s, s.sessions[id].coreID)
    ensures var c, t := s.sessions[id].coreID, ForwardToCore(w, a, s, id, e);
      IsRunning(t, c) && t.sessions[id].coreID == c
  {
    hide CoreCommand, CountStatus, Blank;
  }

  /** Below admin level these commands do nothing but be refused. */
  lemma ManagingNeedsAdmin(w: World, s: State, id: nat, e: Entry, words: seq<string>)
    requires id in s.sessions && Asks(e, words) && words != [] && !s.sessions[id].level.Admin?
    requires words[0] in {"create-graph", "drop-graph", "shutdown"}
    ensures var t := ProcessCommand(w, s, id, e);
      && t.cores == s.cores && t.sessions[id].coreID == s.sessions[id].coreID
      && GotAnswer(s.sessions[id], t.sessions[id], Status(w.answers(s.tick).refusal, 0))
  {
    hide SplitString, CountStatus, Blank;
    CommandExecutes(w, s, id, e, words);
  }

  /** A server command with a data set, or with an angle bracket in it, does nothing but be refused. */
  lemma RedirectedServerCommand(w: World, s: State, id: nat, e: Entry)
    requires id in s.sessions && SplitString(e.command, BLANKS) != []
    requires SplitString(e.command, BLANKS)[0] in SERVER_COMMANDS
    requires e.dataset != [] || '<' in e.command || '>' in e.command
    ensures var t := ProcessCommand(w, s, id, e);
      && t.cores == s.cores && t.sessions[id].coreID == s.sessions[id].coreID
      && GotAnswer(s.sessions[id], t.sessions[id], Status(w.answers(s.tick).refusal, 0))
  {
    hide SplitString, CountStatus, Blank;
  }

  /** `quit` is answered and ends the connection; with more words it does nothing. */
  lemma QuitCloses(w: World, s: State, id: nat, e: Entry, words: seq<string>)
    requires id in s.sessions && Asks(e, words) && words != [] && words[0] == "quit"
    ensures var t, x := ProcessCommand(w, s, id, e), s.sessions[id]; var y := t.sessions[id];
      && t.cores == s.cores
      && if |words| == 1 then y.closing && GotAnswer(x, y, Status(w.answers(s.tick).status, 0))
         else y.closing == x.closing && y.out == x.out
  {
    hide SplitString, CountStatus, Blank;
    CommandExecutes(w, s, id, e, words);
  }

  /** A command that the server does not know goes nowhere if the session is not connected. */
  lemma UnknownWithoutCore(w: World, s: State, id: nat, e: Entry)
    requires id in s.sessions && SplitString(e.command, BLANKS) != [] && s.sessions[id].coreID == 0
    requires SplitString(e.command, BLANKS)[0] !in SERVER_COMMANDS
    ensures var t := ProcessCommand(w, s, id, e);
      && t.cores == s.cores && t.sessions[id].coreID == 0
      && GotAnswer(s.sessions[id], t.sessions[id], NotFound(w.answers(s.tick).refusal))
  {
    hide SplitString, CountStatus, Blank;
  }

  /** A command for a core that no longer runs goes nowhere, and the session is no longer connected to it. */
  lemma GoneCoreIsForgotten(w: World, s: State, id: nat, e: Entry)
    requires id in s.sessions && SplitString(e.command, BLANKS) != []
    requires s.sessions[id].coreID != 0 && !IsRunning(s, s.sessions[id].coreID)
    requires SplitString(e.command, BLANKS)[0] !in SERVER_COMMANDS
    ensures var t := ProcessCommand(w, s, id, e);
      && t.cores == s.cores && t.sessions[id].coreID == 0
      && GotAnswer(s.sessions[id], t.sessions[id], Status(w.answers(s.tick).refusal, 0))
  {
    hide SplitString, CountStatus, Blank;
  }

  // ---------------------------------------------------------------- answers with data

  /** The server said these lines, a status line and then data, and nothing else happened. */
  ghost predicate SaidLines(s: State, t: State, id: nat, status: Line, data: seq<Line>)
    requires id in s.sessions && id in t.sessions
  {
    var x, y := s.sessions[id], t.sessions[id];
    && t.cores == s.cores && y.level == x.level && y.coreID == x.coreID && y.lineQueue == x.lineQueue
    && |y.out| == |x.out| + 1 + |data| && x.out <= y.out && y.out[|x.out|] == Status(status, 0)
    && forall i :: 0 <= i < |data| ==> y.out[|x.out| + 1 + i] == Data(data[i], 0)
  }

  lemma {:induction false} EmitAllSays(s: State, id: nat, outs: seq<Out>)
    requires id in s.sessions && s.sessions[id].issued != []
    ensures var x, t := s.sessions[id], EmitAll(s, id, outs); var y := t.sessions[id];
      && t.cores == s.cores && y.level == x.level && y.coreID == x.coreID && y.lineQueue == x.lineQueue
      && y.out == x.out + outs
  {
    hide Emit;
    if outs == [] {
      assert s.sessions[id].out + [] == s.sessions[id].out;
    } else {
      var n := |outs| - 1;
      EmitAllSays(s, id, outs[..n]);
      EmitSays(EmitAll(s, id, outs[..n]), id, outs[n]);
      assert outs == outs[..n] + [outs[n]];
    }
  }

  lemma EmitSays(s: State, id: nat, o: Out)
    requires id in s.sessions && s.sessions[id].issued != []
    ensures var x, t := s.sessions[id], Emit(s, id, o); var y := t.sessions[id];
      && t.cores == s.cores && y.level == x.level && y.coreID == x.coreID && y.lineQueue == x.lineQueue
      && y.out == x.out + [o]
  {
  }

  lemma ListingParts(status: Line, data: seq<Line>)
    ensures var outs := Listing(status, data);
      |outs| == 1 + |data| && outs[0] == Status(status, 0)
      && forall i :: 0 <= i < |data| ==> outs[1 + i] == Data(data[i], 0)
  {
  }

  lemma ListingSays(s: State, id: nat, status: Line, data: seq<Line>)
    requires id in s.sessions && s.sessions[id].issued != []
    ensures SaidLines(s, EmitAll(s, id, Listing(status, data)), id, status, data)
  {
    hide EmitAll, Listing;
    ListingParts(status, data);
    EmitAllSays(s, id, Listing(status, data));
    SaidThese(s, EmitAll(s, id, Listing(status, data)), id, Listing(status, data), status, data);
  }

  lemma SaidThese(s: State, t: State, id: nat, outs: seq<Out>, status: Line, data: seq<Line>)
    requires id in s.sessions && id in t.sessions && t.cores == s.cores
    requires var x, y := s.sessions[id], t.sessions[id];
      y.level == x.level && y.coreID == x.coreID && y.lineQueue == x.lineQueue && y.out == x.out + outs
    requires |outs| == 1 + |data| && outs[0] == Status(status, 0)
    requires forall i :: 0 <= i < |data| ==> outs[1 + i] == Data(data[i], 0)
    ensures SaidLines(s, t, id, status, data)
  {
    forall i | 0 <= i < |data|
      ensures t.sessions[id].out[|s.sessions[id].out| + 1 + i] == Data(data[i], 0)
    {
      assert t.sessions[id].out[|s.sessions[id].out| + (1 + i)] == outs[1 + i];
    }
  }

  /** The commands that only tell something answer with all of it; with more words, with a status line alone. */
  lemma TellingCommands(w: World, s: State, id: nat, e: Entry, words: seq<string>)
    requires id in s.sessions && Asks(e, words) && words != []
    requires words[0] in {"list-graphs", "session-info", "server-stats"}
    ensures var a := w.answers(s.tick);
      SaidLines(s, ProcessCommand(w, s, id, e), id, a.status, if |words| == 1 then a.data else [])
  {
    hide SplitString, EmitAll, Emit, Listing, Execute, SERVER_COMMANDS;
    var a, b := w.answers(s.tick), Begin(s, id, e.Block());
    TellingIsHarmless(words[0]);
    CommandExecutes(w, s, id, e, words);
    ListingSays(b, id, a.status, a.data);
    EmitSays(b, id, Status(a.status, 0));
    TellingExecutes(w, a, b, id, words);
  }

  lemma TellingIsHarmless(name: string)
    requires name in {"list-graphs", "session-info", "server-stats"}
    ensures name in SERVER_COMMANDS && name !in VOID_COMMANDS && name != "help" && name != "quit"
    ensures ServerLevel(name) == Read
  {
    if name == "list-graphs" {
    } else if name == "session-info" {
    } else {
      assert name == "server-stats";
    }
  }

  lemma TellingExecutes(w: World, a: Answer, b: State, id: nat, words: seq<string>)
    requires id in b.sessions && b.sessions[id].issued != [] && words != []
    requires words[0] in {"list-graphs", "session-info", "server-stats"}
    ensures words[0] in SERVER_COMMANDS
    ensures Execute(w, a, b, id, words)
      == if |words| == 1 then EmitAll(b, id, Listing(a.status, a.data)) else Emit(b, id, Status(a.status, 0))
  {
    hide EmitAll, Emit, Listing, ExecuteVoid, Help, Quit, SERVER_COMMANDS, VOID_COMMANDS, ServerLevel;
    TellingIsHarmless(words[0]);
  }

  lemma HelpExecutes(w: World, a: Answer, b: State, id: nat, words: seq<string>)
    requires id in b.sessions && b.sessions[id].issued != [] && words != [] && words[0] == "help"
    ensures Execute(w, a, b, id, words) == Help(w, a, b, id, words)
  {
    hide Help, EmitAll, Emit, Listing;
  }

  /** `help` without a core lists the server's commands and ends the list. */
  lemma HelpWithoutCore(w: World, s: State, id: nat, e: Entry)
    requires id in s.sessions && Asks(e, ["help"]) && !IsRunning(s, s.sessions[id].coreID)
    ensures var a := w.answers(s.tick);
      SaidLines(s, ProcessCommand(w, s, id, e), id, a.status + ":\n",
                seq(|a.data|, i requires 0 <= i < |a.data| => "# " + a.data[i] + "\n") + ["\n"])
  {
    hide SplitString, EmitAll, Emit, Execute;
    var a, b := w.answers(s.tick), Begin(s, id, e.Block());
    CommandExecutes(w, s, id, e, ["help"]);
    HelpExecutes(w, a, b, id, ["help"]);
    var t := EmitAll(b, id, HelpListing(a));
    EmitAllSays(b, id, HelpListing(a));
    EmitSays(t, id, Data("\n", 0));
    assert t.sessions[id].out + [Data("\n", 0)] == b.sessions[id].out + (HelpListing(a) + [Data("\n", 0)]);
  }

  /** `help` on a command of the server tells about that. On `help` itself or on any other word the core is
      asked, if there is one. */
  lemma HelpOnWord(w: World, s: State, id: nat, e: Entry, word: string)
    requires id in s.sessions && Asks(e, ["help", word])
    ensures var a, x, t := w.answers(s.tick), s.sessions[id], ProcessCommand(w, s, id, e); var c := x.coreID;
      if word in SERVER_COMMANDS && word != "help" then SaidLines(s, t, id, a.status + word + ":\n", a.data)
      else if !IsRunning(s, c) then SaidLines(s, t, id, a.status, [])
      else if Permitted(w.table, "help " + word + " \n", x.level) then
        t.sessions[id].out == x.out && c in t.cores && |t.cores[c].accepted| == |s.cores[c].accepted| + 1
        && t.cores[c].accepted[|s.cores[c].accepted|].entry.command == "help " + word + " \n"
      else t.cores == s.cores && |t.sessions[id].out| == |x.out| + 1
  {
    hide SplitString, EmitAll, Emit, Execute, ForwardToCore, Permitted, Known, Listing, SERVER_COMMANDS;
    var a, b := w.answers(s.tick), Begin(s, id, e.Block());
    HelpIsServerCommand();
    CommandExecutes(w, s, id, e, ["help", word]);
    HelpExecutes(w, a, b, id, ["help", word]);
    ListingSays(b, id, a.status + word + ":\n", a.data);
    EmitSays(b, id, Status(a.status, 0));
    TwoWords(word);
    if IsRunning(s, s.sessions[id].coreID) {
      TakenIffPermitted(w, a, b, id, NewEntry(id, JoinWords(["help", word])));
    }
  }

  lemma HelpIsServerCommand()
    ensures "help" in SERVER_COMMANDS
  {
  }

  lemma TwoWords(word: string)
    ensures JoinWords(["help", word]) == "help " + word + " \n"
  {
    assert ["help", word][1..] == [word] && [word][1..] == [];
    assert JoinWords([]) == "\n";
    assert JoinWords([word]) == word + " " + "\n";
    assert "help" + " " + (word + " " + "\n") == "help " + word + " \n";
  }
}

/** What the server itself answers to the first command of an HTTP session. */
module HttpSessions {
  import opened Framing
  import opened Auth
  import opened HttpRequest
  import opened HttpResponse
  import opened Model
  import opened Invariants

  /** The command being handled is the session's only one so far, and these answers were given. */
  ghost predicate Answered(s: State, id: nat, served: seq<Out>) {
    id in s.sessions && |s.sessions[id].issued| == 1 && s.sessions[id].issued[0].served == served
    && s.sessions[id].issued[0].fwd.None?
  }

  ghost predicate GoodAnswer(s: State, id: nat) {
    id in s.sessions && |s.sessions[id].issued| == 1 && HttpServed(s.sessions[id].issued[0])
  }

  lemma {:induction false} EmitAllAnswers(s: State, id: nat, outs: seq<Out>)
    requires Answered(s, id, [])
    ensures var t := EmitAll(s, id, outs);
      Answered(t, id, outs) && t.sessions[id].coreID == s.sessions[id].coreID
      && t.sessions[id].level == s.sessions[id].level && t.cores == s.cores
  {
    if outs != [] {
      EmitAllAnswers(s, id, outs[..|outs|-1]);
      assert outs[..|outs|-1] + [outs[|outs|-1]] == outs;
    }
  }

  lemma OneAnswer(s: State, id: nat, o: Out)
    requires Answered(s, id, []) && !o.Data?
    ensures GoodAnswer(Emit(s, id, o), id)
  {
  }

  /** A command that goes to the core, or is answered at once. */
  lemma ForwardAnswers(w: World, a: Answer, s: State, id: nat, e: Entry)
    requires Answered(s, id, [])
    ensures GoodAnswer(ForwardToCore(w, a, s, id, e), id)
  {
    hide CoreCommand, FlushCore;
    if IsRunning(s, s.sessions[id].coreID) {
      OneAnswer(s, id, NotFound(a.refusal));
    }
    OneAnswer(s, id, Status(a.refusal, 0));
  }

  lemma HelpLine()
    ensures JoinWords(["help"]) == "help \n"
  {
    assert JoinWords([]) == "\n" && ["help"][1..] == [];
  }

  lemma HelpNeeds(w: World)
    ensures CoreCommand(w, JoinWords(["help"])) == if HelpIsKnown(w) then Some(w.table["help"]) else None
  {
    hide SplitString, JoinWords;
    HelpLine();
    SplitWordFirst("help", " \n", CORE_DELIMS);
    assert "help" + " \n" == "help \n";
  }

  /** A list of server commands, continued by the core's help or by its refusal. */
  lemma HelpForwarded(w: World, a: Answer, s: State, id: nat)
    requires Answered(s, id, HelpListing(a)) && HelpIsKnown(w) && IsRunning(s, s.sessions[id].coreID)
    ensures GoodAnswer(ForwardToCore(w, a, s, id, NewEntry(id, JoinWords(["help"]))), id)
  {
    hide FlushCore, CoreCommand, JoinWords, HelpListing, HelpHead, Opens, OneResponse;
    HelpNeeds(w);
    HelpListingHeads(a);
    RefusedHelp(a);
  }

  lemma RefusedHelp(a: Answer)
    ensures OneResponse(HelpListing(a) + [Status(a.refusal, 0)])
  {
  }

  lemma HelpListingHeads(a: Answer)
    ensures HelpHead(HelpListing(a))
  {
    OpensAfter(a.status, ":\n");
    OpensAfter(":", "\n");
    assert a.status + ":\n" == a.status + (":" + "\n");
    assert Opens(":");
    assert !AllBlank(":\n") by { assert ":\n"[0] == ':'; }
    forall i | 0 <= i < |a.data| ensures !Blank("# " + a.data[i] + "\n") {
      BlankIffAllBlank("# " + a.data[i] + "\n");
      assert ("# " + a.data[i] + "\n")[0] == '#';
    }
  }

  lemma ListingAnswers(s: State, id: nat, status: Line, data: seq<Line>)
    requires Answered(s, id, [])
    ensures GoodAnswer(EmitAll(s, id, Listing(status, data)), id)
  {
    EmitAllAnswers(s, id, Listing(status, data));
  }

  lemma HelpOffline(a: Answer, s: State, id: nat)
    requires Answered(s, id, HelpListing(a))
    ensures GoodAnswer(Emit(s, id, Data("\n", 0)), id)
  {
    assert OneResponse(HelpListing(a) + [Data("\n", 0)]) by { HelpListingHeads(a); }
  }

  lemma HelpAnswers(w: World, a: Answer, s: State, id: nat, words: seq<string>)
    requires Answered(s, id, []) && HelpIsKnown(w) && words != [] && words[0] == "help"
    ensures GoodAnswer(Help(w, a, s, id, words), id)
  {
    hide ForwardToCore, JoinWords, HelpListing, Listing, Emit, GoodAnswer;
    var connected := IsRunning(s, s.sessions[id].coreID);
    OneAnswer(s, id, Status(a.status, 0));
    if |words| == 1 {
      assert words == ["help"];
      EmitAllAnswers(s, id, HelpListing(a));
      if connected {
        HelpForwarded(w, a, EmitAll(s, id, HelpListing(a)), id);
      } else {
        HelpOffline(a, EmitAll(s, id, HelpListing(a)), id);
      }
    } else if |words| == 2 {
      ListingAnswers(s, id, a.status + words[1] + ":\n", a.data);
      ForwardAnswers(w, a, s, id, NewEntry(id, JoinWords(words)));
    }
  }

  lemma VoidAnswersNothing(w: World, a: Answer, s: State, id: nat, words: seq<string>)
    requires Answered(s, id, []) && words != [] && words[0] != "shutdown"
    ensures Answered(ExecuteVoid(w, a, s, id, words), id, [])
  {
    hide AuthorizeCommand, FindNamed, StopCore;
  }

  lemma ExecuteAnswers(w: World, a: Answer, s: State, id: nat, words: seq<string>)
    requires Answered(s, id, []) && HelpIsKnown(w) && s.sessions[id].level == Read
    requires words != [] && words[0] in SERVER_COMMANDS
    ensures GoodAnswer(Execute(w, a, s, id, words), id)
  {
    hide Help, Emit, GoodAnswer, ExecuteVoid, Quit, Listing;
    if Rank(ServerLevel(words[0])) > Rank(Read) {
      OneAnswer(s, id, Status(a.refusal, 0));
    } else if words[0] in VOID_COMMANDS {
      VoidAnswersNothing(w, a, s, id, words);
      OneAnswer(ExecuteVoid(w, a, s, id, words), id, Status(a.status, 0));
    } else if words[0] == "help" {
      HelpAnswers(w, a, s, id, words);
    } else if words[0] == "quit" {
      QuitAnswers(a, s, id, words);
    } else {
      OneAnswer(s, id, Status(a.status, 0));
      ListingAnswers(s, id, a.status, a.data);
    }
  }

  lemma QuitAnswers(a: Answer, s: State, id: nat, words: seq<string>)
    requires Answered(s, id, [])
    ensures GoodAnswer(Quit(a, s, id, words), id)
  {
    OneAnswer(s, id, Status(a.status, 0));
  }

  lemma DispatchAnswers(w: World, a: Answer, s: State, id: nat, e: Entry)
    requires Answered(s, id, []) && HelpIsKnown(w) && s.sessions[id].level == Read
    ensures GoodAnswer(Dispatch(w, a, s, id, e), id)
  {
    hide Execute, ForwardToCore, SplitString, Emit;
    var words := SplitString(e.command, BLANKS);
    OneAnswer(s, id, Status(a.refusal, 0));
    OneAnswer(s, id, NotFound(a.refusal));
    ForwardAnswers(w, a, s, id, e);
    if words != [] && words[0] in SERVER_COMMANDS {
      ExecuteAnswers(w, a, s, id, words);
    }
  }

  /** An HTTP session's first command is answered by one response, or by the head of one that the core's
      reply completes. */
  lemma FirstCommandAnswers(w: World, s: State, id: nat, e: Entry)
    requires id in s.sessions && s.sessions[id].issued == [] && s.sessions[id].level == Read && HelpIsKnown(w)
    ensures GoodAnswer(ProcessCommand(w, s, id, e), id)
  {
    hide Dispatch, GoodAnswer;
    DispatchAnswers(w, w.answers(s.tick), Begin(s, id, e.Block()), id, e);
  }
}

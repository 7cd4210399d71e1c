/** What a session writes to its socket (src/session.h, src/main.cpp): a TCP session writes lines as they
    are; an HTTP session puts one header in front and notices when the conversation is over. */
module HttpResponse {
  import opened Framing
  import opened Auth

  /** One call that hands output to a session. from is the core it comes from, 0 for the server itself. */
  datatype Out =
    | Status(text: Line, from: nat)
    | Data(text: Line, from: nat)
    | NotFound(text: string)

  datatype Kind = Tcp | Http

  /** The HTTP status of a status word, and whether it is reported as an error. */
  datatype Code = Code(title: string, error: bool)

  const FAIL := "FAILED!"
  const NO_STATUS := "Received empty status line from core. Please report."

  /** Lines are completed with a newline, except that the empty line stays empty: it has no last character
      that could differ from a newline. */
  function EnsureNewline(s: string): string {
    if s == "" || s[|s|-1] == '\n' then s else s + "\n"
  }

  function Header(title: string, field: string): string {
    "HTTP/1.0 " + title + "\r\n" + "Content-Type: text/plain\r\n"
    + (if field != "" then TrimRight(field) + "\r\n" else "") + "\r\n"
  }

  function CountStatus(outs: seq<Out>): nat {
    if outs == [] then 0
    else CountStatus(outs[..|outs|-1]) + if outs[|outs|-1].Status? then 1 else 0
  }

  /** The bytes that one output call writes to an HTTP client; first: no status line was written before. */
  function HttpChunk(codes: string -> Code, first: bool, o: Out): string {
    match o
    case Status(line, _) =>
      if !first then line
      else
        var words := SplitString(line, BLANKS);
        if words == [] then Header("500 Internal Server Error", "") + EnsureNewline(NO_STATUS)
        else
          var code := codes(words[0]);
          Header(code.title, "X-GraphProcessor: " + line) + if code.error then EnsureNewline(line) else line
    case Data(line, _) => line
    case NotFound(text) => Header("501 Not Implemented", "") + EnsureNewline(FAIL + " " + text)
  }

  function TcpChunk(o: Out): string {
    match o
    case Status(line, _) => line
    case Data(line, _) => line
    case NotFound(text) => FAIL + " " + text + "\n"
  }

  function Chunk(codes: string -> Code, kind: Kind, before: seq<Out>, o: Out): string {
    if kind.Tcp? then TcpChunk(o) else HttpChunk(codes, CountStatus(before) == 0, o)
  }

  /** All bytes that a session writes for these calls. */
  function Bytes(codes: string -> Code, kind: Kind, outs: seq<Out>): string {
    if outs == [] then "" else
      var before := outs[..|outs|-1];
      Bytes(codes, kind, before) + Chunk(codes, kind, before, outs[|outs|-1])
  }

  /** The calls after which an HTTP session is marked for disconnection. */
  predicate Ends(first: bool, o: Out) {
    match o
    case Status(line, _) => first && !Blank(line) && !Opens(line)
    case Data(line, _) => Blank(line)
    case NotFound(_) => true
  }

  predicate Finished(outs: seq<Out>) {
    outs != [] &&
    var before := outs[..|outs|-1];
    Finished(before) || Ends(CountStatus(before) == 0, outs[|outs|-1])
  }

  /** Whether an output call puts a response header into the stream. */
  predicate Heads(before: seq<Out>, o: Out) {
    o.NotFound? || (o.Status? && CountStatus(before) == 0)
  }

  function CountHeaders(outs: seq<Out>): nat {
    if outs == [] then 0 else
      var before := outs[..|outs|-1];
      CountHeaders(before) + if Heads(before, outs[|outs|-1]) then 1 else 0
  }

  /** Output that starts with a status line and reports no unknown command after it, or is nothing but the
      report of an unknown command. */
  predicate OneResponse(outs: seq<Out>) {
    outs == [] || (|outs| == 1 && outs[0].NotFound?) ||
    (outs[0].Status? && forall i :: 1 <= i < |outs| ==> !outs[i].NotFound?)
  }

  /** Such output carries exactly one header, and it comes first. */
  lemma {:induction false} OneHeaderFirst(outs: seq<Out>)
    requires OneResponse(outs) && outs != []
    ensures CountHeaders(outs) == 1 && Heads([], outs[0])
    ensures outs[0].Status? ==> CountStatus(outs) >= 1
  {
    var before := outs[..|outs|-1];
    if before != [] {
      OneHeaderFirst(before);
    }
  }
}

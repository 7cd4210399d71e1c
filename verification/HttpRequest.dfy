/** Requests of HTTP clients (src/servapp.h): the request line, the URI decoder, and the split of the
    decoded URI into core name and command. */
module HttpRequest {
  import opened Framing

  datatype Target =
    | BadRequest
    | BadVersion
    | BadHex
    | Empty
    | Plain(command: string)
    | ToCore(name: string, command: string)

  // ---------------------------------------------------------------- the decoder

  predicate IsSpace(c: char) {
    c == ' ' || c == '\t' || c == '\n' || c == '\r' || c == '\U{000B}' || c == '\U{000C}'
  }

  function HexDigit(c: char): (d: Option<nat>)
    ensures d.Some? ==> d.value < 16 && !IsSpace(c) && c != '%'
  {
    if '0' <= c <= '9' then Some(c as int - '0' as int)
    else if 'A' <= c <= 'F' then Some(c as int - 'A' as int + 10)
    else if 'a' <= c <= 'f' then Some(c as int - 'a' as int + 10)
    else None
  }

  function SkipSpace(s: string): string {
    if s != "" && IsSpace(s[0]) then SkipSpace(s[1..]) else s
  }

  /** What the scan of a two-digit hexadecimal number at the front of s yields, if it is printable. The scan
      skips white space first. One digit, a sign or a 0x prefix never gives a printable value. */
  function PrintableHex(s: string): (r: Option<char>)
    ensures r.Some? ==> ' ' <= r.value <= '~'
  {
    var t := SkipSpace(s);
    if |t| >= 2 && HexDigit(t[0]).Some? && HexDigit(t[1]).Some? then
      var v := 16 * HexDigit(t[0]).value + HexDigit(t[1]).value;
      if 0x20 <= v <= 0x7E then Some(v as char) else None
    else None
  }

  function Prepend(s: string, rest: Option<string>): Option<string> {
    if rest.Some? then Some(s + rest.value) else None
  }

  /** The decoding of the URI from index i on; None is a bad escape. */
  function DecodeFrom(uri: string, i: nat): Option<string>
    requires i <= |uri|
    decreases |uri| - i
  {
    if i == |uri| then Some("")
    else if uri[i] == '+' then Prepend(" ", DecodeFrom(uri, i + 1))
    else if uri[i] == '%' then
      if i + 1 < |uri| && uri[i+1] == '%' then Prepend("%", DecodeFrom(uri, i + 2))
      else if |uri| - i < 3 || PrintableHex(uri[i+1..]).None? then None
      else Prepend([PrintableHex(uri[i+1..]).value], DecodeFrom(uri, i + 3))
    else if uri[i] == '/' && i == 0 then DecodeFrom(uri, 1)
    else Prepend([uri[i]], DecodeFrom(uri, i + 1))
  }

  /** The decoding loop. */
  method DecodeURI(uri: string) returns (transformed: Option<string>)
    ensures transformed == DecodeFrom(uri, 0)
  {
    var text, i := "", 0;
    PrependTwice("", "", DecodeFrom(uri, 0));
    while i < |uri|
      invariant 0 <= i <= |uri|
      invariant DecodeFrom(uri, 0) == Prepend(text, DecodeFrom(uri, i))
      decreases |uri| - i
    {
      ghost var was, from := text, DecodeFrom(uri, i);
      if uri[i] == '+' {
        text := text + " ";
      } else if uri[i] == '%' {
        if i < |uri| - 1 && uri[i+1] == '%' {
          text := text + "%";
          i := i + 1;
        } else {
          var hexChar := PrintableHex(uri[i+1..]);
          if |uri| - i < 3 || hexChar == None {
            return None;
          }
          text := text + [hexChar.value];
          i := i + 2;
        }
      } else if uri[i] == '/' && i == 0 {
      } else {
        text := text + [uri[i]];
      }
      i := i + 1;
      PrependTwice(was, text[|was|..], DecodeFrom(uri, i));
      assert was + text[|was|..] == text;
    }
    assert text + "" == text;
    return Some(text);
  }

  lemma PrependTwice(a: string, b: string, rest: Option<string>)
    ensures Prepend(a, Prepend(b, rest)) == Prepend(a + b, rest)
    ensures Prepend("", rest) == rest
  {
    if rest.Some? {
      assert a + (b + rest.value) == a + b + rest.value;
      assert "" + rest.value == rest.value;
    }
  }

  /** Decoding never yields a newline that the URI did not hold. */
  lemma {:induction false} DecodedHasNoNewline(uri: string, i: nat)
    requires i <= |uri| && NoNewline(uri)
    ensures DecodeFrom(uri, i).Some? ==> NoNewline(DecodeFrom(uri, i).value)
    decreases |uri| - i
  {
    if i < |uri| {
      assert uri[i] in uri;
      DecodedHasNoNewline(uri, i + 1);
      if i + 2 <= |uri| { DecodedHasNoNewline(uri, i + 2); }
      if i + 3 <= |uri| { DecodedHasNoNewline(uri, i + 3); }
    }
  }

  // ---------------------------------------------------------------- the request line

  function Upper(s: string): string {
    seq(|s|, i requires 0 <= i < |s| =>
      if 'a' <= s[i] <= 'z' then (s[i] as int - 'a' as int + 'A' as int) as char else s[i])
  }

  /** "core/command" names a core; anything else with words in it is a command by itself. */
  function Address(text: string): Target {
    var words := SplitString(text, {'/'});
    if |words| >= 2 then
      SplitHead(text, {'/'});
      ToCore(words[0], text[|words[0]| + 1..])
    else if SplitString(text, BLANKS) != [] then Plain(text)
    else Empty
  }

  function ParseRequest(line: Line): Target {
    var words := SplitString(line, BLANKS);
    if |words| != 3 then BadRequest
    else if Upper(words[2]) != "HTTP/1.0" && Upper(words[2]) != "HTTP/1.1" then BadVersion
    else
      var text := DecodeFrom(words[1], 0);
      if text.None? then BadHex else Address(text.value)
  }

  /** Two words need a character of each and a delimiter between them. */
  lemma {:induction false} SplitHead(s: string, delims: set<char>)
    ensures var words := SplitString(s, delims);
            |words| >= 2 ==> |words[0]| + 1 < |s|
    decreases |s|
  {
    if s != "" {
      if s[0] in delims {
        SplitHead(s[1..], delims);
      } else {
        var n := WordLength(s, delims);
        if SplitString(s[n..], delims) != [] {
          assert s[n..] != "" && s[n..][0] == s[n];
          assert SplitString(s[n..][1..], delims) != [];
        }
      }
    }
  }

  /** Whatever a request asks to run is one non-empty line without a newline in it. */
  lemma RequestGivesOneLine(line: Line)
    ensures var t := ParseRequest(line);
            (t.ToCore? ==> t.command != "" && NoNewline(t.command)) &&
            (t.Plain? ==> t.command != "" && NoNewline(t.command) && !Blank(t.command))
  {
    var words := SplitString(line, BLANKS);
    if |words| == 3 {
      SplitGivesWords(line, BLANKS, 1);
      DecodedHasNoNewline(words[1], 0);
      var text := DecodeFrom(words[1], 0);
      if text.Some? {
        SplitHead(text.value, {'/'});
      }
    }
  }

  // ---------------------------------------------------------------- round trip

  /** The ways to write one character of an address. */
  datatype Spelling = Literal | Plus | Percents | Hex(hi: char, lo: char)

  predicate Printable(c: char) {
    ' ' <= c <= '~'
  }

  predicate Legal(c: char, s: Spelling) {
    match s
    case Literal => c != '+' && c != '%' && c != ' '
    case Plus => c == ' '
    case Percents => c == '%'
    case Hex(hi, lo) =>
      HexDigit(hi).Some? && HexDigit(lo).Some? && 16 * HexDigit(hi).value + HexDigit(lo).value == c as int
  }

  function SpellChar(c: char, s: Spelling): string {
    match s
    case Literal => [c]
    case Plus => "+"
    case Percents => "%%"
    case Hex(hi, lo) => ['%', hi, lo]
  }

  function Spell(text: string, how: seq<Spelling>): string
    requires |how| == |text|
  {
    if text == "" then "" else SpellChar(text[0], how[0]) + Spell(text[1..], how[1..])
  }

  ghost predicate LegalSpelling(text: string, how: seq<Spelling>) {
    |how| == |text| && forall i :: 0 <= i < |text| ==> Printable(text[i]) && Legal(text[i], how[i])
  }

  /** A literal slash at the very front of a URI is dropped. */
  predicate Dropped(before: string, c: char, s: Spelling) {
    before == "" && c == '/' && s.Literal?
  }

  /** Any other legal spelling of a character decodes to it. */
  lemma DecodeOne(before: string, c: char, s: Spelling, rest: string)
    requires Printable(c) && Legal(c, s) && !Dropped(before, c, s)
    ensures var uri := before + SpellChar(c, s) + rest;
      DecodeFrom(uri, |before|) == Prepend([c], DecodeFrom(uri, |before + SpellChar(c, s)|))
  {
    var i, code := |before|, SpellChar(c, s);
    var uri := before + code + rest;
    assert uri[i] == code[0];
    if s.Hex? {
      assert uri[i+1] == s.hi && uri[i+2] == s.lo;
      var t := uri[i+1..];
      assert t[0] == s.hi && t[1] == s.lo && SkipSpace(t) == t;
      assert PrintableHex(t) == Some(c);
    } else if s.Percents? {
      assert uri[i+1] == code[1];
    }
  }

  lemma DropOne(before: string, c: char, s: Spelling, rest: string)
    requires Dropped(before, c, s)
    ensures var uri := before + SpellChar(c, s) + rest;
      DecodeFrom(uri, |before|) == DecodeFrom(uri, |before + SpellChar(c, s)|)
  {
    assert (before + SpellChar(c, s) + rest)[0] == '/';
  }

  lemma DroppedAtFront(before: string, c: char, s: Spelling)
    ensures Dropped(before, c, s) ==> before == ""
    ensures SpellChar(c, s) != ""
  {
  }

  /** Decoding any legal spelling gives the text back, behind anything; at the front of the URI it does so
      too, but for a literal slash there. */
  lemma {:induction false} DecodeUndoesSpell(before: string, text: string, how: seq<Spelling>)
    requires LegalSpelling(text, how)
    ensures DecodeFrom(before + Spell(text, how), |before|)
         == Some(if text != "" && Dropped(before, text[0], how[0]) then text[1..] else text)
    decreases |text|
  {
    hide SpellChar, Legal, Dropped;
    var uri := before + Spell(text, how);
    if text == "" {
      assert uri == before;
    } else {
      var code, rest := SpellChar(text[0], how[0]), Spell(text[1..], how[1..]);
      assert before + code + rest == uri;
      DroppedAtFront(before, text[0], how[0]);
      if text[1..] != "" {
        DroppedAtFront(before + code, text[1], how[1]);
      }
      DecodeUndoesSpell(before + code, text[1..], how[1..]);
      if Dropped(before, text[0], how[0]) {
        DropOne(before, text[0], how[0], rest);
      } else {
        DecodeOne(before, text[0], how[0], rest);
        assert [text[0]] + text[1..] == text;
      }
    }
  }

  predicate ValidNameChar(c: char) {
    'A' <= c <= 'Z' || 'a' <= c <= 'z' || '0' <= c <= '9' || c == '-' || c == '_'
  }

  /** [a-zA-Z_-][a-zA-Z0-9_-]* */
  predicate ValidGraphName(name: string) {
    name != "" && !('0' <= name[0] <= '9') && forall i :: 0 <= i < |name| ==> ValidNameChar(name[i])
  }

  method IsValidGraphName(name: string) returns (valid: bool)
    ensures valid <==> ValidGraphName(name)
  {
    if |name| == 0 {
      return false;
    }
    if !ValidNameChar(name[0]) || '0' <= name[0] <= '9' {
      return false;
    }
    for i := 0 to |name|
      invariant forall j :: 0 <= j < i ==> ValidNameChar(name[j])
    {
      if !ValidNameChar(name[i]) {
        return false;
      }
    }
    return true;
  }

  lemma {:induction false} WordLengthOf(w: string, rest: string, delims: set<char>)
    requires forall i :: 0 <= i < |w| ==> w[i] !in delims
    requires rest == "" || rest[0] in delims
    ensures WordLength(w + rest, delims) == |w|
  {
    if w != "" {
      WordLengthOf(w[1..], rest, delims);
      assert (w + rest)[1..] == w[1..] + rest;
    } else {
      assert w + rest == rest;
    }
  }

  lemma SplitWordFirst(w: string, rest: string, delims: set<char>)
    requires w != "" && forall i :: 0 <= i < |w| ==> w[i] !in delims
    requires rest == "" || rest[0] in delims
    ensures SplitString(w + rest, delims) == [w] + SplitString(rest, delims)
  {
    WordLengthOf(w, rest, delims);
    assert (w + rest)[0] == w[0];
    assert (w + rest)[..|w|] == w && (w + rest)[|w|..] == rest;
  }

  lemma {:induction false} SplitFindsWord(s: string, i: nat, delims: set<char>)
    requires i < |s| && s[i] !in delims
    ensures SplitString(s, delims) != []
    decreases i
  {
    if s[0] in delims {
      SplitFindsWord(s[1..], i - 1, delims);
    }
  }

  lemma AddressOfCoreCommand(name: string, command: string, i: nat)
    requires ValidGraphName(name)
    requires i < |command| && command[i] != '/'
    ensures Address(name + "/" + command) == ToCore(name, command)
  {
    var rest := "/" + command;
    assert name + "/" + command == name + rest;
    SplitWordFirst(name, rest, {'/'});
    assert rest[i+1] == command[i];
    SplitFindsWord(rest, i + 1, {'/'});
    assert (name + rest)[|name| + 1..] == command;
  }

  lemma {:induction false} SpellIsPrintable(text: string, how: seq<Spelling>)
    requires LegalSpelling(text, how)
    ensures forall c :: c in Spell(text, how) ==> Printable(c) && c != ' '
  {
    if text != "" {
      SpellIsPrintable(text[1..], how[1..]);
      assert forall c :: c in SpellChar(text[0], how[0]) ==> Printable(c) && c != ' ';
    }
  }

  ghost predicate Word(w: string) {
    w != "" && forall i :: 0 <= i < |w| ==> w[i] !in BLANKS
  }

  /** A blank, then the rest of the line. */
  function After(blank: char, rest: string): string {
    [blank] + rest
  }

  /** The request line of section 5.1 of RFC 1945. */
  function RequestLine(verb: string, uri: string, version: string): Line {
    verb + After(' ', uri + After(' ', version + After('\n', "")))
  }

  /** The same without the newline at its end. */
  function RequestText(verb: string, uri: string, version: string): string {
    verb + After(' ', uri + After(' ', version))
  }

  lemma RequestLineIs(verb: string, uri: string, version: string)
    ensures RequestLine(verb, uri, version) == RequestText(verb, uri, version) + "\n"
  {
    assert After('\n', "") == "\n";
    assert After(' ', version + "\n") == After(' ', version) + "\n";
    assert uri + After(' ', version + "\n") == uri + After(' ', version) + "\n";
  }

  lemma SplitNextWord(w: string, blank: char, rest: string)
    requires Word(w) && blank in BLANKS
    ensures SplitString(w + After(blank, rest), BLANKS) == [w] + SplitString(rest, BLANKS)
  {
    SplitWordFirst(w, After(blank, rest), BLANKS);
    assert After(blank, rest)[1..] == rest;
  }

  lemma SplitRequestLine(verb: string, uri: string, version: string)
    requires Word(verb) && Word(uri) && Word(version)
    ensures SplitString(RequestLine(verb, uri, version), BLANKS) == [verb, uri, version]
  {
    SplitNextWord(version, '\n', "");
    SplitNextWord(uri, ' ', version + After('\n', ""));
    SplitNextWord(verb, ' ', uri + After(' ', version + After('\n', "")));
  }

  /** The same with a slash in front that was not dropped: the core is the same, the command is not. */
  lemma AddressKeepsSlash(name: string, command: string, i: nat)
    requires ValidGraphName(name)
    requires i < |command| && command[i] != '/'
    ensures Address("/" + (name + "/" + command)) == ToCore(name, "/" + command)
  {
    var text, rest := "/" + (name + "/" + command), "/" + command;
    assert name + "/" + command == name + rest;
    SplitWordFirst(name, rest, {'/'});
    assert rest[i+1] == command[i];
    SplitFindsWord(rest, i + 1, {'/'});
    assert text[1..] == name + rest;
    assert text[|name| + 1..] == rest;
  }

  /** A request line that spells "/name/command", character by character in any legal way, reaches exactly
      that core, with exactly that command if the leading slash is a literal one, and with a slash in front of
      it if that is spelled %2F. */
  lemma AddressRoundTrip(verb: string, version: string, name: string, command: string,
                         how: seq<Spelling>, i: nat)
    requires Word(verb) && Word(version) && Upper(version) in ["HTTP/1.0", "HTTP/1.1"]
    requires ValidGraphName(name)
    requires i < |command| && command[i] != '/'
    requires LegalSpelling("/" + (name + "/" + command), how)
    ensures var target := ParseRequest(RequestLine(verb, Spell("/" + (name + "/" + command), how), version));
      && target == ToCore(name, if how[0].Literal? then command else "/" + command)
      && (target == ToCore(name, command) <==> how[0].Literal?)
  {
    hide Spell, Address, SplitString, DecodeFrom, RequestLine, LegalSpelling, ValidGraphName;
    var text := "/" + (name + "/" + command);
    SpelledIsWord(text, how);
    DecodeUndoesSpell("", text, how);
    assert "" + Spell(text, how) == Spell(text, how);
    SplitRequestLine(verb, Spell(text, how), version);
    if how[0].Literal? {
      assert text[1..] == name + "/" + command;
      AddressOfCoreCommand(name, command, i);
    } else {
      AddressKeepsSlash(name, command, i);
    }
  }

  lemma SpelledIsWord(text: string, how: seq<Spelling>)
    requires LegalSpelling(text, how) && text != ""
    ensures Word(Spell(text, how)) && |how| == |text|
  {
    SpellIsPrintable(text, how);
    assert |SpellChar(text[0], how[0])| > 0;
  }

  /** A request that names no core asks for a command by itself. */
  lemma PlainRoundTrip(verb: string, version: string, text: string, how: seq<Spelling>, i: nat)
    requires Word(verb) && Word(version) && Upper(version) in ["HTTP/1.0", "HTTP/1.1"]
    requires '/' !in text && i < |text| && text[i] !in BLANKS
    requires LegalSpelling("/" + text, how) && how[0].Literal?
    ensures ParseRequest(RequestLine(verb, Spell("/" + text, how), version)) == Plain(text)
  {
    hide Spell, DecodeFrom, RequestLine, LegalSpelling;
    SpelledIsWord("/" + text, how);
    DecodeUndoesSpell("", "/" + text, how);
    assert "" + Spell("/" + text, how) == Spell("/" + text, how);
    SplitRequestLine(verb, Spell("/" + text, how), version);
    assert ("/" + text)[1..] == text;
    SplitWordFirst(text, "", {'/'});
    assert text + "" == text;
    SplitFindsWord(text, i, BLANKS);
  }

  /** One legal spelling: only what must not stand for itself is escaped. */
  function Escape(text: string): seq<Spelling> {
    seq(|text|, i requires 0 <= i < |text| =>
      if text[i] == ' ' then Plus else if text[i] == '%' then Percents
      else if text[i] == '+' then Hex('2', 'B') else Literal)
  }

  lemma EscapeIsLegal(text: string)
    requires forall c :: c in text ==> Printable(c)
    ensures LegalSpelling(text, Escape(text))
  {
    forall i | 0 <= i < |text| ensures Printable(text[i]) && Legal(text[i], Escape(text)[i]) {
      assert text[i] in text;
    }
  }

  lemma {:induction false} SpellLiterally(text: string, how: seq<Spelling>)
    requires |how| == |text| && forall i :: 0 <= i < |how| ==> how[i] == Literal
    ensures Spell(text, how) == text
  {
    if text != "" {
      SpellLiterally(text[1..], how[1..]);
      assert [text[0]] + text[1..] == text;
    }
  }

  /** A leading slash spelled %2F, everything else literally. */
  lemma SpellEncodedSlash(text: string, how: seq<Spelling>)
    requires forall i :: 0 <= i < |text| ==> Printable(text[i]) && Legal(text[i], Literal)
    requires |how| == 1 + |text| && how[0] == Hex('2', 'F') && forall i :: 1 <= i < |how| ==> how[i] == Literal
    ensures LegalSpelling("/" + text, how) && Spell("/" + text, how) == "%2F" + text
  {
    assert ("/" + text)[1..] == text;
    SpellLiterally(text, how[1..]);
  }

  lemma WikiLine()
    ensures RequestLine("GET", "%2F" + "wiki/stats", "HTTP/1.0") == "GET %2Fwiki/stats HTTP/1.0\n"
    ensures Word("GET") && Word("HTTP/1.0") && ValidGraphName("wiki")
    ensures "/" + ("wiki" + "/" + "stats") == "/" + "wiki/stats"
  {
  }

  /** So the round trip fails for this request: the core named is asked to run "/stats". */
  lemma EncodedSlashStays()
    ensures ParseRequest("GET %2Fwiki/stats HTTP/1.0\n") == ToCore("wiki", "/stats")
  {
    hide *;
    var text := "wiki/stats";
    var how := [Hex('2', 'F')] + seq(|text|, _ => Literal);
    WikiCharacters(text);
    SpellEncodedSlash(text, how);
    WikiLine();
    UpperVersion();
    AddressRoundTrip("GET", "HTTP/1.0", "wiki", "stats", how, 0);
    assert "/" + "stats" == "/stats";
  }

  lemma UpperVersion()
    ensures Upper("HTTP/1.0") == "HTTP/1.0"
  {
  }

  lemma WikiCharacters(text: string)
    requires text == "wiki/stats"
    ensures forall i :: 0 <= i < |text| ==> Printable(text[i]) && Legal(text[i], Literal)
  {
  }

  // ---------------------------------------------------------------- bad escapes

  /** The sixteen digits, in either case, and nothing else. */
  lemma HexDigits(c: char, d: nat)
    ensures HexDigit(c) == Some(d) <==> d < 16 && (c == "0123456789ABCDEF"[d] || c == "0123456789abcdef"[d])
  {
    if d < 16 {
      var upper, lower := "0123456789ABCDEF"[d], "0123456789abcdef"[d];
      assert d < 10 ==> upper == lower == ('0' as int + d) as char;
      assert d >= 10 ==> upper == ('A' as int + d - 10) as char && lower == ('a' as int + d - 10) as char;
    }
  }

  /** Behind white space stand two hexadecimal digits that make a printable character. */
  predicate HexAt(s: string, k: nat) {
    && k + 1 < |s| && (forall i :: 0 <= i < k ==> IsSpace(s[i]))
    && HexDigit(s[k]).Some? && HexDigit(s[k+1]).Some?
    && Printable((16 * HexDigit(s[k]).value + HexDigit(s[k+1]).value) as char)
  }

  ghost predicate Escapes(s: string) {
    exists k :: HexAt(s, k)
  }

  lemma {:induction false} ScanIsHex(s: string)
    ensures PrintableHex(s).Some? <==> Escapes(s)
    decreases |s|
  {
    if s != "" && IsSpace(s[0]) {
      ScanIsHex(s[1..]);
      assert PrintableHex(s) == PrintableHex(s[1..]);
      if k: nat :| HexAt(s[1..], k) {
        assert forall i :: 1 <= i < k + 1 ==> s[i] == s[1..][i-1];
        assert HexAt(s, k + 1);
      }
      if k: nat :| HexAt(s, k) {
        assert k > 0;
        assert HexAt(s[1..], k - 1);
      }
    } else {
      assert PrintableHex(s).Some? ==> HexAt(s, 0);
      if k: nat :| HexAt(s, k) {
        assert k == 0;
      }
    }
  }

  /** Behind a percent sign: neither another one, nor two digits that can be scanned. */
  ghost predicate BadEscape(rest: string) {
    (rest == "" || rest[0] != '%') && !Escapes(rest)
  }

  lemma BadEscapeFails(before: string, rest: string)
    requires BadEscape(rest)
    ensures DecodeFrom(before + "%" + rest, |before|) == None
  {
    hide Escapes, PrintableHex;
    var uri := before + "%" + rest;
    ScanIsHex(rest);
    assert uri[|before|] == '%' && uri[|before|+1..] == rest;
  }

  /** Whatever legal spelling comes before a bad escape and whatever behind it, the URI is refused. */
  lemma {:induction false} BadEscapeSpoils(before: string, text: string, how: seq<Spelling>, rest: string)
    requires LegalSpelling(text, how) && BadEscape(rest)
    ensures DecodeFrom(before + Spell(text, how) + "%" + rest, |before|) == None
    decreases |text|
  {
    hide SpellChar, Legal, Dropped, BadEscape;
    var uri := before + Spell(text, how) + "%" + rest;
    if text == "" {
      assert before + "" == before;
      BadEscapeFails(before, rest);
    } else {
      var code, more := SpellChar(text[0], how[0]), Spell(text[1..], how[1..]) + "%" + rest;
      assert before + code + more == uri;
      BadEscapeSpoils(before + code, text[1..], how[1..], rest);
      assert before + code + Spell(text[1..], how[1..]) + "%" + rest == uri;
      if Dropped(before, text[0], how[0]) {
        DropOne(before, text[0], how[0], more);
      } else {
        DecodeOne(before, text[0], how[0], more);
      }
    }
  }

  /** A request with a bad escape in its URI is refused, not run. */
  lemma BadEscapeRefused(verb: string, version: string, text: string, how: seq<Spelling>, rest: string)
    requires Word(verb) && Word(version) && Upper(version) in ["HTTP/1.0", "HTTP/1.1"]
    requires LegalSpelling(text, how) && BadEscape(rest) && forall c :: c in rest ==> c !in BLANKS
    ensures ParseRequest(RequestLine(verb, Spell(text, how) + "%" + rest, version)) == BadHex
  {
    hide Spell, DecodeFrom, RequestLine, BadEscape;
    var uri := Spell(text, how) + "%" + rest;
    SpellIsPrintable(text, how);
    assert Word(uri) by {
      assert forall c :: c in uri ==> c in Spell(text, how) || c == '%' || c in rest;
      assert uri[|Spell(text, how)|] == '%';
    }
    BadEscapeSpoils("", text, how, rest);
    assert "" + Spell(text, how) + "%" + rest == uri;
    SplitRequestLine(verb, uri, version);
  }

  /** A request line that is not of three words is refused. */
  lemma ThreeWordsNeeded(line: Line)
    ensures ParseRequest(line) == BadRequest <==> |SplitString(line, BLANKS)| != 3
  {
    hide DecodeFrom, SplitString, Upper;
  }

  /** So is one with another version. */
  lemma OtherVersionRefused(verb: string, uri: string, version: string)
    requires Word(verb) && Word(uri) && Word(version)
    ensures ParseRequest(RequestLine(verb, uri, version)) == BadVersion
      <==> Upper(version) != "HTTP/1.0" && Upper(version) != "HTTP/1.1"
  {
    hide DecodeFrom, SplitString, RequestLine;
    SplitRequestLine(verb, uri, version);
  }
}

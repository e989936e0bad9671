/** The `send` command's path tokenizer: a hand-written loop, the grammar it
    recognises, and the proof that the two are the same. */
module Tokenizer {
  import opened Names

  predicate Blank(c: char) { c == ' ' || c == '\t' }

  predicate Broken(c: char) { c == '"' || c == '\r' || c == '\n' }

  predicate AllBlank(s: string) { forall i | 0 <= i < |s| :: Blank(s[i]) }

  predicate PlainPath(s: string) { s != [] && forall i | 0 <= i < |s| :: !Broken(s[i]) }

  // ---- the grammar: how a list of paths may be written down ----

  datatype Token = Quoted(path: string) | Bare(path: string) {
    predicate WellFormed() {
      PlainPath(path) && (Bare? ==> forall i | 0 <= i < |path| :: !Blank(path[i]))
    }

    function Text(): string {
      if Quoted? then "\"" + path + "\"" else path
    }
  }

  /** Tokens, each with the blanks after it; only the last may have none. */
  datatype Items = Nil | Cons(token: Token, gap: string, rest: Items)

  predicate WellFormedItems(items: Items) {
    match items
    case Nil => true
    case Cons(token, gap, rest) =>
      token.WellFormed() && AllBlank(gap) && (rest.Cons? ==> gap != []) && WellFormedItems(rest)
  }

  function Render(items: Items): string {
    match items
    case Nil => ""
    case Cons(token, gap, rest) => token.Text() + (gap + Render(rest))
  }

  function PathsOf(items: Items): seq<string> {
    match items
    case Nil => []
    case Cons(token, _, rest) => [token.path] + PathsOf(rest)
  }

  ghost predicate Writes(argument: string, paths: seq<string>, lead: string, items: Items) {
    AllBlank(lead) && WellFormedItems(items) && argument == lead + Render(items) && paths == PathsOf(items)
  }

  // ---- a scan by suffixes, the specification of the loop ----

  /** Length of the quoted text at the front of `s`, up to its closing quote. */
  function QuotedLength(s: string): Option<nat> {
    if s == [] || s[0] == '\r' || s[0] == '\n' then None
    else if s[0] == '"' then Some(0)
    else
      match QuotedLength(s[1..])
      case None => None
      case Some(n) => Some(n + 1)
  }

  /** Length of the bare text at the front of `s`, up to a blank or the end. */
  function BareLength(s: string): Option<nat> {
    if s == [] || Blank(s[0]) then Some(0)
    else if Broken(s[0]) then None
    else
      match BareLength(s[1..])
      case None => None
      case Some(n) => Some(n + 1)
  }

  lemma {:induction false} QuotedLengthMeans(s: string, n: nat)
    ensures QuotedLength(s) == Some(n) <==> n < |s| && s[n] == '"' && forall i | 0 <= i < n :: !Broken(s[i])
  {
    if s != [] && !Broken(s[0]) {
      if n > 0 {
        QuotedLengthMeans(s[1..], n - 1);
      }
    }
  }

  lemma {:induction false} BareLengthMeans(s: string, n: nat)
    ensures BareLength(s) == Some(n)
       <==> n <= |s| && (n < |s| ==> Blank(s[n])) && forall i | 0 <= i < n :: !Broken(s[i]) && !Blank(s[i])
  {
    if s != [] && !Broken(s[0]) && !Blank(s[0]) {
      if n > 0 {
        BareLengthMeans(s[1..], n - 1);
      }
    }
  }

  function Prepend(path: string, rest: Option<seq<string>>): Option<seq<string>> {
    match rest
    case None => None
    case Some(paths) => Some([path] + paths)
  }

  function Scan(s: string): Option<seq<string>> {
    if s == [] then Some([])
    else if Blank(s[0]) then Scan(s[1..])
    else if s[0] == '"' then
      match QuotedLength(s[1..])
      case None => None
      case Some(n) =>
        QuotedLengthMeans(s[1..], n);
        if n == 0 || (n + 2 < |s| && !Blank(s[n + 2])) then None
        else Prepend(s[1..n + 1], Scan(s[n + 2..]))
    else
      match BareLength(s)
      case None => None
      case Some(n) =>
        BareLengthMeans(s, n);
        if n == 0 then None else Prepend(s[..n], Scan(s[n..]))
  }

  function Join(done: seq<string>, rest: Option<seq<string>>): Option<seq<string>> {
    match rest
    case None => None
    case Some(paths) => Some(done + paths)
  }

  lemma JoinPrepend(done: seq<string>, path: string, rest: Option<seq<string>>)
    ensures Join(done, Prepend(path, rest)) == Join(done + [path], rest)
  {
    if rest.Some? {
      assert done + ([path] + rest.value) == (done + [path]) + rest.value;
    }
  }

  lemma JoinNothing(rest: Option<seq<string>>)
    ensures Join([], rest) == rest
  {
    if rest.Some? {
      assert [] + rest.value == rest.value;
    }
  }

  /** Skips blanks from `index` on. */
  method SkipBlanks(argument: string, index: nat) returns (next: nat)
    requires index <= |argument|
    ensures index <= next <= |argument|
    ensures next < |argument| ==> !Blank(argument[next])
    ensures Scan(argument[next..]) == Scan(argument[index..])
  {
    next := index;
    while next < |argument| && Blank(argument[next])
      invariant index <= next <= |argument|
      invariant Scan(argument[next..]) == Scan(argument[index..])
    {
      assert argument[next..][1..] == argument[next + 1..];
      next := next + 1;
    }
  }

  /** Finds the closing quote of the text that starts at `start`. */
  method FindClosingQuote(argument: string, start: nat) returns (ok: bool, end: nat)
    requires start <= |argument|
    ensures start <= end <= |argument|
    ensures QuotedLength(argument[start..]) == if ok then Some(end - start) else None
    ensures ok ==> end < |argument| && argument[end] == '"'
  {
    end := start;
    var text := argument[start..];
    while end < |argument| && argument[end] != '"'
      invariant start <= end <= |argument|
      invariant forall i | 0 <= i < end - start :: !Broken(text[i])
    {
      assert text[end - start] == argument[end];
      if argument[end] == '\r' || argument[end] == '\n' {
        NoQuotedText(text, end - start);
        return false, end;
      }
      end := end + 1;
    }
    ok := end < |argument|;
    if ok {
      QuotedLengthMeans(text, end - start);
    } else {
      NoQuotedText(text, end - start);
    }
  }

  /** Finds the end of the bare text that starts at `start`. */
  method FindBareEnd(argument: string, start: nat) returns (ok: bool, end: nat)
    requires start <= |argument|
    ensures start <= end <= |argument|
    ensures BareLength(argument[start..]) == if ok then Some(end - start) else None
    ensures start < |argument| && !Blank(argument[start]) && ok ==> start < end
  {
    end := start;
    var text := argument[start..];
    while end < |argument| && !Blank(argument[end])
      invariant start <= end <= |argument|
      invariant forall i | 0 <= i < end - start :: !Broken(text[i]) && !Blank(text[i])
    {
      assert text[end - start] == argument[end];
      if Broken(argument[end]) {
        NoBareText(text, end - start);
        return false, end;
      }
      end := end + 1;
    }
    BareLengthMeans(text, end - start);
    ok := true;
  }

  /** The source's loop: an index advanced past blanks and tokens, with early rejection. */
  method ParsePathArguments(argument: string) returns (paths: seq<string>, ok: bool)
    ensures ok <==> Scan(argument).Some? && Scan(argument).value != []
    ensures ok ==> paths == Scan(argument).value
  {
    hide QuotedLength, BareLength;
    paths := [];
    var index := 0;
    assert argument[0..] == argument;
    JoinNothing(Scan(argument));
    while index < |argument|
      invariant 0 <= index <= |argument|
      invariant Scan(argument) == Join(paths, Scan(argument[index..]))
    {
      index := SkipBlanks(argument, index);
      if index == |argument| {
        break;
      }
      var here := argument[index..];
      if argument[index] == '"' {
        var start := index + 1;
        assert here[1..] == argument[start..];
        var closed;
        closed, index := FindClosingQuote(argument, start);
        if !closed || index == start {
          return [], false;
        }
        var path := argument[start..index];
        assert here[1..index - start + 1] == path && here[index - start + 2..] == argument[index + 1..];
        JoinPrepend(paths, path, Scan(argument[index + 1..]));
        paths := paths + [path];
        index := index + 1;
        if index < |argument| && !Blank(argument[index]) {
          return [], false;
        }
        continue;
      }
      var start := index;
      var plain;
      plain, index := FindBareEnd(argument, start);
      if !plain {
        return [], false;
      }
      assert here[..index - start] == argument[start..index] && here[index - start..] == argument[index..];
      JoinPrepend(paths, argument[start..index], Scan(argument[index..]));
      paths := paths + [argument[start..index]];
    }
    return paths, |paths| > 0;
  }

  lemma NoQuotedText(s: string, n: nat)
    requires n <= |s| && forall i | 0 <= i < n :: !Broken(s[i])
    requires n < |s| ==> s[n] == '\r' || s[n] == '\n'
    ensures QuotedLength(s) == None
  {
    if QuotedLength(s).Some? {
      QuotedLengthMeans(s, QuotedLength(s).value);
    }
  }

  lemma NoBareText(s: string, n: nat)
    requires n < |s| && Broken(s[n]) && forall i | 0 <= i < n :: !Broken(s[i]) && !Blank(s[i])
    ensures BareLength(s) == None
  {
    if BareLength(s).Some? {
      BareLengthMeans(s, BareLength(s).value);
    }
  }

  // ---- printing and parsing ----

  lemma {:induction false} BlanksAreSkipped(gap: string, s: string)
    requires AllBlank(gap)
    ensures Scan(gap + s) == Scan(s)
  {
    if gap == [] {
      assert gap + s == s;
    } else {
      BlanksAreSkipped(gap[1..], s);
      assert (gap + s)[1..] == gap[1..] + s;
    }
  }

  lemma TokenIsRead(token: Token, s: string)
    requires token.WellFormed() && (s == [] || Blank(s[0]))
    ensures Scan(token.Text() + s) == Prepend(token.path, Scan(s))
  {
    hide QuotedLength, BareLength;
    var n := |token.path|;
    var text := token.Text() + s;
    match token {
      case Quoted(path) =>
        assert text[1..] == path + ("\"" + s);
        QuotedLengthMeans(text[1..], n);
        assert text == "\"" + path + "\"" + s;
        assert text[1..n + 1] == path;
        assert text[n + 2..] == s;
      case Bare(path) =>
        assert text == path + s;
        BareLengthMeans(text, n);
        assert text[..n] == path && text[n..] == s;
    }
  }

  lemma {:induction false} RenderedItemsAreRead(items: Items)
    requires WellFormedItems(items)
    ensures Scan(Render(items)) == Some(PathsOf(items))
  {
    hide QuotedLength, BareLength;
    match items {
      case Nil =>
      case Cons(token, gap, rest) =>
        RenderedItemsAreRead(rest);
        BlanksAreSkipped(gap, Render(rest));
        TokenIsRead(token, gap + Render(rest));
    }
  }

  /** Printing then parsing: every way of writing a list down is read back as that list. */
  lemma RoundTrip(argument: string, paths: seq<string>, lead: string, items: Items)
    requires Writes(argument, paths, lead, items)
    ensures Scan(argument) == Some(paths)
  {
    RenderedItemsAreRead(items);
    BlanksAreSkipped(lead, Render(items));
  }

  /** Parsing then printing: every accepted argument is some way of writing its list. */
  lemma {:induction false} AcceptedIsWritten(s: string) returns (lead: string, items: Items)
    requires Scan(s).Some?
    ensures Writes(s, Scan(s).value, lead, items)
    decreases |s|
  {
    hide QuotedLength, BareLength, PlainPath;
    if s == [] {
      lead, items := [], Nil;
    } else if Blank(s[0]) {
      var blanks;
      blanks, items := AcceptedIsWritten(s[1..]);
      lead := [s[0]] + blanks;
      assert s == [s[0]] + s[1..];
    } else {
      var token, rest := FrontToken(s);
      var gap, others := AcceptedIsWritten(rest);
      lead, items := [], Cons(token, gap, others);
      WrittenWithToken(s, token, rest, gap, others);
    }
  }

  lemma FrontToken(s: string) returns (token: Token, rest: string)
    requires s != [] && !Blank(s[0]) && Scan(s).Some?
    ensures token.WellFormed() && s == token.Text() + rest
    ensures rest == [] || Blank(rest[0])
    ensures Scan(rest).Some? && |rest| < |s|
  {
    if s[0] == '"' {
      var n := QuotedLength(s[1..]).value;
      QuotedLengthMeans(s[1..], n);
      token, rest := Quoted(s[1..n + 1]), s[n + 2..];
      assert forall i | 0 <= i < n :: s[1..n + 1][i] == s[1..][i];
    } else {
      var n := BareLength(s).value;
      BareLengthMeans(s, n);
      token, rest := Bare(s[..n]), s[n..];
    }
  }

  lemma WrittenWithToken(s: string, token: Token, rest: string, gap: string, others: Items)
    requires token.WellFormed() && s == token.Text() + rest
    requires rest == [] || Blank(rest[0])
    requires Scan(rest).Some? && Writes(rest, Scan(rest).value, gap, others)
    ensures Scan(s).Some? && Writes(s, Scan(s).value, [], Cons(token, gap, others))
  {
    hide Scan, Blank, PlainPath;
    TokenIsRead(token, rest);
    if others.Cons? {
      RenderStartsWithToken(others);
    }
    assert s == [] + Render(Cons(token, gap, others));
  }

  lemma RenderStartsWithToken(items: Items)
    requires WellFormedItems(items) && items.Cons?
    ensures Render(items) != [] && !Blank(Render(items)[0])
  {
    assert Render(items)[0] == items.token.Text()[0];
  }

  /** The tokenizer accepts an argument as a list exactly when the argument is a way
      of writing that list down. */
  lemma ParsesIffWritten(argument: string, paths: seq<string>)
    ensures Scan(argument) == Some(paths) <==> exists lead, items :: Writes(argument, paths, lead, items)
  {
    if Scan(argument) == Some(paths) {
      var lead, items := AcceptedIsWritten(argument);
    }
    forall lead, items | Writes(argument, paths, lead, items) ensures Scan(argument) == Some(paths) {
      RoundTrip(argument, paths, lead, items);
    }
  }

  lemma {:induction false} WrittenPathsArePlain(items: Items)
    requires WellFormedItems(items)
    ensures forall path | path in PathsOf(items) :: PlainPath(path)
  {
    if items.Cons? {
      WrittenPathsArePlain(items.rest);
    }
  }

  lemma AcceptedPathsArePlain(argument: string)
    requires Scan(argument).Some?
    ensures forall path | path in Scan(argument).value :: PlainPath(path)
  {
    var lead, items := AcceptedIsWritten(argument);
    WrittenPathsArePlain(items);
  }
}

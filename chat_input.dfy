/** The interactive prompt loops of the two Python clients (`interactive_chat` and
    `chat_loop`): each prompt reads a line, strips it, ends the session on a quit word
    (compared lower-cased), skips an empty line, and otherwise hands the stripped line
    to the chat. */
module ChatInput {
  import opened Wrappers

  /** Python's `str.isspace` for one character: the characters `str.strip()` removes. */
  predicate IsSpace(c: char)
  {
    || ('\U{9}' <= c <= '\U{D}')
    || ('\U{1C}' <= c <= '\U{1F}')
    || c == ' ' || c == '\U{85}' || c == '\U{A0}' || c == '\U{1680}'
    || ('\U{2000}' <= c <= '\U{200A}')
    || c == '\U{2028}' || c == '\U{2029}' || c == '\U{202F}' || c == '\U{205F}' || c == '\U{3000}'
  }

  /** How many whitespace characters `s` starts with. */
  function LeadingSpaces(s: string): (n: nat)
    ensures n <= |s|
    ensures forall k :: 0 <= k < n ==> IsSpace(s[k])
    ensures n == |s| || !IsSpace(s[n])
  {
    if s != [] && IsSpace(s[0]) then 1 + LeadingSpaces(s[1..]) else 0
  }

  /** `s` without its trailing whitespace. */
  function TrimEnd(s: string): (r: string)
    ensures |r| <= |s| && r == s[..|r|]
    ensures r == [] || !IsSpace(r[|r| - 1])
    ensures forall k :: |r| <= k < |s| ==> IsSpace(s[k])
  {
    if s != [] && IsSpace(s[|s| - 1]) then TrimEnd(s[..|s| - 1]) else s
  }

  /** `str.strip()`: the slice of `s` that starts after its leading whitespace and ends
      before its trailing whitespace. */
  function Strip(s: string): (r: string)
    ensures var i := LeadingSpaces(s);
      && i + |r| <= |s|
      && r == s[i..i + |r|]
      && (forall k :: i + |r| <= k < |s| ==> IsSpace(s[k]))
    ensures r == [] || (!IsSpace(r[0]) && !IsSpace(r[|r| - 1]))
  {
    var i := LeadingSpaces(s);
    var r := TrimEnd(s[i..]);
    assert forall k :: i + |r| <= k < |s| ==> IsSpace(s[k]) by {
      forall k | i + |r| <= k < |s| ensures IsSpace(s[k]) {
        assert s[k] == s[i..][k - i];
      }
    }
    r
  }

  lemma StripIdempotent(s: string)
    ensures Strip(Strip(s)) == Strip(s)
  {
    var r := Strip(s);
    if r != [] {
      assert LeadingSpaces(r) == 0;
      assert r[0..] == r;
      assert TrimEnd(r) == r;
    }
  }

  /** Lower-cases an ASCII capital; other characters are kept. */
  function LowerChar(c: char): char
  {
    if 'A' <= c <= 'Z' then (c as int + 32) as char else c
  }

  /** `str.lower()` restricted to ASCII letters. */
  function Lower(s: string): (r: string)
    ensures |r| == |s|
    ensures forall i :: 0 <= i < |s| ==> r[i] == LowerChar(s[i])
  {
    if s == [] then [] else [LowerChar(s[0])] + Lower(s[1..])
  }

  /** What one prompt does. `Retry` is the `except Exception` branch: the error is
      printed and the loop prompts again. */
  datatype Command = Quit | Skip | Ask(query: string) | Retry

  /** One prompt as the source writes it. `input` is the line read, or `None` at end of
      input, where `input()` raises EOFError, an `Exception` the loop catches. */
  function Classify(input: Option<string>, quitWords: seq<string>): (c: Command)
    ensures c == Retry <==> input.None?
    ensures c == Quit <==> input.Some? && Lower(Strip(input.value)) in quitWords
    ensures c == Skip <==> input.Some? && Lower(Strip(input.value)) !in quitWords && Strip(input.value) == ""
    ensures c.Ask? ==> c.query == Strip(input.value) && c.query != ""
  {
    match input
    case None => Retry
    case Some(line) =>
      var stripped := Strip(line);
      if Lower(stripped) in quitWords then Quit
      else if stripped == "" then Skip
      else Ask(stripped)
  }

  /** The line at `pos`, or end of input. */
  function ReadLine(lines: seq<string>, pos: nat): Option<string>
  {
    if pos < |lines| then Some(lines[pos]) else None
  }

  /** The prompt loop as written, for at most `fuel` prompts from line `pos`: the queries
      it hands to the chat once it quits, or `None` while it is still prompting. */
  function RunAsWritten(lines: seq<string>, pos: nat, quitWords: seq<string>, fuel: nat): Option<seq<string>>
    decreases fuel
  {
    if fuel == 0 then None
    else
      match Classify(ReadLine(lines, pos), quitWords)
      case Quit => Some([])
      case Skip => RunAsWritten(lines, pos + 1, quitWords, fuel - 1)
      case Retry => RunAsWritten(lines, pos, quitWords, fuel - 1)
      case Ask(q) =>
        match RunAsWritten(lines, pos + 1, quitWords, fuel - 1)
        case None => None
        case Some(rest) => Some([q] + rest)
  }

  /** As written, a loop that reaches end of input keeps prompting, however many prompts
      it is given. */
  lemma {:induction false} AsWrittenSpinsAtEof(lines: seq<string>, pos: nat, quitWords: seq<string>, fuel: nat)
    requires pos >= |lines|
    ensures RunAsWritten(lines, pos, quitWords, fuel) == None
    decreases fuel
  {
    if fuel > 0 {
      AsWrittenSpinsAtEof(lines, pos, quitWords, fuel - 1);
    }
  }

  /** So an input that holds no quit line never ends the session as written. */
  lemma {:induction false} AsWrittenNeedsQuit(lines: seq<string>, pos: nat, quitWords: seq<string>, fuel: nat)
    requires forall i :: pos <= i < |lines| ==> Lower(Strip(lines[i])) !in quitWords
    ensures RunAsWritten(lines, pos, quitWords, fuel) == None
    decreases fuel
  {
    if fuel > 0 {
      if pos < |lines| {
        AsWrittenNeedsQuit(lines, pos + 1, quitWords, fuel - 1);
      } else {
        AsWrittenSpinsAtEof(lines, pos, quitWords, fuel);
      }
    }
  }

  /** The queries a session hands to the chat when end of input ends it: the stripped,
      non-empty lines before the first quit line, in order. */
  function Asked(lines: seq<string>, quitWords: seq<string>): seq<string>
  {
    if lines == [] then []
    else
      match Classify(Some(lines[0]), quitWords)
      case Ask(q) => [q] + Asked(lines[1..], quitWords)
      case Quit => []
      case Skip => Asked(lines[1..], quitWords)
  }

  /** A query the chat can be handed: non-empty, already stripped, not a quit word. */
  predicate IsQuery(q: string, quitWords: seq<string>)
  {
    q != "" && Strip(q) == q && Lower(q) !in quitWords
  }

  /** The query of one prompt is such a query. */
  lemma AskIsQuery(line: string, quitWords: seq<string>)
    requires Classify(Some(line), quitWords).Ask?
    ensures IsQuery(Classify(Some(line), quitWords).query, quitWords)
  {
    StripIdempotent(line);
  }

  /** Every element of `qs` is such a query. */
  predicate AllQueries(qs: seq<string>, quitWords: seq<string>)
  {
    qs == [] || (IsQuery(qs[0], quitWords) && AllQueries(qs[1..], quitWords))
  }

  /** Every query asked is such a query, and there are no more queries than lines. */
  lemma {:induction false} AskedQueries(lines: seq<string>, quitWords: seq<string>)
    ensures |Asked(lines, quitWords)| <= |lines|
    ensures AllQueries(Asked(lines, quitWords), quitWords)
  {
    if lines != [] {
      var rest := Asked(lines[1..], quitWords);
      AskedQueries(lines[1..], quitWords);
      var c := Classify(Some(lines[0]), quitWords);
      if c.Ask? {
        AskIsQuery(lines[0], quitWords);
        var queries := [c.query] + rest;
        assert Asked(lines, quitWords) == queries;
        assert queries[0] == c.query && queries[1..] == rest;
      } else if c.Quit? {
        assert Asked(lines, quitWords) == [];
      } else {
        assert Asked(lines, quitWords) == rest;
      }
    }
  }

  /** The prompt loop with end of input ending the session. */
  method PromptLoop(lines: seq<string>, quitWords: seq<string>) returns (queries: seq<string>)
    ensures queries == Asked(lines, quitWords)
  {
    queries := [];
    var pos := 0;
    var done := false;
    while !done
      invariant 0 <= pos <= |lines|
      invariant !done ==> queries + Asked(lines[pos..], quitWords) == Asked(lines, quitWords)
      invariant done ==> queries == Asked(lines, quitWords)
      decreases |lines| - pos + (if done then 0 else 1)
    {
      var input := ReadLine(lines, pos);
      var c := if input.None? then Quit else Classify(input, quitWords);
      if pos < |lines| {
        assert lines[pos..][0] == lines[pos] && lines[pos..][1..] == lines[pos + 1..];
        AskedStep(lines[pos..], quitWords);
      } else {
        assert lines[pos..] == [];
      }
      match c {
        case Quit =>
          done := true;
        case Skip =>
          pos := pos + 1;
        case Ask(q) =>
          queries := queries + [q];
          pos := pos + 1;
        case Retry =>
          assert false;
      }
    }
  }

  /** One prompt of the written loop on a line of input. */
  lemma RunAsWrittenStep(lines: seq<string>, pos: nat, quitWords: seq<string>, fuel: nat)
    requires fuel > 0 && pos < |lines|
    ensures var c := Classify(Some(lines[pos]), quitWords);
      var next := RunAsWritten(lines, pos + 1, quitWords, fuel - 1);
      && (c.Ask? && next.Some? ==> RunAsWritten(lines, pos, quitWords, fuel) == Some([c.query] + next.value))
      && (c.Skip? ==> RunAsWritten(lines, pos, quitWords, fuel) == next)
      && (c.Quit? ==> RunAsWritten(lines, pos, quitWords, fuel) == Some([]))
  {
    assert ReadLine(lines, pos) == Some(lines[pos]);
  }

  /** One line of the corrected loop. */
  lemma AskedStep(lines: seq<string>, quitWords: seq<string>)
    requires lines != []
    ensures var c := Classify(Some(lines[0]), quitWords);
      && (c.Ask? ==> Asked(lines, quitWords) == [c.query] + Asked(lines[1..], quitWords))
      && (c.Skip? ==> Asked(lines, quitWords) == Asked(lines[1..], quitWords))
      && (c.Quit? ==> Asked(lines, quitWords) == [])
  {
  }

  /** The two loops take the same step on a line of input. */
  lemma SameStep(c: Command, run: Option<seq<string>>, next: Option<seq<string>>, asked: seq<string>, rest: seq<string>)
    requires !c.Retry?
    requires c.Quit? ==> run == Some([]) && asked == []
    requires c.Skip? ==> run == next && asked == rest
    requires c.Ask? ==> (next.Some? ==> run == Some([c.query] + next.value)) && asked == [c.query] + rest
    requires !c.Quit? ==> next == Some(rest)
    ensures run == Some(asked)
  {
  }

  /** From line `pos` on, with `fuel` prompts, the written loop hands the chat the queries of
      the corrected loop. */
  predicate Agree(lines: seq<string>, pos: nat, quitWords: seq<string>, fuel: nat)
  {
    pos <= |lines| && RunAsWritten(lines, pos, quitWords, fuel) == Some(Asked(lines[pos..], quitWords))
  }

  /** On a quit line both loops stop. */
  lemma AgreeAtQuit(lines: seq<string>, pos: nat, quitWords: seq<string>, fuel: nat)
    requires fuel > 0 && pos < |lines| && Lower(Strip(lines[pos])) in quitWords
    ensures Agree(lines, pos, quitWords, fuel)
  {
    var tail := lines[pos..];
    assert tail[0] == lines[pos];
    RunAsWrittenStep(lines, pos, quitWords, fuel);
    AskedStep(tail, quitWords);
  }

  /** If the loops agree from the next line on (line `next`, with `left` prompts), they
      agree from this one. */
  lemma AgreeFromLine(lines: seq<string>, pos: nat, quitWords: seq<string>, fuel: nat, next: nat, left: nat)
    requires pos < |lines| && next == pos + 1 && fuel == left + 1
    requires Agree(lines, next, quitWords, left)
    ensures Agree(lines, pos, quitWords, fuel)
  {
    var tail := lines[pos..];
    assert tail[0] == lines[pos] && tail[1..] == lines[next..];
    RunAsWrittenStep(lines, pos, quitWords, fuel);
    AskedStep(tail, quitWords);
    SameStep(Classify(Some(lines[pos]), quitWords),
      RunAsWritten(lines, pos, quitWords, fuel), RunAsWritten(lines, next, quitWords, left),
      Asked(tail, quitWords), Asked(lines[next..], quitWords));
  }

  /** Up to end of input the two loops agree: when a quit line follows `pos` and the
      written loop has a prompt for every line up to it, it hands the chat exactly the
      queries of the corrected loop. */
  lemma {:induction false} CorrectedAgrees(lines: seq<string>, pos: nat, quitWords: seq<string>, fuel: nat, q: nat)
    requires pos <= q < |lines| && Lower(Strip(lines[q])) in quitWords && fuel > q - pos
    ensures Agree(lines, pos, quitWords, fuel)
    ensures RunAsWritten(lines, pos, quitWords, fuel) == Some(Asked(lines[pos..], quitWords))
    decreases q - pos
  {
    if pos == q {
      AgreeAtQuit(lines, pos, quitWords, fuel);
    } else {
      var next, left := pos + 1, fuel - 1;
      CorrectedAgrees(lines, next, quitWords, left, q);
      AgreeFromLine(lines, pos, quitWords, fuel, next, left);
    }
  }
}

/** The tokenizer of the REPL: spaces separate arguments, single and double quotes protect. */
module ArgParser {
  import opened Prelude
  import Strings

  predicate IsQuote(c: char) { c == '"' || c == '\'' }

  // ---------------------------------------------------------------------------------------------
  // The scanner, rune by rune.

  datatype Scanner = Scanner(args: seq<string>, current: string, inQuote: bool, quoteChar: char)

  const START := Scanner([], "", false, '\0')

  function Feed(p: Scanner, r: char): Scanner {
    if IsQuote(r) then
      if p.inQuote && r == p.quoteChar then p.(inQuote := false, quoteChar := '\0')
      else if !p.inQuote then p.(inQuote := true, quoteChar := r)
      else p.(current := p.current + [r])
    else if r == ' ' && !p.inQuote then
      if |p.current| > 0 then p.(args := p.args + [p.current], current := "") else p
    else p.(current := p.current + [r])
  }

  function FeedAll(p: Scanner, s: string): Scanner {
    if s == "" then p else Feed(FeedAll(p, s[..|s| - 1]), s[|s| - 1])
  }

  function Finish(p: Scanner): seq<string> {
    if |p.current| > 0 then p.args + [p.current] else p.args
  }

  function Parse(input: string): seq<string> { Finish(FeedAll(START, input)) }

  method ParseArgs(input: string) returns (args: seq<string>)
    ensures args == Parse(input)
    ensures forall i :: 0 <= i < |args| ==> args[i] != ""
  {
    args := [];
    var current, inQuote, quoteChar := "", false, '\0';
    for i := 0 to |input|
      invariant FeedAll(START, input[..i]) == Scanner(args, current, inQuote, quoteChar)
      invariant forall k :: 0 <= k < |args| ==> args[k] != ""
    {
      var r := input[i];
      assert input[..i + 1][..i] == input[..i];
      if r == '"' || r == '\'' {
        if inQuote && r == quoteChar {
          inQuote, quoteChar := false, '\0';
        } else if !inQuote {
          inQuote, quoteChar := true, r;
        } else {
          current := current + [r];
        }
      } else if r == ' ' && !inQuote {
        if |current| > 0 {
          args := args + [current];
          current := "";
        }
      } else {
        current := current + [r];
      }
    }
    assert input[..|input|] == input;
    if |current| > 0 { args := args + [current]; }
  }

  // ---------------------------------------------------------------------------------------------
  // The grammar: what lines mean, without a scanner.

  datatype Piece = Bare(text: string) | Quoted(quote: char, text: string)

  predicate PieceOk(x: Piece) {
    match x
    case Bare(text) => forall i :: 0 <= i < |text| ==> !IsQuote(text[i]) && text[i] != ' '
    case Quoted(quote, text) => IsQuote(quote) && quote !in text
  }

  function RenderPiece(x: Piece): string {
    match x
    case Bare(text) => text
    case Quoted(quote, text) => [quote] + text + [quote]
  }

  /** A word is some pieces without a space between them. */
  type Word = seq<Piece>

  function Render(w: Word): string {
    if w == [] then "" else Render(w[..|w| - 1]) + RenderPiece(w[|w| - 1])
  }

  function Text(w: Word): string {
    if w == [] then "" else Text(w[..|w| - 1]) + w[|w| - 1].text
  }

  predicate WordOk(w: Word) { forall i :: 0 <= i < |w| ==> PieceOk(w[i]) }

  /** A word and the spaces before it; only the first word may come without. */
  datatype Item = Item(spaces: nat, word: Word)

  type Line = seq<Item>

  predicate LineOk(line: Line) {
    forall i :: 0 <= i < |line| ==> WordOk(line[i].word) && (i > 0 ==> line[i].spaces > 0)
  }

  function Spaces(n: nat): string { if n == 0 then "" else Spaces(n - 1) + " " }

  function RenderLine(line: Line): string {
    if line == [] then ""
    else
      var last := line[|line| - 1];
      RenderLine(line[..|line| - 1]) + Spaces(last.spaces) + Render(last.word)
  }

  /** The texts of the words; a word without text, such as a pair of quotes, is no argument. */
  function Texts(line: Line): seq<string> {
    if line == [] then []
    else
      var t := Text(line[|line| - 1].word);
      Texts(line[..|line| - 1]) + if t == "" then [] else [t]
  }

  lemma {:induction false} FeedConcat(p: Scanner, a: string, b: string)
    ensures FeedAll(p, a + b) == FeedAll(FeedAll(p, a), b)
  {
    if b == "" {
      assert a + b == a;
    } else {
      assert (a + b)[..|a + b| - 1] == a + b[..|b| - 1];
      FeedConcat(p, a, b[..|b| - 1]);
    }
  }

  lemma {:induction false} FeedPlain(p: Scanner, s: string)
    requires forall i :: 0 <= i < |s| ==>
      if p.inQuote then s[i] != p.quoteChar else !IsQuote(s[i]) && s[i] != ' '
    ensures FeedAll(p, s) == p.(current := p.current + s)
  {
    if s == "" {
      assert p.current + s == p.current;
    } else {
      FeedPlain(p, s[..|s| - 1]);
      assert p.current + s == p.current + s[..|s| - 1] + [s[|s| - 1]];
    }
  }

  lemma FeedOne(p: Scanner, c: char)
    ensures FeedAll(p, [c]) == Feed(p, c)
  {
    assert [c][..0] == "";
  }

  /** Outside quotes the scanner collects the text of a piece. */
  lemma FeedPiece(p: Scanner, x: Piece)
    requires !p.inQuote && p.quoteChar == '\0' && PieceOk(x)
    ensures FeedAll(p, RenderPiece(x)) == p.(current := p.current + x.text)
  {
    match x
    case Bare(text) => FeedPlain(p, text);
    case Quoted(quote, text) =>
      var open := p.(inQuote := true, quoteChar := quote);
      FeedConcat(p, [quote] + text, [quote]);
      FeedConcat(p, [quote], text);
      FeedOne(p, quote);
      FeedPlain(open, text);
      FeedOne(open.(current := p.current + text), quote);
  }

  lemma {:induction false} FeedWord(p: Scanner, w: Word)
    requires !p.inQuote && p.quoteChar == '\0' && WordOk(w)
    ensures FeedAll(p, Render(w)) == p.(current := p.current + Text(w))
  {
    if w == [] {
      assert p.current + "" == p.current;
    } else {
      var init, x := w[..|w| - 1], w[|w| - 1];
      FeedWord(p, init);
      FeedConcat(p, Render(init), RenderPiece(x));
      FeedPiece(p.(current := p.current + Text(init)), x);
      Associate(p.current, Text(init), x.text);
    }
  }

  lemma {:induction false} FeedSpaces(p: Scanner, n: nat)
    requires !p.inQuote
    ensures FeedAll(p, Spaces(n)) == if n == 0 then p else Feed(p, ' ')
  {
    if n > 0 {
      FeedSpaces(p, n - 1);
      assert Spaces(n)[..|Spaces(n)| - 1] == Spaces(n - 1);
    }
  }

  /** After a line the arguments of all its words are finished, the last one perhaps still being collected. */
  lemma {:induction false} FeedLine(line: Line)
    requires LineOk(line)
    ensures var p := FeedAll(START, RenderLine(line));
      && !p.inQuote && p.quoteChar == '\0' && Finish(p) == Texts(line)
      && (line == [] ==> p == START)
  {
    if line != [] {
      var init, last := line[..|line| - 1], line[|line| - 1];
      FeedLine(init);
      var p := FeedAll(START, RenderLine(init));
      FeedConcat(START, RenderLine(init) + Spaces(last.spaces), Render(last.word));
      FeedConcat(START, RenderLine(init), Spaces(last.spaces));
      FeedSpaces(p, last.spaces);
      var q := FeedAll(p, Spaces(last.spaces));
      assert q.args == Texts(init) && q.current == "" && !q.inQuote && q.quoteChar == '\0';
      FeedWord(q, last.word);
      assert "" + Text(last.word) == Text(last.word);
    }
  }

  /** Parsing a line gives the texts of its words. */
  lemma ParseInvertsRender(line: Line)
    requires LineOk(line)
    ensures Parse(RenderLine(line)) == Texts(line)
  {
    FeedLine(line);
  }

  /** Every input is a line, possibly followed by a quote that is never closed. */
  lemma {:induction false} EveryInputIsALine(s: string) returns (line: Line, open: Option<Piece>)
    ensures LineOk(line)
    ensures open.Some? ==> open.value.Quoted? && PieceOk(open.value)
    ensures s == RenderLine(line) + if open.Some? then [open.value.quote] + open.value.text else ""
  {
    if s == "" {
      line, open := [], None;
    } else {
      var c := s[|s| - 1];
      line, open := EveryInputIsALine(s[..|s| - 1]);
      assert s == s[..|s| - 1] + [c];
      match open {
        case Some(x) =>
          if c == x.quote {
            line := AddPiece(line, x);
            open := None;
          } else {
            open := Some(Quoted(x.quote, x.text + [c]));
          }
        case None =>
          if IsQuote(c) {
            open := Some(Quoted(c, ""));
          } else if c == ' ' {
            line := AddSpace(line);
          } else {
            line := AddPiece(line, Bare([c]));
          }
      }
    }
  }

  /** Begin a new word. */
  lemma AddSpace(line: Line) returns (longer: Line)
    requires LineOk(line)
    ensures LineOk(longer) && RenderLine(longer) == RenderLine(line) + " "
  {
    longer := line + [Item(1, [])];
    assert longer[..|longer| - 1] == line;
    assert Spaces(1) == Spaces(0) + " " == " ";
    assert Render([]) == "";
  }

  lemma RenderNext(w: Word, x: Piece)
    ensures Render(w + [x]) == Render(w) + RenderPiece(x)
  {
    assert (w + [x])[..|w|] == w;
  }

  lemma RenderLineNext(init: Line, last: Item)
    ensures RenderLine(init + [last]) == RenderLine(init) + Spaces(last.spaces) + Render(last.word)
  {
    assert (init + [last])[..|init|] == init;
  }

  lemma ExtendLast(init: Line, last: Item, x: Piece)
    ensures RenderLine(init + [Item(last.spaces, last.word + [x])]) == RenderLine(init + [last]) + RenderPiece(x)
  {
    RenderLineNext(init, last);
    RenderLineNext(init, Item(last.spaces, last.word + [x]));
    RenderNext(last.word, x);
    Associate(RenderLine(init) + Spaces(last.spaces), Render(last.word), RenderPiece(x));
  }

  lemma ExtendOk(init: Line, last: Item, x: Piece)
    requires LineOk(init + [last]) && PieceOk(x)
    ensures LineOk(init + [Item(last.spaces, last.word + [x])])
  {
    var line, longer := init + [last], init + [Item(last.spaces, last.word + [x])];
    assert line[|init|] == last;
    forall i | 0 <= i < |longer| ensures WordOk(longer[i].word) && (i > 0 ==> longer[i].spaces > 0) {
      assert i < |init| ==> longer[i] == line[i];
    }
  }

  lemma StartWord(x: Piece) returns (line: Line)
    requires PieceOk(x)
    ensures LineOk(line) && RenderLine(line) == RenderPiece(x)
  {
    line := [Item(0, [x])];
    assert [] + [Item(0, [x])] == line && [] + [x] == [x];
    RenderLineNext([], Item(0, [x]));
    RenderNext([], x);
    assert "" + RenderPiece(x) == RenderPiece(x);
  }

  /** Append a piece to the last word. */
  lemma AddPiece(line: Line, x: Piece) returns (longer: Line)
    requires LineOk(line) && PieceOk(x)
    ensures LineOk(longer) && RenderLine(longer) == RenderLine(line) + RenderPiece(x)
  {
    if line == [] {
      longer := StartWord(x);
      assert "" + RenderPiece(x) == RenderPiece(x);
    } else {
      var init, last := line[..|line| - 1], line[|line| - 1];
      assert line == init + [last];
      longer := init + [Item(last.spaces, last.word + [x])];
      ExtendOk(init, last, x);
      ExtendLast(init, last, x);
    }
  }

  /** A quote left open reads as if it were closed at the end of the input. */
  lemma OpenQuoteClosesAtTheEnd(line: Line, x: Piece)
    requires LineOk(line) && x.Quoted? && PieceOk(x)
    ensures Parse(RenderLine(line) + [x.quote] + x.text) == Parse(RenderLine(line) + RenderPiece(x))
  {
    FeedLine(line);
    var p := FeedAll(START, RenderLine(line));
    var open := [x.quote] + x.text;
    Associate(RenderLine(line), [x.quote], x.text);
    FeedConcat(START, RenderLine(line), open);
    FeedConcat(START, RenderLine(line), open + [x.quote]);
    FeedConcat(p, open, [x.quote]);
    FeedConcat(p, [x.quote], x.text);
    FeedOne(p, x.quote);
    FeedPlain(Feed(p, x.quote), x.text);
    FeedOne(FeedAll(p, open), x.quote);
  }

  // ---------------------------------------------------------------------------------------------
  // Quoting.

  function QuoteChar(c: char): Piece { if c == '"' then Quoted('\'', [c]) else Quoted('"', [c]) }

  /** Each character quoted on its own. */
  function Quote(arg: string): Word { seq(|arg|, i requires 0 <= i < |arg| => QuoteChar(arg[i])) }

  function QuoteLine(args: seq<string>): Line {
    seq(|args|, i requires 0 <= i < |args| => Item(if i == 0 then 0 else 1, Quote(args[i])))
  }

  lemma {:induction false} QuoteText(arg: string)
    ensures Text(Quote(arg)) == arg
  {
    if arg != "" {
      var init := arg[..|arg| - 1];
      QuoteText(init);
      assert Quote(arg)[..|arg| - 1] == Quote(init);
    }
  }

  lemma {:induction false} QuoteTexts(args: seq<string>)
    requires forall i :: 0 <= i < |args| ==> args[i] != ""
    ensures Texts(QuoteLine(args)) == args
  {
    if args != [] {
      var init := args[..|args| - 1];
      QuoteTexts(init);
      QuoteText(args[|args| - 1]);
      assert QuoteLine(args)[..|args| - 1] == QuoteLine(init);
    }
  }

  /** Quoting any list of non-empty arguments, whatever characters they contain, and parsing gives the list back;
      so quoting and parsing again what Parse returns changes nothing. */
  lemma QuotingRoundTrip(args: seq<string>)
    requires forall i :: 0 <= i < |args| ==> args[i] != ""
    ensures Parse(RenderLine(QuoteLine(args))) == args
  {
    ParseInvertsRender(QuoteLine(args));
    QuoteTexts(args);
  }

  lemma {:induction false} ParsedArgsAreNotEmpty(input: string)
    ensures forall i :: 0 <= i < |FeedAll(START, input).args| ==> FeedAll(START, input).args[i] != ""
    ensures forall i :: 0 <= i < |Parse(input)| ==> Parse(input)[i] != ""
  {
    if input != "" { ParsedArgsAreNotEmpty(input[..|input| - 1]); }
  }

  lemma RequotingIsIdentity(input: string)
    ensures Parse(RenderLine(QuoteLine(Parse(input)))) == Parse(input)
  {
    ParsedArgsAreNotEmpty(input);
    QuotingRoundTrip(Parse(input));
  }

  /** Quotes of either kind keep everything but themselves, spaces and the other kind included. */
  lemma QuotesKeepTheirText(text: string)
    requires text != ""
    ensures '\'' !in text ==> Parse("'" + text + "'") == [text]
    ensures '"' !in text ==> Parse("\"" + text + "\"") == [text]
  {
    if '\'' !in text { OnePiece(Quoted('\'', text)); }
    if '"' !in text { OnePiece(Quoted('"', text)); }
  }

  lemma OnePiece(x: Piece)
    requires PieceOk(x) && x.text != ""
    ensures Parse(RenderPiece(x)) == [x.text]
  {
    FeedPiece(START, x);
    assert "" + x.text == x.text;
  }

  /** A word without a space or a quote. */
  predicate IsBare(word: string) {
    word != "" && ' ' !in word && '"' !in word && '\'' !in word
  }

  lemma BareLast(p: Scanner, word: string)
    requires !p.inQuote && p.quoteChar == '\0' && p.current == "" && IsBare(word)
    ensures FeedAll(p, word) == p.(current := word)
  {
    FeedPiece(p, Bare(word));
    assert "" + word == word;
  }

  lemma FeedSpacedWord(p: Scanner, word: string)
    requires !p.inQuote && p.quoteChar == '\0' && p.current == "" && IsBare(word)
    ensures FeedAll(p, word + " ") == p.(args := p.args + [word])
  {
    BareLast(p, word);
    FeedOne(p.(current := word), ' ');
    FeedConcat(p, word, " ");
  }

  lemma {:induction false} FeedBareWords(p: Scanner, words: seq<string>)
    requires !p.inQuote && p.quoteChar == '\0' && p.current == ""
    requires forall i :: 0 <= i < |words| ==> IsBare(words[i])
    ensures Finish(FeedAll(p, Strings.Join(words, ' '))) == p.args + words
    decreases words
  {
    if words == [] {
      assert p.args + [] == p.args;
    } else if |words| == 1 {
      BareLast(p, words[0]);
      assert words == [words[0]];
    } else {
      var spaced, rest, others := words[0] + " ", Strings.Join(words[1..], ' '), words[1..];
      var q := p.(args := p.args + [words[0]]);
      assert Strings.Join(words, ' ') == spaced + rest;
      FeedSpacedWord(p, words[0]);
      FeedConcat(p, spaced, rest);
      FeedBareWords(q, others);
      assert q.args + others == p.args + words;
    }
  }

  /** Words without spaces and quotes, separated by single spaces, are their own arguments. */
  lemma BareWordsParse(words: seq<string>)
    requires forall i :: 0 <= i < |words| ==> IsBare(words[i])
    ensures Parse(Strings.Join(words, ' ')) == words
  {
    FeedBareWords(START, words);
    assert [] + words == words;
  }
}

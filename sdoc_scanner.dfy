/**
 * The scanner that feeds the documentation-comment (SDoc) parser of the
 * JavaScript editor.
 *
 * It merges two lexers: a primary lexer over the whole comment and a type
 * lexer that is run over the range of each `TYPES` token.  Symbols still to
 * be handed out wait in a FIFO queue, which `NextToken` drains before it
 * reads the primary lexer again.  Every symbol's positions are shifted by a
 * caller-supplied offset.
 *
 * The rules of the two lexers are not part of this model: each is given as
 * the sequence of tokens it produces (see `Lexer` and `TypeLexer`).
 */
module SDocScanning {

  import opened Wrappers

  /** The token types the scanner tests for by name; every other type is `Other`. */
  datatype SDocTokenType = Whitespace | Types | EndOfFile | Other(name: string)

  /**
   * What a lexer token carries: the shared end-of-input token (`Token.EOF`),
   * some other token with no data, or a token whose data is its type.
   */
  datatype TokenData = EndToken | NoData | Typed(tokenType: SDocTokenType)

  /** A lexer token with the offset and length the lexer reports for it. */
  datatype Token = Token(data: TokenData, offset: int, length: int)

  /** A parser symbol: its type, first and last position, and its text. */
  datatype Symbol = Symbol(id: SDocTokenType, start: int, end: int, value: string)

  /** What one call of `NextToken` yields: a symbol, `null`, or a thrown scanner exception. */
  datatype Scanned = Produced(symbol: Symbol) | NoSymbol | ScannerException

  /** The tokens the primary lexer produces over a whole document. */
  type Lexer = string -> seq<Token>

  /** The tokens the type lexer produces over a document range (offset, length). */
  type TypeLexer = (string, int, int) -> seq<Token>

  /** A token with no data stands for the end of the input. */
  function TypeOf(data: TokenData): SDocTokenType
  {
    if data.Typed? then data.tokenType else EndOfFile
  }

  /**
   * The symbol for a token of type `t` at (`offset`, `length`), its positions
   * shifted by `shift`, and the text of that range; None where the range
   * lies outside the document (where `IDocument.get` throws).
   */
  function MakeSymbol(document: string, shift: int, t: SDocTokenType, offset: int, length: int): (r: Option<Symbol>)
    ensures r.Some? <==> 0 <= offset && 0 <= length && offset + length <= |document|
    ensures r.Some? ==> r.value.id == t && r.value.start == offset + shift
    ensures r.Some? ==> r.value.end == offset + shift + length - 1
    ensures r.Some? ==> r.value.value == document[offset..offset + length]
    ensures r.Some? ==> |r.value.value| == r.value.end - r.value.start + 1
  {
    if 0 <= offset && 0 <= length && offset + length <= |document|
    then Some(Symbol(t, offset + shift, offset + shift + length - 1, document[offset..offset + length]))
    else None
  }

  /**
   * The symbol for a token of the primary lexer: its offset is first clamped
   * to the document length and a length of -1 is read as 0.
   */
  function PrimarySymbol(document: string, shift: int, t: SDocTokenType, offset: int, length: int): (r: Option<Symbol>)
    ensures r.Some? <==>
      0 <= offset && (length == -1 || 0 <= length) &&
      (offset > |document| ==> length <= 0) &&
      (offset <= |document| ==> offset + length <= |document|)
    ensures r.Some? ==> r.value.id == t && shift <= r.value.start <= shift + |document|
    ensures r.Some? && offset <= |document| ==> r.value.start == offset + shift
    ensures r.Some? && offset > |document| ==> r.value.start == |document| + shift
    ensures r.Some? && length != -1 ==> r.value.end == r.value.start + length - 1
    ensures r.Some? && length == -1 ==> r.value.end == r.value.start - 1 && r.value.value == ""
    ensures r.Some? && offset <= |document| && length != -1 ==> r.value.value == document[offset..offset + length]
    ensures r.Some? && offset > |document| ==> r.value.value == ""
  {
    var clamped := if offset > |document| then |document| else offset;
    var normalised := if length == -1 then 0 else length;
    MakeSymbol(document, shift, t, clamped, normalised)
  }

  /** The symbols queued from the type lexer, and whether the lexer's tokens were all converted. */
  datatype Queued = Queued(symbols: seq<Symbol>, complete: bool)

  /**
   * The symbols for the type lexer's tokens up to its end-of-input token;
   * the conversion stops, incomplete, at the first token whose range lies
   * outside the document.
   */
  function TypeSymbols(document: string, shift: int, tokens: seq<Token>): Queued
    decreases |tokens|
  {
    if tokens == [] || tokens[0].data == EndToken then Queued([], true)
    else
      match MakeSymbol(document, shift, TypeOf(tokens[0].data), tokens[0].offset, tokens[0].length)
      case None => Queued([], false)
      case Some(s) =>
        var rest := TypeSymbols(document, shift, tokens[1..]);
        Queued([s] + rest.symbols, rest.complete)
  }

  /**
   * The queued symbols are those of the leading tokens, in production order;
   * a complete conversion stopped at the end of the tokens or at the
   * end-of-input token, an incomplete one at a token outside the document.
   */
  lemma {:induction false} TypeSymbolsFollowTokens(document: string, shift: int, tokens: seq<Token>)
    ensures var q := TypeSymbols(document, shift, tokens);
      && |q.symbols| <= |tokens|
      && (forall i :: 0 <= i < |q.symbols| ==>
            tokens[i].data != EndToken &&
            MakeSymbol(document, shift, TypeOf(tokens[i].data), tokens[i].offset, tokens[i].length)
              == Some(q.symbols[i]))
      && (q.complete ==> |q.symbols| == |tokens| || tokens[|q.symbols|].data == EndToken)
      && (!q.complete ==>
            && |q.symbols| < |tokens|
            && tokens[|q.symbols|].data != EndToken
            && MakeSymbol(document, shift, TypeOf(tokens[|q.symbols|].data),
                          tokens[|q.symbols|].offset, tokens[|q.symbols|].length) == None)
    decreases |tokens|
  {
    if tokens != [] && tokens[0].data != EndToken {
      TypeSymbolsFollowTokens(document, shift, tokens[1..]);
    }
  }

  /**
   * The index of the first token at or after `k` that is not whitespace, or
   * `|tokens|` when only whitespace is left.
   */
  function SkipWhitespace(tokens: seq<Token>, k: nat): (r: nat)
    requires k <= |tokens|
    ensures k <= r <= |tokens|
    ensures forall i :: k <= i < r ==> tokens[i].data == Typed(Whitespace)
    ensures r < |tokens| ==> tokens[r].data != Typed(Whitespace)
    decreases |tokens| - k
  {
    if k < |tokens| && tokens[k].data == Typed(Whitespace) then SkipWhitespace(tokens, k + 1) else k
  }

  /** The primary lexer's `k`-th token; past its tokens it keeps returning the end-of-input token. */
  function TokenAt(document: string, tokens: seq<Token>, k: nat): Token
  {
    if k < |tokens| then tokens[k] else Token(EndToken, |document|, 0)
  }

  /** The cursor of the primary lexer after it has returned its `k`-th token. */
  function After(tokens: seq<Token>, k: nat): nat
  {
    if k < |tokens| then k + 1 else k
  }

  /** The scanner's result, queue and primary-lexer cursor after one call. */
  datatype Step = Step(result: Scanned, queue: seq<Symbol>, cursor: nat)

  /**
   * One call of `NextToken` on an empty queue: skip whitespace, then either
   * expand a `TYPES` token through the type lexer (returning the first of its
   * symbols and queueing the others) or turn the token into a symbol.
   */
  function Pull(document: string, shift: int, tokens: seq<Token>, cursor: nat, typeLexer: TypeLexer): Step
    requires cursor <= |tokens|
  {
    var k := SkipWhitespace(tokens, cursor);
    var token := TokenAt(document, tokens, k);
    var t := TypeOf(token.data);
    if t == Types then
      var q := TypeSymbols(document, shift, typeLexer(document, token.offset, token.length));
      if !q.complete then Step(ScannerException, q.symbols, After(tokens, k))
      else if q.symbols == [] then Step(NoSymbol, [], After(tokens, k))
      else Step(Produced(q.symbols[0]), q.symbols[1..], After(tokens, k))
    else
      match PrimarySymbol(document, shift, t, token.offset, token.length)
      case None => Step(ScannerException, [], After(tokens, k))
      case Some(s) => Step(Produced(s), [], After(tokens, k))
  }

  /** The token `Pull` acts on: the first non-whitespace one from `cursor`. */
  function Chosen(document: string, tokens: seq<Token>, cursor: nat): Token
    requires cursor <= |tokens|
  {
    TokenAt(document, tokens, SkipWhitespace(tokens, cursor))
  }

  /**
   * A symbol made from a primary token is never whitespace nor `TYPES`, one
   * made from a token with no data is an end-of-file symbol, and
   * the cursor has moved past every whitespace token before it and past the
   * token itself.
   */
  lemma PrimaryResultNotWhitespace(document: string, shift: int, tokens: seq<Token>, cursor: nat, typeLexer: TypeLexer)
    requires cursor <= |tokens|
    requires TypeOf(Chosen(document, tokens, cursor).data) != Types
    ensures var s := Pull(document, shift, tokens, cursor, typeLexer);
      && s.queue == []
      && (s.result.Produced? ==> s.result.symbol.id != Whitespace && s.result.symbol.id != Types)
      && (!Chosen(document, tokens, cursor).data.Typed? && s.result.Produced? ==> s.result.symbol.id == EndOfFile)
      && cursor <= s.cursor <= |tokens|
      && (forall i :: cursor <= i < s.cursor - 1 ==> tokens[i].data == Typed(Whitespace))
      && (s.cursor < |tokens| ==> s.cursor > cursor && tokens[s.cursor - 1].data != Typed(Whitespace))
  {
    var k := SkipWhitespace(tokens, cursor);
    var token := TokenAt(document, tokens, k);
    assert token.data != Typed(Whitespace);
  }

  /**
   * A `TYPES` token is replaced by the type lexer's symbols over its range:
   * all of them are handed out, the first now and the rest from the queue,
   * in production order; with none, the result is `null`.
   */
  lemma TypesTokenExpanded(document: string, shift: int, tokens: seq<Token>, cursor: nat, typeLexer: TypeLexer)
    requires cursor <= |tokens|
    requires TypeOf(Chosen(document, tokens, cursor).data) == Types
    ensures var token := Chosen(document, tokens, cursor);
      var q := TypeSymbols(document, shift, typeLexer(document, token.offset, token.length));
      var s := Pull(document, shift, tokens, cursor, typeLexer);
      && (s.result == ScannerException <==> !q.complete)
      && (s.result.Produced? ==> [s.result.symbol] + s.queue == q.symbols)
      && (s.result == NoSymbol <==> q.complete && q.symbols == [])
      && (s.result == ScannerException ==> s.queue == q.symbols)
  {
    var token := Chosen(document, tokens, cursor);
    var q := TypeSymbols(document, shift, typeLexer(document, token.offset, token.length));
    if q.complete && q.symbols != [] {
      assert [q.symbols[0]] + q.symbols[1..] == q.symbols;
    }
  }

  /**
   * Once only whitespace is left, every call yields the end-of-file symbol:
   * empty, at the end of the document, with `end == start - 1`.
   */
  lemma EndOfInputSymbol(document: string, shift: int, tokens: seq<Token>, cursor: nat, typeLexer: TypeLexer)
    requires cursor <= |tokens|
    requires forall i :: cursor <= i < |tokens| ==> tokens[i].data == Typed(Whitespace)
    ensures Pull(document, shift, tokens, cursor, typeLexer)
         == Step(Produced(Symbol(EndOfFile, |document| + shift, |document| + shift - 1, "")), [], |tokens|)
  {
  }

  /** Changing the position shift moves every symbol by the same amount and changes nothing else. */
  lemma ShiftMovesSymbol(document: string, shift: int, delta: int, t: SDocTokenType, offset: int, length: int)
    ensures var a := PrimarySymbol(document, shift, t, offset, length);
      var b := PrimarySymbol(document, shift + delta, t, offset, length);
      && a.Some? == b.Some?
      && (a.Some? ==> b.value == a.value.(start := a.value.start + delta, end := a.value.end + delta))
  {
  }

  /**
   * The scanner object: the document, the two lexers, the primary lexer's
   * cursor, the queue of pending symbols and the position shift.
   */
  class SDocScanner {

    /** The rules of the primary lexer. */
    const lexer: Lexer
    /** The rules of the type lexer. */
    const typeLexer: TypeLexer

    var document: string
    /** False until `SetSource` has given the scanner a document. */
    var hasSource: bool
    /** The primary lexer's tokens over the document, and how many it has returned. */
    var tokens: seq<Token>
    var cursor: nat
    /** Symbols waiting to be returned, oldest first. */
    var queue: seq<Symbol>
    /** The shift applied to every symbol position. */
    var offset: int

    ghost predicate Valid()
      reads this
    {
      cursor <= |tokens| && (hasSource ==> tokens == lexer(document))
    }

    constructor (lexer: Lexer, typeLexer: TypeLexer)
      ensures Valid() && !hasSource
      ensures this.lexer == lexer && this.typeLexer == typeLexer
      ensures queue == [] && offset == 0
    {
      this.lexer := lexer;
      this.typeLexer := typeLexer;
      document := "";
      hasSource := false;
      tokens := [];
      cursor := 0;
      queue := [];
      offset := 0;
    }

    /** Sets the shift applied to the positions of all later symbols. */
    method SetOffset(newOffset: int)
      requires Valid()
      modifies this`offset
      ensures Valid() && offset == newOffset
    {
      offset := newOffset;
    }

    /**
     * Scans `text` from now on: the primary lexer restarts over the whole
     * document; pending symbols and the shift are kept.
     */
    method SetSource(text: string)
      requires Valid()
      modifies this`document, this`tokens, this`cursor, this`hasSource
      ensures Valid() && hasSource
      ensures document == text && tokens == lexer(text) && cursor == 0
    {
      document := text;
      tokens := lexer(text);
      cursor := 0;
      hasSource := true;
    }

    /** The primary lexer's next token. */
    method ReadToken() returns (token: Token)
      requires Valid()
      modifies this`cursor
      ensures Valid()
      ensures token == TokenAt(document, tokens, old(cursor)) && cursor == After(tokens, old(cursor))
    {
      token := TokenAt(document, tokens, cursor);
      if cursor < |tokens| {
        cursor := cursor + 1;
      }
    }

    /**
     * Runs the type lexer over (`typesOffset`, `typesLength`) and queues a
     * symbol for each of its tokens; false where a token's range lies outside
     * the document (the symbols queued before it stay queued).
     */
    method QueueTypeTokens(typesOffset: int, typesLength: int) returns (ok: bool)
      requires Valid()
      modifies this`queue
      ensures Valid()
      ensures var q := TypeSymbols(document, offset, typeLexer(document, typesOffset, typesLength));
        queue == old(queue) + q.symbols && ok == q.complete
    {
      var typeTokens := typeLexer(document, typesOffset, typesLength);
      var j := 0;
      while j < |typeTokens| && typeTokens[j].data != EndToken
        invariant 0 <= j <= |typeTokens|
        invariant var all := TypeSymbols(document, offset, typeTokens);
          var rest := TypeSymbols(document, offset, typeTokens[j..]);
          queue + rest.symbols == old(queue) + all.symbols && rest.complete == all.complete
        decreases |typeTokens| - j
      {
        var token := typeTokens[j];
        var symbol := MakeSymbol(document, offset, TypeOf(token.data), token.offset, token.length);
        if symbol.None? {
          return false;
        }
        assert typeTokens[j..][1..] == typeTokens[j + 1..];
        queue := queue + [symbol.value];
        j := j + 1;
      }
      ok := true;
    }

    /**
     * The next symbol for the parser: the head of the queue if there is one,
     * otherwise the next symbol made from the primary lexer's tokens.
     */
    method NextToken() returns (r: Scanned)
      requires Valid() && hasSource
      modifies this`queue, this`cursor
      ensures Valid()
      ensures old(queue) != [] ==> r == Produced(old(queue)[0]) && queue == old(queue)[1..] && cursor == old(cursor)
      ensures old(queue) == [] ==> Step(r, queue, cursor) == Pull(document, offset, tokens, old(cursor), typeLexer)
    {
      if |queue| > 0 {
        r := Produced(queue[0]);
        queue := queue[1..];
        return;
      }
      ghost var start := cursor;
      ghost var k := cursor;
      var token := ReadToken();
      while token.data == Typed(Whitespace)
        invariant Valid() && queue == []
        invariant start <= k <= |tokens| && token == TokenAt(document, tokens, k) && cursor == After(tokens, k)
        invariant forall i :: start <= i < k ==> tokens[i].data == Typed(Whitespace)
        decreases |tokens| - k
      {
        k := k + 1;
        token := ReadToken();
      }
      assert k == SkipWhitespace(tokens, start);
      var t := TypeOf(token.data);
      if t == Types {
        var ok := QueueTypeTokens(token.offset, token.length);
        if !ok {
          r := ScannerException;
        } else if |queue| > 0 {
          r := Produced(queue[0]);
          queue := queue[1..];
        } else {
          r := NoSymbol;
        }
      } else {
        var symbol := PrimarySymbol(document, offset, t, token.offset, token.length);
        r := if symbol.Some? then Produced(symbol.value) else ScannerException;
      }
    }
  }
}

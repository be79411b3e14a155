/** The part of the PHP_CodeSniffer host that a sniff talks to: the token
    stream of one file with its bracket-matching annotation, the forward
    token search, and the file's warning sink. Tokenizing, bracket matching
    and reporting are the host's business; here they are inputs. */
module CodeSniffer {

  /** One byte of source text; PHP strings, and `strlen`, work on bytes. */
  newtype byte = b: int | 0 <= b < 256

  datatype Option<+T> = None | Some(value: T)

  /** The bytes of a literal whose characters are all single bytes. */
  function Ascii(s: string): (r: seq<byte>)
    requires forall i | 0 <= i < |s| :: s[i] as int < 256
    ensures |r| == |s|
    ensures forall i | 0 <= i < |s| :: r[i] as int == s[i] as int
  {
    seq(|s|, i requires 0 <= i < |s| => s[i] as int as byte)
  }

  /** The token kinds a sniff of this project looks at; every other kind
      the tokenizer produces is `Other`, carrying its host name. An `Other`
      name is never one of the four host names listed below: a token of
      those kinds is always built with its own constructor. */
  datatype TokenType =
    | Foreach            // T_FOREACH
    | OpenParenthesis    // T_OPEN_PARENTHESIS
    | CloseParenthesis   // T_CLOSE_PARENTHESIS
    | Variable           // T_VARIABLE
    | Other(name: string)

  /** An entry of the host's token array: its `type`, its raw `content`
      and, on an opening parenthesis, the `parenthesis_closer` index the
      host's bracket matcher recorded, if it found one. */
  datatype Token = Token(kind: TokenType, content: seq<byte>, closer: Option<nat>)

  /** The warning codes passed to `addWarning`. The host accepts any
      string; these three are the only ones the sniff of this model uses. */
  datatype Code =
    | MissingOpenParenthesis
    | MissingCloseParenthesis
    | GenericVariableNamesInForEachLoop

  /** What a sniff reports through `addWarning`: the token index it is
      attributed to, the warning code and the message arguments.
      The message text and the severity are not modelled. */
  datatype Warning = Warning(position: nat, code: Code, args: seq<seq<byte>>)

  /** The host's bracket-matching invariant on opening parentheses: a
      recorded closer lies after its opener and no further than the end of
      the token array. (The host also annotates closing parentheses; those
      annotations are not constrained here.) */
  predicate ClosersInRange(tokens: seq<Token>)
  {
    forall i | 0 <= i < |tokens| && tokens[i].kind == OpenParenthesis && tokens[i].closer.Some? ::
      i < tokens[i].closer.value <= |tokens|
  }

  /** `File::findNext` with one type: the least index at or after `start`
      whose token has kind `kind`, or None when there is none. */
  function FindNext(tokens: seq<Token>, kind: TokenType, start: nat): (r: Option<nat>)
    ensures r.Some? ==> start <= r.value < |tokens| && tokens[r.value].kind == kind
    ensures forall j | start <= j < |tokens| && (r.None? || j < r.value) ::
      tokens[j].kind != kind
    decreases |tokens| - start
  {
    if start >= |tokens| then None
    else if tokens[start].kind == kind then Some(start)
    else FindNext(tokens, kind, start + 1)
  }

  /** The file being scanned: its token array, and the warnings reported
      against it so far, which sniffs can only append to. */
  class File {
    var tokens: seq<Token>
    var warnings: seq<Warning>

    constructor (tokens: seq<Token>)
      ensures this.tokens == tokens && warnings == []
    {
      this.tokens := tokens;
      warnings := [];
    }

    /** `File::addWarning`: appends one warning and touches nothing else. */
    method AddWarning(position: nat, code: Code, args: seq<seq<byte>>)
      modifies this`warnings
      ensures warnings == old(warnings) + [Warning(position, code, args)]
    {
      warnings := warnings + [Warning(position, code, args)];
    }
  }
}

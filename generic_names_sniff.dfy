/** The sniff DisallowGenericVariableNamesInForEachLoop: on each `foreach`
    token it finds the loop header, the tokens from the opening parenthesis
    up to (not including) its matching closer, and warns about every
    variable there whose name is at most two bytes long (`$k`, `$v`) or is
    one of the generic names `$value` and `$key`. */
module DisallowGenericVariableNamesInForEachLoop {
  import opened CodeSniffer

  // The blacklisted names, sigil included.
  const DollarValue: seq<byte> := Ascii("$value")
  const DollarKey: seq<byte> := Ascii("$key")

  /** The token kinds the sniff listens for: `foreach` and nothing else. */
  function Register(): (r: seq<TokenType>)
    ensures forall k :: k in r <==> k == Foreach
  {
    [Foreach]
  }

  /** Length rule: a name of at most two bytes, `$` included. */
  predicate TooShort(name: seq<byte>)
  {
    |name| <= 2
  }

  /** Blacklist rule: the name is exactly `$value` or `$key`. */
  predicate IsGenericName(name: seq<byte>)
  {
    name in [DollarValue, DollarKey]
  }

  /** A token the sniff objects to, wherever it stands. */
  predicate Violates(t: Token)
  {
    t.kind == Variable && (TooShort(t.content) || IsGenericName(t.content))
  }

  /** The warning reported for an offending variable at index `i`. */
  function NameWarning(i: nat, name: seq<byte>): Warning
  {
    Warning(i, GenericVariableNamesInForEachLoop, [name])
  }

  /** What one step of the header scan reports for the token at `i`: one
      warning per rule that fires, the length rule first. */
  function TokenWarnings(tokens: seq<Token>, i: nat): seq<Warning>
    requires i < |tokens|
  {
    var t := tokens[i];
    if t.kind != Variable then []
    else
      (if TooShort(t.content) then [NameWarning(i, t.content)] else [])
      + (if IsGenericName(t.content) then [NameWarning(i, t.content)] else [])
  }

  /** What the scan of the window `[opener, upto)` reports, in token order. */
  function ScanWindow(tokens: seq<Token>, opener: nat, upto: nat): seq<Warning>
    requires opener <= upto <= |tokens|
    decreases upto - opener
  {
    if upto == opener then []
    else ScanWindow(tokens, opener, upto - 1) + TokenWarnings(tokens, upto - 1)
  }

  /** Everything one call of the sniff on the token at `stackPtr` reports. */
  function ProcessWarnings(tokens: seq<Token>, stackPtr: nat): seq<Warning>
    requires ClosersInRange(tokens)
  {
    match FindNext(tokens, OpenParenthesis, stackPtr)
    case None => [Warning(stackPtr, MissingOpenParenthesis, [])]
    case Some(opener) =>
      match tokens[opener].closer
      case None => [Warning(stackPtr, MissingCloseParenthesis, [])]
      case Some(closer) => ScanWindow(tokens, opener, closer)
  }

  /** Index `i` lies in the header window of the `foreach` at `stackPtr`:
      an opener was found, it has a closer, and `opener <= i < closer`. */
  predicate InHeader(tokens: seq<Token>, stackPtr: nat, i: nat)
  {
    match FindNext(tokens, OpenParenthesis, stackPtr)
    case None => false
    case Some(opener) =>
      match tokens[opener].closer
      case None => false
      case Some(closer) => opener <= i < closer
  }

  /** `process`: scans the header of the `foreach` at `stackPtr` and reports
      through the file's sink; the token array is left as it was. */
  method Process(phpcsFile: File, stackPtr: nat)
    requires ClosersInRange(phpcsFile.tokens)
    modifies phpcsFile`warnings
    ensures phpcsFile.tokens == old(phpcsFile.tokens)
    ensures phpcsFile.warnings == old(phpcsFile.warnings) + ProcessWarnings(phpcsFile.tokens, stackPtr)
  {
    var tokens := phpcsFile.tokens;

    var openingBracketPtr := FindNext(tokens, OpenParenthesis, stackPtr);
    if openingBracketPtr.None? {
      phpcsFile.AddWarning(stackPtr, MissingOpenParenthesis, []);
      return;
    }

    if tokens[openingBracketPtr.value].closer.None? {
      phpcsFile.AddWarning(stackPtr, MissingCloseParenthesis, []);
      return;
    }

    var opener := openingBracketPtr.value;
    var closer := tokens[opener].closer.value;
    ScanHeader(phpcsFile, opener, closer);
  }

  /** The `for` loop of `process`: walks `[opener, closer)` and reports
      each variable that breaks a naming rule, once per rule. */
  method ScanHeader(phpcsFile: File, opener: nat, closer: nat)
    requires opener <= closer <= |phpcsFile.tokens|
    modifies phpcsFile`warnings
    ensures phpcsFile.warnings == old(phpcsFile.warnings) + ScanWindow(phpcsFile.tokens, opener, closer)
  {
    var tokens := phpcsFile.tokens;
    var current := opener;
    while current != closer
      invariant opener <= current <= closer
      invariant phpcsFile.warnings == old(phpcsFile.warnings) + ScanWindow(tokens, opener, current)
      decreases closer - current
    {
      ghost var before := phpcsFile.warnings;
      if tokens[current].kind == Variable {
        var variable := tokens[current].content;
        if TooShort(variable) {
          phpcsFile.AddWarning(current, GenericVariableNamesInForEachLoop, [variable]);
        }
        if IsGenericName(variable) {
          phpcsFile.AddWarning(current, GenericVariableNamesInForEachLoop, [variable]);
        }
      }
      assert phpcsFile.warnings == before + TokenWarnings(tokens, current);
      assert old(phpcsFile.warnings) + ScanWindow(tokens, opener, current + 1)
        == before + TokenWarnings(tokens, current) by {
        assert ScanWindow(tokens, opener, current + 1)
          == ScanWindow(tokens, opener, current) + TokenWarnings(tokens, current);
      }
      current := current + 1;
    }
  }

  // ---------------------------------------------------------------------
  // The two naming rules

  /** Both blacklisted names are longer than two bytes, so the two rules
      never fire on the same name. */
  lemma GenericNamesAreNotShort(name: seq<byte>)
    ensures IsGenericName(name) ==> !TooShort(name)
    ensures IsGenericName(name) ==> |name| == 6 || |name| == 4
  {
  }

  /** Hence one step of the scan reports exactly one warning for an
      offending variable and none for any other token. */
  lemma TokenWarningsAtMostOne(tokens: seq<Token>, i: nat)
    requires i < |tokens|
    ensures TokenWarnings(tokens, i) ==
      if Violates(tokens[i]) then [NameWarning(i, tokens[i].content)] else []
  {
    GenericNamesAreNotShort(tokens[i].content);
  }

  // ---------------------------------------------------------------------
  // The header scan

  /** Warnings of a scan come in strictly ascending token order and lie
      inside the window; in particular no token is warned about twice. */
  lemma {:induction false} ScanWindowAscending(tokens: seq<Token>, opener: nat, upto: nat)
    requires opener <= upto <= |tokens|
    ensures forall w | w in ScanWindow(tokens, opener, upto) :: opener <= w.position < upto
    ensures forall a, b | 0 <= a < b < |ScanWindow(tokens, opener, upto)| ::
      ScanWindow(tokens, opener, upto)[a].position < ScanWindow(tokens, opener, upto)[b].position
    decreases upto - opener
  {
    if upto > opener {
      ScanWindowAscending(tokens, opener, upto - 1);
      TokenWarningsAtMostOne(tokens, upto - 1);
    }
  }

  /** Every warning of a scan names an offending variable of the window,
      at its own index, with its own text as the argument. */
  lemma {:induction false} ScanWindowSound(tokens: seq<Token>, opener: nat, upto: nat)
    requires opener <= upto <= |tokens|
    ensures forall w | w in ScanWindow(tokens, opener, upto) ::
      opener <= w.position < upto && Violates(tokens[w.position])
      && w == NameWarning(w.position, tokens[w.position].content)
    decreases upto - opener
  {
    if upto > opener {
      ScanWindowSound(tokens, opener, upto - 1);
      TokenWarningsAtMostOne(tokens, upto - 1);
    }
  }

  /** Every offending variable of the window is warned about. */
  lemma {:induction false} ScanWindowComplete(tokens: seq<Token>, opener: nat, upto: nat, i: nat)
    requires opener <= i < upto <= |tokens|
    requires Violates(tokens[i])
    ensures NameWarning(i, tokens[i].content) in ScanWindow(tokens, opener, upto)
    decreases upto - opener
  {
    if i == upto - 1 {
      TokenWarningsAtMostOne(tokens, i);
    } else {
      ScanWindowComplete(tokens, opener, upto - 1, i);
    }
  }

  // ---------------------------------------------------------------------
  // One call of the sniff

  /** No opening parenthesis at or after the `foreach`: exactly one
      MissingOpenParenthesis warning, at the `foreach`. */
  lemma MissingOpenerWarnsOnce(tokens: seq<Token>, stackPtr: nat)
    requires ClosersInRange(tokens)
    requires forall j | stackPtr <= j < |tokens| :: tokens[j].kind != OpenParenthesis
    ensures ProcessWarnings(tokens, stackPtr) == [Warning(stackPtr, MissingOpenParenthesis, [])]
  {
  }

  /** The first opening parenthesis has no recorded closer: exactly one
      MissingCloseParenthesis warning, at the `foreach`, and no scan. */
  lemma MissingCloserWarnsOnce(tokens: seq<Token>, stackPtr: nat, opener: nat)
    requires ClosersInRange(tokens)
    requires stackPtr <= opener < |tokens| && tokens[opener].kind == OpenParenthesis
    requires forall j | stackPtr <= j < opener :: tokens[j].kind != OpenParenthesis
    requires tokens[opener].closer.None?
    ensures ProcessWarnings(tokens, stackPtr) == [Warning(stackPtr, MissingCloseParenthesis, [])]
  {
  }

  /** Conversely, a diagnostic comes instead of a scan, never beside one:
      a warning other than a name warning is the call's only warning, it
      stands at the `foreach`, and it says MissingOpenParenthesis exactly
      when no opener was found, and MissingCloseParenthesis exactly when
      the first opener has no recorded closer. */
  lemma DiagnosticOnlyWhenMalformed(tokens: seq<Token>, stackPtr: nat)
    requires ClosersInRange(tokens)
    ensures forall w | w in ProcessWarnings(tokens, stackPtr) && w.code != GenericVariableNamesInForEachLoop ::
      ProcessWarnings(tokens, stackPtr) == [w] && w.position == stackPtr && w.args == []
      && !InHeader(tokens, stackPtr, w.position)
      && (w.code == MissingOpenParenthesis <==> FindNext(tokens, OpenParenthesis, stackPtr).None?)
      && (w.code == MissingCloseParenthesis <==>
            FindNext(tokens, OpenParenthesis, stackPtr).Some?
            && tokens[FindNext(tokens, OpenParenthesis, stackPtr).value].closer.None?)
  {
    var opener := FindNext(tokens, OpenParenthesis, stackPtr);
    if opener.Some? && tokens[opener.value].closer.Some? {
      ScanWindowSound(tokens, opener.value, tokens[opener.value].closer.value);
    }
  }

  /** A well-formed header whose tokens break no naming rule gets no
      warning of any code. */
  lemma DescriptiveHeaderSilent(tokens: seq<Token>, stackPtr: nat, opener: nat)
    requires ClosersInRange(tokens)
    requires FindNext(tokens, OpenParenthesis, stackPtr) == Some(opener)
    requires tokens[opener].closer.Some?
    requires forall i | opener <= i < tokens[opener].closer.value :: !Violates(tokens[i])
    ensures ProcessWarnings(tokens, stackPtr) == []
  {
    ScanWindowSkips(tokens, opener, opener, tokens[opener].closer.value);
  }

  /** Warnings come in strictly ascending token order. */
  lemma ProcessWarningsAscending(tokens: seq<Token>, stackPtr: nat)
    requires ClosersInRange(tokens)
    ensures forall a, b | 0 <= a < b < |ProcessWarnings(tokens, stackPtr)| ::
      ProcessWarnings(tokens, stackPtr)[a].position < ProcessWarnings(tokens, stackPtr)[b].position
  {
    var opener := FindNext(tokens, OpenParenthesis, stackPtr);
    if opener.Some? && tokens[opener.value].closer.Some? {
      ScanWindowAscending(tokens, opener.value, tokens[opener.value].closer.value);
    }
  }

  /** Every GenericVariableNamesInForEachLoop warning stands at an index of
      the header window whose token is an offending variable, and carries
      that variable's text; the closing parenthesis and the loop body are
      never warned about. */
  lemma NameWarningsInHeader(tokens: seq<Token>, stackPtr: nat)
    requires ClosersInRange(tokens)
    ensures forall w | w in ProcessWarnings(tokens, stackPtr) && w.code == GenericVariableNamesInForEachLoop ::
      w.position < |tokens| && InHeader(tokens, stackPtr, w.position)
      && Violates(tokens[w.position]) && w.args == [tokens[w.position].content]
  {
    var opener := FindNext(tokens, OpenParenthesis, stackPtr);
    if opener.Some? && tokens[opener.value].closer.Some? {
      ScanWindowSound(tokens, opener.value, tokens[opener.value].closer.value);
    }
  }

  /** A variable of the header window that is at most two bytes long, or
      is `$value` or `$key`, gets a warning at its own index carrying its
      text. */
  lemma OffendingVariableWarned(tokens: seq<Token>, stackPtr: nat, i: nat)
    requires ClosersInRange(tokens)
    requires i < |tokens| && InHeader(tokens, stackPtr, i)
    requires tokens[i].kind == Variable
    requires TooShort(tokens[i].content) || IsGenericName(tokens[i].content)
    ensures NameWarning(i, tokens[i].content) in ProcessWarnings(tokens, stackPtr)
  {
    var opener := FindNext(tokens, OpenParenthesis, stackPtr).value;
    ScanWindowComplete(tokens, opener, tokens[opener].closer.value, i);
  }

  /** A variable of the header window that is longer than two bytes and
      is not blacklisted, such as the iterated collection `$items`, gets no
      warning at all. */
  lemma DescriptiveVariableNotWarned(tokens: seq<Token>, stackPtr: nat, i: nat)
    requires ClosersInRange(tokens)
    requires i < |tokens| && InHeader(tokens, stackPtr, i)
    requires tokens[i].kind == Variable
    requires !TooShort(tokens[i].content) && !IsGenericName(tokens[i].content)
    ensures forall w | w in ProcessWarnings(tokens, stackPtr) :: w.position != i
  {
    var opener := FindNext(tokens, OpenParenthesis, stackPtr).value;
    ScanWindowSound(tokens, opener, tokens[opener].closer.value);
  }

  // ---------------------------------------------------------------------
  // Worked headers

  /** Tokens that report nothing do not change what a scan reports. */
  lemma {:induction false} ScanWindowSkips(tokens: seq<Token>, opener: nat, from: nat, upto: nat)
    requires opener <= from <= upto <= |tokens|
    requires forall i | from <= i < upto :: !Violates(tokens[i])
    ensures ScanWindow(tokens, opener, upto) == ScanWindow(tokens, opener, from)
    decreases upto - from
  {
    if from < upto {
      TokenWarningsAtMostOne(tokens, upto - 1);
      ScanWindowSkips(tokens, opener, from, upto - 1);
    }
  }

  /** The tokens of `foreach ($items as KEY => VALUE) { echo VALUE; }`:
      the window is indices 2..11, the loop body starts at 13. */
  function ForeachTokens(key: seq<byte>, value: seq<byte>): (r: seq<Token>)
    ensures |r| == 22 && ClosersInRange(r)
    ensures r[0].kind == Foreach && r[1].kind != OpenParenthesis
    ensures r[2] == Token(OpenParenthesis, [0x28], Some(12))
    ensures r[7] == Token(Variable, key, None) && r[11] == Token(Variable, value, None)
    ensures forall i | 2 <= i < 12 && i != 7 && i != 11 :: !Violates(r[i])
  {
    var space := Token(Other("T_WHITESPACE"), [0x20], None);
    var items := [0x24, 0x69, 0x74, 0x65, 0x6D, 0x73];                 // $items
    assert items != DollarValue by { assert items[1] != DollarValue[1]; }
    [ Token(Foreach, [0x66, 0x6F, 0x72, 0x65, 0x61, 0x63, 0x68], None), space
    , Token(OpenParenthesis, [0x28], Some(12))
    , Token(Variable, items, None), space
    , Token(Other("T_AS"), [0x61, 0x73], None), space
    , Token(Variable, key, None), space
    , Token(Other("T_DOUBLE_ARROW"), [0x3D, 0x3E], None), space
    , Token(Variable, value, None)
    , Token(CloseParenthesis, [0x29], None), space
    , Token(Other("T_OPEN_CURLY_BRACKET"), [0x7B], None), space
    , Token(Other("T_ECHO"), [0x65, 0x63, 0x68, 0x6F], None), space
    , Token(Variable, value, None)
    , Token(Other("T_SEMICOLON"), [0x3B], None), space
    , Token(Other("T_CLOSE_CURLY_BRACKET"), [0x7D], None)
    ]
  }

  /** Whatever the two loop variables are, the call on the `foreach` at 0
      scans the window 2..11, where only the variables at 7 and 11 can be
      reported; `$items` and the body's `VALUE` are not. */
  lemma ForeachTokensScan(key: seq<byte>, value: seq<byte>)
    ensures ProcessWarnings(ForeachTokens(key, value), 0)
      == TokenWarnings(ForeachTokens(key, value), 7) + TokenWarnings(ForeachTokens(key, value), 11)
  {
    var t := ForeachTokens(key, value);
    assert FindNext(t, OpenParenthesis, 0) == Some(2);
    ScanWindowSkips(t, 2, 2, 7);
    ScanWindowSkips(t, 2, 8, 11);
    assert ScanWindow(t, 2, 8) == TokenWarnings(t, 7);
  }

  /** `foreach ($items as $k => $v)`: `$k` and `$v` are warned about in
      the header; `$v` in the body is not. */
  lemma ShortNamesExample()
    ensures ProcessWarnings(ForeachTokens([0x24, 0x6B], [0x24, 0x76]), 0)
      == [NameWarning(7, [0x24, 0x6B]), NameWarning(11, [0x24, 0x76])]
  {
    var t := ForeachTokens([0x24, 0x6B], [0x24, 0x76]);
    ForeachTokensScan([0x24, 0x6B], [0x24, 0x76]);
    TokenWarningsAtMostOne(t, 7);
    TokenWarningsAtMostOne(t, 11);
  }

  /** `foreach ($items as $key => $value)`: both names are blacklisted. */
  lemma GenericNamesExample()
    ensures ProcessWarnings(ForeachTokens(DollarKey, DollarValue), 0)
      == [NameWarning(7, DollarKey), NameWarning(11, DollarValue)]
  {
    var t := ForeachTokens(DollarKey, DollarValue);
    ForeachTokensScan(DollarKey, DollarValue);
    TokenWarningsAtMostOne(t, 7);
    TokenWarningsAtMostOne(t, 11);
  }

  const ItemKey: seq<byte> := [0x24, 0x69, 0x74, 0x65, 0x6D, 0x4B, 0x65, 0x79]               // $itemKey
  const ItemValue: seq<byte> := [0x24, 0x69, 0x74, 0x65, 0x6D, 0x56, 0x61, 0x6C, 0x75, 0x65] // $itemValue

  /** `foreach ($items as $itemKey => $itemValue)`: nothing to report. */
  lemma DescriptiveNamesExample()
    ensures ProcessWarnings(ForeachTokens(ItemKey, ItemValue), 0) == []
  {
    var key, value := ItemKey, ItemValue;
    GenericNamesAreNotShort(key);
    GenericNamesAreNotShort(value);
    var t := ForeachTokens(key, value);
    ForeachTokensScan(key, value);
    TokenWarningsAtMostOne(t, 7);
    TokenWarningsAtMostOne(t, 11);
  }
}

/** The cases of the unit test of `get_line`, checked against the model. Text is
    written as ASCII codes: `Word` is "abcd 1234". */
module Pop3ParserExamples {
  import opened Wrappers
  import opened Bytes
  import opened Pop3Parser
  import opened Pop3ParserProofs

  /** "abcd 1234" */
  const Word: Bytes := [97, 98, 99, 100, 32, 49, 50, 51, 52]

  lemma WordHasNoCrlf()
    ensures NoCrlf(Word) && Word[0] != DOT && Word[|Word| - 1] != CR
  {
    assert forall i :: 0 <= i < |Word| ==> Word[i] != CR;
  }

  /** A line needs its CRLF: a lone CR or LF does not end it. */
  lemma GetLineNeedsCrlf()
    ensures GetLine(Word) == Fail
    ensures GetLine(Word + [CR]) == Fail
    ensures GetLine(Word + [LF]) == Fail
  {
    WordHasNoCrlf();
    NoCrlfConcat(Word, [CR]);
    NoCrlfConcat(Word, [LF]);
  }

  /** "abcd 1234\r\n" and "abcd 1234\r\nabcd 1234" */
  lemma GetLinePlainExample()
    ensures GetLine(Word + CRLF) == Parsed([], Some(Word))
    ensures GetLine(Word + CRLF + Word) == Parsed(Word, Some(Word))
  {
    WordHasNoCrlf();
    GetLineRoundTrip(Word, []);
    assert Word + CRLF + [] == Word + CRLF;
    GetLineRoundTrip(Word, Word);
  }

  /** ".abcd 1234\r\nabcd 1234": a single leading dot is dropped. */
  lemma GetLineOneDotExample()
    ensures GetLine([DOT] + Word + CRLF + Word) == Parsed(Word, Some(Word))
  {
    WordHasNoCrlf();
    var msg := [DOT] + Word + CRLF + Word;
    assert msg[1..] == Word + CRLF + Word;
    FindCrlfAfter(Word, Word);
    assert (Word + CRLF + Word)[..|Word|] == Word;
    assert (Word + CRLF + Word)[|Word| + 2..] == Word;
  }

  /** "..abcd 1234\r\nabcd 1234" */
  lemma GetLineStuffedExample()
    ensures GetLine([DOT, DOT] + Word + CRLF + Word) == Parsed(Word, Some([DOT] + Word))
  {
    var line := [DOT] + Word;
    WordHasNoCrlf();
    NoCrlfConcat([DOT], Word);
    GetLineRoundTrip(line, Word);
    assert Stuff(line) == [DOT, DOT] + Word;
  }

  /** "..\r\nabcd 1234" */
  lemma GetLineDotExample()
    ensures GetLine([DOT, DOT] + CRLF + Word) == Parsed(Word, Some([DOT]))
  {
    GetLineRoundTrip([DOT], Word);
    assert Stuff([DOT]) == [DOT, DOT];
  }

  /** "\r\nabcd 1234" */
  lemma GetLineEmptyExample()
    ensures GetLine(CRLF + Word) == Parsed(Word, Some([]))
  {
    GetLineRoundTrip([], Word);
    assert [] + CRLF + Word == CRLF + Word;
  }

  /** ".\r\nabcd 1234" */
  lemma GetLineTerminatorExample()
    ensures GetLine([DOT] + CRLF + Word) == Parsed(Word, None)
  {
    TerminatorLine(Word);
  }
}

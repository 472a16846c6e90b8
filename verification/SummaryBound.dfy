/**
The conversation summary kept between turns: built from the previous summary, the user's message
and the reply, and cut to at most 2000 bytes without splitting a character.
*/
module SummaryBound {
  import opened MachineInts
  import opened Utf8

  const CHANNEL_CONVERSATION_SUMMARY_LIMIT: nat := 2_000

  // ---------------------------------------------------------------- cutting

  /** The longest suffix of a string that fits into the limit. */
  function FittingSuffix(s: string): string {
    if ByteLen(s) <= CHANNEL_CONVERSATION_SUMMARY_LIMIT then s else FittingSuffix(s[1..])
  }

  function Bounded(s: string): string {
    if ByteLen(s) <= CHANNEL_CONVERSATION_SUMMARY_LIMIT then s else TrimStart(FittingSuffix(s))
  }

  /** The fitting suffix starts at the first character whose rest fits. */
  lemma {:induction false} FittingSuffixFrom(s: string, k: nat)
    requires k <= |s| && ByteLen(s[k..]) <= CHANNEL_CONVERSATION_SUMMARY_LIMIT
    requires forall j | 0 <= j < k :: ByteLen(s[j..]) > CHANNEL_CONVERSATION_SUMMARY_LIMIT
    ensures FittingSuffix(s) == s[k..]
  {
    assert s[0..] == s;
    if k > 0 {
      assert ByteLen(s[0..]) > CHANNEL_CONVERSATION_SUMMARY_LIMIT;
      forall j | 0 <= j < k - 1 ensures ByteLen(s[1..][j..]) > CHANNEL_CONVERSATION_SUMMARY_LIMIT {
        assert s[1..][j..] == s[j + 1..];
      }
      assert s[1..][k - 1..] == s[k..];
      FittingSuffixFrom(s[1..], k - 1);
    }
  }

  lemma LaterStartsAreLater(s: string, j: nat, k: nat)
    requires j < k <= |s|
    ensures ByteLen(s[..j]) < ByteLen(s[..k])
    ensures IsBoundary(Encode(s), ByteLen(s[..j]))
  {
    var middle := s[j..k];
    assert s[..k] == s[..j] + middle;
    EncodeConcat(s[..j], middle);
    CutBefore(s, j);
    var rest := s[j..];
    assert Encode(rest)[0] == EncodeChar(rest[0])[0];
    assert Encode(s)[ByteLen(s[..j])] == Encode(s)[ByteLen(s[..j])..][0];
  }

  /** Where the loop stops, the rest is the fitting suffix. */
  lemma CutIsFittingSuffix(s: string, start: nat)
    requires ByteLen(s) > CHANNEL_CONVERSATION_SUMMARY_LIMIT
    requires ByteLen(s) - CHANNEL_CONVERSATION_SUMMARY_LIMIT <= start <= ByteLen(s)
    requires IsBoundary(Encode(s), start)
    requires forall i | ByteLen(s) - CHANNEL_CONVERSATION_SUMMARY_LIMIT <= i < start ::
               !IsBoundary(Encode(s), i)
    ensures Encode(s)[start..] == Encode(FittingSuffix(s))
  {
    var k := BoundaryStartsChar(s, start);
    CutBefore(s, k);
    forall j | 0 <= j < k ensures ByteLen(s[j..]) > CHANNEL_CONVERSATION_SUMMARY_LIMIT {
      LaterStartsAreLater(s, j, k);
      CutBefore(s, j);
    }
    FittingSuffixFrom(s, k);
  }

  /**
  The cut as the program makes it, on bytes. The search for a boundary takes at most three
  steps, and what it leaves is valid UTF-8.
  */
  method BoundSummary(summary: string) returns (r: string, steps: nat)
    ensures steps <= 3
    ensures r == Bounded(summary)
  {
    var bytes := Encode(summary);
    steps := 0;
    if |bytes| <= CHANNEL_CONVERSATION_SUMMARY_LIMIT {
      return summary, steps;
    }
    var first := |bytes| - CHANNEL_CONVERSATION_SUMMARY_LIMIT;
    var start := first;
    ghost var near := BoundaryIsNear(summary, start);
    while !IsBoundary(bytes, start)
      invariant first <= start <= first + near && steps == start - first
      invariant forall i | first <= i < start :: !IsBoundary(bytes, i)
      decreases first + near - start
    {
      start := start + 1;
      steps := steps + 1;
    }
    CutIsFittingSuffix(summary, start);
    DecodeEncode(FittingSuffix(summary));
    r := TrimStart(Decode(bytes[start..]).value);
  }

  predicate IsSuffix(t: string, s: string) {
    |t| <= |s| && s[|s| - |t|..] == t
  }

  lemma SuffixOfTail(t: string, s: string)
    requires s != "" && IsSuffix(t, s[1..])
    ensures IsSuffix(t, s)
  {
    assert s[|s| - |t|..] == s[1..][|s| - 1 - |t|..];
  }

  lemma {:induction false} TrimStartIsSuffix(s: string)
    ensures IsSuffix(TrimStart(s), s)
    ensures ByteLen(TrimStart(s)) <= ByteLen(s)
  {
    if s != "" && IsWhitespace(s[0]) {
      TrimStartIsSuffix(s[1..]);
      SuffixOfTail(TrimStart(s), s);
    }
  }

  lemma {:induction false} FittingSuffixFits(s: string)
    ensures IsSuffix(FittingSuffix(s), s)
    ensures ByteLen(FittingSuffix(s)) <= CHANNEL_CONVERSATION_SUMMARY_LIMIT
  {
    if ByteLen(s) > CHANNEL_CONVERSATION_SUMMARY_LIMIT {
      FittingSuffixFits(s[1..]);
      SuffixOfTail(FittingSuffix(s), s);
    }
  }

  lemma SuffixIsTransitive(a: string, b: string, c: string)
    requires IsSuffix(a, b) && IsSuffix(b, c)
    ensures IsSuffix(a, c)
  {
    assert c[|c| - |a|..] == c[|c| - |b|..][|b| - |a|..];
  }

  /** A bounded summary is a suffix of at most 2000 bytes. */
  lemma BoundedIsShortSuffix(s: string)
    ensures IsSuffix(Bounded(s), s) && ByteLen(Bounded(s)) <= CHANNEL_CONVERSATION_SUMMARY_LIMIT
  {
    var fitting := FittingSuffix(s);
    FittingSuffixFits(s);
    TrimStartIsSuffix(fitting);
    if ByteLen(s) > CHANNEL_CONVERSATION_SUMMARY_LIMIT {
      SuffixIsTransitive(TrimStart(fitting), fitting, s);
    }
  }

  /** Its bytes are valid UTF-8 and the last bytes of the original. */
  lemma BoundedBytes(s: string)
    ensures var bytes := Encode(Bounded(s));
            ValidUtf8(bytes) && |bytes| <= ByteLen(s) && Encode(s)[ByteLen(s) - |bytes|..] == bytes
  {
    BoundedIsShortSuffix(s);
    SuffixBytes(Bounded(s), s);
  }

  lemma SuffixBytes(t: string, s: string)
    requires IsSuffix(t, s)
    ensures var bytes := Encode(t);
            ValidUtf8(bytes) && |bytes| <= ByteLen(s) && Encode(s)[ByteLen(s) - |bytes|..] == bytes
  {
    CutBefore(s, |s| - |t|);
    EncodingIsValid(t);
  }

  // ---------------------------------------------------------------- what the cut keeps

  lemma {:induction false} FittingSuffixKeeps(t: string, s: string)
    requires IsSuffix(t, s) && ByteLen(t) <= CHANNEL_CONVERSATION_SUMMARY_LIMIT
    ensures IsSuffix(t, FittingSuffix(s))
  {
    if ByteLen(s) > CHANNEL_CONVERSATION_SUMMARY_LIMIT {
      assert |t| < |s|;
      assert s[|s| - |t|..] == s[1..][|s| - 1 - |t|..];
      FittingSuffixKeeps(t, s[1..]);
    }
  }

  lemma {:induction false} TrimStartKeeps(t: string, s: string)
    requires IsSuffix(t, s) && t != "" && !IsWhitespace(t[0])
    ensures IsSuffix(t, TrimStart(s))
  {
    if IsWhitespace(s[0]) {
      assert s[0..] == s;
      assert s[|s| - |t|..] == s[1..][|s| - 1 - |t|..];
      TrimStartKeeps(t, s[1..]);
    }
  }

  /** An ending that fits and starts with a visible character survives the cut whole. */
  lemma BoundedKeeps(t: string, s: string)
    requires IsSuffix(t, s) && ByteLen(t) <= CHANNEL_CONVERSATION_SUMMARY_LIMIT
    requires t != "" && !IsWhitespace(t[0])
    ensures IsSuffix(t, Bounded(s))
  {
    FittingSuffixKeeps(t, s);
    TrimStartKeeps(t, FittingSuffix(s));
  }

  // ---------------------------------------------------------------- turns

  function NonEmptyTrimmed(value: Option<string>): Option<string> {
    if value.None? || Trim(value.value) == "" then None else Some(Trim(value.value))
  }

  function Section(title: string, value: Option<string>): seq<string> {
    match NonEmptyTrimmed(value)
    case None => []
    case Some(text) => [title + ":\n" + text]
  }

  function JoinSections(sections: seq<string>): string
    requires sections != []
  {
    if |sections| == 1 then sections[0] else sections[0] + "\n\n" + JoinSections(sections[1..])
  }

  function Sections(previous: Option<string>, message: Option<string>, reply: Option<string>)
    : seq<string>
  {
    Section("Previous context", previous) + Section("Latest user message", message)
    + Section("Latest assistant reply", reply)
  }

  function UpdatedSummary(previous: Option<string>, message: Option<string>, reply: Option<string>)
    : Option<string>
  {
    var sections := Sections(previous, message, reply);
    if sections == [] then None
    else Some(Bounded(Titled(sections)))
  }

  datatype Turn = Turn(message: Option<string>, reply: Option<string>)

  /** When there is nothing to write down, the stored summary is left alone. */
  function AfterTurn(summary: Option<string>, turn: Turn): Option<string> {
    match UpdatedSummary(summary, turn.message, turn.reply)
    case None => summary
    case Some(updated) => Some(updated)
  }

  function AfterTurns(summary: Option<string>, turns: seq<Turn>): Option<string> {
    if turns == [] then summary
    else AfterTurn(AfterTurns(summary, turns[..|turns| - 1]), turns[|turns| - 1])
  }

  predicate Stored(summary: Option<string>) {
    summary.Some? ==>
      && ByteLen(summary.value) <= CHANNEL_CONVERSATION_SUMMARY_LIMIT
      && Trim(summary.value) != ""
  }

  /** White space is all that trimming takes: what is left starts and ends visibly. */
  lemma {:induction false} TrimStartIsVisible(s: string)
    ensures TrimStart(s) != "" ==> !IsWhitespace(TrimStart(s)[0])
    ensures TrimStart(s) == "" <==> forall i | 0 <= i < |s| :: IsWhitespace(s[i])
  {
    if s != "" && IsWhitespace(s[0]) {
      TrimStartIsVisible(s[1..]);
      assert forall i | 1 <= i < |s| :: s[i] == s[1..][i - 1];
    }
  }

  lemma {:induction false} TrimEndIsVisible(s: string)
    ensures TrimEnd(s) <= s
    ensures TrimEnd(s) != "" ==> !IsWhitespace(TrimEnd(s)[|TrimEnd(s)| - 1])
    ensures TrimEnd(s) == "" <==> forall i | 0 <= i < |s| :: IsWhitespace(s[i])
  {
    if s != "" && IsWhitespace(s[|s| - 1]) {
      TrimEndIsVisible(s[..|s| - 1]);
    }
  }

  lemma TrimIsVisible(s: string)
    ensures Trim(s) == "" <==> forall i | 0 <= i < |s| :: IsWhitespace(s[i])
    ensures Trim(s) != "" ==> !IsWhitespace(Trim(s)[0]) && !IsWhitespace(Trim(s)[|Trim(s)| - 1])
  {
    TrimStartIsVisible(s);
    TrimEndIsVisible(TrimStart(s));
    if TrimStart(s) != "" {
      assert exists i | 0 <= i < |TrimStart(s)| :: !IsWhitespace(TrimStart(s)[i]);
    }
  }

  lemma {:induction false} LastSectionEnds(sections: seq<string>)
    requires sections != []
    ensures IsSuffix(sections[|sections| - 1], JoinSections(sections))
  {
    if |sections| > 1 {
      LastSectionEnds(sections[1..]);
      var rest := JoinSections(sections[1..]);
      assert IsSuffix(rest, JoinSections(sections));
      SuffixIsTransitive(sections[|sections| - 1], rest, JoinSections(sections));
    }
  }

  function Titled(sections: seq<string>): string
    requires sections != []
  {
    "Conversation State\n" + JoinSections(sections)
  }

  lemma TitledEnds(t: string, sections: seq<string>)
    requires sections != [] && IsSuffix(t, sections[|sections| - 1])
    ensures IsSuffix(t, Titled(sections))
  {
    LastSectionEnds(sections);
    assert IsSuffix(JoinSections(sections), Titled(sections));
    SuffixIsTransitive(t, sections[|sections| - 1], JoinSections(sections));
    SuffixIsTransitive(t, JoinSections(sections), Titled(sections));
  }

  /** A text that ends visibly is not cut to a blank. */
  lemma BoundedIsStored(c: char, s: string)
    requires IsSuffix([c], s) && !IsWhitespace(c)
    ensures Stored(Some(Bounded(s)))
  {
    assert Encode([c]) == EncodeChar(c) by { assert [c][1..] == ""; }
    BoundedKeeps([c], s);
    BoundedIsShortSuffix(s);
    VisibleEndIsNotBlank(c, Bounded(s));
  }

  /** The last section is what the user or the agent said last, and it ends visibly. */
  lemma SectionEndsVisibly(title: string, value: Option<string>)
    requires Section(title, value) != []
    ensures var text := Section(title, value)[0];
            IsSuffix(Trim(value.value), text) && !IsWhitespace(text[|text| - 1])
  {
    TrimIsVisible(value.value);
  }

  lemma SectionsEndVisibly(previous: Option<string>, message: Option<string>, reply: Option<string>)
    requires Sections(previous, message, reply) != []
    ensures var sections := Sections(previous, message, reply);
            var last := sections[|sections| - 1];
            && last != "" && !IsWhitespace(last[|last| - 1])
            && (NonEmptyTrimmed(reply).Some? ==> IsSuffix(Trim(reply.value), last))
  {
    if NonEmptyTrimmed(reply).Some? {
      SectionEndsVisibly("Latest assistant reply", reply);
    } else if NonEmptyTrimmed(message).Some? {
      SectionEndsVisibly("Latest user message", message);
    } else {
      SectionEndsVisibly("Previous context", previous);
    }
  }

  lemma VisibleEndIsNotBlank(c: char, s: string)
    requires IsSuffix([c], s) && !IsWhitespace(c)
    ensures Trim(s) != ""
  {
    TrimIsVisible(s);
    assert s[|s| - 1] == s[|s| - 1..][0];
  }

  lemma TitledIsStored(sections: seq<string>)
    requires sections != []
    requires var last := sections[|sections| - 1]; last != "" && !IsWhitespace(last[|last| - 1])
    ensures Stored(Some(Bounded(Titled(sections))))
  {
    var last := sections[|sections| - 1];
    var c := last[|last| - 1];
    assert IsSuffix([c], last);
    TitledEnds([c], sections);
    BoundedIsStored(c, Titled(sections));
  }

  /** What a turn stores fits and is not blank, so the next turn picks it up. */
  lemma UpdatedSummaryIsStored(previous: Option<string>, message: Option<string>,
                               reply: Option<string>)
    ensures Stored(UpdatedSummary(previous, message, reply))
    ensures UpdatedSummary(previous, message, reply).None? <==>
            NonEmptyTrimmed(previous).None? && NonEmptyTrimmed(message).None?
            && NonEmptyTrimmed(reply).None?
  {
    var sections := Sections(previous, message, reply);
    if sections != [] {
      SectionsEndVisibly(previous, message, reply);
      TitledIsStored(sections);
    }
  }

  /** A reply of at most 2000 bytes is kept whole, at the end. */
  lemma LatestReplySurvives(previous: Option<string>, message: Option<string>, reply: string)
    requires 0 < ByteLen(Trim(reply)) <= CHANNEL_CONVERSATION_SUMMARY_LIMIT
    ensures var updated := UpdatedSummary(previous, message, Some(reply));
            updated.Some? && IsSuffix(Trim(reply), updated.value)
  {
    var sections := Sections(previous, message, Some(reply));
    SectionsEndVisibly(previous, message, Some(reply));
    TitledEnds(Trim(reply), sections);
    TrimIsVisible(reply);
    BoundedKeeps(Trim(reply), Titled(sections));
  }

  predicate Speaks(turn: Turn) {
    NonEmptyTrimmed(turn.message).Some? || NonEmptyTrimmed(turn.reply).Some?
  }

  lemma TurnKeepsTheBound(summary: Option<string>, turn: Turn)
    requires Stored(summary)
    ensures Stored(AfterTurn(summary, turn))
    ensures AfterTurn(summary, turn).Some? <==> summary.Some? || Speaks(turn)
  {
    UpdatedSummaryIsStored(summary, turn.message, turn.reply);
  }

  lemma LastTurn(turns: seq<Turn>)
    requires turns != []
    ensures Spoken(turns) <==> Speaks(turns[|turns| - 1]) || Spoken(turns[..|turns| - 1])
  {
    var earlier := turns[..|turns| - 1];
    assert forall i | 0 <= i < |earlier| :: earlier[i] == turns[i];
  }

  /** Anybody has said anything. */
  predicate Spoken(turns: seq<Turn>) {
    exists i | 0 <= i < |turns| :: Speaks(turns[i])
  }

  /**
  However many turns feed their summaries back, the stored one stays within 2000 bytes and not
  blank; it exists once there was one or anybody has said anything.
  */
  lemma {:induction false} TurnsKeepTheBound(summary: Option<string>, turns: seq<Turn>)
    requires Stored(summary)
    ensures Stored(AfterTurns(summary, turns))
    ensures AfterTurns(summary, turns).Some? <==> summary.Some? || Spoken(turns)
  {
    if turns != [] {
      var earlier := AfterTurns(summary, turns[..|turns| - 1]);
      TurnsKeepTheBound(summary, turns[..|turns| - 1]);
      TurnKeepsTheBound(earlier, turns[|turns| - 1]);
      LastTurn(turns);
    }
  }
}

/**
What a conversation summary says: the text built from the previous summary, the message and the
reply, written out, of which as much of the end is kept as fits.
*/
module SummaryText {
  import opened MachineInts
  import opened Utf8
  import opened SummaryBound

  // ---------------------------------------------------------------- trimming

  predicate Blank(s: string) {
    forall i | 0 <= i < |s| :: IsWhitespace(s[i])
  }

  lemma {:induction false} TrimStartDropsBlanks(s: string) returns (front: string)
    ensures s == front + TrimStart(s) && Blank(front)
  {
    front := "";
    if s != "" && IsWhitespace(s[0]) {
      var rest := TrimStartDropsBlanks(s[1..]);
      front := [s[0]] + rest;
    }
  }

  lemma {:induction false} TrimEndDropsBlanks(s: string) returns (back: string)
    ensures s == TrimEnd(s) + back && Blank(back)
  {
    back := "";
    if s != "" && IsWhitespace(s[|s| - 1]) {
      var rest := TrimEndDropsBlanks(s[..|s| - 1]);
      back := rest + [s[|s| - 1]];
    }
  }

  /** Trimming takes the blanks at both ends and nothing else. */
  lemma TrimDropsBlanks(s: string) returns (front: string, back: string)
    ensures s == front + Trim(s) + back && Blank(front) && Blank(back)
    ensures Trim(s) != "" ==> !IsWhitespace(Trim(s)[0]) && !IsWhitespace(Trim(s)[|Trim(s)| - 1])
  {
    front := TrimStartDropsBlanks(s);
    back := TrimEndDropsBlanks(TrimStart(s));
    TrimIsVisible(s);
  }

  // ---------------------------------------------------------------- the text

  /** What a turn says, without the blanks around it; nothing if it is missing or blank. */
  function Said(value: Option<string>): string {
    if value.Some? then Trim(value.value) else ""
  }

  /** The text behind the heading, from the parts that are there. */
  function Body(context: string, message: string, reply: string): string {
    if context == "" && message == "" then "Latest assistant reply:\n" + reply
    else if context == "" && reply == "" then "Latest user message:\n" + message
    else if message == "" && reply == "" then "Previous context:\n" + context
    else if context == "" then
      "Latest user message:\n" + message + "\n\nLatest assistant reply:\n" + reply
    else if message == "" then
      "Previous context:\n" + context + "\n\nLatest assistant reply:\n" + reply
    else if reply == "" then
      "Previous context:\n" + context + "\n\nLatest user message:\n" + message
    else
      "Previous context:\n" + context + "\n\nLatest user message:\n" + message
      + "\n\nLatest assistant reply:\n" + reply
  }

  lemma OneSection(a: string)
    ensures JoinSections([a]) == a
  {
  }

  lemma TwoSections(a: string, b: string)
    ensures JoinSections([a, b]) == a + "\n\n" + b
  {
    assert [a, b][1..] == [b];
  }

  lemma ThreeSections(a: string, b: string, c: string)
    ensures JoinSections([a, b, c]) == a + "\n\n" + b + "\n\n" + c
  {
    assert [a, b, c][1..] == [b, c];
    TwoSections(b, c);
  }

  lemma SectionSays(title: string, value: Option<string>)
    ensures Section(title, value) == if Said(value) == "" then [] else [title + ":\n" + Said(value)]
  {
  }

  lemma Headings(text: string)
    ensures "Previous context" + ":\n" + text == "Previous context:\n" + text
    ensures "Latest user message" + ":\n" + text == "Latest user message:\n" + text
    ensures "Latest assistant reply" + ":\n" + text == "Latest assistant reply:\n" + text
  {
  }

  lemma Regroup(a: string, b: string, c: string, d: string)
    ensures a + b + (c + d) == a + (b + c) + d
  {
  }

  lemma LaterHeadings(before: string, text: string)
    ensures before + "\n\n" + ("Latest user message:\n" + text)
            == before + "\n\nLatest user message:\n" + text
    ensures before + "\n\n" + ("Latest assistant reply:\n" + text)
            == before + "\n\nLatest assistant reply:\n" + text
  {
    Regroup(before, "\n\n", "Latest user message:\n", text);
    Regroup(before, "\n\n", "Latest assistant reply:\n", text);
    assert "\n\n" + "Latest user message:\n" == "\n\nLatest user message:\n";
    assert "\n\n" + "Latest assistant reply:\n" == "\n\nLatest assistant reply:\n";
  }

  /** The sections that are there, in order. */
  lemma SectionsSay(previous: Option<string>, message: Option<string>, reply: Option<string>)
    ensures Sections(previous, message, reply) ==
              (if Said(previous) == "" then [] else ["Previous context:\n" + Said(previous)])
            + (if Said(message) == "" then [] else ["Latest user message:\n" + Said(message)])
            + (if Said(reply) == "" then [] else ["Latest assistant reply:\n" + Said(reply)])
  {
    SectionSays("Previous context", previous);
    SectionSays("Latest user message", message);
    SectionSays("Latest assistant reply", reply);
    Headings(Said(previous));
    Headings(Said(message));
    Headings(Said(reply));
  }

  lemma JoinedAfterContext(context: string, message: string, reply: string)
    requires context != ""
    ensures JoinSections(["Previous context:\n" + context]
              + (if message == "" then [] else ["Latest user message:\n" + message])
              + (if reply == "" then [] else ["Latest assistant reply:\n" + reply]))
            == Body(context, message, reply)
  {
    var a, b, c := "Previous context:\n" + context, "Latest user message:\n" + message,
                   "Latest assistant reply:\n" + reply;
    LaterHeadings(a, message);
    LaterHeadings(a, reply);
    LaterHeadings(a + "\n\n" + b, reply);
    OneSection(a);
    TwoSections(a, b);
    TwoSections(a, c);
    ThreeSections(a, b, c);
    assert [a] + [b] + [c] == [a, b, c] && [a] + [b] + [] == [a, b];
    assert [a] + [] + [c] == [a, c] && [a] + [] + [] == [a];
  }

  lemma JoinedWithoutContext(message: string, reply: string)
    requires message != "" || reply != ""
    ensures JoinSections(
                (if message == "" then [] else ["Latest user message:\n" + message])
              + (if reply == "" then [] else ["Latest assistant reply:\n" + reply]))
            == Body("", message, reply)
  {
    var b, c := "Latest user message:\n" + message, "Latest assistant reply:\n" + reply;
    LaterHeadings(b, reply);
    OneSection(b);
    OneSection(c);
    TwoSections(b, c);
    assert [b] + [c] == [b, c] && [b] + [] == [b] && [] + [c] == [c];
  }

  /**
  An update writes down the previous summary, the message and the reply, in this order and under
  their headings, leaving out what is missing or blank, and keeps it all if it fits into 2000
  bytes and otherwise as much of its end as does.
  */
  lemma UpdateSays(previous: Option<string>, message: Option<string>, reply: Option<string>)
    ensures var context, asked, answered := Said(previous), Said(message), Said(reply);
            if context == "" && asked == "" && answered == "" then
              UpdatedSummary(previous, message, reply) == None
            else
              var whole := "Conversation State\n" + Body(context, asked, answered);
              && UpdatedSummary(previous, message, reply) == Some(Bounded(whole))
              && (ByteLen(whole) <= 2000 ==> Bounded(whole) == whole)
  {
    SectionsSay(previous, message, reply);
    var context, asked, answered := Said(previous), Said(message), Said(reply);
    if context != "" {
      JoinedAfterContext(context, asked, answered);
    } else if asked != "" || answered != "" {
      JoinedWithoutContext(asked, answered);
      assert forall rest: seq<string> :: [] + rest == rest;
    }
  }
}

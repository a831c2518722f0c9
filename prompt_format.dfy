/**
 * The Mistral instruction format: each prior turn's prompt text, then the
 * current prompt text, each wrapped as `<s>[INST] ... [/INST] `, joined and
 * stripped of trailing whitespace. Prior reply texts are not part of it.
 */
module PromptFormat {
  import opened Wrappers

  /** One earlier exchange of the conversation: the prompt text sent and the reply received. */
  datatype PriorTurn = PriorTurn(prompt: string, reply: string)

  /** Opens every turn. */
  const Open: string := "<s>[INST] "

  /** Closes every turn; the piece appended per turn also carries one trailing space. */
  const Close: string := " [/INST]"

  /** The piece appended after a turn's text: `Close` and one space. */
  const CloseSpaced: string := " [/INST] "

  /** One complete turn as it appears in the joined string, before stripping. */
  function Turn(text: string): string {
    Open + text + CloseSpaced
  }

  /** The whitespace that Python's `str.rstrip()` removes (`str.isspace`). */
  predicate IsSpace(c: char) {
    c == ' ' || c == '\t' || c == '\n' || c == '\r' || c == '\U{000B}' || c == '\U{000C}'
    || ('\U{001C}' <= c <= '\U{001F}') || c == '\U{0085}' || c == '\U{00A0}' || c == '\U{1680}'
    || ('\U{2000}' <= c <= '\U{200A}') || c == '\U{2028}' || c == '\U{2029}' || c == '\U{202F}'
    || c == '\U{205F}' || c == '\U{3000}'
  }

  /** `s.rstrip()`: the longest prefix of `s` that does not end in whitespace. */
  function RStrip(s: string): (r: string)
    ensures |r| <= |s| && r == s[..|r|]
    ensures forall i :: |r| <= i < |s| ==> IsSpace(s[i])
    ensures r == [] || !IsSpace(r[|r| - 1])
  {
    if |s| > 0 && IsSpace(s[|s| - 1]) then RStrip(s[..|s| - 1]) else s
  }

  /** `"".join(bits)`. */
  function Join(bits: seq<string>): string {
    if bits == [] then "" else bits[0] + Join(bits[1..])
  }

  /** The prompt texts of the prior turns, in conversation order; none when there is no conversation. */
  function PriorPrompts(conversation: Option<seq<PriorTurn>>): (ps: seq<string>)
    ensures conversation.None? ==> ps == []
    ensures conversation.Some? ==>
      |ps| == |conversation.value| && forall i :: 0 <= i < |ps| ==> ps[i] == conversation.value[i].prompt
  {
    match conversation
    case None => []
    case Some(turns) => seq(|turns|, i requires 0 <= i < |turns| => turns[i].prompt)
  }

  /** The list of pieces appended for the prior turns: an opener, then the text with its closer, per turn. */
  function PriorBits(turns: seq<PriorTurn>): seq<string> {
    if turns == [] then []
    else PriorBits(turns[..|turns| - 1]) + [Open, turns[|turns| - 1].prompt + CloseSpaced]
  }

  /** The full list of pieces: the prior turns' pieces, then the opener and the current text with its closer. */
  function PromptBits(conversation: Option<seq<PriorTurn>>, current: string): seq<string> {
    (if conversation.Some? then PriorBits(conversation.value) else []) + [Open, current + CloseSpaced]
  }

  /** The formatted prompt for `current` after the prior turns of `conversation`. */
  function Messages(conversation: Option<seq<PriorTurn>>, current: string): (r: string)
    ensures r == [] || !IsSpace(r[|r| - 1])
  {
    RStrip(Join(PromptBits(conversation, current)))
  }

  /** Builds the list of pieces turn by turn, joins it and strips the trailing whitespace. */
  method BuildMessages(conversation: Option<seq<PriorTurn>>, current: string) returns (r: string)
    ensures r == Messages(conversation, current)
  {
    var bits: seq<string> := [];
    ghost var prior: seq<string> := [];
    if conversation.Some? {
      var turns := conversation.value;
      for i := 0 to |turns|
        invariant bits == PriorBits(turns[..i])
      {
        assert turns[..i + 1][..i] == turns[..i];
        bits := bits + [Open];
        bits := bits + [turns[i].prompt + CloseSpaced];
      }
      assert turns[..|turns|] == turns;
      prior := PriorBits(turns);
    }
    // Both branches append the same opener.
    if bits == [] {
      bits := bits + [Open];
    } else {
      bits := bits + [Open];
    }
    bits := bits + [current + CloseSpaced];
    assert bits == prior + [Open, current + CloseSpaced];
    r := RStrip(Join(bits));
  }

  // ---------------------------------------------------------------------------
  // Properties of the formatted prompt

  /** The prior turns as they appear in the output: one `Turn` per prompt text, in order. */
  function Turns(prompts: seq<string>): string {
    if prompts == [] then "" else Turns(prompts[..|prompts| - 1]) + Turn(prompts[|prompts| - 1])
  }

  /** The total length of a list of texts. */
  function TotalLength(texts: seq<string>): nat {
    if texts == [] then 0 else TotalLength(texts[..|texts| - 1]) + |texts[|texts| - 1]|
  }

  lemma {:induction false} JoinAppend(a: seq<string>, b: seq<string>)
    ensures Join(a + b) == Join(a) + Join(b)
  {
    if a == [] {
      assert a + b == b;
    } else {
      assert (a + b)[1..] == a[1..] + b;
      JoinAppend(a[1..], b);
    }
  }

  lemma JoinPair(a: string, b: string)
    ensures Join([a, b]) == a + b
  {
    assert [a, b][1..] == [b];
    assert [b][1..] == [];
    assert Join([b]) == b + Join([]) == b + "";
    assert b + "" == b;
  }

  lemma {:induction false} JoinPriorBits(turns: seq<PriorTurn>)
    ensures Join(PriorBits(turns)) == Turns(PriorPrompts(Some(turns)))
  {
    if turns != [] {
      var init := turns[..|turns| - 1];
      var last := turns[|turns| - 1];
      JoinPriorBits(init);
      JoinAppend(PriorBits(init), [Open, last.prompt + CloseSpaced]);
      JoinPair(Open, last.prompt + CloseSpaced);
      var ps := PriorPrompts(Some(turns));
      assert ps[..|ps| - 1] == PriorPrompts(Some(init));
      assert Turns(ps) == Turns(PriorPrompts(Some(init))) + Turn(last.prompt);
    }
  }

  /** Stripping a string that ends in `]` followed by one space removes exactly that space. */
  lemma RStripClose(s: string)
    ensures RStrip(s + CloseSpaced) == s + Close
  {
  }

  /**
   * The formatted prompt is each prior prompt text wrapped as a complete turn,
   * in conversation order, then the current text between `Open` and `Close`.
   * Replies of prior turns do not appear.
   */
  lemma {:induction false} MessagesShape(conversation: Option<seq<PriorTurn>>, current: string)
    ensures Messages(conversation, current) == Turns(PriorPrompts(conversation)) + Open + current + Close
  {
    var prior := if conversation.Some? then PriorBits(conversation.value) else [];
    JoinAppend(prior, [Open, current + CloseSpaced]);
    JoinPair(Open, current + CloseSpaced);
    if conversation.Some? {
      JoinPriorBits(conversation.value);
    }
    var head := Turns(PriorPrompts(conversation)) + Open + current;
    assert Join(PromptBits(conversation, current)) == head + CloseSpaced;
    RStripClose(head);
  }

  /** With no conversation, or one without turns, the result is exactly one turn for the current text. */
  lemma EmptyConversation(conversation: Option<seq<PriorTurn>>, current: string)
    requires conversation == None || conversation == Some([])
    ensures Messages(conversation, current) == "<s>[INST] " + current + " [/INST]"
  {
    MessagesShape(conversation, current);
  }

  /** One more prior turn inserts exactly its wrapped prompt text after the earlier ones. */
  lemma {:induction false} MessagesExtend(turns: seq<PriorTurn>, t: PriorTurn, current: string)
    ensures Messages(Some(turns + [t]), current) == Turns(PriorPrompts(Some(turns))) + Turn(t.prompt) + Open + current + Close
  {
    MessagesShape(Some(turns + [t]), current);
    var ps := PriorPrompts(Some(turns + [t]));
    assert ps[..|ps| - 1] == PriorPrompts(Some(turns));
  }

  /** The formatted prompt depends on the prior prompt texts only, never on prior replies. */
  lemma RepliesIgnored(turns: seq<PriorTurn>, other: seq<PriorTurn>, current: string)
    requires |turns| == |other|
    requires forall i :: 0 <= i < |turns| ==> turns[i].prompt == other[i].prompt
    ensures Messages(Some(turns), current) == Messages(Some(other), current)
  {
    MessagesShape(Some(turns), current);
    MessagesShape(Some(other), current);
    assert PriorPrompts(Some(turns)) == PriorPrompts(Some(other));
  }

  lemma {:induction false} TurnsStartWithOpen(ps: seq<string>)
    requires ps != []
    ensures |Turns(ps)| >= |Open| && Turns(ps)[..|Open|] == Open
  {
    var init := ps[..|ps| - 1];
    if init != [] {
      TurnsStartWithOpen(init);
    }
  }

  /** The result always begins with `<s>[INST] ` and ends with ` [/INST]`. */
  lemma MessagesDelimited(conversation: Option<seq<PriorTurn>>, current: string)
    ensures var m := Messages(conversation, current);
      |m| >= |Open| + |Close| && m[..|Open|] == "<s>[INST] " && m[|m| - |Close|..] == " [/INST]"
  {
    MessagesShape(conversation, current);
    var ps := PriorPrompts(conversation);
    var m := Messages(conversation, current);
    if ps != [] {
      TurnsStartWithOpen(ps);
      assert m[..|Open|] == Turns(ps)[..|Open|];
    } else {
      assert m == Open + current + Close;
    }
  }

  lemma {:induction false} TurnsLength(ps: seq<string>)
    ensures |Turns(ps)| == 19 * |ps| + TotalLength(ps)
  {
    if ps != [] {
      TurnsLength(ps[..|ps| - 1]);
    }
  }

  /**
   * Each prior turn contributes 19 characters besides its text (10 for the
   * opener, 9 for the spaced closer), the current turn 18 (its trailing space stripped).
   */
  lemma MessagesLength(conversation: Option<seq<PriorTurn>>, current: string)
    ensures var ps := PriorPrompts(conversation);
      |Messages(conversation, current)| == 19 * |ps| + TotalLength(ps) + 18 + |current|
  {
    MessagesShape(conversation, current);
    TurnsLength(PriorPrompts(conversation));
  }

  /** A single prompt "Hello" with no conversation. */
  lemma HelloExample()
    ensures Messages(None, "Hello") == "<s>[INST] Hello [/INST]"
  {
  }

  /** One prior turn "A" (whatever its reply) before the current prompt "B". */
  lemma TwoTurnExample(reply: string)
    ensures Messages(Some([PriorTurn("A", reply)]), "B") == "<s>[INST] A [/INST] <s>[INST] B [/INST]"
  {
    var turns := [PriorTurn("A", reply)];
    MessagesShape(Some(turns), "B");
    var ps := PriorPrompts(Some(turns));
    assert ps == ["A"];
    assert ps[..0] == [];
    assert Turns(ps) == "" + Turn("A");
    TwoTurnText();
  }

  lemma TwoTurnText()
    ensures "" + Turn("A") + Open + "B" + Close == "<s>[INST] A [/INST] <s>[INST] B [/INST]"
  {
  }
}

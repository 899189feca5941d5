/** The `get_knowledge_base` tool of the knowledge-base server
    (2_MCP_OpenAI_Integration/server.py): it loads a JSON document and turns it into
    one text, numbering question/answer pairs from 1; every failure becomes an
    "Error: ..." text that is returned, never raised. */
module KnowledgeBase {
  import opened Wrappers
  import opened Json
  import Text

  const Header := "Here is the retrieved knowledge base: \n\n"
  const ErrorPrefix := "Error: "
  const NotFoundText := "Error: Knowledge base file not found"
  const InvalidJsonText := "Error: Invalid JSON in knowledge base file"
  const ContentLabel := "Knowledge Base Content: "

  /** What opening data/kb.json and running `json.load` on it produced. `Failed`
      carries the text of any other exception. */
  datatype LoadOutcome = NotFound | InvalidJson | Failed(message: string) | Loaded(data: Json)

  /** One question/answer pair as it is printed. */
  datatype Entry = Entry(question: string, answer: string)

  /** Python's `d.get(key, default)` followed by f-string formatting. */
  function Lookup(fields: map<string, Json>, key: string, default: string, repr: Json -> string): string
  {
    if key in fields then Str(fields[key], repr) else default
  }

  /** The pair printed for the list item at 1-based position `index`. */
  function ItemEntry(index: nat, item: Json, repr: Json -> string): (e: Entry)
    ensures item.JObject? && "question" !in item.fields ==> e.question == "Unknown Question"
    ensures item.JObject? && "answer" !in item.fields ==> e.answer == "Unknown Answer"
    ensures item.JObject? && "question" in item.fields ==> e.question == Str(item.fields["question"], repr)
    ensures item.JObject? && "answer" in item.fields ==> e.answer == Str(item.fields["answer"], repr)
    ensures !item.JObject? ==> e.question == "Item " + Text.NatToString(index)
    ensures !item.JObject? ==> e.answer == Str(item, repr)
  {
    match item
    case JObject(fields) =>
      Entry(Lookup(fields, "question", "Unknown Question", repr),
            Lookup(fields, "answer", "Unknown Answer", repr))
    case _ => Entry("Item " + Text.NatToString(index), Str(item, repr))
  }

  /** The pairs of a whole list, numbered from 1 in list order. */
  function Entries(items: seq<Json>, repr: Json -> string): (es: seq<Entry>)
    ensures |es| == |items|
    ensures forall i :: 0 <= i < |items| ==> es[i] == ItemEntry(i + 1, items[i], repr)
  {
    seq(|items|, i requires 0 <= i < |items| => ItemEntry(i + 1, items[i], repr))
  }

  /** A line `f"{tag}{i}: {text}\n"`. */
  function TaggedLine(tag: char, index: nat, text: string): string
  {
    [tag] + Text.NatToString(index) + ": " + text + "\n"
  }

  /** `f"Q{i}: {question}\n"` */
  function QuestionLine(index: nat, question: string): string
  {
    TaggedLine('Q', index, question)
  }

  /** `f"A{i}: {answer}\n\n"` */
  function AnswerLine(index: nat, answer: string): string
  {
    TaggedLine('A', index, answer) + "\n"
  }

  /** The two lines (and the blank line after them) printed for one pair. */
  function Block(index: nat, e: Entry): string
  {
    QuestionLine(index, e.question) + AnswerLine(index, e.answer)
  }

  /** The blocks of `entries` one after another, numbered from `first`. */
  function Render(entries: seq<Entry>, first: nat): string
  {
    if |entries| == 0 then "" else Block(first, entries[0]) + Render(entries[1..], first + 1)
  }

  /** One more pair adds exactly one block, at the end, with the next number. */
  lemma {:induction false} RenderAppend(entries: seq<Entry>, e: Entry, first: nat)
    ensures Render(entries + [e], first) == Render(entries, first) + Block(first + |entries|, e)
  {
    if |entries| == 0 {
      assert Render([e], first) == Block(first, e) + Render([], first + 1);
    } else {
      assert (entries + [e])[1..] == entries[1..] + [e];
      RenderAppend(entries[1..], e, first + 1);
    }
  }

  /** Rendering one more pair of a list extends the text by that pair's block. */
  lemma RenderPrefix(entries: seq<Entry>, i: nat)
    requires i < |entries|
    ensures Render(entries[..i + 1], 1) == Render(entries[..i], 1) + Block(i + 1, entries[i])
  {
    assert entries[..i + 1] == entries[..i] + [entries[i]];
    RenderAppend(entries[..i], entries[i], 1);
  }

  /** The source's `for i, item in enumerate(kb_data, 1)` loop: the text appended
      to the header for a loaded list. */
  method FormatItems(items: seq<Json>, repr: Json -> string) returns (blocks: string)
    ensures blocks == Render(Entries(items, repr), 1)
  {
    ghost var entries := Entries(items, repr);
    blocks := "";
    var i := 0;
    while i < |items|
      invariant 0 <= i <= |items|
      invariant blocks == Render(entries[..i], 1)
    {
      var index := i + 1;
      var item := items[i];
      var question, answer;
      if item.JObject? {
        question := Lookup(item.fields, "question", "Unknown Question", repr);
        answer := Lookup(item.fields, "answer", "Unknown Answer", repr);
      } else {
        question := "Item " + Text.NatToString(index);
        answer := Str(item, repr);
      }
      assert Entry(question, answer) == entries[i];
      RenderPrefix(entries, i);
      ghost var before := blocks;
      blocks := blocks + QuestionLine(index, question);
      blocks := blocks + AnswerLine(index, answer);
      assert blocks == before + Block(index, Entry(question, answer));
      i := i + 1;
    }
    assert entries[..|items|] == entries;
  }

  /** The tool. `repr` stands for Python's `str()` of a non-string value and `dump`
      for `json.dumps(value, indent=2)`; neither is modelled. */
  method GetKnowledgeBase(load: LoadOutcome, repr: Json -> string, dump: Json -> string)
    returns (text: string)
    ensures load == NotFound ==> text == NotFoundText
    ensures load == InvalidJson ==> text == InvalidJsonText
    ensures load.Failed? ==> text == ErrorPrefix + load.message
    ensures load.Loaded? && load.data.JArray? ==>
      text == Header + Render(Entries(load.data.items, repr), 1)
    ensures load == Loaded(JArray([])) ==> text == Header
    ensures load.Loaded? && !load.data.JArray? ==>
      text == Header + ContentLabel + dump(load.data) + "\n\n"
    ensures load.Loaded? <==> Header <= text
    ensures !load.Loaded? <==> ErrorPrefix <= text
  {
    match load
    case NotFound =>
      text := NotFoundText;
      assert text[0] != Header[0];
    case InvalidJson =>
      text := InvalidJsonText;
      assert text[0] != Header[0];
    case Failed(message) =>
      text := ErrorPrefix + message;
      assert text[..|ErrorPrefix|] == ErrorPrefix;
      assert text[0] != Header[0];
    case Loaded(data) =>
      var body;
      if data.JArray? {
        body := FormatItems(data.items, repr);
      } else {
        body := ContentLabel + dump(data) + "\n\n";
      }
      text := Header + body;
      assert text[..|Header|] == Header;
      assert text[0] != ErrorPrefix[0];
  }

  // Reading the text back. The tool's output is meant for a language model; the
  // reader below exists to state what the text carries: one block per pair, in
  // order, numbered consecutively, holding the pair unchanged.

  /** A block read back: the number it was printed with and its pair. */
  datatype Numbered = Numbered(index: nat, entry: Entry)

  /** A pair that prints on two lines. */
  predicate SingleLine(e: Entry) {
    '\n' !in e.question && '\n' !in e.answer
  }

  /** Why reading back needs `SingleLine`: an answer holding newlines can print exactly
      like two items, so no reader can recover the items from such text. */
  lemma NewlineMakesTextAmbiguous(q: string, a: string, b: string)
    ensures Render([Entry(q, a + "\n\n" + QuestionLine(2, q) + "A2: " + b)], 1) ==
      Render([Entry(q, a), Entry(q, b)], 1)
  {
    var joined := a + "\n\n" + QuestionLine(2, q) + "A2: " + b;
    assert Text.NatToString(1) == "1" && Text.NatToString(2) == "2";
    assert AnswerLine(1, joined) == AnswerLine(1, a) + QuestionLine(2, q) + AnswerLine(2, b);
    assert Render([Entry(q, a), Entry(q, b)], 1) == Block(1, Entry(q, a)) + Block(2, Entry(q, b)) by {
      assert Render([Entry(q, b)], 2) == Block(2, Entry(q, b)) + Render([], 3);
    }
  }

  /** Drops the expected character `c` from the front of `s`. */
  function Expect(s: string, c: char): (r: Option<string>)
    ensures r.Some? ==> |r.value| < |s|
  {
    if |s| > 0 && s[0] == c then Some(s[1..]) else None
  }

  /** A tagged line read back: the digits after the tag, the text, what follows. */
  datatype Line = Line(number: string, text: string, rest: string)

  /** Reads one tagged line from the front of `s`. */
  function ReadLine(s: string, tag: char): (r: Option<Line>)
    ensures r.Some? ==> |r.value.rest| < |s|
  {
    var afterTag :- Expect(s, tag);
    var number :- Text.Split(afterTag, ':');
    var afterColon :- Expect(number.1, ' ');
    var text :- Text.Split(afterColon, '\n');
    Some(Line(number.0, text.0, text.1))
  }

  /** Reads one block from the front of `s`; returns it with the text after it. */
  function ReadBlock(s: string): (r: Option<(Numbered, string)>)
    ensures r.Some? ==> |r.value.1| < |s|
  {
    var question :- ReadLine(s, 'Q');
    var answer :- ReadLine(question.rest, 'A');
    var rest :- Expect(answer.rest, '\n');
    var index :- Text.ParseNat(question.number);
    if answer.number == question.number then
      Some((Numbered(index, Entry(question.text, answer.text)), rest))
    else None
  }

  /** Reads a text made of blocks only. */
  function ReadBlocks(s: string): Option<seq<Numbered>>
    decreases |s|
  {
    if |s| == 0 then Some([])
    else
      var first :- ReadBlock(s);
      var others :- ReadBlocks(first.1);
      Some([first.0] + others)
  }

  /** Reads a successful output of the tool for a list: the header, then blocks. */
  function ReadKnowledgeBase(text: string): Option<seq<Numbered>>
  {
    if Header <= text then ReadBlocks(text[|Header|..]) else None
  }

  /** A printed line reads back as its number's digits and its text. */
  lemma ReadTaggedLine(tag: char, index: nat, text: string, rest: string)
    requires '\n' !in text
    ensures ReadLine(TaggedLine(tag, index, text) + rest, tag) ==
      Some(Line(Text.NatToString(index), text, rest))
  {
    var n := Text.NatToString(index);
    assert ':' !in n by {
      assert forall i :: 0 <= i < |n| ==> Text.IsDigit(n[i]);
    }
    var afterColon := text + ['\n'] + rest;
    var afterTag := n + [':'] + ([' '] + afterColon);
    assert TaggedLine(tag, index, text) + rest == [tag] + afterTag;
    Text.SplitAtFirst(n, ':', [' '] + afterColon);
    Text.SplitAtFirst(text, '\n', rest);
  }

  /** A printed block reads back as its number and its pair. */
  lemma ReadBlockOfBlock(index: nat, e: Entry, rest: string)
    requires SingleLine(e)
    ensures ReadBlock(Block(index, e) + rest) == Some((Numbered(index, e), rest))
  {
    var answerPart := TaggedLine('A', index, e.answer) + (['\n'] + rest);
    assert Block(index, e) + rest == TaggedLine('Q', index, e.question) + answerPart;
    ReadTaggedLine('Q', index, e.question, answerPart);
    ReadTaggedLine('A', index, e.answer, ['\n'] + rest);
    Text.ParseNatToString(index);
  }

  /** Rendered pairs read back as the same pairs, numbered consecutively from `first`. */
  lemma {:induction false} ReadRender(entries: seq<Entry>, first: nat)
    requires forall i :: 0 <= i < |entries| ==> SingleLine(entries[i])
    ensures ReadBlocks(Render(entries, first)).Some?
    ensures |ReadBlocks(Render(entries, first)).value| == |entries|
    ensures forall i :: 0 <= i < |entries| ==>
      ReadBlocks(Render(entries, first)).value[i] == Numbered(first + i, entries[i])
  {
    if |entries| > 0 {
      var tail := Render(entries[1..], first + 1);
      ReadBlockOfBlock(first, entries[0], tail);
      ReadRender(entries[1..], first + 1);
      var s := Render(entries, first);
      assert |s| > 0 by {
        assert s == Block(first, entries[0]) + tail;
      }
      var others := ReadBlocks(tail).value;
      assert ReadBlocks(s).value == [Numbered(first, entries[0])] + others;
    }
  }

  /** The text produced for a loaded list holds exactly one block per item, numbered
      1..n in list order, each carrying the item's pair. */
  lemma KnowledgeBaseReadsBack(items: seq<Json>, repr: Json -> string)
    requires forall i :: 0 <= i < |items| ==> SingleLine(ItemEntry(i + 1, items[i], repr))
    ensures ReadKnowledgeBase(Header + Render(Entries(items, repr), 1)).Some?
    ensures |ReadKnowledgeBase(Header + Render(Entries(items, repr), 1)).value| == |items|
    ensures forall i :: 0 <= i < |items| ==>
      ReadKnowledgeBase(Header + Render(Entries(items, repr), 1)).value[i] ==
        Numbered(i + 1, ItemEntry(i + 1, items[i], repr))
  {
    var entries := Entries(items, repr);
    var text := Header + Render(entries, 1);
    assert text[..|Header|] == Header;
    assert text[|Header|..] == Render(entries, 1);
    ReadRender(entries, 1);
  }
}

/** Batch input files (`utils/jsonl_handler.py`): the request record one
    conversation becomes before it is serialised, and the text the writer
    leaves in the file. Serialisation itself (`json.dumps`) is not modelled:
    the writer is given the serialised lines. */
module Jsonl {
  import Py
  import Conversation

  datatype Body = Body(model: string, messages: seq<Conversation.ChatEntry>, maxTokens: int)

  datatype RequestRecord = RequestRecord(customId: string, httpMethod: string, url: string, body: Body)

  /** `create_json_line(custom_id, conversation, model="gpt-4", max_tokens=1500)`,
      before `json.dumps`. */
  function CreateJsonLine(customId: string, conversation: seq<Conversation.Message>,
                          model: string := "gpt-4", maxTokens: int := 1500): (r: RequestRecord)
    ensures r.customId == customId
    ensures r.httpMethod == "POST" && r.url == "/v1/chat/completions"
    ensures r.body.model == model && r.body.maxTokens == maxTokens
    ensures |r.body.messages| == |conversation|
    ensures forall i :: 0 <= i < |conversation| ==>
              Conversation.CreateMessage(Conversation.Text(r.body.messages[i].role), r.body.messages[i].content)
              == Py.Ok(conversation[i])
  {
    Conversation.ConversationRoundTrip(conversation);
    RequestRecord(customId, "POST", "/v1/chat/completions",
                  Body(model, Conversation.CreateConversation(conversation), maxTokens))
  }

  /** Without the optional arguments the record asks for "gpt-4" and 1500 tokens. */
  lemma DefaultRequestSettings(customId: string, conversation: seq<Conversation.Message>)
    ensures CreateJsonLine(customId, conversation).body.model == "gpt-4"
    ensures CreateJsonLine(customId, conversation).body.maxTokens == 1500
  {
  }

  /** The text `write_jsonl_file` writes: each line followed by "\n". */
  function FileContent(lines: seq<string>): (text: string)
    ensures lines == [] ==> text == ""
    decreases |lines|
  {
    if lines == [] then "" else lines[0] + "\n" + FileContent(lines[1..])
  }

  /** Writing the concatenation of two lists writes one file after the other. */
  lemma {:induction false} FileContentAppend(a: seq<string>, b: seq<string>)
    ensures FileContent(a + b) == FileContent(a) + FileContent(b)
    decreases |a|
  {
    if a == [] {
      assert a + b == b;
    } else {
      assert (a + b)[0] == a[0];
      assert (a + b)[1..] == a[1..] + b;
      FileContentAppend(a[1..], b);
    }
  }

  function Count(s: string, c: char): nat
    decreases |s|
  {
    if s == [] then 0 else (if s[0] == c then 1 else 0) + Count(s[1..], c)
  }

  lemma {:induction false} CountAppend(a: string, b: string, c: char)
    ensures Count(a + b, c) == Count(a, c) + Count(b, c)
    decreases |a|
  {
    if a == [] {
      assert a + b == b;
    } else {
      assert (a + b)[0] == a[0];
      assert (a + b)[1..] == a[1..] + b;
      CountAppend(a[1..], b, c);
    }
  }

  /** The newlines in the lines themselves. */
  function NewlinesIn(lines: seq<string>): nat
    decreases |lines|
  {
    if lines == [] then 0 else Count(lines[0], '\n') + NewlinesIn(lines[1..])
  }

  /** n lines add exactly n newlines to the ones they carry. */
  lemma {:induction false} FileContentNewlines(lines: seq<string>)
    ensures Count(FileContent(lines), '\n') == |lines| + NewlinesIn(lines)
    decreases |lines|
  {
    if lines != [] {
      CountAppend(lines[0], "\n", '\n');
      CountAppend(lines[0] + "\n", FileContent(lines[1..]), '\n');
      FileContentNewlines(lines[1..]);
    }
  }

  /** The position of the first `c` in `s`, or |s|. */
  function IndexOf(s: string, c: char): (i: nat)
    ensures i <= |s|
    ensures forall j :: 0 <= j < i ==> s[j] != c
    ensures i < |s| ==> s[i] == c
    decreases |s|
  {
    if s == [] then 0 else if s[0] == c then 0 else 1 + IndexOf(s[1..], c)
  }

  /** Reading a file back: split at each "\n"; a last line without one counts too. */
  function SplitLines(s: string): seq<string>
    decreases |s|
  {
    if s == [] then []
    else
      var i := IndexOf(s, '\n');
      if i == |s| then [s] else [s[..i]] + SplitLines(s[i + 1..])
  }

  /** The first newline of `a + "\n" + b` is the one after `a` when `a` has none. */
  lemma FirstNewline(a: string, b: string)
    requires '\n' !in a
    ensures IndexOf(a + "\n" + b, '\n') == |a|
  {
    var text := a + "\n" + b;
    assert text[|a|] == '\n';
    assert forall j :: 0 <= j < |a| ==> text[j] == a[j];
  }

  /** Splitting stops at the newline after a first line that has none. */
  lemma SplitLinesCons(a: string, b: string)
    requires '\n' !in a
    ensures SplitLines(a + "\n" + b) == [a] + SplitLines(b)
  {
    var text := a + "\n" + b;
    FirstNewline(a, b);
    assert text[..|a|] == a;
    assert text[|a| + 1..] == b;
  }

  /** Lines that are single JSON documents carry no "\n" of their own; for
      them, reading the written file back gives the lines that were written. */
  lemma {:induction false} FileContentRoundTrip(lines: seq<string>)
    requires forall i :: 0 <= i < |lines| ==> '\n' !in lines[i]
    ensures SplitLines(FileContent(lines)) == lines
    decreases |lines|
  {
    if lines != [] {
      SplitLinesCons(lines[0], FileContent(lines[1..]));
      FileContentRoundTrip(lines[1..]);
      assert [lines[0]] + lines[1..] == lines;
    }
  }

  /** `write_jsonl_file(filename, lines)` on a file system mapping paths to
      contents. Mode "w" truncates: the file ends up holding exactly the
      written text, whatever it held before; other files are untouched. */
  function WriteJsonlFile(files: map<string, string>, filename: string, lines: seq<string>): (r: map<string, string>)
    ensures filename in r && r[filename] == FileContent(lines)
    ensures forall f :: f != filename ==> (f in r <==> f in files)
    ensures forall f :: f != filename && f in files ==> r[f] == files[f]
  {
    files[filename := FileContent(lines)]
  }
}

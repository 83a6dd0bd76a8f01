/** tools/memory/memory_tool.py: a conversation is formatted into a prompt and summarised by
    the language model; summaries are kept as a JSON list of `{summary, timestamp}` records in
    one file, and the latest one can be read back. The prompt file, the model and the clock are
    inputs. */
module MemoryTool {
  import opened Wrappers
  import opened JsonValues
  import opened Text
  import opened A2ATypes

  /** One turn of a conversation: `turn['role']` and `turn['content']`. */
  datatype Turn = Turn(role: string, content: string)

  const Placeholder := "{{conversation}}"

  /** One formatted turn: the role capitalised, a colon, the content. */
  function Line(t: Turn): string {
    Capitalize(t.role) + ": " + t.content
  }

  function Lines(conversation: seq<Turn>): (ls: seq<string>)
    ensures |ls| == |conversation| && forall i :: 0 <= i < |ls| ==> ls[i] == Line(conversation[i])
  {
    seq(|conversation|, i requires 0 <= i < |conversation| => Line(conversation[i]))
  }

  /** The formatted conversation: one line per turn, in conversation order. */
  function Format(conversation: seq<Turn>): string {
    Join(Lines(conversation), "\n")
  }

  lemma {:induction false} LowerNoNewline(s: string)
    requires '\n' !in s
    ensures '\n' !in Lower(s)
  {
    if s != [] {
      LowerNoNewline(s[1..]);
      assert Lower(s) == (if s[0] == 'İ' then "i̇" else [LowerChar(s[0])]) + Lower(s[1..]);
    }
  }

  /** When no role or content holds a line break, the formatted text splits back at the line
      breaks into exactly the formatted turns, in order. */
  lemma FormatLines(conversation: seq<Turn>)
    requires |conversation| > 0
    requires forall i :: 0 <= i < |conversation| ==> '\n' !in conversation[i].role && '\n' !in conversation[i].content
    ensures SplitAll(Format(conversation), "\n") == Lines(conversation)
  {
    var ls := Lines(conversation);
    forall i | 0 <= i < |ls|
      ensures "\n"[0] !in ls[i]
    {
      var t := conversation[i];
      if t.role != [] {
        LowerNoNewline(t.role[1..]);
        assert Capitalize(t.role) == TitleCase(t.role[0]) + Lower(t.role[1..]);
      }
      assert ls[i] == Capitalize(t.role) + ": " + t.content;
    }
    SplitJoin(ls, "\n");
  }

  /** The prompt sent to the model: every placeholder in the template replaced by the
      formatted conversation. */
  function Filled(template: string, conversation: seq<Turn>): string {
    ReplaceAll(template, Placeholder, Format(conversation))
  }

  /** A template that holds the placeholder yields a prompt that holds the conversation; one
      without it is sent unchanged. */
  lemma PlaceholderFilled(template: string, conversation: seq<Turn>)
    ensures Contains(template, Placeholder) ==> Contains(Filled(template, conversation), Format(conversation))
    ensures !Contains(template, Placeholder) ==> Filled(template, conversation) == template
  {
    if Contains(template, Placeholder) {
      var pieces := SplitAll(template, Placeholder);
      var k := IndexOf(template, Placeholder).value;
      assert pieces == [template[..k]] + SplitAll(template[k + |Placeholder|..], Placeholder);
      var f := Format(conversation);
      var r := Join(pieces, f);
      assert r == pieces[0] + f + Join(pieces[1..], f);
      assert OccursAt(r, f, |pieces[0]|) by {
        assert r[|pieces[0]|..|pieces[0]| + |f|] == f;
      }
    }
  }

  function ReadError(detail: string): Exc {
    Exc("RuntimeError", "Could not read memory file: " + detail)
  }

  /** The record `save_memory` appends. */
  function Record(summary: string, now: string): Json {
    JObj(map["summary" := JStr(summary), "timestamp" := JStr(now)])
  }

  /** The records `save_memory` starts from: a missing or undecodable file counts as none. */
  function Records(file: JsonFile): seq<Json> {
    if file.Holding? && file.data.JArr? then file.data.items else []
  }

  /** The file after `save_memory(summary)`, or the exception it raises (the file then keeps
      its old contents): `data.append` fails on anything but a list. */
  function Saved(file: JsonFile, summary: string, now: string): Result<JsonFile, Exc> {
    if file.Holding? && !file.data.JArr? then
      Failure(Exc("AttributeError", "'" + TypeName(file.data) + "' object has no attribute 'append'"))
    else Success(Holding(JArr(Records(file) + [Record(summary, now)])))
  }

  /** `data[-1]` for a truthy value, with the message of the exception it raises. */
  function LastItem(data: Json): Result<Json, string> {
    match data
    case JArr(xs) => if xs == [] then Failure("list index out of range") else Success(xs[|xs| - 1])
    case JStr(s) => if s == [] then Failure("string index out of range") else Success(JStr([s[|s| - 1]]))
    case JObj(_) => Failure("-1")
    case _ => Failure("'" + TypeName(data) + "' object is not subscriptable")
  }

  /** `latest["summary"]`, with the message of the exception it raises. */
  function SummaryOf(latest: Json): Result<Json, string> {
    match latest
    case JObj(m) => if "summary" in m then Success(m["summary"]) else Failure("'summary'")
    case JArr(_) => Failure("list indices must be integers or slices, not str")
    case JStr(_) => Failure("string indices must be integers, not 'str'")
    case _ => Failure("'" + TypeName(latest) + "' object is not subscriptable")
  }

  /** `load_latest_memory()`: "" for a missing file or a falsy value, the latest record's
      summary otherwise; anything that goes wrong while reading becomes a RuntimeError. */
  function LoadLatest(file: JsonFile): (r: Result<Json, Exc>)
    ensures file.Missing? ==> r == Success(JStr(""))
    ensures file.Holding? && file.data == JArr([]) ==> r == Success(JStr(""))
    ensures file.Garbled? ==> r == Failure(ReadError(file.error))
    ensures r.Success? && r.value != JStr("") ==> file.Holding? && TruthyValue(file.data)
    ensures file.Holding? && file.data.JArr? && file.data.items != [] ==>
              var latest := file.data.items[|file.data.items| - 1];
              && (latest.JObj? && "summary" in latest.fields ==> r == Success(latest.fields["summary"]))
              && (latest.JObj? && "summary" !in latest.fields ==> r == Failure(ReadError("'summary'")))
  {
    match file
    case Missing => Success(JStr(""))
    case Garbled(msg) => Failure(ReadError(msg))
    case Holding(data) =>
      if !TruthyValue(data) then Success(JStr(""))
      else match LastItem(data)
        case Failure(m) => Failure(ReadError(m))
        case Success(latest) =>
          match SummaryOf(latest)
          case Failure(m) => Failure(ReadError(m))
          case Success(v) => Success(v)
  }

  /** Saving keeps every earlier record and appends exactly one; it fails only on a file that
      holds something other than a list. */
  lemma SaveAppendsOne(file: JsonFile, summary: string, now: string)
    ensures Saved(file, summary, now).Success? <==> !(file.Holding? && !file.data.JArr?)
    ensures Saved(file, summary, now).Success? ==>
              var after := Records(Saved(file, summary, now).value);
              |after| == |Records(file)| + 1 && after[..|Records(file)|] == Records(file)
              && after[|Records(file)|] == Record(summary, now)
  {
    if Saved(file, summary, now).Success? {
      var before := Records(file);
      assert (before + [Record(summary, now)])[..|before|] == before;
    }
  }

  /** What was just saved is what loads back. */
  lemma {:induction false} SaveThenLoad(file: JsonFile, summary: string, now: string)
    requires Saved(file, summary, now).Success?
    ensures LoadLatest(Saved(file, summary, now).value) == Success(JStr(summary))
  {
    var xs := Records(file) + [Record(summary, now)];
    assert Saved(file, summary, now).value == Holding(JArr(xs));
    assert TruthyValue(JArr(xs));
    assert LastItem(JArr(xs)) == Success(Record(summary, now));
  }

  class MemorySummarizer {
    /** The contents of the prompt file, or the message of the error reading it raised. */
    const prompt: Result<string, string>
    /** `generate_content(p).text` for a prompt `p`, or the message of the error it raised. */
    const model: string -> Result<string, string>
    /** The save file. */
    var saved: JsonFile

    constructor (prompt: Result<string, string>, model: string -> Result<string, string>, saved: JsonFile)
      ensures this.prompt == prompt && this.model == model && this.saved == saved
    {
      this.prompt := prompt;
      this.model := model;
      this.saved := saved;
    }

    /** `summarize_conversation(conversation)`: the model's answer to the filled prompt, with
        surrounding whitespace removed; a prompt that cannot be read or a model that fails is
        reported as a RuntimeError carrying the cause. */
    function Summarize(conversation: seq<Turn>): (r: Result<string, Exc>)
      ensures prompt.Failure? ==> r == Failure(Exc("RuntimeError", "Could not load prompt file: " + prompt.error))
      ensures prompt.Success? && model(Filled(prompt.value, conversation)).Failure? ==>
                r == Failure(Exc("RuntimeError", "LLM generation failed: " + model(Filled(prompt.value, conversation)).error))
      ensures r.Success? ==> prompt.Success? && model(Filled(prompt.value, conversation)).Success?
                             && r.value == Strip(model(Filled(prompt.value, conversation)).value)
      ensures r.Success? && r.value != "" ==> !IsSpace(r.value[0]) && !IsSpace(r.value[|r.value| - 1])
    {
      match prompt
      case Failure(e) => Failure(Exc("RuntimeError", "Could not load prompt file: " + e))
      case Success(template) =>
        match model(Filled(template, conversation))
        case Failure(e) => Failure(Exc("RuntimeError", "LLM generation failed: " + e))
        case Success(text) => Success(Strip(text))
    }

    /** `load_latest_memory()` */
    function LoadLatestMemory(): Result<Json, Exc>
      reads this
    {
      LoadLatest(saved)
    }

    /** `save_memory(memory_summary)` at the time `now`. */
    method SaveMemory(summary: string, now: string) returns (r: Result<(), Exc>)
      modifies this
      ensures var after := Saved(old(saved), summary, now);
              (after.Success? ==> r.Success? && saved == after.value)
              && (after.Failure? ==> r == Failure(after.error) && saved == old(saved))
    {
      var after := Saved(saved, summary, now);
      if after.Failure? {
        return Failure(after.error);
      }
      saved := after.value;
      return Success(());
    }

    /** `process_and_save(conversation)`: summarise, save, return the summary; once it
        returns, the latest memory is that summary. */
    method ProcessAndSave(conversation: seq<Turn>, now: string) returns (r: Result<string, Exc>)
      modifies this
      ensures Summarize(conversation).Failure? ==> r == Summarize(conversation) && saved == old(saved)
      ensures Summarize(conversation).Success? ==>
                var after := Saved(old(saved), Summarize(conversation).value, now);
                (after.Success? ==> r == Summarize(conversation) && saved == after.value)
                && (after.Failure? ==> r == Failure(after.error) && saved == old(saved))
      ensures r.Success? ==> LoadLatestMemory() == Success(JStr(r.value))
    {
      var summary := Summarize(conversation);
      if summary.Failure? {
        return summary;
      }
      var s := SaveMemory(summary.value, now);
      if s.Failure? {
        return Failure(s.error);
      }
      SaveThenLoad(old(saved), summary.value, now);
      return summary;
    }
  }
}

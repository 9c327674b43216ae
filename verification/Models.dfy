/** The provider-independent response, and the renaming of tool arguments. */
module Models {
  import opened Text
  import opened JsonValues

  datatype ToolCall = ToolCall(id: string, name: string, arguments: string)

  datatype Usage = Usage(promptTokens: int, completionTokens: int, totalTokens: int, inputTokens: int, outputTokens: int)

  datatype Response = Response(
    id: string, model: string, text: string, thinking: string, thinkingSignature: string,
    toolCalls: seq<ToolCall>, usage: Usage, stopReason: string)

  /** StableThinkingSignature; the digest is a parameter. */
  function StableSignature(digest: string -> string, thinking: string): string {
    var trimmed := TrimSpace(thinking);
    if trimmed == "" then "" else "sig_" + digest(trimmed)
  }

  // ---------- RemapToolCallArgs ----------

  function MoveArg(args: Fields, from: string, to: string): Fields {
    if from !in args then args
    else
      var removed := args - {from};
      if to in removed then removed else removed[to := args[from]]
  }

  function FirstPathValue(value: Json): string {
    match value
    case JString(s) => TrimSpace(s)
    case JArray(items) => if |items| == 1 && items[0].JString? then TrimSpace(items[0].s) else ""
    case _ => ""
  }

  function MoveFirstPath(args: Fields, removeSource: bool): Fields {
    if "path" in args || "paths" !in args || FirstPathValue(args["paths"]) == "" then args
    else
      var moved := args["path" := JString(FirstPathValue(args["paths"]))];
      if removeSource then moved - {"paths"} else moved
  }

  function RemapToolCallArgs(name: string, args: Fields): Fields {
    var tool := Lower(TrimSpace(name));
    if tool == "enterplanmode" then map[]
    else if tool in ["grep", "search", "search_code_definitions", "search_code_snippets", "glob"] then
      MoveFirstPath(MoveArg(MoveArg(args, "description", "pattern"), "query", "pattern"), true)
    else if tool == "read" then MoveArg(args, "path", "file_path")
    else if tool == "ls" then (if "path" in args then args else args["path" := JString(".")])
    else MoveFirstPath(args, false)
  }

  /** Arguments are remapped when a provider's answer is read and again when it
      is written for the client; the second time changes nothing. */
  lemma RemapIdempotent(name: string, args: Fields)
    ensures RemapToolCallArgs(name, RemapToolCallArgs(name, args)) == RemapToolCallArgs(name, args)
  {
    var tool := Lower(TrimSpace(name));
    if Searches(tool) {
      var a := MoveArg(MoveArg(args, "description", "pattern"), "query", "pattern");
      assert "description" !in a && "query" !in a;
      var b := MoveFirstPath(a, true);
      assert "description" !in b && "query" !in b;
      assert MoveArg(b, "description", "pattern") == b && MoveArg(b, "query", "pattern") == b;
    }
  }

  predicate SameAt(a: Fields, b: Fields, key: string) {
    if key in b then key in a && a[key] == b[key] else key !in a
  }

  /** The value for a key is that of the first of some keys that is there. */
  predicate FromFirst(r: Fields, key: string, args: Fields, keys: seq<string>) {
    if keys == [] then key !in r
    else if keys[0] in args then key in r && r[key] == args[keys[0]]
    else FromFirst(r, key, args, keys[1..])
  }

  /** A value names one path: as text, or as the only entry of a list. */
  predicate Names(value: Json, path: string) {
    path != "" &&
    match value
    case JString(s) => TrimSpace(s) == path
    case JArray(items) => |items| == 1 && items[0].JString? && TrimSpace(items[0].s) == path
    case _ => false
  }

  /** A path is what it was, or the single one that `paths` names. */
  ghost predicate PathFrom(r: Fields, args: Fields) {
    if "path" in args then SameAt(r, args, "path")
    else if "path" in r then "paths" in args && r["path"].JString? && Names(args["paths"], r["path"].s)
    else forall path :: "paths" in args ==> !Names(args["paths"], path)
  }

  predicate Searches(tool: string) {
    tool in ["grep", "search", "search_code_definitions", "search_code_snippets", "glob"]
  }

  /** A searching tool gets its pattern and one path, `read` a file path, `ls` a
      directory, any other tool a path; everything else stays. */
  lemma RemapMeans(name: string, args: Fields)
    ensures var tool, r := Lower(TrimSpace(name)), RemapToolCallArgs(name, args);
            if tool == "enterplanmode" then r == map[]
            else if Searches(tool) then
              && FromFirst(r, "pattern", args, ["pattern", "description", "query"]) && "description" !in r && "query" !in r
              && PathFrom(r, args) && (if "path" !in args && "path" in r then "paths" !in r else SameAt(r, args, "paths"))
              && forall key :: key !in ["pattern", "description", "query", "path", "paths"] ==> SameAt(r, args, key)
            else if tool == "read" then
              && FromFirst(r, "file_path", args, ["file_path", "path"]) && "path" !in r
              && forall key :: key !in ["file_path", "path"] ==> SameAt(r, args, key)
            else if tool == "ls" then
              && (if "path" in args then SameAt(r, args, "path") else "path" in r && r["path"] == JString("."))
              && forall key :: key != "path" ==> SameAt(r, args, key)
            else PathFrom(r, args) && forall key :: key != "path" ==> SameAt(r, args, key)
  {
    var tool := Lower(TrimSpace(name));
    if Searches(tool) {
      SearchMeans(args);
    } else if tool == "read" {
      ReadMeans(args);
    }
  }

  lemma SearchMeans(args: Fields)
    ensures var r := MoveFirstPath(MoveArg(MoveArg(args, "description", "pattern"), "query", "pattern"), true);
            && FromFirst(r, "pattern", args, ["pattern", "description", "query"]) && "description" !in r && "query" !in r
            && PathFrom(r, args) && (if "path" !in args && "path" in r then "paths" !in r else SameAt(r, args, "paths"))
            && forall key :: key !in ["pattern", "description", "query", "path", "paths"] ==> SameAt(r, args, key)
  {
    var keys := ["pattern", "description", "query"];
    var a := MoveArg(args, "description", "pattern");
    var b := MoveArg(a, "query", "pattern");
    FirstOfThree(b, "pattern", args, "pattern", "description", "query");
    FirstOfThree(MoveFirstPath(b, true), "pattern", args, "pattern", "description", "query");
    assert "description" !in b && "query" !in b;
    assert forall key :: key !in keys ==> SameAt(b, args, key);
  }

  lemma FirstOfThree(r: Fields, key: string, args: Fields, k1: string, k2: string, k3: string)
    ensures FromFirst(r, key, args, [k1, k2, k3])
            <==> if k1 in args then key in r && r[key] == args[k1]
                 else if k2 in args then key in r && r[key] == args[k2]
                 else if k3 in args then key in r && r[key] == args[k3]
                 else key !in r
  {
    var keys := [k1, k2, k3];
    assert keys[1..] == [k2, k3] && [k2, k3][1..] == [k3] && [k3][1..] == [];
    assert FromFirst(r, key, args, [k3]) <==> if k3 in args then key in r && r[key] == args[k3] else key !in r;
    assert FromFirst(r, key, args, [k2, k3]) <==> if k2 in args then key in r && r[key] == args[k2] else FromFirst(r, key, args, [k3]);
  }

  lemma ReadMeans(args: Fields)
    ensures var r := MoveArg(args, "path", "file_path");
            && FromFirst(r, "file_path", args, ["file_path", "path"]) && "path" !in r
            && forall key :: key !in ["file_path", "path"] ==> SameAt(r, args, key)
  {
    var keys := ["file_path", "path"];
    assert keys[1..] == ["path"] && keys[1..][1..] == [];
  }

  /** Remapping never invents a value: whatever it stores was an argument, the
      trimmed single entry of "paths", or the default directory of ls. */
  lemma RemapKeepsValues(name: string, args: Fields, key: string)
    requires key in RemapToolCallArgs(name, args)
    ensures var v := RemapToolCallArgs(name, args)[key];
            v in args.Values
            || (key == "path" && "paths" in args && v == JString(FirstPathValue(args["paths"])))
            || (key == "path" && Lower(TrimSpace(name)) == "ls" && v == JString("."))
  {
    MoveArgValues(args, "description", "pattern");
    var a := MoveArg(args, "description", "pattern");
    MoveArgValues(a, "query", "pattern");
    MoveArgValues(args, "path", "file_path");
  }

  lemma MoveArgValues(args: Fields, from: string, to: string)
    requires from != to
    ensures var r := MoveArg(args, from, to);
            forall k :: k in r ==> r[k] in args.Values && (k != to ==> k in args && r[k] == args[k])
  {
  }

  /** Remapped arguments are carried as JSON if the arguments are. */
  lemma RemapCarried(range: Range, name: string, args: Fields)
    requires Proper(range) && Carries(range, JObject(args))
    ensures Carries(range, JObject(RemapToolCallArgs(name, args)))
  {
    var r := RemapToolCallArgs(name, args);
    forall key | key in r ensures range.text(key) && Carries(range, r[key]) {
      RemapKeepsValues(name, args, key);
      RemapKeys(name, args, key);
      if key == "path" && "paths" in args {
        assert Carries(range, args["paths"]);
        FirstPathCarried(range, args["paths"]);
      }
    }
  }

  lemma FirstPathCarried(range: Range, value: Json)
    requires Proper(range) && Carries(range, value)
    ensures Carries(range, JString(FirstPathValue(value)))
  {
    if value.JArray? && |value.items| == 1 {
      assert Carries(range, value.items[0]);
    }
  }

  lemma RemapKeys(name: string, args: Fields, key: string)
    requires key in RemapToolCallArgs(name, args)
    ensures key in args || Ascii(key)
  {
    assert Ascii("pattern") && Ascii("path") && Ascii("file_path");
    var a := MoveArg(args, "description", "pattern");
    var b := MoveArg(a, "query", "pattern");
    assert forall k :: k in MoveArg(args, "path", "file_path") ==> k in args || k == "file_path";
    assert forall k :: k in b ==> k in args || k == "pattern";
  }

  // ---------- ChunkText ----------

  function Cut(text: string, size: nat): seq<string>
    requires size > 0
    decreases |text|
  {
    if text == "" then []
    else if |text| <= size then [text]
    else [text[..size]] + Cut(text[size..], size)
  }

  /** The pieces ChunkText makes: none for a short blank text. */
  function Chunks(text: string, size: int): seq<string> {
    if size <= 0 || |text| <= size then (if Blank(text) then [] else [text]) else Cut(text, size)
  }

  method ChunkText(text: string, chunkSize: int) returns (chunks: seq<string>)
    ensures chunks == Chunks(text, chunkSize)
  {
    if chunkSize <= 0 || |text| <= chunkSize {
      return if Blank(text) then [] else [text];
    }
    chunks := [];
    var rest := text;
    while |rest| > 0
      invariant Cut(text, chunkSize) == chunks + Cut(rest, chunkSize)
      decreases |rest|
    {
      if |rest| <= chunkSize {
        chunks := chunks + [rest];
        return;
      }
      chunks := chunks + [rest[..chunkSize]];
      rest := rest[chunkSize..];
    }
  }

  /** chunkStreamText differs on short blank texts only. */
  function StreamChunks(text: string, size: int): seq<string> {
    if size <= 0 || |text| <= size then (if text == "" then [] else [text]) else Cut(text, size)
  }

  lemma {:induction false} CutJoins(text: string, size: nat)
    requires size > 0
    ensures Concat(Cut(text, size)) == text
    ensures forall i :: 0 <= i < |Cut(text, size)| ==> 0 < |Cut(text, size)[i]| <= size
    decreases |text|
  {
    if text == "" {
    } else if |text| <= size {
      assert Concat([text]) == text + Concat([]) by { assert [text][1..] == []; }
    } else {
      CutJoins(text[size..], size);
      var rest := Cut(text[size..], size);
      assert ([text[..size]] + rest)[1..] == rest;
      assert text == text[..size] + text[size..];
    }
  }

  /** No byte of a text is lost, repeated or reordered by chunking, except that
      a blank text that fits into one chunk disappears. */
  lemma ChunksJoin(text: string, size: int)
    ensures Concat(Chunks(text, size)) == if Blank(text) && (size <= 0 || |text| <= size) then "" else text
    ensures forall i :: 0 <= i < |Chunks(text, size)| ==> Chunks(text, size)[i] != "" && (size > 0 ==> |Chunks(text, size)[i]| <= size)
    ensures Concat(StreamChunks(text, size)) == text
  {
    if size <= 0 || |text| <= size {
      assert [text][1..] == [];
      assert Concat([text]) == text + Concat([]);
      BlankMeansSpaces("");
    } else {
      CutJoins(text, size);
    }
  }

  /** A text that is left out when it is blank. */
  function Visible(s: string): string {
    if Blank(s) then "" else s
  }

  // ---------- strings on the wire ----------

  /** What a client gets of a string sent as JSON. Encoding replaces bytes that
      are no UTF-8, so a rune that was cut does not come through. */
  type Wire = string -> string

  ghost predicate KeepsAscii(wire: Wire) {
    forall s :: Ascii(s) ==> wire(s) == s
  }

  /** All pieces come through as they were sent. */
  ghost predicate Whole(wire: Wire, chunks: seq<string>) {
    forall i :: 0 <= i < |chunks| ==> wire(chunks[i]) == chunks[i]
  }

  lemma {:induction false} AsciiCut(text: string, size: nat)
    requires size > 0 && Ascii(text)
    ensures forall i :: 0 <= i < |Cut(text, size)| ==> Ascii(Cut(text, size)[i])
    decreases |text|
  {
    if |text| > size {
      AsciiCut(text[size..], size);
    }
  }

  /** Pieces of ASCII text come through. */
  lemma AsciiWhole(wire: Wire, text: string, size: int)
    requires KeepsAscii(wire) && Ascii(text)
    ensures Whole(wire, Chunks(text, size)) && Whole(wire, StreamChunks(text, size))
  {
    if size > 0 {
      AsciiCut(text, size);
    }
  }
}

/** The conversation as the agent keeps it, the Anthropic Messages wire
    format the Bedrock adapter sends, and the per-block conversions between
    them: tool-call ids, tool-result content, user and assistant blocks, and
    tool definitions.  Surrogate sanitising is the identity here, because a
    Dafny `char` is never a lone surrogate. */
module BedrockWire {
  import opened Wrappers
  import opened Strings
  import opened JsonValue
  import opened Sequences

  // ----- the agent's conversation -----

  /** A part of a user message or of a tool result. */
  datatype InputPart = TextPart(text: string) | ImagePart(mimeType: string, data: string)

  /** A user message holds either a plain string or a list of parts. */
  datatype UserContent = PlainText(text: string) | Parts(parts: seq<InputPart>)

  /** A block of an assistant message. */
  datatype AssistantPart =
    | TextContent(text: string)
    | ThinkingContent(thinking: string, thinkingSignature: Option<string>)
    | ToolCallContent(id: string, name: string, arguments: Json)

  datatype Message =
    | UserMessage(userContent: UserContent)
    | AssistantMessage(assistantContent: seq<AssistantPart>)
    | ToolResultMessage(toolCallId: string, resultContent: seq<InputPart>, isError: bool)

  // ----- the wire format -----

  /** A block nested inside a `tool_result`; these never carry a cache marker. */
  datatype NestedBlock = NestedText(text: string) | NestedImage(mediaType: string, data: string)

  /** The `content` of a `tool_result`: a plain string, or blocks when images are present. */
  datatype ToolResultContent = ResultText(text: string) | ResultBlocks(blocks: seq<NestedBlock>)

  /** A content block of a wire message.  `cache` is `cache_control: ephemeral`. */
  datatype WireBlock =
    | WText(text: string, cache: bool)
    | WImage(mediaType: string, data: string, cache: bool)
    | WThinking(thinking: string, signature: string)
    | WToolUse(id: string, name: string, input: Json)
    | WToolResult(toolUseId: string, content: ToolResultContent, isError: bool, cache: bool)

  datatype WireContent = WireString(text: string) | WireBlocks(blocks: seq<WireBlock>)

  datatype WireRole = RoleUser | RoleAssistant

  datatype WireMessage = WireMessage(role: WireRole, content: WireContent)

  // ----- tool-call ids -----

  /** The characters a Bedrock tool-use id may contain: `[A-Za-z0-9_-]`. */
  predicate IdChar(c: char) {
    'a' <= c <= 'z' || 'A' <= c <= 'Z' || '0' <= c <= '9' || c == '_' || c == '-'
  }

  predicate IsToolCallId(s: string) {
    forall i :: 0 <= i < |s| ==> IdChar(s[i])
  }

  /** `sanitizeToolCallId`: every other character becomes `_`. */
  function SanitizeToolCallId(id: string): (r: string)
    ensures |r| == |id|
    ensures IsToolCallId(r)
    ensures forall i :: 0 <= i < |id| ==> (IdChar(id[i]) ==> r[i] == id[i]) && (!IdChar(id[i]) ==> r[i] == '_')
  {
    seq(|id|, i requires 0 <= i < |id| => if IdChar(id[i]) then id[i] else '_')
  }

  /** An id that is already clean is kept, so sanitising twice is sanitising once. */
  lemma SanitizeIdempotent(id: string)
    ensures IsToolCallId(id) ==> SanitizeToolCallId(id) == id
    ensures SanitizeToolCallId(SanitizeToolCallId(id)) == SanitizeToolCallId(id)
  {
  }

  // ----- tool-result content -----

  const ImagePlaceholder: string := "(see attached image)"

  predicate HasImage(parts: seq<InputPart>) {
    exists k :: 0 <= k < |parts| && parts[k].ImagePart?
  }

  predicate HasText(parts: seq<InputPart>) {
    exists k :: 0 <= k < |parts| && parts[k].TextPart?
  }

  /** The text of each part, `""` for a part without one. */
  function Texts(parts: seq<InputPart>): (ts: seq<string>)
    ensures |ts| == |parts|
    ensures forall k :: 0 <= k < |parts| && parts[k].TextPart? ==> ts[k] == parts[k].text
  {
    seq(|parts|, k requires 0 <= k < |parts| => if parts[k].TextPart? then parts[k].text else "")
  }

  function Nest(p: InputPart): NestedBlock {
    match p
    case TextPart(t) => NestedText(t)
    case ImagePart(mime, data) => NestedImage(mime, data)
  }

  /** Every part as a nested block, in order. */
  function NestAll(parts: seq<InputPart>): (blocks: seq<NestedBlock>)
    ensures |blocks| == |parts|
    ensures forall k :: 0 <= k < |parts| ==> blocks[k] == Nest(parts[k])
  {
    seq(|parts|, k requires 0 <= k < |parts| => Nest(parts[k]))
  }

  /** `convertContentBlocks`: without images the texts joined by newlines;
      with images one block per part, preceded by a placeholder text when no
      part is text. */
  function ConvertContentBlocks(parts: seq<InputPart>): ToolResultContent {
    if !HasImage(parts) then ResultText(Join(Texts(parts), "\n"))
    else
      var blocks := NestAll(parts);
      if HasText(parts) then ResultBlocks(blocks) else ResultBlocks([NestedText(ImagePlaceholder)] + blocks)
  }

  /** A tool result is a string exactly when it holds no image; with images
      every part keeps its block and position after the placeholder, which is
      there exactly when no part is text, so the blocks always carry text. */
  lemma ContentBlocksFacts(parts: seq<InputPart>)
    ensures var c := ConvertContentBlocks(parts);
            (c.ResultText? <==> !HasImage(parts)) &&
            (c.ResultText? ==> c.text == Join(Texts(parts), "\n")) &&
            (c.ResultBlocks? ==>
               var off := |c.blocks| - |parts|;
               (off == 0 <==> HasText(parts)) && (off == 0 || off == 1) &&
               (off == 1 ==> c.blocks[0] == NestedText(ImagePlaceholder)) &&
               (forall k :: 0 <= k < |parts| ==> c.blocks[off + k] == Nest(parts[k])) &&
               (exists k :: 0 <= k < |c.blocks| && c.blocks[k].NestedText?))
  {
    if HasImage(parts) {
      if HasText(parts) {
        MixedBlocks(parts);
      } else {
        ImageOnlyBlocks(parts);
      }
    }
  }

  lemma MixedBlocks(parts: seq<InputPart>)
    requires HasImage(parts) && HasText(parts)
    ensures ConvertContentBlocks(parts) == ResultBlocks(NestAll(parts))
    ensures exists k :: 0 <= k < |parts| && NestAll(parts)[k].NestedText?
  {
    var k :| 0 <= k < |parts| && parts[k].TextPart?;
    assert NestAll(parts)[k].NestedText?;
  }

  lemma ImageOnlyBlocks(parts: seq<InputPart>)
    requires HasImage(parts) && !HasText(parts)
    ensures ConvertContentBlocks(parts) == ResultBlocks([NestedText(ImagePlaceholder)] + NestAll(parts))
  {
  }

  /** The newline-joined text splits back into the texts of the parts when
      none of them contains a newline. */
  lemma ContentTextSplitsBack(parts: seq<InputPart>)
    requires parts != [] && !HasImage(parts)
    requires forall k :: 0 <= k < |parts| ==> '\n' !in parts[k].text
    ensures Split(ConvertContentBlocks(parts).text, '\n') == Texts(parts)
  {
    ContentBlocksFacts(parts);
    SplitJoin(Texts(parts), '\n');
  }

  // ----- user blocks -----

  /** A user part survives the filters when it is non-blank text, or an image
      and the model accepts images. */
  predicate KeepUserPart(p: InputPart, acceptsImages: bool) {
    match p
    case TextPart(t) => !IsBlank(t)
    case ImagePart(_, _) => acceptsImages
  }

  function UserBlock(p: InputPart): WireBlock {
    match p
    case TextPart(t) => WText(t, false)
    case ImagePart(mime, data) => WImage(mime, data, false)
  }

  /** The blocks of a user message with parts: each part converted, images
      dropped when the model does not accept them, blank texts dropped. */
  function UserBlocks(parts: seq<InputPart>, acceptsImages: bool): (bs: seq<WireBlock>)
    ensures |bs| <= |parts|
    ensures bs == [] <==> forall k :: 0 <= k < |parts| ==> !KeepUserPart(parts[k], acceptsImages)
    ensures forall b :: b in bs ==> (b.WText? && !IsBlank(b.text) && !b.cache) ||
                                    (b.WImage? && acceptsImages && !b.cache)
    ensures forall k :: 0 <= k < |parts| && KeepUserPart(parts[k], acceptsImages) ==> UserBlock(parts[k]) in bs
  {
    if parts == [] then []
    else
      var rest := UserBlocks(parts[1..], acceptsImages);
      assert forall k :: 1 <= k < |parts| ==> parts[k] == parts[1..][k - 1];
      if KeepUserPart(parts[0], acceptsImages) then [UserBlock(parts[0])] + rest else rest
  }

  /** The blocks of a user message are the parts that pass the filters,
      each converted, in the parts' order and with nothing else. */
  lemma {:induction false} UserBlocksInOrder(parts: seq<InputPart>, acceptsImages: bool)
    ensures UserBlocks(parts, acceptsImages) == Map(Filter(parts, (p: InputPart) => KeepUserPart(p, acceptsImages)), UserBlock)
  {
    if parts != [] {
      UserBlocksInOrder(parts[1..], acceptsImages);
      var kept := Filter(parts, (p: InputPart) => KeepUserPart(p, acceptsImages));
      if KeepUserPart(parts[0], acceptsImages) {
        MapCons(kept, UserBlock);
      }
    }
  }

  // ----- assistant blocks -----

  /** What one assistant block becomes: blank text and blank thinking are
      dropped, thinking without a (non-blank) signature is replayed as plain
      text, and a tool call gets a sanitised id. */
  function AssistantBlock(p: AssistantPart): (b: Option<WireBlock>)
    ensures p.TextContent? ==> (IsBlank(p.text) <==> b.None?) && (b.Some? ==> b.value == WText(p.text, false))
    ensures p.ThinkingContent? && IsBlank(p.thinking) ==> b.None?
    ensures p.ThinkingContent? && !IsBlank(p.thinking) &&
            (p.thinkingSignature.None? || IsBlank(p.thinkingSignature.value)) ==>
              b == Some(WText(p.thinking, false))
    ensures p.ThinkingContent? && !IsBlank(p.thinking) &&
            p.thinkingSignature.Some? && !IsBlank(p.thinkingSignature.value) ==>
              b == Some(WThinking(p.thinking, p.thinkingSignature.value))
    ensures p.ToolCallContent? ==>
              b == Some(WToolUse(SanitizeToolCallId(p.id), p.name, p.arguments))
  {
    match p
    case TextContent(t) => if Trim(t) == "" then None else Some(WText(t, false))
    case ThinkingContent(th, sig) =>
      if Trim(th) == "" then None
      else if sig.None? || Trim(sig.value) == "" then Some(WText(th, false))
      else Some(WThinking(th, sig.value))
    case ToolCallContent(id, name, args) => Some(WToolUse(SanitizeToolCallId(id), name, args))
  }

  function OptionToSeq(b: Option<WireBlock>): seq<WireBlock> {
    if b.Some? then [b.value] else []
  }

  /** A block an assistant message may carry on the wire. */
  predicate AssistantWireBlock(b: WireBlock) {
    match b
    case WText(t, c) => !IsBlank(t) && !c
    case WThinking(th, sig) => !IsBlank(th) && !IsBlank(sig)
    case WToolUse(id, _, _) => IsToolCallId(id)
    case _ => false
  }

  /** The blocks of an assistant message, in order. */
  function AssistantWire(parts: seq<AssistantPart>): (bs: seq<WireBlock>)
    ensures |bs| <= |parts|
  {
    if parts == [] then [] else OptionToSeq(AssistantBlock(parts[0])) + AssistantWire(parts[1..])
  }

  /** An assistant message converts to no blocks exactly when every block is
      dropped; whatever it converts to may go on the wire as an assistant
      block; and no block that converts is lost. */
  lemma {:induction false} AssistantWireFacts(parts: seq<AssistantPart>)
    ensures AssistantWire(parts) == [] <==> forall k :: 0 <= k < |parts| ==> AssistantBlock(parts[k]).None?
    ensures forall b :: b in AssistantWire(parts) ==> AssistantWireBlock(b)
    ensures forall k :: 0 <= k < |parts| && AssistantBlock(parts[k]).Some? ==>
              AssistantBlock(parts[k]).value in AssistantWire(parts)
  {
    if parts != [] {
      AssistantWireFacts(parts[1..]);
      var head := OptionToSeq(AssistantBlock(parts[0]));
      var rest := AssistantWire(parts[1..]);
      assert AssistantWire(parts) == head + rest;
      assert forall k :: 1 <= k < |parts| ==> parts[k] == parts[1..][k - 1];
      forall b | b in head ensures AssistantWireBlock(b) {
        assert b == AssistantBlock(parts[0]).value;
      }
    }
  }

  /** The blocks of an assistant message are the blocks of its converting
      parts, in the parts' order and with nothing else: wrapped back in
      `Some`, they are the conversions of the parts with the dropped ones
      filtered out. */
  lemma {:induction false} AssistantWireInOrder(parts: seq<AssistantPart>)
    ensures Map(AssistantWire(parts), (b: WireBlock) => Some(b)) ==
            Filter(Map(parts, AssistantBlock), (o: Option<WireBlock>) => o.Some?)
  {
    if parts != [] {
      AssistantWireInOrder(parts[1..]);
      MapCons(parts, AssistantBlock);
      assert Map(parts, AssistantBlock)[1..] == Map(parts[1..], AssistantBlock);
      if AssistantBlock(parts[0]).Some? {
        MapCons(AssistantWire(parts), (b: WireBlock) => Some(b));
      }
    }
  }

  /** The block loop for an assistant message in `convertMessages`. */
  method ConvertAssistantBlocks(parts: seq<AssistantPart>) returns (blocks: seq<WireBlock>)
    ensures blocks == AssistantWire(parts)
  {
    blocks := [];
    var i := 0;
    while i < |parts|
      invariant 0 <= i <= |parts|
      invariant blocks + AssistantWire(parts[i..]) == AssistantWire(parts)
    {
      AssistantWireStep(parts, i);
      ghost var before := blocks;
      var block := parts[i];
      match block {
        case TextContent(t) =>
          if Trim(t) != "" {
            blocks := blocks + [WText(t, false)];
            assert AssistantBlock(block) == Some(WText(t, false));
          } else {
            assert AssistantBlock(block) == None;
          }
        case ThinkingContent(th, sig) =>
          if Trim(th) != "" {
            if sig.None? || Trim(sig.value) == "" {
              blocks := blocks + [WText(th, false)];
              assert AssistantBlock(block) == Some(WText(th, false));
            } else {
              blocks := blocks + [WThinking(th, sig.value)];
              assert AssistantBlock(block) == Some(WThinking(th, sig.value));
            }
          } else {
            assert AssistantBlock(block) == None;
          }
        case ToolCallContent(id, name, args) =>
          blocks := blocks + [WToolUse(SanitizeToolCallId(id), name, args)];
      }
      assert blocks == before + OptionToSeq(AssistantBlock(block));
      AppendAssoc(before, OptionToSeq(AssistantBlock(block)), AssistantWire(parts[i + 1..]));
      i := i + 1;
    }
    assert parts[|parts|..] == [];
  }

  lemma AssistantWireStep(parts: seq<AssistantPart>, i: nat)
    requires i < |parts|
    ensures AssistantWire(parts[i..]) == OptionToSeq(AssistantBlock(parts[i])) + AssistantWire(parts[i + 1..])
  {
    assert parts[i..][1..] == parts[i + 1..];
  }

  lemma AppendAssoc<T>(a: seq<T>, b: seq<T>, c: seq<T>)
    ensures (a + b) + c == a + (b + c)
  {
  }

  // ----- tools -----

  /** A tool definition: its name, description and JSON Schema of parameters. */
  datatype Tool = Tool(name: string, description: string, parameters: Json)

  /** A tool on the wire. */
  datatype WireTool = WireTool(name: string, description: string, inputSchema: Json)

  /** `value || fallback` for a JSON value. */
  function OrIfFalsyJson(j: Json, fallback: Json): (r: Json)
    ensures Truthy(j) ==> r == j
    ensures !Truthy(j) ==> r == fallback
  {
    if Truthy(j) then j else fallback
  }

  /** The wire `input_schema` of one tool: an object schema with the tool's
      `properties` (or `{}`) and `required` (or `[]`). */
  function InputSchema(parameters: Json): (s: Json)
    ensures s.Obj? && UniqueKeys(s.fields)
    ensures Get(s, "type") == Str("object")
    ensures Get(s, "properties") == OrIfFalsyJson(Get(parameters, "properties"), Obj([]))
    ensures Get(s, "required") == OrIfFalsyJson(Get(parameters, "required"), Arr([]))
  {
    var fs := [Field("type", Str("object")),
               Field("properties", OrIfFalsyJson(Get(parameters, "properties"), Obj([]))),
               Field("required", OrIfFalsyJson(Get(parameters, "required"), Arr([])))];
    assert "properties"[0] != "type"[0] && "required"[0] != "type"[0] && "required"[2] != "properties"[2];
    assert Lookup(fs[2..], "required") == Some(fs[2].value);
    assert Lookup(fs[1..], "required") == Lookup(fs[1..][1..], "required");
    assert fs[1..][1..] == fs[2..];
    assert Lookup(fs, "required") == Some(fs[2].value);
    assert Lookup(fs[1..], "properties") == Some(fs[1].value);
    Obj(fs)
  }

  /** `convertTools`: one wire tool per tool, in order, names and descriptions kept. */
  function ConvertTools(tools: seq<Tool>): (r: seq<WireTool>)
    ensures |r| == |tools|
    ensures forall k :: 0 <= k < |tools| ==>
              r[k].name == tools[k].name && r[k].description == tools[k].description &&
              r[k].inputSchema == InputSchema(tools[k].parameters)
  {
    seq(|tools|, k requires 0 <= k < |tools| =>
      WireTool(tools[k].name, tools[k].description, InputSchema(tools[k].parameters)))
  }
}

/** `convertMessages`: the conversation, after the library's
    `transformMessages`, becomes the wire message list.  Blank user text,
    blank and unsupported blocks and messages left empty are dropped, a run
    of consecutive tool results becomes one user message, and the last block
    of the final message gets the one cache marker when that message is a
    user message with block content.

    `WireOf` is the specification, one message (or one run of tool results)
    at a time; `ConvertMessages` is the loop with its `i`/`j` cursors. */
module BedrockMessages {
  import opened Wrappers
  import opened Strings
  import opened BedrockTypes
  import opened BedrockWire

  /** Whether the model takes image input (`model.input.includes("image")`). */
  predicate AcceptsImages(model: Model) {
    "image" in model.input
  }

  /** The `tool_result` block for one tool-result message. */
  function ToolResultBlock(m: Message): (b: WireBlock)
    requires m.ToolResultMessage?
    ensures b.WToolResult? && !b.cache && IsToolCallId(b.toolUseId)
  {
    WToolResult(SanitizeToolCallId(m.toolCallId), ConvertContentBlocks(m.resultContent), m.isError, false)
  }

  /** The `tool_result` blocks of the maximal run of tool results that
      starts `msgs`. */
  function ToolRun(msgs: seq<Message>): (r: seq<WireBlock>)
    ensures |r| <= |msgs|
    ensures msgs != [] && msgs[0].ToolResultMessage? ==> |r| >= 1
  {
    if msgs == [] || !msgs[0].ToolResultMessage? then []
    else [ToolResultBlock(msgs[0])] + ToolRun(msgs[1..])
  }

  /** The run holds one `tool_result` per message, in order, and stops at
      the first message that is not a tool result. */
  lemma {:induction false} ToolRunFacts(msgs: seq<Message>)
    ensures forall k :: 0 <= k < |ToolRun(msgs)| ==>
              msgs[k].ToolResultMessage? && ToolRun(msgs)[k] == ToolResultBlock(msgs[k])
    ensures |ToolRun(msgs)| < |msgs| ==> !msgs[|ToolRun(msgs)|].ToolResultMessage?
  {
    if msgs != [] && msgs[0].ToolResultMessage? {
      ToolRunFacts(msgs[1..]);
      var rest := ToolRun(msgs[1..]);
      var r := ToolRun(msgs);
      assert r == [ToolResultBlock(msgs[0])] + rest;
      assert forall k :: 1 <= k < |r| ==> r[k] == rest[k - 1] && msgs[k] == msgs[1..][k - 1];
    }
  }

  /** How many input messages the head of `msgs` stands for. */
  function Consumed(msgs: seq<Message>): (n: nat)
    requires msgs != []
    ensures 1 <= n <= |msgs|
  {
    if msgs[0].ToolResultMessage? then |ToolRun(msgs)| else 1
  }

  /** The wire message (if any) for the head of `msgs`. */
  function HeadWire(msgs: seq<Message>, acceptsImages: bool): (h: seq<WireMessage>)
    requires msgs != []
    ensures |h| <= 1
  {
    match msgs[0]
    case UserMessage(PlainText(t)) =>
      if IsBlank(t) then [] else [WireMessage(RoleUser, WireString(t))]
    case UserMessage(Parts(ps)) =>
      var bs := UserBlocks(ps, acceptsImages);
      if bs == [] then [] else [WireMessage(RoleUser, WireBlocks(bs))]
    case AssistantMessage(ps) =>
      var bs := AssistantWire(ps);
      if bs == [] then [] else [WireMessage(RoleAssistant, WireBlocks(bs))]
    case ToolResultMessage(_, _, _) =>
      [WireMessage(RoleUser, WireBlocks(ToolRun(msgs)))]
  }

  /** The wire messages for `msgs`, before the cache marker is placed. */
  function WireOf(msgs: seq<Message>, acceptsImages: bool): (ws: seq<WireMessage>)
    ensures |ws| <= |msgs|
    decreases |msgs|
  {
    if msgs == [] then []
    else HeadWire(msgs, acceptsImages) + WireOf(msgs[Consumed(msgs)..], acceptsImages)
  }

  lemma WireOfStepAt(msgs: seq<Message>, i: nat, next: nat, acceptsImages: bool)
    requires i < |msgs| && next == i + Consumed(msgs[i..])
    ensures WireOf(msgs[i..], acceptsImages) == HeadWire(msgs[i..], acceptsImages) + WireOf(msgs[next..], acceptsImages)
  {
    assert msgs[i..][Consumed(msgs[i..])..] == msgs[next..];
  }

  lemma ToolRunStep(msgs: seq<Message>, j: nat)
    requires j < |msgs| && msgs[j].ToolResultMessage?
    ensures ToolRun(msgs[j..]) == [ToolResultBlock(msgs[j])] + ToolRun(msgs[j + 1..])
  {
    assert msgs[j..][1..] == msgs[j + 1..];
  }

  // ----- the cache marker -----

  /** A block that carries `cache_control`. */
  predicate Cached(b: WireBlock) {
    (b.WText? || b.WImage? || b.WToolResult?) && b.cache
  }

  predicate Uncached(w: WireMessage) {
    w.content.WireBlocks? ==> forall b :: b in w.content.blocks ==> !Cached(b)
  }

  /** The final message is a user message whose last block can take a marker. */
  predicate CacheTarget(ws: seq<WireMessage>) {
    ws != [] && ws[|ws| - 1].role == RoleUser && ws[|ws| - 1].content.WireBlocks? &&
    ws[|ws| - 1].content.blocks != [] &&
    var last := ws[|ws| - 1].content.blocks[|ws[|ws| - 1].content.blocks| - 1];
    last.WText? || last.WImage? || last.WToolResult?
  }

  /** `ws` with the cache marker set on the last block of the final message,
      when that is a user message with block content. */
  function MarkCache(ws: seq<WireMessage>): (r: seq<WireMessage>)
    ensures |r| == |ws|
    ensures forall k :: 0 <= k < |ws| - 1 ==> r[k] == ws[k]
  {
    if CacheTarget(ws) then
      var bs := ws[|ws| - 1].content.blocks;
      ws[..|ws| - 1] + [WireMessage(RoleUser, WireBlocks(bs[..|bs| - 1] + [bs[|bs| - 1].(cache := true)]))]
    else ws
  }

  // ----- the loop -----

  /** The inner `j` loop of `convertMessages`: starting at the tool result at
      `i`, collect the `tool_result` blocks of the whole run, and return the
      position just past it. */
  method CollectToolRun(msgs: seq<Message>, i: nat) returns (toolResults: seq<WireBlock>, j: nat)
    requires i < |msgs| && msgs[i].ToolResultMessage?
    ensures toolResults == ToolRun(msgs[i..])
    ensures j == i + |toolResults| && i < j <= |msgs|
  {
    var msg := msgs[i];
    toolResults := [WToolResult(SanitizeToolCallId(msg.toolCallId), ConvertContentBlocks(msg.resultContent),
                                msg.isError, false)];
    ToolRunStep(msgs, i);
    j := i + 1;
    while j < |msgs| && msgs[j].ToolResultMessage?
      invariant i < j <= |msgs|
      invariant |toolResults| == j - i
      invariant toolResults + ToolRun(msgs[j..]) == ToolRun(msgs[i..])
    {
      ToolRunStep(msgs, j);
      var nextMsg := msgs[j];
      var block := WToolResult(SanitizeToolCallId(nextMsg.toolCallId), ConvertContentBlocks(nextMsg.resultContent),
                               nextMsg.isError, false);
      AppendAssoc(toolResults, [block], ToolRun(msgs[j + 1..]));
      toolResults := toolResults + [block];
      j := j + 1;
    }
    assert ToolRun(msgs[j..]) == [] by {
      if j < |msgs| { assert msgs[j..][0] == msgs[j]; }
    }
  }

  /** One turn of the outer loop of `convertMessages`: the message pushed for
      the message at `i` (none when it is dropped), and where the cursor goes
      next. */
  method ConvertAt(msgs: seq<Message>, i: nat, acceptsImages: bool) returns (pushed: seq<WireMessage>, next: nat)
    requires i < |msgs|
    ensures pushed == HeadWire(msgs[i..], acceptsImages)
    ensures next == i + Consumed(msgs[i..])
  {
    assert msgs[i..][0] == msgs[i];
    pushed := [];
    next := i + 1;
    var msg := msgs[i];
    match msg {
      case UserMessage(content) =>
        match content {
          case PlainText(t) =>
            if Trim(t) != "" {
              pushed := [WireMessage(RoleUser, WireString(t))];
            }
          case Parts(ps) =>
            var filteredBlocks := UserBlocks(ps, acceptsImages);
            if |filteredBlocks| > 0 {
              pushed := [WireMessage(RoleUser, WireBlocks(filteredBlocks))];
            }
        }
      case AssistantMessage(ps) =>
        var blocks := ConvertAssistantBlocks(ps);
        if |blocks| > 0 {
          pushed := [WireMessage(RoleAssistant, WireBlocks(blocks))];
        }
      case ToolResultMessage(_, _, _) =>
        var toolResults, j := CollectToolRun(msgs, i);
        pushed := [WireMessage(RoleUser, WireBlocks(toolResults))];
        next := j;
    }
  }

  /** The closing step of `convertMessages`: the cache marker on the last
      block of the final message, when that is a user message with blocks. */
  method PlaceCacheMarker(ws: seq<WireMessage>) returns (params: seq<WireMessage>)
    ensures params == MarkCache(ws)
  {
    params := ws;
    if |params| > 0 {
      var lastMessage := params[|params| - 1];
      if lastMessage.role == RoleUser && lastMessage.content.WireBlocks? && |lastMessage.content.blocks| > 0 {
        var bs := lastMessage.content.blocks;
        var lastBlock := bs[|bs| - 1];
        if lastBlock.WText? || lastBlock.WImage? || lastBlock.WToolResult? {
          params := params[..|params| - 1] + [WireMessage(RoleUser, WireBlocks(bs[..|bs| - 1] + [lastBlock.(cache := true)]))];
        }
      }
    }
  }

  /** `convertMessages`, with `transformMessages` passed in. */
  method ConvertMessages(
    messages: seq<Message>,
    model: Model,
    transform: (seq<Message>, Model) -> seq<Message>) returns (params: seq<WireMessage>)
    ensures params == MarkCache(WireOf(transform(messages, model), AcceptsImages(model)))
  {
    var msgs := transform(messages, model);
    var acceptsImages := AcceptsImages(model);
    var wire := [];
    var i := 0;
    while i < |msgs|
      invariant 0 <= i <= |msgs|
      invariant wire + WireOf(msgs[i..], acceptsImages) == WireOf(msgs, acceptsImages)
    {
      var pushed, next := ConvertAt(msgs, i, acceptsImages);
      ghost var later := WireOf(msgs[next..], acceptsImages);
      WireOfStepAt(msgs, i, next, acceptsImages);
      AppendAssoc(wire, pushed, later);
      wire := wire + pushed;
      i := next;
    }
    assert wire == WireOf(msgs, acceptsImages) by {
      assert msgs[i..] == [];
    }
    params := PlaceCacheMarker(wire);
  }

  // ----- what the conversion guarantees -----

  /** A block as it may appear in a wire message of the given role. */
  predicate WellFormedBlock(b: WireBlock, role: WireRole, acceptsImages: bool) {
    match b
    case WText(t, _) => !IsBlank(t)
    case WImage(_, _, _) => role == RoleUser && acceptsImages
    case WThinking(th, sig) => role == RoleAssistant && !IsBlank(th) && !IsBlank(sig)
    case WToolUse(id, _, _) => role == RoleAssistant && IsToolCallId(id)
    case WToolResult(id, _, _, _) => role == RoleUser && IsToolCallId(id)
  }

  /** A wire message Bedrock accepts: a string content is a non-blank user
      text, a block content is non-empty and every block suits the role. */
  predicate WellFormedMessage(w: WireMessage, acceptsImages: bool) {
    match w.content
    case WireString(t) => w.role == RoleUser && !IsBlank(t)
    case WireBlocks(bs) => |bs| > 0 && forall b :: b in bs ==> WellFormedBlock(b, w.role, acceptsImages)
  }

  lemma HeadWireWellFormed(msgs: seq<Message>, acceptsImages: bool)
    requires msgs != []
    ensures forall w :: w in HeadWire(msgs, acceptsImages) ==> WellFormedMessage(w, acceptsImages) && Uncached(w)
  {
    match msgs[0]
    case UserMessage(_) =>
    case AssistantMessage(ps) =>
      AssistantWireFacts(ps);
    case ToolResultMessage(_, _, _) =>
      ToolRunFacts(msgs);
      var r := ToolRun(msgs);
      forall b | b in r ensures WellFormedBlock(b, RoleUser, acceptsImages) && !Cached(b) {
        var k :| 0 <= k < |r| && r[k] == b;
      }
  }

  /** Every wire message is well formed and carries no cache marker yet:
      blank text, blank thinking, images the model cannot take and messages
      left empty never reach the wire. */
  lemma {:induction false} WireWellFormed(msgs: seq<Message>, acceptsImages: bool)
    ensures forall w :: w in WireOf(msgs, acceptsImages) ==> WellFormedMessage(w, acceptsImages) && Uncached(w)
    decreases |msgs|
  {
    if msgs != [] {
      HeadWireWellFormed(msgs, acceptsImages);
      WireWellFormed(msgs[Consumed(msgs)..], acceptsImages);
    }
  }

  /** No block is cached except, possibly, the last block of the final message. */
  predicate OnlyLastBlockCached(r: seq<WireMessage>) {
    forall k, i :: 0 <= k < |r| && r[k].content.WireBlocks? && 0 <= i < |r[k].content.blocks| ==>
      (Cached(r[k].content.blocks[i]) ==> k == |r| - 1 && i == |r[k].content.blocks| - 1)
  }

  /** `r` is `ws` with the marker on the last block of the final message
      when `ws` is a cache target, and `ws` itself otherwise. */
  predicate MarkedLastBlock(ws: seq<WireMessage>, r: seq<WireMessage>) {
    |r| == |ws| &&
    (!CacheTarget(ws) ==> r == ws) &&
    (CacheTarget(ws) ==>
       var n := |ws| - 1;
       var bs := ws[n].content.blocks;
       r[..n] == ws[..n] && r[n].role == RoleUser && r[n].content.WireBlocks? &&
       |r[n].content.blocks| == |bs| &&
       r[n].content.blocks[..|bs| - 1] == bs[..|bs| - 1] &&
       r[n].content.blocks[|bs| - 1] == bs[|bs| - 1].(cache := true) &&
       Cached(r[n].content.blocks[|bs| - 1]))
  }

  lemma MarkCacheShape(ws: seq<WireMessage>)
    ensures MarkedLastBlock(ws, MarkCache(ws))
  {
  }

  lemma MarkCacheKeepsWellFormed(ws: seq<WireMessage>, acceptsImages: bool)
    requires forall w :: w in ws ==> WellFormedMessage(w, acceptsImages)
    ensures forall w :: w in MarkCache(ws) ==> WellFormedMessage(w, acceptsImages)
  {
    if CacheTarget(ws) {
      var r := MarkCache(ws);
      var n := |ws| - 1;
      var bs := ws[n].content.blocks;
      var marked := bs[..|bs| - 1] + [bs[|bs| - 1].(cache := true)];
      assert r == ws[..n] + [WireMessage(RoleUser, WireBlocks(marked))];
      assert ws[n] in ws;
      assert bs[|bs| - 1] in bs;
      forall b | b in marked ensures WellFormedBlock(b, RoleUser, acceptsImages) {
        var i :| 0 <= i < |marked| && marked[i] == b;
        if i < |bs| - 1 {
          assert b == bs[i] && bs[i] in bs;
        }
      }
      forall w | w in r ensures WellFormedMessage(w, acceptsImages) {
        var k :| 0 <= k < |r| && r[k] == w;
        if k < n { assert w == ws[k] && ws[k] in ws; }
      }
    }
  }

  lemma MarkCacheOnlyLast(ws: seq<WireMessage>)
    requires forall w :: w in ws ==> Uncached(w)
    ensures OnlyLastBlockCached(MarkCache(ws))
  {
    var r := MarkCache(ws);
    MarkCacheShape(ws);
    forall k, i | 0 <= k < |r| && r[k].content.WireBlocks? && 0 <= i < |r[k].content.blocks|
      ensures Cached(r[k].content.blocks[i]) ==> k == |r| - 1 && i == |r[k].content.blocks| - 1
    {
      assert ws[k] in ws;
      if CacheTarget(ws) && k == |r| - 1 {
        var bs := ws[k].content.blocks;
        if i < |bs| - 1 {
          assert r[k].content.blocks[..|bs| - 1][i] == bs[i];
          assert bs[i] in bs;
        }
      } else {
        assert r[k] == ws[k];
        assert ws[k].content.blocks[i] in ws[k].content.blocks;
      }
    }
  }

  /** The marker lands on the last block of the final message and nowhere
      else, exactly when that message is a user message whose last block can
      take one; every other message and block is left as it was, and the
      result is still well formed. */
  lemma CacheMarkPlacement(msgs: seq<Message>, acceptsImages: bool)
    ensures MarkedLastBlock(WireOf(msgs, acceptsImages), MarkCache(WireOf(msgs, acceptsImages)))
    ensures OnlyLastBlockCached(MarkCache(WireOf(msgs, acceptsImages)))
    ensures forall w :: w in MarkCache(WireOf(msgs, acceptsImages)) ==> WellFormedMessage(w, acceptsImages)
  {
    var ws := WireOf(msgs, acceptsImages);
    WireWellFormed(msgs, acceptsImages);
    MarkCacheShape(ws);
    MarkCacheOnlyLast(ws);
    MarkCacheKeepsWellFormed(ws, acceptsImages);
  }

  // ----- tool results survive, one per message and in order -----

  function BlockToolResults(bs: seq<WireBlock>): seq<WireBlock> {
    if bs == [] then [] else (if bs[0].WToolResult? then [bs[0]] else []) + BlockToolResults(bs[1..])
  }

  /** The `tool_result` blocks of a wire message list, in order. */
  function WireToolResults(ws: seq<WireMessage>): seq<WireBlock> {
    if ws == [] then []
    else (if ws[0].content.WireBlocks? then BlockToolResults(ws[0].content.blocks) else []) + WireToolResults(ws[1..])
  }

  /** The `tool_result` block each tool-result message calls for, in order. */
  function MessageToolResults(msgs: seq<Message>): seq<WireBlock> {
    if msgs == [] then []
    else (if msgs[0].ToolResultMessage? then [ToolResultBlock(msgs[0])] else []) + MessageToolResults(msgs[1..])
  }

  lemma {:induction false} WireToolResultsAppend(a: seq<WireMessage>, b: seq<WireMessage>)
    ensures WireToolResults(a + b) == WireToolResults(a) + WireToolResults(b)
  {
    if a != [] {
      assert (a + b)[1..] == a[1..] + b;
      WireToolResultsAppend(a[1..], b);
    } else {
      assert a + b == b;
    }
  }

  lemma {:induction false} MessageToolResultsSplit(msgs: seq<Message>, n: nat)
    requires n <= |msgs|
    ensures MessageToolResults(msgs) == MessageToolResults(msgs[..n]) + MessageToolResults(msgs[n..])
  {
    if n > 0 {
      MessageToolResultsSplit(msgs[1..], n - 1);
      assert msgs[..n][1..] == msgs[1..][..n - 1];
      assert msgs[1..][n - 1..] == msgs[n..];
    } else {
      assert msgs[..0] == [];
    }
  }

  lemma {:induction false} NoToolResultBlocks(bs: seq<WireBlock>)
    requires forall b :: b in bs ==> !b.WToolResult?
    ensures BlockToolResults(bs) == []
  {
    if bs != [] {
      assert bs[0] in bs;
      assert forall b :: b in bs[1..] ==> b in bs;
      NoToolResultBlocks(bs[1..]);
    }
  }

  lemma {:induction false} ToolRunResults(msgs: seq<Message>)
    ensures BlockToolResults(ToolRun(msgs)) == ToolRun(msgs)
    ensures MessageToolResults(msgs[..|ToolRun(msgs)|]) == ToolRun(msgs)
  {
    if msgs != [] && msgs[0].ToolResultMessage? {
      ToolRunResults(msgs[1..]);
      var r := ToolRun(msgs);
      assert r[1..] == ToolRun(msgs[1..]);
      assert msgs[..|r|][1..] == msgs[1..][..|ToolRun(msgs[1..])|];
    } else {
      assert msgs[..0] == [];
    }
  }

  lemma HeadToolResults(msgs: seq<Message>, acceptsImages: bool)
    requires msgs != []
    ensures WireToolResults(HeadWire(msgs, acceptsImages)) == MessageToolResults(msgs[..Consumed(msgs)])
  {
    var h := HeadWire(msgs, acceptsImages);
    match msgs[0]
    case ToolResultMessage(_, _, _) =>
      ToolRunResults(msgs);
      assert h == [WireMessage(RoleUser, WireBlocks(ToolRun(msgs)))];
      assert h[1..] == [];
    case UserMessage(c) =>
      assert msgs[..1] == [msgs[0]];
      assert MessageToolResults(msgs[..1]) == [] by { assert msgs[..1][1..] == []; }
      if c.Parts? && h != [] {
        NoToolResultBlocks(UserBlocks(c.parts, acceptsImages));
        assert h[1..] == [];
      }
    case AssistantMessage(ps) =>
      assert msgs[..1] == [msgs[0]];
      assert MessageToolResults(msgs[..1]) == [] by { assert msgs[..1][1..] == []; }
      if h != [] {
        AssistantWireFacts(ps);
        NoToolResultBlocks(AssistantWire(ps));
        assert h[1..] == [];
      }
  }

  /** Every tool-result message gives exactly one `tool_result` block on the
      wire, and the blocks keep the order of the messages. */
  lemma {:induction false} ToolResultsPreserved(msgs: seq<Message>, acceptsImages: bool)
    ensures WireToolResults(WireOf(msgs, acceptsImages)) == MessageToolResults(msgs)
    decreases |msgs|
  {
    if msgs != [] {
      var c := Consumed(msgs);
      ToolResultsPreserved(msgs[c..], acceptsImages);
      HeadToolResults(msgs, acceptsImages);
      WireToolResultsAppend(HeadWire(msgs, acceptsImages), WireOf(msgs[c..], acceptsImages));
      MessageToolResultsSplit(msgs, c);
    }
  }
}

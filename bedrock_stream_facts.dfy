/** What the streaming loop of `streamAnthropicBedrock` guarantees: blocks
    are found by their open index, the usage counters are overwritten and
    balanced, stray deltas are ignored, a block's final text is what its
    delta events carried, and every call ends with exactly one terminal
    event followed by the end of the stream. */
module BedrockStreamFacts {
  import opened Wrappers
  import opened JsonValue
  import opened BedrockTypes
  import opened BedrockStream

  // ----- finding a block -----

  /** No block before the one found, and no block at all when none is found,
      is open under the index. */
  lemma {:induction false} FindIndexFirst(content: seq<Block>, index: int)
    ensures forall j :: 0 <= j < |content| && (FindIndex(content, index) == -1 || j < FindIndex(content, index)) ==>
              content[j].index != Some(index)
  {
    if content != [] && content[0].index != Some(index) {
      FindIndexFirst(content[1..], index);
      forall j | 0 < j < |content| ensures content[j] == content[1..][j - 1] {}
    }
  }

  /** The position of the first block open under the index is what
      `findIndex` returns. */
  lemma FindIndexAt(content: seq<Block>, index: int, k: int)
    requires 0 <= k <= |content|
    requires forall j :: 0 <= j < k ==> content[j].index != Some(index)
    requires k < |content| ==> content[k].index == Some(index)
    ensures FindIndex(content, index) == if k == |content| then -1 else k
  {
    FindIndexFirst(content, index);
  }

  // ----- usage -----

  predicate UsageBalanced(u: Usage) {
    u.totalTokens == u.input + u.output + u.cacheRead + u.cacheWrite
  }

  /** `message_start` and `message_delta` overwrite all four counters,
      input included, from the report alone (a missing count is 0), set the
      total to their sum and price them; nothing is accumulated. */
  lemma UsageOverwritten(s: State, e: VendorEvent, parse: Parser, pricing: Pricing)
    requires e.MessageStart? || e.MessageDelta?
    ensures var u := Next(s, e, parse, pricing).usage;
            u.input == OrIfFalsy(e.usage.inputTokens, 0) && u.output == OrIfFalsy(e.usage.outputTokens, 0) &&
            u.cacheRead == OrIfFalsy(e.usage.cacheReadInputTokens, 0) &&
            u.cacheWrite == OrIfFalsy(e.usage.cacheCreationInputTokens, 0) &&
            UsageBalanced(u) && u.cost == pricing(u.input, u.output, u.cacheRead, u.cacheWrite)
    ensures forall s' :: Next(s', e, parse, pricing).usage == Next(s, e, parse, pricing).usage
  {
  }

  /** The total is the sum of the four counters at every point of the loop. */
  lemma {:induction false} UsageStaysBalanced(s: State, events: seq<VendorEvent>, parse: Parser, pricing: Pricing)
    requires UsageBalanced(s.usage)
    ensures UsageBalanced(Fold(s, events, parse, pricing).usage)
  {
    if events != [] {
      var before := Fold(s, events[..|events| - 1], parse, pricing);
      UsageStaysBalanced(s, events[..|events| - 1], parse, pricing);
      var e := events[|events| - 1];
      if e.MessageStart? || e.MessageDelta? {
        UsageOverwritten(before, e, parse, pricing);
      } else {
        assert Next(before, e, parse, pricing).usage == before.usage;
      }
    }
  }

  // ----- deltas -----

  /** A delta whose index matches no open block, or whose block is of
      another kind, changes nothing and pushes nothing. */
  lemma UnmatchedDeltaIgnored(s: State, index: int, d: Delta, parse: Parser, pricing: Pricing)
    requires FindIndex(s.content, index) < 0 || !Accepts(s.content[FindIndex(s.content, index)], d)
    ensures Next(s, ContentBlockDelta(index, d), parse, pricing) == s
  {
  }

  /** A signature delta never pushes an event; on a thinking block it only
      extends the signature. */
  lemma SignatureDeltaIsSilent(s: State, index: int, sig: string, parse: Parser, pricing: Pricing)
    ensures var t := Next(s, ContentBlockDelta(index, SignatureDelta(sig)), parse, pricing);
            t.emitted == s.emitted && |t.content| == |s.content| &&
            forall j :: 0 <= j < |s.content| && t.content[j] != s.content[j] ==>
              j == FindIndex(s.content, index) && s.content[j].ThinkingBlock? &&
              t.content[j] == ThinkingBlock(s.content[j].thinking, s.content[j].thinkingSignature + sig, s.content[j].index)
  {
  }

  /** Every argument delta re-parses the whole argument text so far. */
  lemma ArgumentsReparsedOnEveryDelta(s: State, index: int, p: string, parse: Parser, pricing: Pricing)
    requires FindIndex(s.content, index) >= 0 && s.content[FindIndex(s.content, index)].ToolCallBlock?
    ensures var k := FindIndex(s.content, index);
            var t := Next(s, ContentBlockDelta(index, InputJsonDelta(p)), parse, pricing);
            var json := s.content[k].partialJson.GetOr("") + p;
            t.content[k].ToolCallBlock? && t.content[k].partialJson == Some(json) &&
            t.content[k].arguments == parse(json) && t.emitted == s.emitted + [EvToolCallDelta(k, p)]
  {
  }

  // ----- block stop -----

  /** `content_block_stop` closes the first block open under the index: the
      index is gone, so that block takes no further deltas; a tool call gets
      the arguments parsed from its full text and loses the text; a thinking
      block stays a thinking block; nothing else changes.  A stop for an
      index with no open block changes nothing. */
  lemma BlockStopCloses(s: State, index: int, parse: Parser, pricing: Pricing)
    ensures FindIndex(s.content, index) < 0 ==> Next(s, ContentBlockStop(index), parse, pricing) == s
    ensures var k := FindIndex(s.content, index);
            var t := Next(s, ContentBlockStop(index), parse, pricing);
            k >= 0 ==>
              |t.content| == |s.content| && t.content[k].index.None? && FindIndex(t.content, index) != k &&
              (forall j :: 0 <= j < |s.content| && j != k ==> t.content[j] == s.content[j]) &&
              (!s.content[k].ToolCallBlock? ==> t.content[k] == Unindexed(s.content[k])) &&
              (s.content[k].ToolCallBlock? ==>
                 t.content[k] == ToolCallBlock(s.content[k].id, s.content[k].name,
                                               parse(s.content[k].partialJson.GetOr("")), None, None)) &&
              t.emitted == s.emitted + [EndEvent(k, t.content[k])]
  {
  }

  // ----- what the delta events carry -----

  /** The three kinds of delta event a consumer can rebuild a block from. */
  datatype Channel = TextChannel | ThinkingChannel | ArgumentChannel

  /** What one pushed event adds to block `k` on a channel. */
  function Payload(ev: StreamEvent, ch: Channel, k: int): string {
    match ev
    case EvTextDelta(i, t) => if ch == TextChannel && i == k then t else ""
    case EvThinkingDelta(i, t) => if ch == ThinkingChannel && i == k then t else ""
    case EvToolCallDelta(i, t) => if ch == ArgumentChannel && i == k then t else ""
    case _ => ""
  }

  /** The in-order concatenation of the payloads pushed for block `k`. */
  function Payloads(evs: seq<StreamEvent>, ch: Channel, k: int): string
    decreases |evs|
  {
    if evs == [] then "" else Payloads(evs[..|evs| - 1], ch, k) + Payload(evs[|evs| - 1], ch, k)
  }

  lemma PayloadsSnoc(evs: seq<StreamEvent>, ev: StreamEvent, ch: Channel, k: int)
    ensures Payloads(evs + [ev], ch, k) == Payloads(evs, ch, k) + Payload(ev, ch, k)
  {
    assert (evs + [ev])[..|evs|] == evs;
  }

  /** A block's text is what its delta events carried: the text of a text
      block, the thinking of a thinking block, and the argument text of a
      tool call while it is still there, which it is while the call is open. */
  predicate BlockMatchesLog(b: Block, evs: seq<StreamEvent>, k: int) {
    match b
    case TextBlock(text, _) => text == Payloads(evs, TextChannel, k)
    case ThinkingBlock(thinking, _, _) => thinking == Payloads(evs, ThinkingChannel, k)
    case ToolCallBlock(_, _, _, json, index) =>
      (index.Some? ==> json.Some?) && (json.Some? ==> json.value == Payloads(evs, ArgumentChannel, k))
  }

  /** Every block matches its delta events, and no delta event was pushed
      for a position that holds no block. */
  ghost predicate LogMatches(s: State) {
    (forall k :: 0 <= k < |s.content| ==> BlockMatchesLog(s.content[k], s.emitted, k)) &&
    (forall k, ch :: (k < 0 || |s.content| <= k) ==> Payloads(s.emitted, ch, k) == "")
  }

  /** An event that carries no payload leaves every concatenation as it was. */
  lemma SilentEvent(evs: seq<StreamEvent>, ev: StreamEvent)
    requires !ev.EvTextDelta? && !ev.EvThinkingDelta? && !ev.EvToolCallDelta?
    ensures forall k, ch :: Payloads(evs + [ev], ch, k) == Payloads(evs, ch, k)
  {
    forall k, ch ensures Payloads(evs + [ev], ch, k) == Payloads(evs, ch, k) {
      PayloadsSnoc(evs, ev, ch, k);
    }
  }

  /** Opening a block keeps the log matched: the new block is empty and no
      payload was pushed for its position yet. */
  lemma BlockStartKeepsLog(s: State, index: int, kind: BlockKind)
    requires LogMatches(s)
    ensures LogMatches(OnBlockStart(s, index, kind))
  {
    var t := OnBlockStart(s, index, kind);
    if !kind.KindOther? {
      var ev := t.emitted[|t.emitted| - 1];
      assert t.emitted == s.emitted + [ev];
      SilentEvent(s.emitted, ev);
      forall k | 0 <= k < |t.content| ensures BlockMatchesLog(t.content[k], t.emitted, k) {
        if k < |s.content| {
          assert t.content[k] == s.content[k];
          assert BlockMatchesLog(s.content[k], s.emitted, k);
        } else {
          assert Payloads(s.emitted, TextChannel, k) == "";
          assert Payloads(s.emitted, ThinkingChannel, k) == "";
          assert Payloads(s.emitted, ArgumentChannel, k) == "";
        }
      }
    }
  }

  /** Closing a block keeps the log matched: its text is kept and the end
      event carries no payload. */
  lemma BlockStopKeepsLog(s: State, index: int, parse: Parser)
    requires LogMatches(s)
    ensures LogMatches(OnBlockStop(s, index, parse))
  {
    var k := FindIndex(s.content, index);
    if k >= 0 {
      var t := OnBlockStop(s, index, parse);
      var ev := EndEvent(k, Closed(s.content[k], parse));
      SilentEvent(s.emitted, ev);
      forall j | 0 <= j < |t.content| ensures BlockMatchesLog(t.content[j], t.emitted, j) {
        assert BlockMatchesLog(s.content[j], s.emitted, j);
      }
    }
  }

  /** A matched delta extends its block by exactly the payload it pushes. */
  lemma DeltaKeepsLog(s: State, index: int, d: Delta, parse: Parser)
    requires LogMatches(s)
    ensures LogMatches(OnDelta(s, index, d, parse))
  {
    var k := FindIndex(s.content, index);
    if k >= 0 && Accepts(s.content[k], d) {
      var t := OnDelta(s, index, d, parse);
      if d.SignatureDelta? {
        forall j | 0 <= j < |t.content| ensures BlockMatchesLog(t.content[j], t.emitted, j) {
          assert BlockMatchesLog(s.content[j], s.emitted, j);
        }
      } else {
        var ev := t.emitted[|t.emitted| - 1];
        assert t.emitted == s.emitted + [ev];
        forall j, ch | j < 0 || |t.content| <= j ensures Payloads(t.emitted, ch, j) == "" {
          PayloadsSnoc(s.emitted, ev, ch, j);
        }
        forall j | 0 <= j < |t.content| ensures BlockMatchesLog(t.content[j], t.emitted, j) {
          assert BlockMatchesLog(s.content[j], s.emitted, j);
          DeltaKeepsBlock(s, index, d, parse, j);
        }
      }
    }
  }

  /** One block after a matched, pushed delta: the block the delta went to
      grew by the payload, every other block and its payloads are as before. */
  lemma DeltaKeepsBlock(s: State, index: int, d: Delta, parse: Parser, j: int)
    requires FindIndex(s.content, index) >= 0 && Accepts(s.content[FindIndex(s.content, index)], d)
    requires !d.SignatureDelta?
    requires 0 <= j < |s.content| && BlockMatchesLog(s.content[j], s.emitted, j)
    ensures BlockMatchesLog(OnDelta(s, index, d, parse).content[j], OnDelta(s, index, d, parse).emitted, j)
  {
    var k := FindIndex(s.content, index);
    var t := OnDelta(s, index, d, parse);
    var ev := t.emitted[|t.emitted| - 1];
    assert t.emitted == s.emitted + [ev];
    if j != k {
      assert t.content[j] == s.content[j];
      assert ev.contentIndex == k;
      PayloadsSnoc(s.emitted, ev, TextChannel, j);
      PayloadsSnoc(s.emitted, ev, ThinkingChannel, j);
      PayloadsSnoc(s.emitted, ev, ArgumentChannel, j);
    } else {
      match d
      case TextDelta(x) =>
        assert ev == EvTextDelta(k, x);
        PayloadsSnoc(s.emitted, ev, TextChannel, j);
      case ThinkingDelta(x) =>
        assert ev == EvThinkingDelta(k, x);
        PayloadsSnoc(s.emitted, ev, ThinkingChannel, j);
      case InputJsonDelta(x) =>
        assert ev == EvToolCallDelta(k, x);
        PayloadsSnoc(s.emitted, ev, ArgumentChannel, j);
    }
  }

  /** Every event of the loop keeps the log matched. */
  lemma NextKeepsLog(s: State, e: VendorEvent, parse: Parser, pricing: Pricing)
    requires LogMatches(s)
    ensures LogMatches(Next(s, e, parse, pricing))
  {
    match e
    case ContentBlockStart(index, kind) => BlockStartKeepsLog(s, index, kind);
    case ContentBlockDelta(index, d) => DeltaKeepsLog(s, index, d, parse);
    case ContentBlockStop(index) => BlockStopKeepsLog(s, index, parse);
    case _ =>
  }

  lemma {:induction false} FoldKeepsLog(s: State, events: seq<VendorEvent>, parse: Parser, pricing: Pricing)
    requires LogMatches(s)
    ensures LogMatches(Fold(s, events, parse, pricing))
  {
    if events != [] {
      FoldKeepsLog(s, events[..|events| - 1], parse, pricing);
      NextKeepsLog(Fold(s, events[..|events| - 1], parse, pricing), events[|events| - 1], parse, pricing);
    }
  }

  /** The end of the call keeps the log matched: removing the indices keeps
      every text and the final events carry no payload. */
  lemma TerminateKeepsLog(s: State, aborted: bool, failure: Option<string>)
    requires LogMatches(s)
    ensures LogMatches(Terminate(s, aborted, failure))
  {
    var t := Terminate(s, aborted, failure);
    ClosingKeepsLog(s, t, t.emitted[|s.emitted|]);
  }

  /** Two payload-free events pushed at the end, with every block kept or
      stripped of its index, keep the log matched. */
  lemma ClosingKeepsLog(s: State, t: State, last: StreamEvent)
    requires LogMatches(s)
    requires !last.EvTextDelta? && !last.EvThinkingDelta? && !last.EvToolCallDelta?
    requires t.emitted == s.emitted + [last, EvEnd]
    requires |t.content| == |s.content|
    requires forall j :: 0 <= j < |t.content| ==> t.content[j] == s.content[j] || t.content[j] == Unindexed(s.content[j])
    ensures LogMatches(t)
  {
    var evs := s.emitted + [last];
    assert t.emitted == evs + [EvEnd];
    forall k, ch ensures Payloads(t.emitted, ch, k) == Payloads(s.emitted, ch, k) {
      PayloadsSnoc(s.emitted, last, ch, k);
      PayloadsSnoc(evs, EvEnd, ch, k);
    }
    forall j | 0 <= j < |t.content| ensures BlockMatchesLog(t.content[j], t.emitted, j) {
      UnindexedMatches(s.content[j], s.emitted, t.emitted, j);
    }
  }

  /** Removing a block's index keeps it matched against a log with the same
      payloads. */
  lemma UnindexedMatches(b: Block, before: seq<StreamEvent>, after: seq<StreamEvent>, k: int)
    requires BlockMatchesLog(b, before, k)
    requires forall ch :: Payloads(after, ch, k) == Payloads(before, ch, k)
    ensures BlockMatchesLog(b, after, k) && BlockMatchesLog(Unindexed(b), after, k)
  {
    assert Payloads(after, TextChannel, k) == Payloads(before, TextChannel, k);
    assert Payloads(after, ThinkingChannel, k) == Payloads(before, ThinkingChannel, k);
    assert Payloads(after, ArgumentChannel, k) == Payloads(before, ArgumentChannel, k);
  }

  /** Whatever happens, each block of the final message holds exactly the
      in-order concatenation of the deltas pushed for it. */
  lemma DeltasRebuildBlocks(
    setupFailure: Option<string>, events: seq<VendorEvent>, failure: Option<string>, aborted: bool,
    parse: Parser, pricing: Pricing)
    ensures LogMatches(Run(setupFailure, events, failure, aborted, parse, pricing))
  {
    var start := Emit(Initial, EvStart);
    SilentEvent([], EvStart);
    assert LogMatches(Initial);
    assert LogMatches(start);
    FoldKeepsLog(start, events, parse, pricing);
    TerminateKeepsLog(Initial, aborted, setupFailure);
    TerminateKeepsLog(Fold(start, events, parse, pricing), aborted, failure);
  }

  // ----- the end of the call -----

  predicate IsTerminal(ev: StreamEvent) {
    ev.EvDone? || ev.EvError?
  }

  /** Neither a terminal event nor the end of the stream occurs. */
  predicate Open(evs: seq<StreamEvent>) {
    forall i :: 0 <= i < |evs| ==> !IsTerminal(evs[i]) && !evs[i].EvEnd?
  }

  /** The loop only appends to what was pushed, and never a terminal event
      or the end of the stream. */
  lemma {:induction false} FoldKeepsOpen(s: State, events: seq<VendorEvent>, parse: Parser, pricing: Pricing)
    requires Open(s.emitted)
    ensures var t := Fold(s, events, parse, pricing);
            |s.emitted| <= |t.emitted| && t.emitted[..|s.emitted|] == s.emitted && Open(t.emitted)
    ensures Fold(s, events, parse, pricing).errorMessage == s.errorMessage
  {
    if events != [] {
      var before := Fold(s, events[..|events| - 1], parse, pricing);
      FoldKeepsOpen(s, events[..|events| - 1], parse, pricing);
      var t := Next(before, events[|events| - 1], parse, pricing);
      assert t.emitted == before.emitted || exists ev :: t.emitted == before.emitted + [ev] && !IsTerminal(ev) && !ev.EvEnd?;
      assert t.emitted[..|before.emitted|] == before.emitted;
      assert before.emitted[..|s.emitted|] == s.emitted;
    }
  }

  /** The end of the call appends a terminal event and the end of the
      stream to an open log, and nothing else. */
  lemma TerminateEnds(s: State, aborted: bool, failure: Option<string>)
    requires Open(s.emitted)
    ensures var evs := Terminate(s, aborted, failure).emitted;
            |evs| == |s.emitted| + 2 && evs[..|s.emitted|] == s.emitted &&
            evs[|evs| - 1] == EvEnd && IsTerminal(evs[|evs| - 2]) && Open(evs[..|evs| - 2])
  {
    var evs := Terminate(s, aborted, failure).emitted;
    assert evs[..|evs| - 2] == s.emitted;
  }

  /** Which terminal event the end of the call pushes, and the message it
      leaves behind. */
  lemma TerminateOutcome(s: State, aborted: bool, failure: Option<string>)
    ensures var t := Terminate(s, aborted, failure);
            var last := t.emitted[|t.emitted| - 2];
            (last.EvDone? <==> failure.None? && !aborted && s.stopReason in {Stop, Length, ToolUse}) &&
            (last.EvDone? ==> last.reason == s.stopReason && t.content == s.content && t.errorMessage == s.errorMessage) &&
            (last.EvError? ==>
               last.reason == t.stopReason && (t.stopReason == Aborted <==> aborted) &&
               (!aborted ==> t.stopReason == Error) && t.errorMessage.Some? &&
               forall k :: 0 <= k < |t.content| ==> t.content[k].index.None?)
  {
    var t := Terminate(s, aborted, failure);
    if Thrown(s, aborted, failure).Some? {
      forall k | 0 <= k < |t.content| ensures t.content[k].index.None? {
        assert t.content[k] == Unindexed(s.content[k]);
      }
    }
  }

  /** Every call ends with exactly one terminal event, `done` or `error`,
      followed by the end of the stream and nothing else; `start` comes
      first unless building the request failed. */
  lemma ExactlyOneTerminal(
    setupFailure: Option<string>, events: seq<VendorEvent>, failure: Option<string>, aborted: bool,
    parse: Parser, pricing: Pricing)
    ensures var evs := Run(setupFailure, events, failure, aborted, parse, pricing).emitted;
            |evs| >= 2 && evs[|evs| - 1] == EvEnd && IsTerminal(evs[|evs| - 2]) && Open(evs[..|evs| - 2])
    ensures setupFailure.None? ==> Run(setupFailure, events, failure, aborted, parse, pricing).emitted[0] == EvStart
    ensures setupFailure.Some? ==>
              Run(setupFailure, events, failure, aborted, parse, pricing).emitted ==
              [EvError(if aborted then Aborted else Error), EvEnd]
  {
    if setupFailure.Some? {
      TerminateEnds(Initial, aborted, setupFailure);
    } else {
      var start := Emit(Initial, EvStart);
      FoldKeepsOpen(start, events, parse, pricing);
      var f := Fold(start, events, parse, pricing);
      TerminateEnds(f, aborted, failure);
      var evs := Terminate(f, aborted, failure).emitted;
      assert evs[0] == evs[..|f.emitted|][0] == f.emitted[0] == f.emitted[..1][0];
    }
  }

  /** `done` is pushed exactly when nothing was thrown, the signal is not
      aborted and the stop reason is `stop`, `length` or `toolUse`; it then
      carries that reason and the message is left as the loop built it.
      Otherwise `error` is pushed: every index is removed, the reason is
      `aborted` exactly when the signal is aborted and `error` otherwise, and
      the error message is set. */
  lemma TerminalOutcome(
    setupFailure: Option<string>, events: seq<VendorEvent>, failure: Option<string>, aborted: bool,
    parse: Parser, pricing: Pricing)
    ensures var t := Run(setupFailure, events, failure, aborted, parse, pricing);
            var f := Fold(Emit(Initial, EvStart), events, parse, pricing);
            var last := t.emitted[|t.emitted| - 2];
            (last.EvDone? <==>
               setupFailure.None? && failure.None? && !aborted && f.stopReason in {Stop, Length, ToolUse}) &&
            (last.EvDone? ==> last.reason == f.stopReason && t.content == f.content && t.errorMessage.None?) &&
            (last.EvError? ==>
               last.reason == t.stopReason && (t.stopReason == Aborted <==> aborted) &&
               (!aborted ==> t.stopReason == Error) && t.errorMessage.Some? &&
               forall k :: 0 <= k < |t.content| ==> t.content[k].index.None?)
  {
    if setupFailure.Some? {
      TerminateOutcome(Initial, aborted, setupFailure);
    } else {
      var start := Emit(Initial, EvStart);
      FoldKeepsOpen(start, events, parse, pricing);
      TerminateOutcome(Fold(start, events, parse, pricing), aborted, failure);
    }
  }

  /** A `refusal` stop reason forces the error ending even when the stream
      itself went well. */
  lemma RefusalEndsInError(s: State, report: UsageReport, parse: Parser, pricing: Pricing)
    ensures var t := Terminate(Next(s, MessageDelta(Some("refusal"), report), parse, pricing), false, None);
            t.emitted[|t.emitted| - 2] == EvError(Error) && t.errorMessage == Some(UnknownErrorMessage)
  {
    assert MapStopReason("refusal") == Error;
  }
}

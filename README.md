# Clawdbot core logic in Dafny

Clawdbot is a personal assistant gateway. It has an agent written in
TypeScript and companion apps written in Swift. This project models the
parts of it that decide things, and proves what they promise:

- **The Amazon Bedrock streaming adapter** (`src/providers/anthropic-bedrock.ts`).
  - A stream decoder turns Anthropic Messages streaming events into an
    assistant message and a log of pushed events. It is modelled as the
    class `BedrockDecoder.Decoder`, specified by the pure state machine in
    `BedrockStream`.
  - A request builder turns the conversation into wire messages with one
    cache marker (`BedrockWire`, `BedrockMessages`, `BedrockParams`).
- **The dispatcher** (`src/providers/stream-with-bedrock.ts`). It routes a
  model by provider and plans the thinking budget and output limit
  (`StreamDispatch`).
- **Tool selection and JSON Schema flattening for Gemini**
  (`src/agents/pi-tools.ts`). Tools are filtered by channel and by sandbox
  policy (`ToolPolicy`). Schemas are merged and cleaned (`GeminiSchema`)
  over a small JavaScript value model (`JsonValue`).
- **Legacy configuration detection and migration** (`src/config/legacy.ts`).
  The record is rewritten in place by a `MigrationRun` object that logs
  change lines (`LegacyConfig`).
- **The chat Markdown splitter** (`ChatMarkdownSplitter.swift`). It has a
  line scanner for code fences and the removal of inline data-URL images
  (`MarkdownSplitter`).
- **Bonjour service-domain normalisation** (`BonjourTypes`). The multicast
  DNS `local.` domain is section 3 of RFC 6762.
- **Gateway error defaulting** (`GatewayErrors`).
- **Telegram bot-token source precedence** (`TelegramToken`).

`Wrappers`, `Strings`, `Sequences` and `JsonValue` are supporting
libraries: `Option`, trimming, ASCII lower-casing, split and join,
subsequences, and JSON values with JavaScript truthiness.

Where the code does something step by step, the model does too:

- the decoder loop, the `convertMessages` cursor loop, the schema merge and
  clean loops, the migration steps and both splitter loops are methods;
- each is proved equal to a pure specification function;
- the properties are proved as lemmas about those functions.

Calls into code that is not part of this model are parameters:

- `transformMessages`;
- `parseStreamingJson` (`Parser`);
- `calculateCost` (`Pricing`);
- the file system (`FileSystem`);
- the image decoder;
- the regular-expression matches.

## Model

| member | source | states |
|---|---|---|
| BedrockTypes.OrIfFalsy | src/providers/anthropic-bedrock.ts:134-137 | `n \|\| fallback`: a present non-zero number is kept; a missing number or zero gives the fallback |
| BedrockStream.MapStopReason | src/providers/anthropic-bedrock.ts:529-546 | `max_tokens` is exactly `length`; `tool_use` is exactly `toolUse`; `refusal` is exactly `error`; every other code, known or not, is `stop`; `aborted` never comes out |
| BedrockStream.FindIndex | src/providers/anthropic-bedrock.ts:173 | the result is -1 or a position of a block open under the given vendor index |
| BedrockStreamFacts.FindIndexFirst | src/providers/anthropic-bedrock.ts:173 | no block before the found position (or anywhere, for -1) is open under that index, so the first match is taken |
| BedrockStream.StripIndices | src/providers/anthropic-bedrock.ts:272 | the `catch` block keeps every block and its position, and removes each block's index |
| BedrockStreamFacts.UsageOverwritten | src/providers/anthropic-bedrock.ts:133-140 | after `message_start` or `message_delta`: the four counters are taken from the event (missing or zero gives 0); the total is their sum; the cost is `calculateCost` of them; the result does not depend on the counters before, so nothing accumulates |
| BedrockStreamFacts.UsageStaysBalanced | src/providers/anthropic-bedrock.ts:252-258 | after any sequence of events, `totalTokens` equals input + output + cacheRead + cacheWrite |
| BedrockStreamFacts.UnmatchedDeltaIgnored | src/providers/anthropic-bedrock.ts:171-216 | a delta whose index matches no open block, or whose block has the wrong kind, leaves the message and the event log unchanged |
| BedrockStreamFacts.SignatureDeltaIsSilent | src/providers/anthropic-bedrock.ts:209-215 | a `signature_delta` pushes nothing; the only block it can change is the matched thinking block, whose signature gets the payload appended |
| BedrockStreamFacts.ArgumentsReparsedOnEveryDelta | src/providers/anthropic-bedrock.ts:196-208 | an `input_json_delta` on an open tool call appends to `partialJson`, re-parses the arguments from the whole text, and pushes `toolcall_delta` |
| BedrockStreamFacts.BlockStopCloses | src/providers/anthropic-bedrock.ts:217-247 | `content_block_stop` with no match does nothing; otherwise it removes the block's index, so the index no longer finds it; a text or thinking block keeps its kind and text; a tool call gets its arguments parsed from `partialJson`, which is deleted; no other block changes; exactly the matching end event is pushed |
| BedrockStreamFacts.DeltasRebuildBlocks | src/providers/anthropic-bedrock.ts:171-208 | in every run, each block's text, thinking and tool-call `partialJson` is the in-order concatenation of the delta payloads pushed for that block's position |
| BedrockStreamFacts.NextKeepsLog | src/providers/anthropic-bedrock.ts:132-259 | every loop iteration keeps the block contents in agreement with the pushed deltas |
| BedrockStreamFacts.TerminateEnds | src/providers/anthropic-bedrock.ts:262-277 | ending the call, on either path, appends exactly one terminal event and then `end` to a log that had neither |
| BedrockStreamFacts.TerminateOutcome | src/providers/anthropic-bedrock.ts:262-277 | ending the call pushes `done` exactly when nothing was thrown, the signal is not aborted and the stop reason is `stop`, `length` or `toolUse`, and then changes no block; on the `catch` path every index is removed and the stop reason is `aborted` or `error` after the signal |
| BedrockStreamFacts.TerminateKeepsLog | src/providers/anthropic-bedrock.ts:262-277 | ending the call keeps every block in agreement with the deltas pushed for it |
| BedrockStreamFacts.ExactlyOneTerminal | src/providers/anthropic-bedrock.ts:129-277 | every run pushes exactly one terminal event, then `end`, and nothing after it; `start` comes first unless building the client or the request failed, in which case only `error` and `end` are pushed |
| BedrockStreamFacts.TerminalOutcome | src/providers/anthropic-bedrock.ts:262-277 | `done` is pushed exactly when nothing was thrown, the signal is not aborted and the stop reason is `stop`, `length` or `toolUse`, and it carries that reason; otherwise `error` is pushed, every index is stripped, the stop reason is `aborted` exactly when the signal is aborted (else `error`), and an error message is set |
| BedrockStreamFacts.RefusalEndsInError | src/providers/anthropic-bedrock.ts:248-251 | a `refusal` stop reason forces the error path with the message "An unknown error occurred" |
| BedrockDecoder.Decoder.constructor | src/providers/anthropic-bedrock.ts:102-118 | the `output` message starts with no content, zero usage and zero cost, stop reason `stop`, and nothing pushed |
| BedrockDecoder.Decoder.FindBlock | src/providers/anthropic-bedrock.ts:173 | the search loop returns exactly `FindIndex` of the content, and a found block is open under the index |
| BedrockDecoder.Decoder.Count | src/providers/anthropic-bedrock.ts:133-140 | the counters are overwritten in place as `Counted` says, and nothing else changes |
| BedrockDecoder.Decoder.StartBlock | src/providers/anthropic-bedrock.ts:141-170 | `content_block_start` updates the message in place exactly as `OnBlockStart` specifies |
| BedrockDecoder.Decoder.ApplyDelta | src/providers/anthropic-bedrock.ts:171-216 | `content_block_delta` updates the message in place exactly as `OnDelta` specifies |
| BedrockDecoder.Decoder.StopBlock | src/providers/anthropic-bedrock.ts:217-247 | `content_block_stop` updates the message in place exactly as `OnBlockStop` specifies |
| BedrockDecoder.Decoder.Step | src/providers/anthropic-bedrock.ts:132-259 | one iteration of the event loop leaves the message and the log as `Next` of the old state |
| BedrockDecoder.Decoder.Finish | src/providers/anthropic-bedrock.ts:262-277 | the end of the `try` block, or the `catch` block with its in-place index-deleting loop, gives `Terminate` of the old state |
| BedrockDecoder.StreamAnthropicBedrock | src/providers/anthropic-bedrock.ts:101-278 | a fresh decoder fed the whole event sequence ends in the state `Run` specifies, which the lemmas above describe |
| BedrockWire.SanitizeToolCallId | src/providers/anthropic-bedrock.ts:373-375 | the length is preserved; every character of the result is in `[A-Za-z0-9_-]`; allowed characters are kept in place and every other one becomes `_` |
| BedrockWire.SanitizeIdempotent | src/providers/anthropic-bedrock.ts:373-375 | an id that is already clean is returned unchanged, so sanitising twice is sanitising once |
| BedrockWire.ContentBlocksFacts | src/providers/anthropic-bedrock.ts:59-92 | a tool result is a string exactly when no part is an image, and that string is the parts' texts joined by newlines; with images, every part keeps its block and order, the placeholder "(see attached image)" comes first exactly when no part is text, and the blocks always contain a text |
| BedrockWire.ContentTextSplitsBack | src/providers/anthropic-bedrock.ts:63 | when no text holds a newline, the joined string splits back into the parts' texts |
| BedrockWire.UserBlocks | src/providers/anthropic-bedrock.ts:394-423 | the blocks of a user message are empty exactly when every part is filtered out; only non-blank texts, and images when the model accepts images, remain; every part that passes the filters is present |
| BedrockWire.UserBlocksInOrder | src/providers/anthropic-bedrock.ts:394-423 | the blocks of a user message are exactly the parts that pass the filters, each converted, in the parts' order and with nothing else (the map, then the two filters) |
| BedrockWire.AssistantBlock | src/providers/anthropic-bedrock.ts:433-460 | blank text and blank thinking are dropped; thinking without a non-blank signature is replayed as text; signed thinking stays thinking; a tool call becomes `tool_use` with a sanitised id |
| BedrockWire.AssistantWireFacts | src/providers/anthropic-bedrock.ts:431-462 | an assistant message converts to no blocks exactly when every block is dropped; every block that converts is kept |
| BedrockWire.AssistantWireInOrder | src/providers/anthropic-bedrock.ts:431-462 | the blocks of an assistant message are the conversions of its non-dropped blocks, in their order, and nothing else |
| BedrockWire.ConvertAssistantBlocks | src/providers/anthropic-bedrock.ts:431-461 | the block loop of an assistant message returns `AssistantWire` of its blocks |
| BedrockWire.InputSchema | src/providers/anthropic-bedrock.ts:516-524 | the `input_schema` is an object whose type is `object`, with the tool's `properties` or `{}` and its `required` or `[]` |
| BedrockWire.ConvertTools | src/providers/anthropic-bedrock.ts:513-527 | there is one wire tool per tool, in order, with the name and description kept and the schema from `InputSchema` |
| BedrockMessages.ToolRunFacts | src/providers/anthropic-bedrock.ts:467-488 | a tool-result run has one `tool_result` per message, in order, and stops at the first message that is not a tool result |
| BedrockMessages.CollectToolRun | src/providers/anthropic-bedrock.ts:469-488 | the inner `j` loop collects exactly the run's blocks, and the cursor moves just past the run |
| BedrockMessages.ConvertAt | src/providers/anthropic-bedrock.ts:381-494 | one turn of the outer loop pushes the head's wire message (or nothing) and moves the cursor past every message it consumed |
| BedrockMessages.PlaceCacheMarker | src/providers/anthropic-bedrock.ts:497-508 | the closing step returns `MarkCache` of the wire messages |
| BedrockMessages.ConvertMessages | src/providers/anthropic-bedrock.ts:377-511 | the result is `MarkCache(WireOf(transformMessages(messages)))` |
| BedrockMessages.WireWellFormed | src/providers/anthropic-bedrock.ts:384-494 | no wire message carries a cache marker before the closing step; a string content is a non-blank user text; a block content is non-empty and suits its role; blank texts, blank thinking and images the model cannot take never reach the wire |
| BedrockMessages.CacheMarkPlacement | src/providers/anthropic-bedrock.ts:497-508 | the marker is on the last block of the final message exactly when that message is a user message whose last block can take one; no other block carries a marker; every other message is unchanged; the result stays well formed |
| BedrockMessages.ToolResultsPreserved | src/providers/anthropic-bedrock.ts:467-494 | the `tool_result` blocks on the wire are exactly one per tool-result message, in message order |
| BedrockParams.TruncDiv | src/providers/anthropic-bedrock.ts:331 | JavaScript division truncated toward zero, stated by its remainder bounds for both signs |
| BedrockParams.ToInt32 | src/providers/anthropic-bedrock.ts:331 | `x \| 0` is the signed 32-bit value congruent to x modulo 2^32, and the identity inside that range |
| BedrockParams.DefaultLimit | src/providers/anthropic-bedrock.ts:331 | with no limit requested, a non-negative ceiling below 3·2^31 gives its third, rounded down |
| BedrockParams.SentMaxTokens | src/providers/anthropic-bedrock.ts:331 | `max_tokens` is the requested limit unless it is missing or zero, in which case it is the default limit |
| BedrockParams.SentThinkingBudget | src/providers/anthropic-bedrock.ts:355-360 | `thinking` is sent exactly when thinking is enabled and the model reasons; its budget is never 0; a missing or zero budget becomes 1024 |
| BedrockParams.BuildParams | src/providers/anthropic-bedrock.ts:323-371 | every request field is defined: the model id; the converted messages; `max_tokens`; a cached system block exactly for a non-empty prompt; the temperature; the tools exactly when the context has a list; the thinking budget; the tool choice |
| BedrockParams.DispatchedThinkingBudget | src/providers/anthropic-bedrock.ts:355-359 | for a reasoning request routed by `streamWithBedrock`, the planned limit and budget are sent, except that a budget shrunk to 0 goes out as 1024; so the sent budget is below the sent limit exactly when the planned limit exceeds 1024 |
| StreamDispatch.ThinkingBudget | src/providers/stream-with-bedrock.ts:50-57 | every budget is between 1024 and 16384, and `high` and `xhigh` both give 16384 |
| StreamDispatch.BudgetMonotone | src/providers/stream-with-bedrock.ts:50-57 | the table does not decrease from minimal through low, medium and high to xhigh |
| StreamDispatch.PlanTokens | src/providers/stream-with-bedrock.ts:59-67 | the limit is `(requested \|\| 32000) + budget` capped at the model's ceiling, never above it; the budget is kept when the limit exceeds it, else it shrinks to `max(0, limit − 1024)`; the budget is never negative, at most the limit, and strictly below a positive limit |
| StreamDispatch.StreamWithBedrock | src/providers/stream-with-bedrock.ts:31-75 | a model goes to Bedrock exactly when its provider is `anthropic-bedrock`, and every other model is passed through with its options; temperature, signal and API key are copied; without thinking no thinking field is set and `maxTokens` passes through; with thinking, both numbers come from the plan |
| StreamDispatch.IsBedrockModelAgreesWithRoute | src/providers/stream-with-bedrock.ts:80-82 | `isBedrockModel` holds exactly when the dispatcher routes to Bedrock |
| StreamDispatch.ThinkingLimitWithinCeiling | src/providers/stream-with-bedrock.ts:59-67 | with thinking, the limit is set and within the model's ceiling, and the budget is set, non-negative and below a positive limit |
| ToolPolicy.RewriteReadImageHeader | src/agents/pi-tools.ts:48-54 | a text that starts with "Read image file [" and ends with "]" is replaced by the header with the new MIME type; any other text is kept unchanged |
| ToolPolicy.RewriteLastWins | src/agents/pi-tools.ts:48-54 | rewriting a rewritten header gives the header for the later MIME type |
| ToolPolicy.NormalizeName | src/agents/pi-tools.ts:278 | a normalised entry is lower-case and trimmed, and is empty exactly when the entry is blank |
| ToolPolicy.NormalizeNameIdempotent | src/agents/pi-tools.ts:278 | normalising twice is normalising once |
| ToolPolicy.NormalizeToolNames | src/agents/pi-tools.ts:276-279 | a missing list gives []; every kept name is non-empty, lower-case and trimmed; no names are added |
| ToolPolicy.NormalizeToolNamesMembers | src/agents/pi-tools.ts:276-279 | a name is in the result exactly when it is the normalisation of a non-blank entry |
| ToolPolicy.FilterToolsByPolicy | src/agents/pi-tools.ts:281-295 | no policy gives the tools unchanged; otherwise the result is an order-preserving subsequence holding exactly the tools the policy permits |
| ToolPolicy.DeniedRemoved | src/agents/pi-tools.ts:286-291 | a tool whose lower-cased name matches a denied entry is always removed |
| ToolPolicy.AllowRestricts | src/agents/pi-tools.ts:287-292 | with a non-empty allow list, every kept tool matches an allowed entry |
| ToolPolicy.BlankNamesVanish | src/agents/pi-tools.ts:278 | a list of blank entries normalises to nothing |
| ToolPolicy.BlankPolicyKeepsAll | src/agents/pi-tools.ts:285-294 | a policy whose lists are missing or blank keeps every tool |
| ToolPolicy.NormalizeSurface | src/agents/pi-tools.ts:414-417 | a surface is returned exactly when it is present and not blank, trimmed and lower-cased |
| ToolPolicy.NormalizeSurfaceIdempotent | src/agents/pi-tools.ts:414-417 | normalising a normalised surface changes nothing |
| ToolPolicy.ShouldIncludeDiscordTool | src/agents/pi-tools.ts:419-423 | true exactly when the surface is present and its trimmed, lower-cased form is `discord` or starts with `discord:`; never for a missing or blank surface |
| ToolPolicy.ShouldIncludeSlackTool | src/agents/pi-tools.ts:425-429 | true exactly when the surface is present and its trimmed, lower-cased form is `slack` or starts with `slack:`; never for a missing or blank surface |
| ToolPolicy.DiscordExcludesSlack | src/agents/pi-tools.ts:419-429 | no surface selects both channel tools |
| ToolPolicy.SurfaceNormalizationInvariant | src/agents/pi-tools.ts:419-429 | both answers depend only on the normalised surface |
| ToolPolicy.NormalizeToolParameters | src/agents/pi-tools.ts:263-274 | the name is kept; non-object parameters are left alone; the parameters are always in the Gemini subset |
| ToolPolicy.SelectToolsFacts | src/agents/pi-tools.ts:483-493 | every selected tool comes from the input, passed the channel filter and the sandbox policy, and has cleaned parameters; a `discord` or `slack` tool appears only for its own surface |
| GeminiSchema.ExtractEnumValues | src/agents/pi-tools.ts:117-123 | a non-object gives nothing; an `enum` array wins; otherwise a `const` key gives `[const]`; otherwise nothing |
| GeminiSchema.Dedupe | src/agents/pi-tools.ts:132-134 | the same members as the input, without repeats |
| GeminiSchema.DedupeKeepsFirstOrder | src/agents/pi-tools.ts:132-134 | the values keep the order of their first occurrence, as a JavaScript `Set` does |
| GeminiSchema.CommonType | src/agents/pi-tools.ts:143-146 | a type is found exactly when the values are non-empty and share one JavaScript type |
| GeminiSchema.SingleType | src/agents/pi-tools.ts:143-146 | the set of type names has one element exactly when all values share the first value's type |
| GeminiSchema.EnumMergeFacts | src/agents/pi-tools.ts:131-149 | when either side lists values, the merge is an object whose `enum` is the de-duplicated union of both sides, and which holds only descriptive keys and `enum` |
| GeminiSchema.EnumMergeDescribed | src/agents/pi-tools.ts:136-146 | each of title, description, default and type comes from the first side that has it, and `type` is replaced by the values' common type when there is one |
| GeminiSchema.ObjectMergeType | src/agents/pi-tools.ts:175-178 | in an object merge, `type` is the existing one when it is not null or undefined, else the incoming one, else `"object"` |
| GeminiSchema.ObjectMergeRequired | src/agents/pi-tools.ts:169-181 | `required` holds exactly the names both sides require, in the existing order, and is omitted when empty |
| GeminiSchema.ObjectMergeOverrides | src/agents/pi-tools.ts:175-177 | every other key takes the incoming value when present, else the existing one |
| GeminiSchema.MergedPropertiesByName | src/agents/pi-tools.ts:160-167 | each property is the recursive merge of the two sides' schemas for that name, or the existing one when incoming lacks it |
| GeminiSchema.MergedDepth | src/agents/pi-tools.ts:125-186 | merging never makes a schema deeper |
| GeminiSchema.MergePropertySchemas | src/agents/pi-tools.ts:125-186 | the recursive method, with its property loop and its descriptive-key loop, returns `Merged` of the two schemas, whose enum and object cases the lemmas above describe |
| GeminiSchema.MergePropertiesLoop | src/agents/pi-tools.ts:161-167 | the property loop returns the merged property record |
| GeminiSchema.MergeSchemas | src/agents/pi-tools.ts:188-195 | `[]` gives `{}`; otherwise the loop returns the left fold of the merge from the first schema, with `{}` for a nullish result |
| GeminiSchema.UnionShallower | src/agents/pi-tools.ts:204-216 | the merge of a level's union variants is shallower than the level, so the cleaning recursion ends |
| GeminiSchema.CleanSchemaForGemini | src/agents/pi-tools.ts:197-261 | the recursive method, with its entry loop, returns `Cleaned` of the schema, which `CleanedReady` and `CleanedLevel` describe |
| GeminiSchema.CleanEntry | src/agents/pi-tools.ts:221-257 | one entry of a level is handled as `CleanStep` specifies |
| GeminiSchema.CopyDescriptive | src/agents/pi-tools.ts:136-142 | the descriptive-key loop copies each key from a source only when it is not yet set |
| GeminiSchema.CleanedReady | src/agents/pi-tools.ts:197-261 | no visited level of a cleaned schema has `patternProperties` or `const`, through `properties`, `items` and `additionalProperties` |
| GeminiSchema.CleanedLevel | src/agents/pi-tools.ts:219-260 | at a level without union variants, `patternProperties` and `const` are gone; `const` becomes `enum: [value]` when no enum is given; every other plain key is copied |
| LegacyConfig.RulesResolve | src/config/legacy.ts:14-30 | the three rule paths resolve to `routing.allowFrom`, `routing.groupChat.requireMention` and `telegram.requireMention` |
| LegacyConfig.RecordIssues | src/config/legacy.ts:170-188 | an object gets one issue per rule whose path resolves to a defined value, in rule order |
| LegacyConfig.IssuePaths | src/config/legacy.ts:184 | the three rules report the dotted paths `routing.allowFrom`, `routing.groupChat.requireMention` and `telegram.requireMention` |
| LegacyConfig.Walk | src/config/legacy.ts:175-182 | the cursor loop ends at `Resolve` of the path: undefined as soon as a step is not an object |
| LegacyConfig.FindLegacyConfigIssues | src/config/legacy.ts:170-188 | the rule loop returns `LegacyIssues`, which is [] for a non-object |
| LegacyConfig.AllowFromMoved | src/config/legacy.ts:36-61 | the first migration logs one line when `routing.allowFrom` is defined, and none otherwise |
| LegacyConfig.AllowFromRouting | src/config/legacy.ts:56-59 | afterwards `routing.allowFrom` is undefined and `routing.groupChat` is untouched |
| LegacyConfig.AllowFromKeeps | src/config/legacy.ts:36-61 | no top-level key other than routing and whatsapp changes, and nothing changes when there is nothing to move |
| LegacyConfig.AllowFromReceived | src/config/legacy.ts:42-48 | `whatsapp.allowFrom` keeps an existing value and otherwise takes `routing.allowFrom` |
| LegacyConfig.GroupChatMoved | src/config/legacy.ts:67-122 | the second migration logs one line per section (three in all) when the mention flag is defined, and none otherwise |
| LegacyConfig.MentionMovedTo | src/config/legacy.ts:82-109 | `applyTo` logs exactly one line |
| LegacyConfig.MentionMovedToDefault | src/config/legacy.ts:92-98 | a section's `groups."*".requireMention` is kept when defined and set otherwise |
| LegacyConfig.MentionMovedToKeeps | src/config/legacy.ts:82-109 | `applyTo` changes no other top-level key and leaves the section's own `requireMention` alone |
| LegacyConfig.MentionMovedToAllFacts | src/config/legacy.ts:111-113 | whatsapp, telegram and imessage are handled in that order, each as `applyTo` specifies |
| LegacyConfig.GroupChatRoutingFacts | src/config/legacy.ts:115-121 | afterwards `routing.groupChat.requireMention` is undefined, `routing.allowFrom` is unchanged, and nothing changes when there is nothing to move |
| LegacyConfig.GroupChatSectionFacts | src/config/legacy.ts:82-121 | `telegram.requireMention` and every unrelated top-level key are unchanged, and each section's default is set when it was missing |
| LegacyConfig.TelegramMoved | src/config/legacy.ts:128-166 | the third migration logs one line when `telegram.requireMention` is defined, and none otherwise |
| LegacyConfig.TelegramFacts | src/config/legacy.ts:128-166 | afterwards `telegram.requireMention` is undefined, no other top-level key changes, and nothing changes when there is nothing to move |
| LegacyConfig.TelegramDefaultFacts | src/config/legacy.ts:135-152 | `telegram.groups."*".requireMention` is kept when defined and set otherwise |
| LegacyConfig.Pruned | src/config/legacy.ts:56-59 | a nested record left empty is deleted from its parent; otherwise it replaces the old one; no other key changes |
| LegacyConfig.WithDefaultMention | src/config/legacy.ts:96-100 | the section's default mention becomes the value, and no key other than `groups` changes |
| LegacyConfig.AllowFromWhatsapp | src/config/legacy.ts:47-48 | `whatsapp.allowFrom` is set only when it is undefined |
| LegacyConfig.ChangesIffIssues | src/config/legacy.ts:190-202 | an object is migrated exactly when it has a legacy issue; the change lines number one, three and one for the three rules that apply |
| LegacyConfig.CleanRecord | src/config/legacy.ts:194-200 | an object without legacy keys has no issues, and migrating it gives `{next: null, changes: []}` |
| LegacyConfig.NothingLeftAfterAll | src/config/legacy.ts:36-166 | after the three migrations, none of the three legacy keys is defined |
| LegacyConfig.MigrationIdempotent | src/config/legacy.ts:190-202 | migrated output has no legacy issues, and migrating it again gives `{next: null, changes: []}` |
| LegacyConfig.MigrationRun.constructor | src/config/legacy.ts:195-196 | the run starts from the cloned record with no change lines |
| LegacyConfig.MigrationRun.MoveAllowFrom | src/config/legacy.ts:36-61 | the record is rewritten in place as `AllowFromMoved` says, and its lines are appended to the changes |
| LegacyConfig.MigrationRun.MoveMentionTo | src/config/legacy.ts:82-109 | `applyTo(key)` rewrites the record in place and appends its line |
| LegacyConfig.MigrationRun.MoveMentionToSections | src/config/legacy.ts:111-113 | the three `applyTo` calls run in order |
| LegacyConfig.MigrationRun.MoveGroupChatMention | src/config/legacy.ts:67-122 | the second migration rewrites in place as `GroupChatMoved` says |
| LegacyConfig.MigrationRun.MoveTelegramMention | src/config/legacy.ts:128-166 | the third migration rewrites in place as `TelegramMoved` says |
| LegacyConfig.MigrationRun.Apply | src/config/legacy.ts:197-199 | one migration of the list is applied, and its change lines are appended in order |
| LegacyConfig.ApplyLegacyMigrations | src/config/legacy.ts:190-202 | the result is `LegacyMigrated`: null and no changes for a non-object or when nothing changed; otherwise the rewritten clone and the change lines, in migration order |
| MarkdownSplitter.Language | apps/shared/ClawdbotKit/Sources/ClawdbotChatUI/ChatMarkdownSplitter.swift:53-54 | a fence's language is absent exactly when the rest of the line after ``` is blank; otherwise it is that rest, trimmed and non-empty |
| MarkdownSplitter.Lines | apps/shared/ClawdbotKit/Sources/ClawdbotChatUI/ChatMarkdownSplitter.swift:39 | the input is split on `\n` keeping empty lines: there is at least one line, and joining them with `\n` gives the input back |
| MarkdownSplitter.CodeBlocks | apps/shared/ClawdbotKit/Sources/ClawdbotChatUI/ChatMarkdownSplitter.swift:32-76 | the result is never empty |
| MarkdownSplitter.SplitCodeBlocks | apps/shared/ClawdbotKit/Sources/ClawdbotChatUI/ChatMarkdownSplitter.swift:32-76 | the line loop, with its mutable buffer, code lines, language and mode, returns `CodeBlocks` of the input |
| MarkdownSplitter.FencedBlock | apps/shared/ClawdbotKit/Sources/ClawdbotChatUI/ChatMarkdownSplitter.swift:40-63 | an opening fence, fence-free lines and a closing fence flush the text buffer, then give one code block with the fence's language and those lines verbatim, joined by `\n`; the scanner is back in text mode |
| MarkdownSplitter.Unterminated | apps/shared/ClawdbotKit/Sources/ClawdbotChatUI/ChatMarkdownSplitter.swift:66-67 | a fence that is never closed still gives a final code block holding the lines collected so far |
| MarkdownSplitter.PlainText | apps/shared/ClawdbotKit/Sources/ClawdbotChatUI/ChatMarkdownSplitter.swift:69-75 | without fences the result is one text block: the trimmed input, or the raw input itself when it is blank |
| MarkdownSplitter.NothingEmitted | apps/shared/ClawdbotKit/Sources/ClawdbotChatUI/ChatMarkdownSplitter.swift:75 | the fallback block is used exactly when the input has no fence line and is blank |
| MarkdownSplitter.BlocksWellFormed | apps/shared/ClawdbotKit/Sources/ClawdbotChatUI/ChatMarkdownSplitter.swift:40-75 | either every block is well formed, or the input is blank and the result is the fallback; in a well-formed block, text is non-empty and trimmed, and code has no fence line and a trimmed, non-empty language or none |
| MarkdownSplitter.TextBlocksFromProse | apps/shared/ClawdbotKit/Sources/ClawdbotChatUI/ChatMarkdownSplitter.swift:40-75 | every text block is a run of consecutive input lines containing no fence line, joined by line feeds and trimmed (the fallback block of a blank input excepted); fence lines only switch between prose and code |
| MarkdownSplitter.FeedToggles | apps/shared/ClawdbotKit/Sources/ClawdbotChatUI/ChatMarkdownSplitter.swift:40-57 | a fence line toggles the mode and any other line keeps it; a code block is emitted only by a fence that closes code |
| MarkdownSplitter.FencesPair | apps/shared/ClawdbotKit/Sources/ClawdbotChatUI/ChatMarkdownSplitter.swift:39-64 | twice the number of closed code blocks, plus one if still in code, is the number of fence lines |
| MarkdownSplitter.CodeBlocksPerFence | apps/shared/ClawdbotKit/Sources/ClawdbotChatUI/ChatMarkdownSplitter.swift:39-73 | there is one code block per pair of fence lines, and one for an odd fence left open |
| MarkdownSplitter.Stripped | apps/shared/ClawdbotKit/Sources/ClawdbotChatUI/ChatMarkdownSplitter.swift:91-107 | removing the matches from the last one backwards leaves everything before the first match untouched |
| MarkdownSplitter.StrippedOutside | apps/shared/ClawdbotKit/Sources/ClawdbotChatUI/ChatMarkdownSplitter.swift:91-107 | the backward removal leaves exactly the text outside the matches that have both groups, in order |
| MarkdownSplitter.Kept | apps/shared/ClawdbotKit/Sources/ClawdbotChatUI/ChatMarkdownSplitter.swift:92 | only matches with both capture groups are kept |
| MarkdownSplitter.ImagesInOrder | apps/shared/ClawdbotKit/Sources/ClawdbotChatUI/ChatMarkdownSplitter.swift:91-112 | there is one image per kept match; the k-th image has the label and decoded data of the k-th kept match from the left |
| MarkdownSplitter.ReversedTwice | apps/shared/ClawdbotKit/Sources/ClawdbotChatUI/ChatMarkdownSplitter.swift:91-112 | images collected while walking backwards, then reversed, come back in forward order |
| MarkdownSplitter.CollapsedNoTriple | apps/shared/ClawdbotKit/Sources/ClawdbotChatUI/ChatMarkdownSplitter.swift:110 | text with no three line feeds in a row is unchanged |
| MarkdownSplitter.CollapsedKeepsText | apps/shared/ClawdbotKit/Sources/ClawdbotChatUI/ChatMarkdownSplitter.swift:110 | the replacement only removes line feeds |
| MarkdownSplitter.SinglePass | apps/shared/ClawdbotKit/Sources/ClawdbotChatUI/ChatMarkdownSplitter.swift:110 | the replacement is one left-to-right pass, so four line feeds become three, not two |
| MarkdownSplitter.Normalized | apps/shared/ClawdbotKit/Sources/ClawdbotChatUI/ChatMarkdownSplitter.swift:109-111 | the cleaned text is trimmed |
| MarkdownSplitter.ExtractedMeaning | apps/shared/ClawdbotKit/Sources/ClawdbotChatUI/ChatMarkdownSplitter.swift:86-112 | with matches, the cleaned text is the normalised text outside the removed matches, and the images are those of the kept matches in order |
| MarkdownSplitter.ExtractInlineImages | apps/shared/ClawdbotKit/Sources/ClawdbotChatUI/ChatMarkdownSplitter.swift:84-112 | the reverse loop over the matches, removing each from the mutable text, returns `Extracted`: the input unchanged and no images when nothing matched |
| MarkdownSplitter.Splitting | apps/shared/ClawdbotKit/Sources/ClawdbotChatUI/ChatMarkdownSplitter.swift:26-30 | `split` never returns an empty block list, and without image matches it is `splitCodeBlocks` of the raw input, with no images |
| MarkdownSplitter.SplitMarkdown | apps/shared/ClawdbotKit/Sources/ClawdbotChatUI/ChatMarkdownSplitter.swift:26-30 | images are extracted first, then the cleaned text is split; the result is `Splitting` |
| BonjourTypes.NormalizeServiceDomain | apps/shared/ClawdbotKit/Sources/ClawdbotKit/BonjourTypes.swift:14-26 | a missing or blank input gives `local.`; `local` or `local.` in any case, after trimming, gives `local.`; otherwise the result is the trimmed, lower-cased input with a dot appended if missing; the result is always lower-case, trimmed and ends with `.` |
| BonjourTypes.WithTrailingDot | apps/shared/ClawdbotKit/Sources/ClawdbotKit/BonjourTypes.swift:25 | an input already ending in `.` is returned unchanged; otherwise the result is the input with one `.` appended (it starts with the input, ends with `.`, and is at most one character longer) |
| BonjourTypes.LocalIsNormal | apps/shared/ClawdbotKit/Sources/ClawdbotKit/BonjourTypes.swift:6 | `local.` is itself lower-case, trimmed and dot-terminated |
| BonjourTypes.DottedLowerIsTrimmed | apps/shared/ClawdbotKit/Sources/ClawdbotKit/BonjourTypes.swift:20-25 | lower-casing and adding a dot to a trimmed name keeps it trimmed |
| BonjourTypes.NormalizedFormUnchanged | apps/shared/ClawdbotKit/Sources/ClawdbotKit/BonjourTypes.swift:25 | a trimmed, lower-case domain already ending in `.` is returned unchanged |
| BonjourTypes.NormalizeIdempotent | apps/shared/ClawdbotKit/Sources/ClawdbotKit/BonjourTypes.swift:14-26 | normalising a normalised domain gives the same domain |
| GatewayErrors.TrimmedOr | apps/macos/Sources/Clawdbot/GatewayErrors.swift:13-18 | a present, non-blank value gives its trimmed form, and anything else gives the fallback |
| GatewayErrors.NewGatewayResponseError | apps/macos/Sources/Clawdbot/GatewayErrors.swift:11-20 | the code is the trimmed input or `GATEWAY_ERROR`; the message is the trimmed input or `gateway error`; neither is ever blank; missing details become an empty map |
| GatewayErrors.ResponseErrorDescription | apps/macos/Sources/Clawdbot/GatewayErrors.swift:22-25 | the description is `method: message`, with `[code] ` inserted after the colon unless the code is `GATEWAY_ERROR` |
| GatewayErrors.ExplicitDefaultCodeIsHidden | apps/macos/Sources/Clawdbot/GatewayErrors.swift:13-25 | passing `GATEWAY_ERROR` explicitly gives the same description as passing no code |
| GatewayErrors.NonDefaultCodesAreDistinguished | apps/macos/Sources/Clawdbot/GatewayErrors.swift:24 | two errors that differ only in non-default codes have different descriptions |
| GatewayErrors.DecodingErrorDescription | apps/macos/Sources/Clawdbot/GatewayErrors.swift:32 | a decoding error describes itself as `method: message` |
| GatewayErrors.DecodingErrorReadsLikeDefaultResponse | apps/macos/Sources/Clawdbot/GatewayErrors.swift:22-32 | a decoding error reads the same as a response error with the default code and the same trimmed message |
| TelegramToken.ConfiguredFile | src/telegram/token.ts:26-27 | a token file is configured exactly when `telegram.tokenFile` is present and not blank, and its path is trimmed and non-empty |
| TelegramToken.FromCandidate | src/telegram/token.ts:33-47 | a blank candidate gives `{"", none}`; otherwise its trimmed form with the given source |
| TelegramToken.FromTokenFile | src/telegram/token.ts:27-42 | a missing file or a failed read gives `{"", none}` and exactly one log line; a blank file gives `{"", none}` silently; otherwise the trimmed contents with source `tokenFile` |
| TelegramToken.ResolveTelegramToken | src/telegram/token.ts:17-50 | every token is trimmed, and it is empty exactly when the source is `none`; a non-blank environment token wins; otherwise a configured token file decides alone; the bot token is used only with neither |
| TelegramToken.ExplicitEnvTokenHidesProcessEnv | src/telegram/token.ts:21 | an explicit `envToken`, even `""`, makes `TELEGRAM_BOT_TOKEN` irrelevant |
| TelegramToken.TokenFileShadowsBotToken | src/telegram/token.ts:26-47 | once a non-blank token file is configured, `botToken` is never consulted |
| TelegramToken.LoggingOnlyOnFileFailure | src/telegram/token.ts:28-40 | at most one line is logged, and one is logged exactly when the configured file is missing or cannot be read |

## Left out

- The AWS client (`createBedrockClient`), its environment variables, headers and SDK options, and the transport. The vendor stream is a finite event sequence. A failure while building the client or the request, a failure thrown by the transport, and the abort flag are inputs.
- The async IIFE, `AssistantMessageEventStream` and the `partial` snapshots attached to each event. The log records each event's kind, position and payload.
- `calculateCost`, `parseStreamingJson`, `transformMessages` and `streamSimple`. These are functions passed in, with no behaviour assumed. `streamWithBedrock` is modelled up to the call it makes (`StreamDispatch.Route`).
- `sanitizeSurrogates` is the identity. Dafny strings hold Unicode scalar values, so there are no lone surrogates to replace.
- `Date.now()` timestamps, the `api`, `provider` and `model` fields of the output message, and the `JSON.stringify(error)` branch. Errors are strings.
- Numbers are integers. Floating-point temperatures, costs and non-integral token counts are not modelled.
- `BedrockParams.DefaultLimit`: its contract speaks only of ceilings in [0, 3·2^31). The function itself computes the 32-bit wrap for every integer.
- JSON: objects are ordered field lists with JavaScript insertion order. `Set` membership uses structural equality, whereas JavaScript `SameValueZero` compares objects by reference, so two equal-looking object values collapse into one here. `Object.entries` of a string value yields nothing here, not its characters.
- Lower-casing and trimming are ASCII lower-casing and trimming of ASCII whitespace plus NBSP, line feed and carriage return. Unicode case mapping and the full Unicode whitespace set of Swift's `.whitespacesAndNewlines` and JavaScript's `trim` are not modelled.
- Tool execution wrappers: `wrapSandboxPathGuard`, `createWhatsAppLoginTool`, `createClawdisReadTool`, `normalizeReadImageResult`, `sniffMimeFromBase64` and the tool factories of `createClawdisCodingTools`. These are I/O and external libraries. Only the filters and the parameter normalisation at the end of `createClawdisCodingTools` are modelled, as `ToolPolicy.SelectTools`. `rewriteReadImageHeader` is modelled on its own.
- Legacy configuration:
  - `structuredClone` and aliasing: records are values, so the caller's input cannot be mutated.
  - Key order in the migrated record is not asserted.
  - Arrays where a record is expected: `x && typeof x === "object" ? x : {}` keeps an array in JavaScript, and the migration then sets a named property on it (`whatsapp.allowFrom`, `groups`, `"*"`, `requireMention`). Here such an array is replaced by a fresh record holding only the moved value, so its elements are dropped. This affects `LegacyConfig.AllowFromMoved`, `LegacyConfig.MentionMovedTo` and `LegacyConfig.TelegramMoved`, and the records they build.
  - Change lines are a `Change` datatype whose `Message` gives the exact text.
- Markdown splitter:
  - A fence is a line that starts with three backticks, exactly as in the Swift code. A line with a space before its three backticks is not a fence: it goes to the prose buffer, and trimming may leave a text block that reads like a fence. `MarkdownSplitter.TextBlocksFromProse` therefore speaks of the source lines of a text block, not of its text.
  - The regular expression is not run. Its matches are an input: ordered, non-overlapping ranges, each with its capture groups inside it.
  - The failed-compile branch is not modelled, because the constant pattern always compiles.
  - Base64 and image decoding are the `decode` parameter, applied to the text after the first comma.
  - `UUID` identities of blocks and images are not modelled.
  - `NSRange` offsets count UTF-16 units, while Swift's `index(offsetBy:)` counts Characters. Here both are character positions.
  - Swift splits and compares by grapheme cluster, so a `\r\n` pair is one Character and never splits on `\n`. Here `\r` and `\n` are separate characters.
- Telegram: the file system is an oracle (`FileSystem`) saying whether a file exists and what reading it returns. The `logMissingFile` callback is the list of lines it would receive.
- The remaining repository files are not part of this model. These are the iOS bridge transport, the async timeout helper, restart and path helpers, discovery preferences, the web UI Markdown wrapper, the search skill, the app entry point, package manifests and tests.

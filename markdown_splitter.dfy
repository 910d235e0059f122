/** `ChatMarkdownSplitter` from the shared chat UI: a chat message's markdown
    is first stripped of its inline base64 images, then cut line by line into
    text blocks and fenced code blocks.  The regular expression that finds
    the images and the base64 decoder are outside the model: the matches and
    the decoder are given as inputs. */
module MarkdownSplitter {
  import opened Wrappers
  import opened Strings

  /** `Block.Kind`: prose, or a fenced code block with its optional language tag. */
  datatype Kind = Text | Code(language: Option<string>)

  /** A block as rendered by the chat view (its `UUID` is left out). */
  datatype Block = Block(kind: Kind, text: string)

  /** The bytes of a decoded image, standing for `ClawdbotPlatformImage`. */
  datatype Image = Image(bytes: seq<bv8>)

  /** An image taken out of the markdown: its alt text and, when the data
      URL could be decoded, the image. */
  datatype InlineImage = InlineImage(labelText: string, image: Option<Image>)

  datatype SplitResult = SplitResult(blocks: seq<Block>, images: seq<InlineImage>)

  // ---------------------------------------------------------------------
  // Code fences.
  // ---------------------------------------------------------------------

  const Fence: string := "```"

  /** A line that opens or closes a code block: it starts with three
      backticks, with nothing before them. */
  predicate IsFence(line: string) {
    StartsWith(line, Fence)
  }

  /** A language tag as the scanner keeps it: absent, or non-empty and
      without surrounding whitespace. */
  predicate LangOk(lang: Option<string>) {
    lang.Some? ==> lang.value != "" && Trim(lang.value) == lang.value
  }

  /** The language named after an opening fence: what follows the three
      backticks, trimmed, and nothing when that is blank. */
  function Language(fence: string): (lang: Option<string>)
    requires IsFence(fence)
    ensures lang.None? <==> IsBlank(fence[|Fence|..])
    ensures lang.Some? ==> lang.value == Trim(fence[|Fence|..])
    ensures LangOk(lang)
  {
    TrimIdempotent(fence[|Fence|..]);
    var rest := Trim(fence[|Fence|..]);
    if rest == "" then None else Some(rest)
  }

  // ---------------------------------------------------------------------
  // `splitCodeBlocks` as a fold over the lines.
  // ---------------------------------------------------------------------

  /** The loop variables of `splitCodeBlocks`. */
  datatype Scan = Scan(blocks: seq<Block>, buffer: seq<string>, inCode: bool,
                       codeLang: Option<string>, codeLines: seq<string>)

  const Start: Scan := Scan([], [], false, None, [])

  /** The input cut at every line feed, empty lines kept. */
  function Lines(raw: string): (lines: seq<string>)
    ensures |lines| >= 1
    ensures Join(lines, "\n") == raw
  {
    JoinSplit(raw, '\n');
    Split(raw, '\n')
  }

  /** `blocks` followed by the buffered prose, joined and trimmed, unless
      that is blank. */
  function Flushed(blocks: seq<Block>, buffer: seq<string>): seq<Block> {
    var text := Trim(Join(buffer, "\n"));
    if text == "" then blocks else blocks + [Block(Text, text)]
  }

  /** The code block for the lines collected since its opening fence. */
  function CodeBlock(lang: Option<string>, lines: seq<string>): Block {
    Block(Code(lang), Join(lines, "\n"))
  }

  /** One turn of the `for line in ...` loop. */
  function Feed(s: Scan, line: string): Scan {
    if IsFence(line) then
      if s.inCode then Scan(s.blocks + [CodeBlock(s.codeLang, s.codeLines)], s.buffer, false, None, [])
      else Scan(Flushed(s.blocks, s.buffer), [], true, Language(line), s.codeLines)
    else if s.inCode then s.(codeLines := s.codeLines + [line])
    else s.(buffer := s.buffer + [line])
  }

  /** The loop over `lines`, from state `s`. */
  function FeedAll(s: Scan, lines: seq<string>): Scan
    decreases |lines|
  {
    if lines == [] then s else Feed(FeedAll(s, lines[..|lines| - 1]), lines[|lines| - 1])
  }

  /** What follows the loop: an unterminated code block is still emitted,
      otherwise the remaining prose is flushed. */
  function Finish(s: Scan): seq<Block> {
    if s.inCode then s.blocks + [CodeBlock(s.codeLang, s.codeLines)] else Flushed(s.blocks, s.buffer)
  }

  /** The blocks the scan emits, before the fallback. */
  function Emitted(raw: string): seq<Block> {
    Finish(FeedAll(Start, Lines(raw)))
  }

  /** `splitCodeBlocks(from:)`: the emitted blocks, or a single text block
      holding the whole input when nothing was emitted.  Never empty. */
  function CodeBlocks(raw: string): (blocks: seq<Block>)
    ensures blocks != []
  {
    var out := Emitted(raw);
    if out == [] then [Block(Text, raw)] else out
  }

  /** `splitCodeBlocks(from:)` as the code runs it. */
  method SplitCodeBlocks(raw: string) returns (blocks: seq<Block>)
    ensures blocks == CodeBlocks(raw)
  {
    blocks := [];
    var buffer: seq<string> := [];
    var inCode := false;
    var codeLang: Option<string> := None;
    var codeLines: seq<string> := [];
    var lines := Lines(raw);
    for i := 0 to |lines|
      invariant Scan(blocks, buffer, inCode, codeLang, codeLines) == FeedAll(Start, lines[..i])
    {
      var line := lines[i];
      ghost var before := Scan(blocks, buffer, inCode, codeLang, codeLines);
      assert lines[..i + 1][..i] == lines[..i];
      assert FeedAll(Start, lines[..i + 1]) == Feed(before, line);
      if StartsWith(line, Fence) {
        if inCode {
          blocks := blocks + [Block(Code(codeLang), Join(codeLines, "\n"))];
          codeLines := [];
          inCode := false;
          codeLang := None;
        } else {
          var text := Trim(Join(buffer, "\n"));
          if text != "" {
            blocks := blocks + [Block(Text, text)];
          }
          buffer := [];
          inCode := true;
          var lang := Trim(line[|Fence|..]);
          codeLang := if lang == "" then None else Some(lang);
        }
        assert Scan(blocks, buffer, inCode, codeLang, codeLines) == Feed(before, line);
        continue;
      }
      if inCode {
        codeLines := codeLines + [line];
      } else {
        buffer := buffer + [line];
      }
    }
    assert lines[..|lines|] == lines;
    if inCode {
      blocks := blocks + [Block(Code(codeLang), Join(codeLines, "\n"))];
    } else {
      var text := Trim(Join(buffer, "\n"));
      if text != "" {
        blocks := blocks + [Block(Text, text)];
      }
    }
    if blocks == [] {
      blocks := [Block(Text, raw)];
    }
  }

  // ---------------------------------------------------------------------
  // What the scan does with runs of lines.
  // ---------------------------------------------------------------------

  ghost predicate NoFences(lines: seq<string>) {
    forall l :: l in lines ==> !IsFence(l)
  }

  /** Feeding `a` and then `b` is feeding `a + b`. */
  lemma {:induction false} FeedAllAppend(s: Scan, a: seq<string>, b: seq<string>)
    ensures FeedAll(s, a + b) == FeedAll(FeedAll(s, a), b)
    decreases |b|
  {
    if b != [] {
      var n := |b| - 1;
      assert (a + b)[..|a + b| - 1] == a + b[..n];
      assert (a + b)[|a + b| - 1] == b[n];
      FeedAllAppend(s, a, b[..n]);
    } else {
      assert a + b == a;
    }
  }

  /** Outside a code block, lines that are not fences only go to the prose
      buffer. */
  lemma {:induction false} TextRun(s: Scan, lines: seq<string>)
    requires !s.inCode && NoFences(lines)
    ensures FeedAll(s, lines) == s.(buffer := s.buffer + lines)
    decreases |lines|
  {
    if lines != [] {
      var n := |lines| - 1;
      assert lines[n] in lines;
      assert forall l :: l in lines[..n] ==> l in lines;
      TextRun(s, lines[..n]);
      assert s.buffer + lines[..n] + [lines[n]] == s.buffer + lines;
    }
  }

  /** Inside a code block, lines that are not fences are kept verbatim as
      code lines. */
  lemma {:induction false} CodeRun(s: Scan, lines: seq<string>)
    requires s.inCode && NoFences(lines)
    ensures FeedAll(s, lines) == s.(codeLines := s.codeLines + lines)
    decreases |lines|
  {
    if lines != [] {
      var n := |lines| - 1;
      assert lines[n] in lines;
      assert forall l :: l in lines[..n] ==> l in lines;
      CodeRun(s, lines[..n]);
      assert s.codeLines + lines[..n] + [lines[n]] == s.codeLines + lines;
    }
  }

  /** A fenced region outside a code block flushes the prose before it and
      becomes exactly one code block: the lines between the fences joined
      by line feeds, tagged with the opening fence's language; the fences
      themselves appear in no block. */
  lemma FencedBlock(s: Scan, open: string, body: seq<string>, close: string)
    requires !s.inCode && s.codeLines == []
    requires IsFence(open) && IsFence(close) && NoFences(body)
    ensures FeedAll(s, [open] + body + [close]) ==
            Scan(Flushed(s.blocks, s.buffer) + [CodeBlock(Language(open), body)], [], false, None, [])
  {
    var inside := Scan(Flushed(s.blocks, s.buffer), [], true, Language(open), []);
    assert FeedAll(s, [open]) == inside by {
      assert [open][..0] == [];
    }
    CodeRun(inside, body);
    assert [] + body == body;
    var collected := inside.(codeLines := body);
    FeedAllAppend(s, [open], body);
    assert FeedAll(s, [open] + body) == collected;
    FeedAllAppend(s, [open] + body, [close]);
    assert FeedAll(collected, [close]) == Feed(collected, close) by {
      assert [close][..0] == [];
    }
  }

  /** A fence that is never closed still yields its code block, holding
      every line after it. */
  lemma Unterminated(s: Scan, open: string, body: seq<string>)
    requires !s.inCode && s.codeLines == []
    requires IsFence(open) && NoFences(body)
    ensures Finish(FeedAll(s, [open] + body)) == Flushed(s.blocks, s.buffer) + [CodeBlock(Language(open), body)]
  {
    var inside := Scan(Flushed(s.blocks, s.buffer), [], true, Language(open), []);
    assert FeedAll(s, [open]) == inside by {
      assert [open][..0] == [];
    }
    CodeRun(inside, body);
    assert [] + body == body;
    FeedAllAppend(s, [open], body);
    assert FeedAll(s, [open] + body) == inside.(codeLines := body);
  }

  /** Markdown without fence lines is one text block: the trimmed input,
      or the input itself when it is blank. */
  lemma PlainText(raw: string)
    requires NoFences(Lines(raw))
    ensures CodeBlocks(raw) == if IsBlank(raw) then [Block(Text, raw)] else [Block(Text, Trim(raw))]
  {
    TextRun(Start, Lines(raw));
    assert FeedAll(Start, Lines(raw)).buffer == Lines(raw);
  }

  // ---------------------------------------------------------------------
  // When the fallback block is used.
  // ---------------------------------------------------------------------

  /** A scan that has seen a fence is inside a code block or has emitted one. */
  ghost predicate Committed(s: Scan) {
    s.inCode || s.blocks != []
  }

  lemma {:induction false} CommittedStays(s: Scan, lines: seq<string>)
    requires Committed(s)
    ensures Committed(FeedAll(s, lines))
    decreases |lines|
  {
    if lines != [] {
      CommittedStays(s, lines[..|lines| - 1]);
    }
  }

  /** The scan emits nothing exactly when the input has no fence line and
      is blank; only then is the input returned as one text block. */
  lemma {:induction false} NothingEmitted(raw: string)
    ensures Emitted(raw) == [] <==> NoFences(Lines(raw)) && IsBlank(raw)
  {
    var lines := Lines(raw);
    if NoFences(lines) {
      TextRun(Start, lines);
      assert FeedAll(Start, lines).buffer == lines;
    } else {
      var k :| 0 <= k < |lines| && IsFence(lines[k]);
      var before := FeedAll(Start, lines[..k]);
      assert lines[..k + 1][..k] == lines[..k];
      assert Committed(FeedAll(Start, lines[..k + 1]));
      CommittedStays(FeedAll(Start, lines[..k + 1]), lines[k + 1..]);
      FeedAllAppend(Start, lines[..k + 1], lines[k + 1..]);
      assert lines[..k + 1] + lines[k + 1..] == lines;
    }
  }

  // ---------------------------------------------------------------------
  // Shape of every emitted block.
  // ---------------------------------------------------------------------

  ghost predicate SingleLines(lines: seq<string>) {
    forall l :: l in lines ==> '\n' !in l
  }

  /** Text blocks are trimmed and not empty; a code block's language is
      absent or trimmed and not empty, and none of its lines is a fence. */
  ghost predicate WellFormed(b: Block) {
    match b.kind
    case Text => b.text != "" && Trim(b.text) == b.text
    case Code(lang) => LangOk(lang) && NoFences(Split(b.text, '\n'))
  }

  /** What holds of the loop variables at every turn. */
  ghost predicate Sound(s: Scan) {
    && LangOk(s.codeLang)
    && NoFences(s.codeLines) && SingleLines(s.codeLines)
    && forall b :: b in s.blocks ==> WellFormed(b)
  }

  lemma CodeBlockWellFormed(lang: Option<string>, lines: seq<string>)
    requires LangOk(lang) && NoFences(lines) && SingleLines(lines)
    ensures WellFormed(CodeBlock(lang, lines))
  {
    if lines == [] {
      assert Split("", '\n') == [""];
    } else {
      SplitJoin(lines, '\n');
    }
  }

  lemma FlushedWellFormed(blocks: seq<Block>, buffer: seq<string>)
    requires forall b :: b in blocks ==> WellFormed(b)
    ensures forall b :: b in Flushed(blocks, buffer) ==> WellFormed(b)
  {
    TrimIdempotent(Join(buffer, "\n"));
  }

  lemma FeedSound(s: Scan, line: string)
    requires Sound(s) && '\n' !in line
    ensures Sound(Feed(s, line))
  {
    if IsFence(line) {
      if s.inCode {
        CodeBlockWellFormed(s.codeLang, s.codeLines);
      } else {
        FlushedWellFormed(s.blocks, s.buffer);
      }
    }
  }

  lemma {:induction false} FeedAllSound(s: Scan, lines: seq<string>)
    requires Sound(s) && SingleLines(lines)
    ensures Sound(FeedAll(s, lines))
    decreases |lines|
  {
    if lines != [] {
      var n := |lines| - 1;
      assert lines[n] in lines;
      assert forall l :: l in lines[..n] ==> l in lines;
      FeedAllSound(s, lines[..n]);
      FeedSound(FeedAll(s, lines[..n]), lines[n]);
    }
  }

  /** Every block `splitCodeBlocks` returns is well formed, except the
      fallback block, which holds a blank input unchanged. */
  lemma BlocksWellFormed(raw: string)
    ensures || (forall b :: b in CodeBlocks(raw) ==> WellFormed(b))
            || (IsBlank(raw) && CodeBlocks(raw) == [Block(Text, raw)])
  {
    var lines := Lines(raw);
    assert SingleLines(lines) by {
      forall l | l in lines
        ensures '\n' !in l
      {
        var k :| 0 <= k < |lines| && lines[k] == l;
      }
    }
    FeedAllSound(Start, lines);
    var s := FeedAll(Start, lines);
    if s.inCode {
      CodeBlockWellFormed(s.codeLang, s.codeLines);
    } else {
      FlushedWellFormed(s.blocks, s.buffer);
    }
    NothingEmitted(raw);
  }

  // ---------------------------------------------------------------------
  // Text blocks come from runs of prose lines.
  // ---------------------------------------------------------------------

  /** The lines `all[i..j]`. */
  function Between(all: seq<string>, i: nat, j: nat): (run: seq<string>)
    requires i <= j <= |all|
    ensures |run| == j - i
  {
    all[i..j]
  }

  /** `text` is a run of consecutive input lines, none of them a fence,
      joined by line feeds and trimmed. */
  ghost predicate ProseOf(text: string, all: seq<string>) {
    exists i, j :: 0 <= i <= j <= |all| && NoFences(Between(all, i, j)) && text == Trim(Join(Between(all, i, j), "\n"))
  }

  /** What holds of the loop variables after the first `p` of the lines
      `all`: outside a code block the buffer is the fence-free run of lines
      since the last fence, inside one it is empty, and every text block
      emitted so far is prose of the input. */
  ghost predicate BufferRun(s: Scan, all: seq<string>, p: nat) {
    && p <= |all|
    && (s.inCode ==> s.buffer == [])
    && (!s.inCode ==> exists k :: 0 <= k <= p && s.buffer == Between(all, k, p) && NoFences(Between(all, k, p)))
    && forall b :: b in s.blocks && b.kind.Text? ==> ProseOf(b.text, all)
  }

  lemma FlushedProse(s: Scan, all: seq<string>, p: nat)
    requires BufferRun(s, all, p) && !s.inCode
    ensures forall b :: b in Flushed(s.blocks, s.buffer) && b.kind.Text? ==> ProseOf(b.text, all)
  {
    var k :| 0 <= k <= p && s.buffer == Between(all, k, p) && NoFences(Between(all, k, p));
    var text := Trim(Join(s.buffer, "\n"));
    assert text == Trim(Join(Between(all, k, p), "\n"));
    assert ProseOf(text, all);
    if text != "" {
      assert Flushed(s.blocks, s.buffer) == s.blocks + [Block(Text, text)];
    }
  }

  lemma FeedBufferRun(s: Scan, all: seq<string>, p: nat)
    requires BufferRun(s, all, p) && p < |all|
    ensures BufferRun(Feed(s, all[p]), all, p + 1)
  {
    var line := all[p];
    if IsFence(line) {
      if s.inCode {
        CloseBufferRun(s, all, p);
      } else {
        OpenBufferRun(s, all, p);
      }
    } else if s.inCode {
      assert Feed(s, line) == s.(codeLines := s.codeLines + [line]);
    } else {
      ProseBufferRun(s, all, p);
    }
  }

  lemma CloseBufferRun(s: Scan, all: seq<string>, p: nat)
    requires BufferRun(s, all, p) && p < |all| && s.inCode
    ensures BufferRun(Scan(s.blocks + [CodeBlock(s.codeLang, s.codeLines)], s.buffer, false, None, []), all, p + 1)
  {
    assert Between(all, p + 1, p + 1) == [];
  }

  lemma OpenBufferRun(s: Scan, all: seq<string>, p: nat)
    requires BufferRun(s, all, p) && p < |all| && !s.inCode && IsFence(all[p])
    ensures BufferRun(Scan(Flushed(s.blocks, s.buffer), [], true, Language(all[p]), s.codeLines), all, p + 1)
  {
    FlushedProse(s, all, p);
  }

  lemma ProseBufferRun(s: Scan, all: seq<string>, p: nat)
    requires BufferRun(s, all, p) && p < |all| && !s.inCode && !IsFence(all[p])
    ensures BufferRun(s.(buffer := s.buffer + [all[p]]), all, p + 1)
  {
    var k :| 0 <= k <= p && s.buffer == Between(all, k, p) && NoFences(Between(all, k, p));
    var run := Between(all, k, p + 1);
    assert run == s.buffer + [all[p]];
    assert NoFences(run) by {
      forall l | l in run ensures !IsFence(l) {
        if l != all[p] { assert l in s.buffer; }
      }
    }
    var t := s.(buffer := s.buffer + [all[p]]);
    assert t.buffer == Between(all, k, p + 1) && NoFences(Between(all, k, p + 1));
    assert t.blocks == s.blocks;
  }

  lemma {:induction false} FeedAllBufferRun(all: seq<string>, p: nat)
    requires p <= |all|
    ensures BufferRun(FeedAll(Start, all[..p]), all, p)
  {
    if p == 0 {
      assert all[..0] == [];
      assert Between(all, 0, 0) == [];
    } else {
      FeedAllBufferRun(all, p - 1);
      assert all[..p][..p - 1] == all[..p - 1];
      assert all[..p][p - 1] == all[p - 1];
      FeedBufferRun(FeedAll(Start, all[..p - 1]), all, p - 1);
    }
  }

  /** Fence lines only switch the scan between prose and code: every text
      block is the prose between two fences (or the input's ends), joined
      and trimmed, so no fence line is ever part of a text block's source
      lines.  The only exception is the fallback block of a blank input. */
  lemma TextBlocksFromProse(raw: string)
    ensures || (forall b :: b in CodeBlocks(raw) && b.kind.Text? ==> ProseOf(b.text, Lines(raw)))
            || (IsBlank(raw) && CodeBlocks(raw) == [Block(Text, raw)])
  {
    var lines := Lines(raw);
    assert lines[..|lines|] == lines;
    FeedAllBufferRun(lines, |lines|);
    var s := FeedAll(Start, lines);
    if !s.inCode {
      FlushedProse(s, lines, |lines|);
    }
    NothingEmitted(raw);
  }

  // ---------------------------------------------------------------------
  // Fences pair up into code blocks.
  // ---------------------------------------------------------------------

  function FenceCount(lines: seq<string>): nat
    decreases |lines|
  {
    if lines == [] then 0
    else FenceCount(lines[..|lines| - 1]) + if IsFence(lines[|lines| - 1]) then 1 else 0
  }

  function CodeCount(blocks: seq<Block>): nat
    decreases |blocks|
  {
    if blocks == [] then 0
    else CodeCount(blocks[..|blocks| - 1]) + if blocks[|blocks| - 1].kind.Code? then 1 else 0
  }

  lemma CodeCountSnoc(blocks: seq<Block>, b: Block)
    ensures CodeCount(blocks + [b]) == CodeCount(blocks) + if b.kind.Code? then 1 else 0
  {
    assert (blocks + [b])[..|blocks|] == blocks;
  }

  /** One line toggles the scan exactly when it is a fence, and adds a
      code block exactly when it is a fence closing one. */
  lemma FeedToggles(s: Scan, line: string)
    ensures Feed(s, line).inCode <==> (s.inCode != IsFence(line))
    ensures CodeCount(Feed(s, line).blocks) == CodeCount(s.blocks) + if IsFence(line) && s.inCode then 1 else 0
  {
    if IsFence(line) {
      if s.inCode {
        CodeCountSnoc(s.blocks, CodeBlock(s.codeLang, s.codeLines));
      } else {
        CodeCountSnoc(s.blocks, Block(Text, Trim(Join(s.buffer, "\n"))));
      }
    }
  }

  /** After any prefix of the lines, every two fences seen have made one
      code block, and a fence left over means the scan is inside one. */
  lemma {:induction false} FencesPair(lines: seq<string>)
    ensures 2 * CodeCount(FeedAll(Start, lines).blocks) + (if FeedAll(Start, lines).inCode then 1 else 0) == FenceCount(lines)
    decreases |lines|
  {
    if lines != [] {
      var n := |lines| - 1;
      FencesPair(lines[..n]);
      FeedToggles(FeedAll(Start, lines[..n]), lines[n]);
    }
  }

  /** `splitCodeBlocks` returns one code block per pair of fence lines, and
      one more for a fence left open. */
  lemma CodeBlocksPerFence(raw: string)
    ensures CodeCount(CodeBlocks(raw)) == (FenceCount(Lines(raw)) + 1) / 2
  {
    var s := FeedAll(Start, Lines(raw));
    FencesPair(Lines(raw));
    if s.inCode {
      CodeCountSnoc(s.blocks, CodeBlock(s.codeLang, s.codeLines));
    } else {
      CodeCountSnoc(s.blocks, Block(Text, Trim(Join(s.buffer, "\n"))));
      assert CodeCount([Block(Text, raw)]) == 0 by {
        CodeCountSnoc([], Block(Text, raw));
      }
    }
  }

  // ---------------------------------------------------------------------
  // `extractInlineImages`.
  // ---------------------------------------------------------------------

  /** An `NSRange`. */
  datatype Range = Range(location: nat, length: nat)

  function End(r: Range): nat {
    r.location + r.length
  }

  /** A regular-expression match: its whole range and the ranges of its
      capture groups; `numberOfRanges` is one more than `|groups|`. */
  datatype Match = Match(range: Range, groups: seq<Range>)

  /** The guard `numberOfRanges >= 3`: the alt text and the data URL were captured. */
  predicate Grouped(m: Match) {
    1 + |m.groups| >= 3
  }

  predicate Inside(m: Match, n: nat) {
    End(m.range) <= n && forall g :: g in m.groups ==> End(g) <= n
  }

  /** Matches as `NSRegularExpression.matches(in:range:)` reports them: in
      the text of length `n`, left to right, not overlapping. */
  predicate Ordered(ms: seq<Match>, n: nat) {
    && (forall m :: m in ms ==> Inside(m, n))
    && (forall k :: 0 < k < |ms| ==> End(ms[k - 1].range) <= ms[k].range.location)
  }

  lemma OrderedSuffix(ms: seq<Match>, n: nat, i: nat)
    requires Ordered(ms, n) && i <= |ms|
    ensures Ordered(ms[i..], n)
  {
    forall k | 0 < k < |ms| - i
      ensures End(ms[i..][k - 1].range) <= ms[i..][k].range.location
    {
      assert ms[i..][k - 1] == ms[i + k - 1] && ms[i..][k] == ms[i + k];
    }
  }

  function Substring(s: string, r: Range): string
    requires End(r) <= |s|
  {
    s[r.location..End(r)]
  }

  /** `replaceSubrange(start..<end, with: "")`. */
  function Cut(s: string, r: Range): (t: string)
    requires End(r) <= |s|
    ensures |t| == |s| - r.length
  {
    s[..r.location] + s[End(r)..]
  }

  /** The image of a data URL: the text after its first comma, decoded by
      `decode` (`Data(base64Encoded:)` followed by `ClawdbotPlatformImage(data:)`);
      nothing when there is no comma. */
  function ImageOf(dataUrl: string, decode: string -> Option<Image>): Option<Image> {
    if ',' in dataUrl then decode(dataUrl[IndexOf(dataUrl, ',') + 1..]) else None
  }

  /** The image a match describes: group 1 is the alt text, group 2 the data URL. */
  function InlineImageOf(raw: string, m: Match, decode: string -> Option<Image>): InlineImage
    requires Grouped(m) && Inside(m, |raw|)
  {
    InlineImage(Substring(raw, m.groups[0]), ImageOf(Substring(raw, m.groups[1]), decode))
  }

  /** `r` and `raw` agree on everything before the first match. */
  predicate SamePrefix(raw: string, r: string, ms: seq<Match>) {
    ms != [] ==>
      && ms[0].range.location <= |raw| && ms[0].range.location <= |r|
      && r[..ms[0].range.location] == raw[..ms[0].range.location]
  }

  /** `cleaned` once the matches `ms` have been removed, the last one first,
      each at its original offsets; skipped matches stay.  Everything
      before the first match is untouched. */
  function Stripped(raw: string, ms: seq<Match>): (r: string)
    requires Ordered(ms, |raw|)
    ensures SamePrefix(raw, r, ms)
    decreases |ms|
  {
    if ms == [] then raw
    else
      OrderedSuffix(ms, |raw|, 1);
      assert ms[0] in ms;
      var rest := Stripped(raw, ms[1..]);
      assert |rest| >= End(ms[0].range) && rest[..End(ms[0].range)] == raw[..End(ms[0].range)] by {
        if 1 < |ms| {
          assert ms[1..][0] == ms[1];
          assert rest[..End(ms[0].range)] == rest[..ms[1].range.location][..End(ms[0].range)];
        }
      }
      if Grouped(ms[0]) then
        var r := Cut(rest, ms[0].range);
        assert r[..ms[0].range.location] == rest[..End(ms[0].range)][..ms[0].range.location];
        r
      else rest
  }

  /** The text outside the matches `ms` that are removed, from offset
      `from` on: the gaps between consecutive removed matches, in order. */
  function Outside(raw: string, ms: seq<Match>, from: nat): string
    requires Ordered(ms, |raw|) && from <= |raw|
    requires ms != [] ==> from <= ms[0].range.location
    decreases |ms|
  {
    if ms == [] then raw[from..]
    else
      OrderedSuffix(ms, |raw|, 1);
      assert ms[0] in ms;
      assert 1 < |ms| ==> ms[1..][0] == ms[1];
      if Grouped(ms[0]) then raw[from..ms[0].range.location] + Outside(raw, ms[1..], End(ms[0].range))
      else Outside(raw, ms[1..], from)
  }

  /** Removing the matches right to left with their original offsets
      leaves exactly the text outside them. */
  lemma {:induction false} StrippedOutside(raw: string, ms: seq<Match>, from: nat)
    requires Ordered(ms, |raw|) && from <= |raw|
    requires ms != [] ==> from <= ms[0].range.location
    ensures Stripped(raw, ms) == raw[..from] + Outside(raw, ms, from)
    decreases |ms|
  {
    if ms == [] {
      assert raw == raw[..from] + raw[from..];
    } else {
      OrderedSuffix(ms, |raw|, 1);
      assert ms[0] in ms;
      assert 1 < |ms| ==> ms[1..][0] == ms[1];
      var m := ms[0].range;
      if Grouped(ms[0]) {
        StrippedOutside(raw, ms[1..], End(m));
        CutAfterPrefix(raw, m, from, Outside(raw, ms[1..], End(m)));
      } else {
        StrippedOutside(raw, ms[1..], from);
      }
    }
  }

  lemma CutAfterPrefix(raw: string, m: Range, from: nat, tail: string)
    requires from <= m.location && End(m) <= |raw|
    ensures Cut(raw[..End(m)] + tail, m) == raw[..from] + (raw[from..m.location] + tail)
  {
    var rest := raw[..End(m)] + tail;
    assert rest[..m.location] == raw[..m.location];
    assert rest[End(m)..] == tail;
    assert raw[..m.location] == raw[..from] + raw[from..m.location];
  }

  /** The images of the matches that are not skipped, in match order. */
  function ImagesOf(raw: string, ms: seq<Match>, decode: string -> Option<Image>): seq<InlineImage>
    requires Ordered(ms, |raw|)
    decreases |ms|
  {
    if ms == [] then []
    else
      OrderedSuffix(ms, |raw|, 1);
      assert ms[0] in ms;
      (if Grouped(ms[0]) then [InlineImageOf(raw, ms[0], decode)] else []) + ImagesOf(raw, ms[1..], decode)
  }

  /** The matches that pass the `numberOfRanges` guard, in order. */
  function Kept(ms: seq<Match>): (r: seq<Match>)
    ensures forall m :: m in r ==> m in ms && Grouped(m)
  {
    if ms == [] then []
    else if Grouped(ms[0]) then [ms[0]] + Kept(ms[1..])
    else Kept(ms[1..])
  }

  /** One image per match that is not skipped. */
  lemma {:induction false} ImagesCount(raw: string, ms: seq<Match>, decode: string -> Option<Image>)
    requires Ordered(ms, |raw|)
    ensures |ImagesOf(raw, ms, decode)| == |Kept(ms)|
    decreases |ms|
  {
    if ms != [] {
      OrderedSuffix(ms, |raw|, 1);
      ImagesCount(raw, ms[1..], decode);
    }
  }

  /** The `k`-th image is described by the `k`-th match that is not skipped. */
  lemma {:induction false} ImageAt(raw: string, ms: seq<Match>, decode: string -> Option<Image>, k: nat)
    requires Ordered(ms, |raw|) && k < |Kept(ms)|
    ensures |ImagesOf(raw, ms, decode)| == |Kept(ms)|
    ensures Kept(ms)[k] in ms && ImagesOf(raw, ms, decode)[k] == InlineImageOf(raw, Kept(ms)[k], decode)
    decreases |ms|, 1
  {
    ImagesCount(raw, ms, decode);
    if Grouped(ms[0]) {
      ImageAtKept(raw, ms, decode, k);
    } else {
      ImageAtSkipped(raw, ms, decode, k);
    }
  }

  lemma {:induction false} ImageAtKept(raw: string, ms: seq<Match>, decode: string -> Option<Image>, k: nat)
    requires Ordered(ms, |raw|) && ms != [] && k < |Kept(ms)| && Grouped(ms[0])
    requires |ImagesOf(raw, ms, decode)| == |Kept(ms)|
    ensures Kept(ms)[k] in ms && ImagesOf(raw, ms, decode)[k] == InlineImageOf(raw, Kept(ms)[k], decode)
    decreases |ms|, 0
  {
    OrderedSuffix(ms, |raw|, 1);
    var rest := ms[1..];
    assert ms[0] in ms;
    assert Kept(ms) == [ms[0]] + Kept(rest);
    assert ImagesOf(raw, ms, decode) == [InlineImageOf(raw, ms[0], decode)] + ImagesOf(raw, rest, decode);
    if k > 0 {
      ImageAt(raw, rest, decode, k - 1);
      assert Kept(rest)[k - 1] in ms;
    }
  }

  lemma {:induction false} ImageAtSkipped(raw: string, ms: seq<Match>, decode: string -> Option<Image>, k: nat)
    requires Ordered(ms, |raw|) && ms != [] && k < |Kept(ms)| && !Grouped(ms[0])
    requires |ImagesOf(raw, ms, decode)| == |Kept(ms)|
    ensures Kept(ms)[k] in ms && ImagesOf(raw, ms, decode)[k] == InlineImageOf(raw, Kept(ms)[k], decode)
    decreases |ms|, 0
  {
    OrderedSuffix(ms, |raw|, 1);
    var rest := ms[1..];
    SkipHead(raw, ms, decode);
    ImageAt(raw, rest, decode, k);
    InTail(ms, Kept(rest)[k]);
  }

  lemma InTail<T>(s: seq<T>, x: T)
    requires s != [] && x in s[1..]
    ensures x in s
  {
    var j :| 0 <= j < |s| - 1 && s[1..][j] == x;
    assert s[j + 1] == x;
  }

  /** A match without both capture groups contributes nothing. */
  lemma SkipHead(raw: string, ms: seq<Match>, decode: string -> Option<Image>)
    requires Ordered(ms, |raw|) && ms != [] && !Grouped(ms[0])
    ensures Ordered(ms[1..], |raw|)
    ensures Kept(ms) == Kept(ms[1..])
    ensures ImagesOf(raw, ms, decode) == ImagesOf(raw, ms[1..], decode)
  {
    OrderedSuffix(ms, |raw|, 1);
    var images := ImagesOf(raw, ms[1..], decode);
    assert ImagesOf(raw, ms, decode) == [] + images;
    assert [] + images == images;
  }

  /** The images come out left to right: the `k`-th one is described by the
      `k`-th match that is not skipped. */
  lemma ImagesInOrder(raw: string, ms: seq<Match>, decode: string -> Option<Image>)
    requires Ordered(ms, |raw|)
    ensures |ImagesOf(raw, ms, decode)| == |Kept(ms)|
    ensures forall k :: 0 <= k < |Kept(ms)| ==>
              Kept(ms)[k] in ms && ImagesOf(raw, ms, decode)[k] == InlineImageOf(raw, Kept(ms)[k], decode)
  {
    ImagesCount(raw, ms, decode);
    forall k | 0 <= k < |Kept(ms)|
      ensures Kept(ms)[k] in ms && ImagesOf(raw, ms, decode)[k] == InlineImageOf(raw, Kept(ms)[k], decode)
    {
      ImageAt(raw, ms, decode, k);
    }
  }

  /** `s` in reverse order (`reversed()`). */
  function Reversed<T>(s: seq<T>): (r: seq<T>)
    ensures |r| == |s|
    ensures forall k :: 0 <= k < |s| ==> r[k] == s[|s| - 1 - k]
  {
    if s == [] then [] else Reversed(s[1..]) + [s[0]]
  }

  lemma ReversedTwice<T>(s: seq<T>)
    ensures Reversed(Reversed(s)) == s
  {
  }

  /** `replacingOccurrences(of: "\n\n\n", with: "\n\n")`: one left-to-right
      pass over non-overlapping occurrences. */
  function Collapsed(s: string): (r: string)
    ensures |r| <= |s|
  {
    if |s| >= 3 && s[..3] == "\n\n\n" then "\n\n" + Collapsed(s[3..])
    else if s == [] then []
    else [s[0]] + Collapsed(s[1..])
  }

  /** No three line feeds in a row. */
  predicate NoTriple(s: string) {
    forall i :: 0 <= i < |s| - 2 ==> !(s[i] == '\n' && s[i + 1] == '\n' && s[i + 2] == '\n')
  }

  /** Text without three line feeds in a row is left as it is. */
  lemma {:induction false} CollapsedNoTriple(s: string)
    requires NoTriple(s)
    ensures Collapsed(s) == s
  {
    if s != [] {
      assert |s| >= 3 ==> s[..3][0] == s[0] && s[..3][1] == s[1] && s[..3][2] == s[2];
      assert NoTriple(s[1..]) by {
        forall i | 0 <= i < |s[1..]| - 2
          ensures !(s[1..][i] == '\n' && s[1..][i + 1] == '\n' && s[1..][i + 2] == '\n')
        {
          assert s[1..][i] == s[i + 1] && s[1..][i + 1] == s[i + 2] && s[1..][i + 2] == s[i + 3];
        }
      }
      CollapsedNoTriple(s[1..]);
      assert [s[0]] + s[1..] == s;
    }
  }

  /** Every character other than a line feed survives, in order. */
  function WithoutLineFeeds(s: string): string {
    if s == [] then [] else (if s[0] == '\n' then [] else [s[0]]) + WithoutLineFeeds(s[1..])
  }

  lemma WithoutLineFeedsAppend(a: string, b: string)
    ensures WithoutLineFeeds(a + b) == WithoutLineFeeds(a) + WithoutLineFeeds(b)
  {
    if a != [] {
      assert (a + b)[0] == a[0];
      assert (a + b)[1..] == a[1..] + b;
      WithoutLineFeedsAppend(a[1..], b);
      var h := if a[0] == '\n' then [] else [a[0]];
      assert h + (WithoutLineFeeds(a[1..]) + WithoutLineFeeds(b)) == h + WithoutLineFeeds(a[1..]) + WithoutLineFeeds(b);
    } else {
      assert a + b == b;
    }
  }

  /** Collapsing removes line feeds and nothing else. */
  lemma {:induction false} CollapsedKeepsText(s: string)
    ensures WithoutLineFeeds(Collapsed(s)) == WithoutLineFeeds(s)
  {
    if |s| >= 3 && s[..3] == "\n\n\n" {
      CollapsedKeepsText(s[3..]);
      WithoutLineFeedsAppend("\n\n", Collapsed(s[3..]));
      WithoutLineFeedsAppend(s[..3], s[3..]);
      assert s == s[..3] + s[3..];
      assert WithoutLineFeeds("\n\n") == [] && WithoutLineFeeds("\n\n\n") == [];
    } else if s != [] {
      CollapsedKeepsText(s[1..]);
      WithoutLineFeedsAppend([s[0]], Collapsed(s[1..]));
    }
  }

  /** A single pass: four line feeds in a row leave three. */
  lemma SinglePass()
    ensures Collapsed("\n\n\n\n") == "\n\n\n"
  {
    assert "\n\n\n\n"[..3] == "\n\n\n";
    assert "\n\n\n\n"[3..] == "\n";
    assert Collapsed("\n") == "\n";
  }

  /** The cleaned text once the images are out: runs of three line feeds
      collapsed, then trimmed. */
  function Normalized(s: string): (r: string)
    ensures Trim(r) == r
  {
    TrimIdempotent(Collapsed(s));
    Trim(Collapsed(s))
  }

  /** `extractInlineImages(from:)` given the regular expression's matches:
      with no match the input comes back unchanged and without images. */
  function Extracted(raw: string, ms: seq<Match>, decode: string -> Option<Image>): (string, seq<InlineImage>)
    requires Ordered(ms, |raw|)
  {
    if ms == [] then (raw, []) else (Normalized(Stripped(raw, ms)), ImagesOf(raw, ms, decode))
  }

  /** What the extraction yields once a match was found: the normalized
      text outside the removed matches, and their images in match order
      (see `ImagesInOrder`). */
  lemma ExtractedMeaning(raw: string, ms: seq<Match>, decode: string -> Option<Image>)
    requires Ordered(ms, |raw|) && ms != []
    ensures Extracted(raw, ms, decode) == (Normalized(Outside(raw, ms, 0)), ImagesOf(raw, ms, decode))
  {
    StrippedOutside(raw, ms, 0);
    assert raw[..0] + Outside(raw, ms, 0) == Outside(raw, ms, 0);
  }

  /** `extractInlineImages(from:)` as the code runs it. */
  method ExtractInlineImages(raw: string, matches: seq<Match>, decode: string -> Option<Image>)
    returns (cleaned: string, images: seq<InlineImage>)
    requires Ordered(matches, |raw|)
    ensures (cleaned, images) == Extracted(raw, matches, decode)
  {
    if matches == [] {
      return raw, [];
    }
    var found: seq<InlineImage> := [];
    cleaned := raw;
    var i := |matches|;
    while i > 0
      invariant 0 <= i <= |matches|
      invariant Ordered(matches[i..], |raw|)
      invariant cleaned == Stripped(raw, matches[i..])
      invariant found == Reversed(ImagesOf(raw, matches[i..], decode))
    {
      i := i - 1;
      var m := matches[i];
      assert Inside(m, |raw|) by {
        assert m in matches;
      }
      OrderedSuffix(matches, |raw|, i);
      assert matches[i..][1..] == matches[i + 1..];
      assert matches[i..][0] == m;
      ghost var later := matches[i + 1..];
      if 1 + |m.groups| < 3 {
        assert Stripped(raw, matches[i..]) == Stripped(raw, later);
        assert ImagesOf(raw, matches[i..], decode) == [] + ImagesOf(raw, later, decode);
        continue;
      }
      assert m.groups[0] in m.groups && m.groups[1] in m.groups;
      var labelText := raw[m.groups[0].location..End(m.groups[0])];
      var dataUrl := raw[m.groups[1].location..End(m.groups[1])];
      var image: Option<Image> := None;
      if ',' in dataUrl {
        var comma := IndexOf(dataUrl, ',');
        image := decode(dataUrl[comma + 1..]);
      }
      assert InlineImage(labelText, image) == InlineImageOf(raw, m, decode);
      assert ImagesOf(raw, matches[i..], decode) == [InlineImage(labelText, image)] + ImagesOf(raw, later, decode);
      found := found + [InlineImage(labelText, image)];
      assert Stripped(raw, matches[i..]) == Cut(Stripped(raw, later), m.range);
      cleaned := cleaned[..m.range.location] + cleaned[End(m.range)..];
    }
    cleaned := Trim(Collapsed(cleaned));
    ReversedTwice(ImagesOf(raw, matches, decode));
    images := Reversed(found);
  }

  // ---------------------------------------------------------------------
  // `split(markdown:)`.
  // ---------------------------------------------------------------------

  /** `split(markdown:)`: the images come out first, then the cleaned text
      is cut into blocks. */
  function Splitting(raw: string, ms: seq<Match>, decode: string -> Option<Image>): (r: SplitResult)
    requires Ordered(ms, |raw|)
    ensures r.blocks != []
    ensures ms == [] ==> r == SplitResult(CodeBlocks(raw), [])
  {
    var (cleaned, images) := Extracted(raw, ms, decode);
    SplitResult(CodeBlocks(cleaned), images)
  }

  method SplitMarkdown(raw: string, matches: seq<Match>, decode: string -> Option<Image>) returns (result: SplitResult)
    requires Ordered(matches, |raw|)
    ensures result == Splitting(raw, matches, decode)
  {
    var cleaned, images := ExtractInlineImages(raw, matches, decode);
    var blocks := SplitCodeBlocks(cleaned);
    result := SplitResult(blocks, images);
  }
}

/** The last steps of assembling the coding agent's tool list: the
    channel-specific tools kept only for their own surface, the sandbox's
    allow/deny policy, and the parameter schemas cleaned for Gemini.  Also
    the image-read header rewrite. */
module ToolPolicy {
  import opened Wrappers
  import opened Strings
  import opened JsonValue
  import opened Sequences
  import opened GeminiSchema

  /** The part of an agent tool this logic looks at. */
  datatype AgentTool = AgentTool(name: string, parameters: Json)

  /** A sandbox's tool policy; either list may be missing. */
  datatype SandboxToolPolicy = SandboxToolPolicy(allow: Option<seq<string>>, deny: Option<seq<string>>)

  const ReadImagePrefix: string := "Read image file ["

  /** `rewriteReadImageHeader`: a read-image header gets the detected MIME type. */
  function RewriteReadImageHeader(text: string, mimeType: string): (r: string)
    ensures r == text || r == ReadImagePrefix + mimeType + "]"
    ensures r != text ==> StartsWith(text, ReadImagePrefix) && EndsWith(text, "]")
    ensures StartsWith(text, ReadImagePrefix) && EndsWith(text, "]") ==> r == ReadImagePrefix + mimeType + "]"
  {
    if StartsWith(text, ReadImagePrefix) && EndsWith(text, "]") then ReadImagePrefix + mimeType + "]"
    else text
  }

  /** A rewritten header is rewritten again by a later call: the last MIME
      type wins, and rewriting twice with the same type changes nothing. */
  lemma RewriteLastWins(text: string, m1: string, m2: string)
    ensures RewriteReadImageHeader(RewriteReadImageHeader(text, m1), m2) == RewriteReadImageHeader(text, m2)
  {
    var h := ReadImagePrefix + m1 + "]";
    if RewriteReadImageHeader(text, m1) != text {
      assert h[..|ReadImagePrefix|] == ReadImagePrefix;
      assert h[|h| - 1..] == "]";
    }
  }

  /** `entry.trim().toLowerCase()`. */
  function NormalizeName(entry: string): (r: string)
    ensures |r| <= |entry|
    ensures IsLower(r) && Trim(r) == r && ToLower(r) == r
    ensures r == [] <==> IsBlank(entry)
  {
    var t := Trim(entry);
    ToLowerFacts(t);
    ToLowerKeepsSpace(t);
    ToLowerFacts(ToLower(t));
    TrimOfTrimmed(ToLower(t));
    ToLower(t)
  }

  /** Normalising a normalised name changes nothing. */
  lemma NormalizeNameIdempotent(entry: string)
    ensures NormalizeName(NormalizeName(entry)) == NormalizeName(entry)
  {
    var r := NormalizeName(entry);
    assert Trim(r) == r;
    assert ToLower(r) == r;
  }

  /** Every entry normalised, blank ones included. */
  function NormalizeEach(list: seq<string>): (r: seq<string>)
    ensures |r| == |list|
    ensures forall i :: 0 <= i < |list| ==> r[i] == NormalizeName(list[i])
  {
    seq(|list|, i requires 0 <= i < |list| => NormalizeName(list[i]))
  }

  /** `normalizeToolNames`: every entry trimmed and lower-cased, blank
      entries dropped, a missing list read as empty. */
  function NormalizeToolNames(list: Option<seq<string>>): (r: seq<string>)
    ensures list.None? ==> r == []
    ensures forall n :: n in r ==> n != [] && IsLower(n) && Trim(n) == n
    ensures list.Some? ==> |r| <= |list.value|
  {
    if list.None? then []
    else Filter(NormalizeEach(list.value), (n: string) => n != [])
  }

  /** A name is in the normalised list exactly when some non-blank entry
      normalises to it. */
  lemma NormalizeToolNamesMembers(list: seq<string>, n: string)
    ensures n in NormalizeToolNames(Some(list)) <==> exists e :: e in list && !IsBlank(e) && NormalizeName(e) == n
  {
    var mapped := NormalizeEach(list);
    if n in NormalizeToolNames(Some(list)) {
      assert n in mapped;
      var i :| 0 <= i < |list| && mapped[i] == n;
      assert list[i] in list && !IsBlank(list[i]) && NormalizeName(list[i]) == n;
    }
    if exists e :: e in list && !IsBlank(e) && NormalizeName(e) == n {
      var e :| e in list && !IsBlank(e) && NormalizeName(e) == n;
      var i :| 0 <= i < |list| && list[i] == e;
      assert mapped[i] == n;
    }
  }

  /** The test `filterToolsByPolicy` applies to one tool: its lower-cased
      name (not trimmed) must not be denied, and must be allowed when the
      allow list has any non-blank entry. */
  predicate Permitted(policy: SandboxToolPolicy, toolName: string) {
    var name := ToLower(toolName);
    var allow := NormalizeToolNames(policy.allow);
    name !in NormalizeToolNames(policy.deny) && (|allow| > 0 ==> name in allow)
  }

  /** `filterToolsByPolicy`. */
  function FilterToolsByPolicy(tools: seq<AgentTool>, policy: Option<SandboxToolPolicy>): (r: seq<AgentTool>)
    ensures policy.None? ==> r == tools
    ensures IsSubsequence(r, tools)
    ensures policy.Some? ==> forall t :: t in r <==> t in tools && Permitted(policy.value, t.name)
  {
    if policy.None? then
      SubsequenceOfSelf(tools);
      tools
    else Filter(tools, (t: AgentTool) => Permitted(policy.value, t.name))
  }

  /** A tool whose lower-cased name matches a non-blank deny entry, in any
      case and with any surrounding whitespace, is removed. */
  lemma DeniedRemoved(tools: seq<AgentTool>, policy: SandboxToolPolicy, t: AgentTool, e: string)
    requires policy.deny.Some? && e in policy.deny.value && !IsBlank(e)
    requires NormalizeName(e) == ToLower(t.name)
    ensures t !in FilterToolsByPolicy(tools, Some(policy))
  {
    NormalizeToolNamesMembers(policy.deny.value, ToLower(t.name));
  }

  /** With a non-blank allow entry, every kept tool's lower-cased name is
      one of the normalised allow entries. */
  lemma AllowRestricts(tools: seq<AgentTool>, policy: SandboxToolPolicy, t: AgentTool)
    requires policy.allow.Some? && exists e :: e in policy.allow.value && !IsBlank(e)
    requires t in FilterToolsByPolicy(tools, Some(policy))
    ensures exists e :: e in policy.allow.value && !IsBlank(e) && NormalizeName(e) == ToLower(t.name)
  {
    var e :| e in policy.allow.value && !IsBlank(e);
    NormalizeToolNamesMembers(policy.allow.value, NormalizeName(e));
    NormalizeToolNamesMembers(policy.allow.value, ToLower(t.name));
  }

  /** A list holding only blank entries normalises to the empty list. */
  lemma BlankNamesVanish(list: seq<string>)
    requires forall e :: e in list ==> IsBlank(e)
    ensures NormalizeToolNames(Some(list)) == []
  {
    forall n ensures n !in NormalizeToolNames(Some(list)) {
      NormalizeToolNamesMembers(list, n);
    }
    NoMembers(NormalizeToolNames(Some(list)));
  }

  /** A policy whose lists hold only blank entries keeps every tool. */
  lemma BlankPolicyKeepsAll(tools: seq<AgentTool>, policy: SandboxToolPolicy)
    requires policy.allow.None? || forall e :: e in policy.allow.value ==> IsBlank(e)
    requires policy.deny.None? || forall e :: e in policy.deny.value ==> IsBlank(e)
    ensures FilterToolsByPolicy(tools, Some(policy)) == tools
  {
    if policy.allow.Some? {
      BlankNamesVanish(policy.allow.value);
    }
    if policy.deny.Some? {
      BlankNamesVanish(policy.deny.value);
    }
    FilterKeepsAll(tools, (t: AgentTool) => Permitted(policy, t.name));
  }

  /** `normalizeSurface`: the trimmed, lower-cased surface, or nothing when
      that is empty. */
  function NormalizeSurface(surface: Option<string>): (r: Option<string>)
    ensures r.Some? <==> surface.Some? && !IsBlank(surface.value)
    ensures r.Some? ==> r.value == NormalizeName(surface.value) && r.value != []
  {
    if surface.None? then None
    else
      var n := NormalizeName(surface.value);
      if n == [] then None else Some(n)
  }

  /** Normalising a normalised surface changes nothing. */
  lemma NormalizeSurfaceIdempotent(surface: Option<string>)
    ensures NormalizeSurface(NormalizeSurface(surface)) == NormalizeSurface(surface)
  {
    if surface.Some? {
      NormalizeNameIdempotent(surface.value);
    }
  }

  /** `shouldIncludeDiscordTool`: the normalised surface is `discord` or
      starts with `discord:`. */
  function ShouldIncludeDiscordTool(surface: Option<string>): (r: bool)
    ensures r ==> surface.Some? && !IsBlank(surface.value)
    ensures r ==> NormalizeName(surface.value)[0] == 'd'
    ensures r <==> surface.Some? && (NormalizeName(surface.value) == "discord" || StartsWith(NormalizeName(surface.value), "discord:"))
  {
    var n := NormalizeSurface(surface);
    n.Some? && (n.value == "discord" || StartsWith(n.value, "discord:"))
  }

  /** `shouldIncludeSlackTool`: the normalised surface is `slack` or starts
      with `slack:`. */
  function ShouldIncludeSlackTool(surface: Option<string>): (r: bool)
    ensures r ==> surface.Some? && !IsBlank(surface.value)
    ensures r ==> NormalizeName(surface.value)[0] == 's'
    ensures r <==> surface.Some? && (NormalizeName(surface.value) == "slack" || StartsWith(NormalizeName(surface.value), "slack:"))
  {
    var n := NormalizeSurface(surface);
    n.Some? && (n.value == "slack" || StartsWith(n.value, "slack:"))
  }

  /** No surface selects both channel tools. */
  lemma DiscordExcludesSlack(surface: Option<string>)
    ensures !(ShouldIncludeDiscordTool(surface) && ShouldIncludeSlackTool(surface))
  {
  }

  /** The answer depends only on the normalised surface. */
  lemma SurfaceNormalizationInvariant(surface: Option<string>)
    ensures ShouldIncludeDiscordTool(NormalizeSurface(surface)) == ShouldIncludeDiscordTool(surface)
    ensures ShouldIncludeSlackTool(NormalizeSurface(surface)) == ShouldIncludeSlackTool(surface)
  {
    NormalizeSurfaceIdempotent(surface);
  }

  /** The channel filter of `createClawdisCodingTools`: a tool named exactly
      `discord` or `slack` stays only for its own surface. */
  predicate ChannelToolKept(surface: Option<string>, toolName: string) {
    if toolName == "discord" then ShouldIncludeDiscordTool(surface)
    else if toolName == "slack" then ShouldIncludeSlackTool(surface)
    else true
  }

  /** `normalizeToolParameters`: object or array parameters are replaced by
      their Gemini-cleaned form, anything else is left alone. */
  function NormalizeToolParameters(tool: AgentTool): (r: AgentTool)
    ensures r.name == tool.name
    ensures !IsObjectLike(tool.parameters) ==> r == tool
    ensures Ready(r.parameters)
  {
    if IsObjectLike(tool.parameters) then
      CleanedReady(tool.parameters);
      AgentTool(tool.name, Cleaned(tool.parameters))
    else tool
  }

  /** The tail of `createClawdisCodingTools`: the channel filter, the
      sandbox policy when a sandbox is enabled, then the parameter
      normalisation. */
  function SelectTools(tools: seq<AgentTool>, surface: Option<string>, sandbox: Option<SandboxToolPolicy>): (r: seq<AgentTool>)
    ensures |r| <= |tools|
  {
    var filtered := Filter(tools, (t: AgentTool) => ChannelToolKept(surface, t.name));
    var sandboxed := FilterToolsByPolicy(filtered, sandbox);
    seq(|sandboxed|, i requires 0 <= i < |sandboxed| => NormalizeToolParameters(sandboxed[i]))
  }

  /** Every selected tool is an input tool, passed both filters, and has
      its parameters cleaned; a `discord` or `slack` tool appears only for
      its own surface. */
  lemma SelectToolsFacts(tools: seq<AgentTool>, surface: Option<string>, sandbox: Option<SandboxToolPolicy>)
    ensures forall r :: r in SelectTools(tools, surface, sandbox) ==>
              exists t :: t in tools && r == NormalizeToolParameters(t) && ChannelToolKept(surface, t.name) &&
                          (sandbox.Some? ==> Permitted(sandbox.value, t.name))
    ensures forall r :: r in SelectTools(tools, surface, sandbox) ==> Ready(r.parameters)
    ensures forall r :: r in SelectTools(tools, surface, sandbox) && r.name == "discord" ==> ShouldIncludeDiscordTool(surface)
    ensures forall r :: r in SelectTools(tools, surface, sandbox) && r.name == "slack" ==> ShouldIncludeSlackTool(surface)
  {
    var filtered := Filter(tools, (t: AgentTool) => ChannelToolKept(surface, t.name));
    var sandboxed := FilterToolsByPolicy(filtered, sandbox);
    var out := SelectTools(tools, surface, sandbox);
    forall r | r in out
      ensures exists t :: t in tools && r == NormalizeToolParameters(t) && ChannelToolKept(surface, t.name) &&
                          (sandbox.Some? ==> Permitted(sandbox.value, t.name))
    {
      var i :| 0 <= i < |out| && out[i] == r;
      var t := sandboxed[i];
      assert t in sandboxed;
      assert t in filtered;
      assert r == NormalizeToolParameters(t);
    }
  }
}

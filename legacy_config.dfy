/** Detection and migration of retired configuration keys: the three legacy
    rules, the three migrations that move their values to the current
    places, and the driver that runs the migrations on a copy of the raw
    configuration.  The migrations rewrite nested records and append to a
    list of change lines, so the driver and each migration are methods of a
    `MigrationRun` holding the record being rewritten and the lines so far;
    each is proved against a function on values. */
module LegacyConfig {
  import opened Wrappers
  import opened Strings
  import opened JsonValue
  import opened Sequences

  /** A retired key path and the message reported for it. */
  datatype Rule = Rule(path: seq<string>, message: string)

  /** One reported use of a retired key, the path joined with `.`. */
  datatype Issue = Issue(path: string, message: string)

  /** The rewritten record after a migration and the change lines it added. */
  datatype Step = Step(next: seq<Field>, lines: seq<Change>)

  /** What the driver returns: no record when nothing changed. */
  datatype MigrationResult = MigrationResult(next: Option<Json>, changes: seq<Change>)

  datatype Migration = AllowFromMigration | GroupChatMigration | TelegramMigration

  const Rules: seq<Rule> := [
    Rule(["routing", "allowFrom"],
      "routing.allowFrom was removed; use whatsapp.allowFrom instead (run `clawdbot doctor` to migrate)."),
    Rule(["routing", "groupChat", "requireMention"],
      "routing.groupChat.requireMention was removed; use whatsapp/telegram/imessage groups defaults (e.g. whatsapp.groups.\"*\".requireMention) instead (run `clawdbot doctor` to migrate)."),
    Rule(["telegram", "requireMention"],
      "telegram.requireMention was removed; use telegram.groups.\"*\".requireMention instead (run `clawdbot doctor` to migrate).")
  ]

  /** The migrations in the order the driver runs them. */
  const Migrations: seq<Migration> := [AllowFromMigration, GroupChatMigration, TelegramMigration]

  /** The sections that receive `routing.groupChat.requireMention`, in order. */
  const Sections: seq<string> := ["whatsapp", "telegram", "imessage"]

  /** A line of the `changes` log, by what it reports. */
  datatype Change =
    | MovedAllowFrom | KeptAllowFrom
    | MovedGroupMention(key: string) | KeptGroupMention(key: string)
    | MovedTelegramMention | KeptTelegramMention

  /** The text of each change line. */
  function Message(c: Change): string {
    match c
    case MovedAllowFrom => "Moved routing.allowFrom \U{2192} whatsapp.allowFrom."
    case KeptAllowFrom => "Removed routing.allowFrom (whatsapp.allowFrom already set)."
    case MovedGroupMention(key) => "Moved routing.groupChat.requireMention \U{2192} " + key + ".groups.\"*\".requireMention."
    case KeptGroupMention(key) => "Removed routing.groupChat.requireMention (" + key + ".groups.\"*\" already set)."
    case MovedTelegramMention => "Moved telegram.requireMention \U{2192} telegram.groups.\"*\".requireMention."
    case KeptTelegramMention => "Removed telegram.requireMention (telegram.groups.\"*\" already set)."
  }

  // ---------------------------------------------------------------------
  // Reading values out of records

  /** `record[k]`. */
  function At(fs: seq<Field>, k: string): Json {
    Get(Obj(fs), k)
  }

  /** The record the migrations write into, read with
      `x && typeof x === "object" ? x : {}`: an object is kept, anything
      else is replaced by a fresh empty record.  JavaScript would also keep
      an array here and set a named property on it; this model has no
      named properties on arrays, so an array is replaced like a scalar. */
  function RecordOf(j: Json): (fs: seq<Field>)
    ensures forall k {:trigger At(fs, k)} :: At(fs, k) == Get(j, k)
  {
    if j.Obj? then j.fields else []
  }

  lemma AtPut(fs: seq<Field>, k: string, v: Json)
    ensures forall k' {:trigger At(Put(fs, k, v), k')} :: At(Put(fs, k, v), k') == if k' == k then v else At(fs, k')
  {
  }

  lemma AtRemove(fs: seq<Field>, k: string)
    ensures forall k' {:trigger At(Remove(fs, k), k')} :: At(Remove(fs, k), k') == if k' == k then Undefined else At(fs, k')
  {
  }

  /** The walk of `findLegacyConfigIssues` along a key path: anything that
      is not an object or an array on the way ends it with `undefined`. */
  function Resolve(cursor: Json, path: seq<string>): Json
    decreases |path|
  {
    if path == [] then cursor
    else if !IsObjectLike(cursor) then Undefined
    else Resolve(Get(cursor, path[0]), path[1..])
  }

  /** A walk is a chain of property reads. */
  lemma {:induction false} ResolveStep(j: Json, k: string, rest: seq<string>)
    ensures Resolve(j, [k] + rest) == Resolve(Get(j, k), rest)
  {
    assert ([k] + rest)[1..] == rest;
    if !IsObjectLike(j) {
      ResolveUndefined(rest);
    }
  }

  lemma {:induction false} ResolveUndefined(path: seq<string>)
    ensures Resolve(Undefined, path) == Undefined
  {
  }

  /** The values the three rules look at. */
  function RoutingAllowFrom(fs: seq<Field>): Json {
    Get(At(fs, "routing"), "allowFrom")
  }

  function GroupChatMention(fs: seq<Field>): Json {
    Get(Get(At(fs, "routing"), "groupChat"), "requireMention")
  }

  function TelegramMention(fs: seq<Field>): Json {
    Get(At(fs, "telegram"), "requireMention")
  }

  /** `v === undefined ? fallback : v`. */
  function OrIfUndefined(v: Json, fallback: Json): Json {
    if v == Undefined then fallback else v
  }

  /** `section.groups."*".requireMention`. */
  function DefaultMention(fs: seq<Field>, section: string): Json {
    Get(Get(Get(At(fs, section), "groups"), "*"), "requireMention")
  }

  /** The rules' paths resolve to the values above. */
  lemma RulesResolve(fs: seq<Field>)
    ensures Resolve(Obj(fs), Rules[0].path) == RoutingAllowFrom(fs)
    ensures Resolve(Obj(fs), Rules[1].path) == GroupChatMention(fs)
    ensures Resolve(Obj(fs), Rules[2].path) == TelegramMention(fs)
  {
    ResolveStep(Obj(fs), "routing", ["allowFrom"]);
    ResolveStep(At(fs, "routing"), "allowFrom", []);
    ResolveStep(Obj(fs), "routing", ["groupChat", "requireMention"]);
    ResolveStep(At(fs, "routing"), "groupChat", ["requireMention"]);
    ResolveStep(Get(At(fs, "routing"), "groupChat"), "requireMention", []);
    ResolveStep(Obj(fs), "telegram", ["requireMention"]);
    ResolveStep(At(fs, "telegram"), "requireMention", []);
    assert ["allowFrom"] + [] == ["allowFrom"];
  }

  // ---------------------------------------------------------------------
  // Detection

  /** The issue for one rule: reported when its path leads to a defined
      value. */
  function IssueOf(raw: Json, rule: Rule): (issues: seq<Issue>)
    ensures |issues| <= 1
  {
    if Resolve(raw, rule.path) != Undefined then [Issue(Join(rule.path, "."), rule.message)] else []
  }

  /** The issues for `rules`, in rule order. */
  function IssuesFor(raw: Json, rules: seq<Rule>): (issues: seq<Issue>)
    ensures |issues| <= |rules|
  {
    if rules == [] then []
    else IssuesFor(raw, rules[..|rules| - 1]) + IssueOf(raw, rules[|rules| - 1])
  }

  /** The issues `findLegacyConfigIssues` reports: none for a value that is
      not an object or array, otherwise one per rule whose path leads to a
      defined value. */
  function LegacyIssues(raw: Json): seq<Issue> {
    if !IsObjectLike(raw) then [] else IssuesFor(raw, Rules)
  }

  /** The three rules in order. */
  lemma IssuesForRules(raw: Json)
    ensures IssuesFor(raw, Rules) == IssueOf(raw, Rules[0]) + IssueOf(raw, Rules[1]) + IssueOf(raw, Rules[2])
  {
    assert Rules[..1][..0] == [];
    assert IssuesFor(raw, Rules[..1]) == IssueOf(raw, Rules[0]);
    assert Rules[..2][..1] == Rules[..1];
    assert Rules[..3][..2] == Rules[..2];
    assert Rules[..3] == Rules;
  }

  /** For a record: an issue is reported exactly for each rule whose value
      is defined, in rule order. */
  lemma RecordIssues(fs: seq<Field>)
    ensures LegacyIssues(Obj(fs)) ==
      (if RoutingAllowFrom(fs) != Undefined then [Issue(Join(Rules[0].path, "."), Rules[0].message)] else []) +
      (if GroupChatMention(fs) != Undefined then [Issue(Join(Rules[1].path, "."), Rules[1].message)] else []) +
      (if TelegramMention(fs) != Undefined then [Issue(Join(Rules[2].path, "."), Rules[2].message)] else [])
  {
    RulesResolve(fs);
    IssuesForRules(Obj(fs));
  }

  /** The issue paths are the dotted key paths of the three rules. */
  lemma IssuePaths()
    ensures Join(Rules[0].path, ".") == "routing.allowFrom"
    ensures Join(Rules[1].path, ".") == "routing.groupChat.requireMention"
    ensures Join(Rules[2].path, ".") == "telegram.requireMention"
  {
    IssuePath0();
    IssuePath1();
    IssuePath2();
  }

  lemma IssuePath0()
    ensures Join(Rules[0].path, ".") == "routing.allowFrom"
  {
  }

  lemma IssuePath1()
    ensures Join(Rules[1].path, ".") == "routing.groupChat.requireMention"
  {
    assert Rules[1].path[1..] == ["groupChat", "requireMention"];
  }

  lemma IssuePath2()
    ensures Join(Rules[2].path, ".") == "telegram.requireMention"
  {
  }

  /** The inner loop of `findLegacyConfigIssues`: the cursor follows the
      path and stops at the first value that is not an object or array. */
  method Walk(raw: Json, path: seq<string>) returns (cursor: Json)
    ensures cursor == Resolve(raw, path)
  {
    cursor := raw;
    var k := 0;
    while k < |path|
      invariant 0 <= k <= |path|
      invariant Resolve(cursor, path[k..]) == Resolve(raw, path)
    {
      if !IsObjectLike(cursor) {
        cursor := Undefined;
        break;
      }
      assert path[k..][1..] == path[k + 1..];
      cursor := Get(cursor, path[k]);
      k := k + 1;
    }
  }

  /** `findLegacyConfigIssues`. */
  method FindLegacyConfigIssues(raw: Json) returns (issues: seq<Issue>)
    ensures issues == LegacyIssues(raw)
  {
    issues := [];
    if !IsObjectLike(raw) {
      return;
    }
    for r := 0 to |Rules|
      invariant issues == IssuesFor(raw, Rules[..r])
    {
      var rule := Rules[r];
      var cursor := Walk(raw, rule.path);
      if cursor != Undefined {
        issues := issues + [Issue(Join(rule.path, "."), rule.message)];
      }
      assert Rules[..r + 1][..r] == Rules[..r];
    }
    assert Rules[..|Rules|] == Rules;
  }

  // ---------------------------------------------------------------------
  // The migrations as functions on values

  /** `delete record[key]` when `rest` is empty, `record[key] = rest`
      otherwise: how a migration stores a nested record it has shrunk. */
  function Pruned(fs: seq<Field>, key: string, rest: seq<Field>): (r: seq<Field>)
    ensures forall k {:trigger At(r, k)} :: k != key ==> At(r, k) == At(fs, k)
    ensures At(r, key) == if rest == [] then Undefined else Obj(rest)
    ensures forall k {:trigger Get(At(r, key), k)} :: Get(At(r, key), k) == At(rest, k)
  {
    AtRemove(fs, key);
    AtPut(fs, key, Obj(rest));
    if rest == [] then Remove(fs, key) else Put(fs, key, Obj(rest))
  }

  /** `groups."*".requireMention` of a section record. */
  function SectionMention(section: seq<Field>): Json {
    Get(Get(At(section, "groups"), "*"), "requireMention")
  }

  /** The section with `groups."*".requireMention` set, the `groups` and
      `"*"` records created when they are not objects. */
  function WithDefaultMention(section: seq<Field>, requireMention: Json): (r: seq<Field>)
    ensures SectionMention(r) == requireMention
    ensures forall k {:trigger At(r, k)} :: k != "groups" ==> At(r, k) == At(section, k)
  {
    var groups := RecordOf(At(section, "groups"));
    var entry := RecordOf(At(groups, "*"));
    var entry' := Put(entry, "requireMention", requireMention);
    var groups' := Put(groups, "*", Obj(entry'));
    AtPut(entry, "requireMention", requireMention);
    AtPut(groups, "*", Obj(entry'));
    AtPut(section, "groups", Obj(groups'));
    Put(section, "groups", Obj(groups'))
  }

  /** `whatsapp` with `allowFrom` set unless it already is. */
  function AllowFromWhatsapp(whatsapp: seq<Field>, allowFrom: Json): (r: seq<Field>)
    ensures At(r, "allowFrom") == OrIfUndefined(At(whatsapp, "allowFrom"), allowFrom)
  {
    AtPut(whatsapp, "allowFrom", allowFrom);
    if At(whatsapp, "allowFrom") == Undefined then Put(whatsapp, "allowFrom", allowFrom) else whatsapp
  }

  /** `routing.allowFrom` moves to `whatsapp.allowFrom` unless that is set;
      it is then deleted, and `routing` with it when nothing is left. */
  function AllowFromMoved(fs: seq<Field>): (s: Step)
    ensures |s.lines| == if RoutingAllowFrom(fs) != Undefined then 1 else 0
  {
    var routing := At(fs, "routing");
    // an array passes the source's object test but has no `allowFrom`
    if !routing.Obj? then Step(fs, [])
    else
      var allowFrom := Get(routing, "allowFrom");
      if allowFrom == Undefined then Step(fs, [])
      else
        var whatsapp := RecordOf(At(fs, "whatsapp"));
        var pruned := Pruned(fs, "routing", Remove(routing.fields, "allowFrom"));
        Step(Put(pruned, "whatsapp", Obj(AllowFromWhatsapp(whatsapp, allowFrom))),
          if At(whatsapp, "allowFrom") == Undefined then [MovedAllowFrom] else [KeptAllowFrom])
  }

  /** `applyTo(key)`: `key.groups."*".requireMention` gets the value unless
      it is set; one change line either way. */
  function MentionMovedTo(fs: seq<Field>, key: string, requireMention: Json): (s: Step)
    ensures |s.lines| == 1
  {
    var section := RecordOf(At(fs, key));
    if SectionMention(section) == Undefined then
      Step(Put(fs, key, Obj(WithDefaultMention(section, requireMention))), [MovedGroupMention(key)])
    else Step(fs, [KeptGroupMention(key)])
  }

  /** `applyTo` for each of `keys` in order. */
  function MentionMovedToAll(fs: seq<Field>, keys: seq<string>, requireMention: Json): (s: Step)
    ensures |s.lines| == |keys|
  {
    if keys == [] then Step(fs, [])
    else
      var s := MentionMovedToAll(fs, keys[..|keys| - 1], requireMention);
      var t := MentionMovedTo(s.next, keys[|keys| - 1], requireMention);
      Step(t.next, s.lines + t.lines)
  }

  /** `routing.groupChat.requireMention` is offered to the three sections,
      then deleted; an emptied `groupChat` and an emptied `routing` are
      deleted too. */
  function GroupChatMoved(fs: seq<Field>): (s: Step)
    ensures |s.lines| == if GroupChatMention(fs) != Undefined then 3 else 0
  {
    var routing := At(fs, "routing");
    if !routing.Obj? then Step(fs, [])
    else
      var groupChat := Get(routing, "groupChat");
      if !groupChat.Obj? then Step(fs, [])
      else
        var requireMention := Get(groupChat, "requireMention");
        if requireMention == Undefined then Step(fs, [])
        else
          var sections := MentionMovedToAll(fs, Sections, requireMention);
          var routing' := Pruned(routing.fields, "groupChat", Remove(groupChat.fields, "requireMention"));
          Step(Pruned(sections.next, "routing", routing'), sections.lines)
  }

  /** `telegram.requireMention` moves to `telegram.groups."*".requireMention`
      unless that is set, and is deleted. */
  function TelegramMoved(fs: seq<Field>): (s: Step)
    ensures |s.lines| == if TelegramMention(fs) != Undefined then 1 else 0
  {
    var telegram := At(fs, "telegram");
    if !telegram.Obj? then Step(fs, [])
    else
      var requireMention := Get(telegram, "requireMention");
      if requireMention == Undefined then Step(fs, [])
      else
        var moved := SectionMention(telegram.fields) == Undefined;
        var telegram' := if moved then WithDefaultMention(telegram.fields, requireMention) else telegram.fields;
        Step(Pruned(fs, "telegram", Remove(telegram', "requireMention")), if moved then [MovedTelegramMention] else [KeptTelegramMention])
  }

  function Migrate(m: Migration, fs: seq<Field>): Step {
    match m
    case AllowFromMigration => AllowFromMoved(fs)
    case GroupChatMigration => GroupChatMoved(fs)
    case TelegramMigration => TelegramMoved(fs)
  }

  /** The migrations of `ms` applied in order, their lines concatenated. */
  function MigrateAll(ms: seq<Migration>, fs: seq<Field>): Step {
    if ms == [] then Step(fs, [])
    else
      var s := MigrateAll(ms[..|ms| - 1], fs);
      var t := Migrate(ms[|ms| - 1], s.next);
      Step(t.next, s.lines + t.lines)
  }

  /** What `applyLegacyMigrations` returns. */
  function LegacyMigrated(raw: Json): MigrationResult {
    if !IsObjectLike(raw) then MigrationResult(None, [])
    else
      // an array has none of the keys the migrations look for
      var s := MigrateAll(Migrations, RecordOf(raw));
      if s.lines == [] then MigrationResult(None, []) else MigrationResult(Some(Obj(s.next)), s.lines)
  }

  // ---------------------------------------------------------------------
  // What each migration does

  /** `routing.allowFrom` is gone afterwards and `routing.groupChat` is
      untouched. */
  lemma AllowFromRouting(fs: seq<Field>)
    ensures var next := AllowFromMoved(fs).next;
      && RoutingAllowFrom(next) == Undefined
      && Get(At(next, "routing"), "groupChat") == Get(At(fs, "routing"), "groupChat")
      && GroupChatMention(next) == GroupChatMention(fs)
  {
    var routing := At(fs, "routing");
    if routing.Obj? && Get(routing, "allowFrom") != Undefined {
      var whatsapp := RecordOf(At(fs, "whatsapp"));
      var whatsapp' := AllowFromWhatsapp(whatsapp, Get(routing, "allowFrom"));
      var rest := Remove(routing.fields, "allowFrom");
      var pruned := Pruned(fs, "routing", rest);
      var next := Put(pruned, "whatsapp", Obj(whatsapp'));
      assert AllowFromMoved(fs).next == next;
      AtRemove(routing.fields, "allowFrom");
      AtPut(pruned, "whatsapp", Obj(whatsapp'));
      assert At(next, "routing") == At(pruned, "routing");
      FieldRemoved(routing.fields, rest, "allowFrom", next, "routing");
      assert Get(At(next, "routing"), "groupChat") == At(routing.fields, "groupChat");
    } else {
      assert AllowFromMoved(fs).next == fs;
    }
  }

  /** Only `routing` and `whatsapp` change, and nothing does when there is
      no `routing.allowFrom`. */
  lemma AllowFromKeeps(fs: seq<Field>)
    ensures var next := AllowFromMoved(fs).next;
      && (forall k {:trigger At(next, k)} :: k != "routing" && k != "whatsapp" ==> At(next, k) == At(fs, k))
      && (RoutingAllowFrom(fs) == Undefined ==> next == fs)
  {
    var routing := At(fs, "routing");
    if routing.Obj? && Get(routing, "allowFrom") != Undefined {
      var whatsapp := RecordOf(At(fs, "whatsapp"));
      var whatsapp' := AllowFromWhatsapp(whatsapp, Get(routing, "allowFrom"));
      var pruned := Pruned(fs, "routing", Remove(routing.fields, "allowFrom"));
      assert AllowFromMoved(fs).next == Put(pruned, "whatsapp", Obj(whatsapp'));
      AtPut(pruned, "whatsapp", Obj(whatsapp'));
    } else {
      assert AllowFromMoved(fs).next == fs;
    }
  }

  /** `whatsapp.allowFrom` keeps a value it had and otherwise receives the
      moved one. */
  lemma AllowFromReceived(fs: seq<Field>)
    requires RoutingAllowFrom(fs) != Undefined
    ensures Get(At(AllowFromMoved(fs).next, "whatsapp"), "allowFrom") ==
      OrIfUndefined(Get(At(fs, "whatsapp"), "allowFrom"), RoutingAllowFrom(fs))
  {
    var routing := At(fs, "routing");
    var whatsapp := RecordOf(At(fs, "whatsapp"));
    var whatsapp' := AllowFromWhatsapp(whatsapp, Get(routing, "allowFrom"));
    var pruned := Pruned(fs, "routing", Remove(routing.fields, "allowFrom"));
    assert AllowFromMoved(fs).next == Put(pruned, "whatsapp", Obj(whatsapp'));
    AtPut(pruned, "whatsapp", Obj(whatsapp'));
  }

  /** Reading a nested record after one of its keys was removed. */
  lemma FieldRemoved(fields: seq<Field>, rest: seq<Field>, key: string, outer: seq<Field>, name: string)
    requires forall k {:trigger At(rest, k)} :: At(rest, k) == if k == key then Undefined else At(fields, k)
    requires forall k {:trigger Get(At(outer, name), k)} :: Get(At(outer, name), k) == At(rest, k)
    ensures Get(At(outer, name), key) == Undefined
    ensures forall k {:trigger Get(At(outer, name), k)} :: k != key ==> Get(At(outer, name), k) == At(fields, k)
  {
  }

  /** What `applyTo(key)` guarantees of the record after it: only `key`
      changes; its `groups."*".requireMention` keeps a value it had and
      otherwise receives the moved one; its own `requireMention` is
      untouched. */
  ghost predicate SectionMoved(before: seq<Field>, after: seq<Field>, key: string, requireMention: Json) {
    && (forall k {:trigger At(after, k)} :: k != key ==> At(after, k) == At(before, k))
    && DefaultMention(after, key) == OrIfUndefined(DefaultMention(before, key), requireMention)
    && Get(At(after, key), "requireMention") == Get(At(before, key), "requireMention")
  }

  lemma MentionMovedToFacts(fs: seq<Field>, key: string, requireMention: Json)
    ensures SectionMoved(fs, MentionMovedTo(fs, key, requireMention).next, key, requireMention)
  {
    MentionMovedToKeeps(fs, key, requireMention);
    MentionMovedToDefault(fs, key, requireMention);
  }

  /** `applyTo(key)` changes nothing outside `key.groups`. */
  lemma MentionMovedToKeeps(fs: seq<Field>, key: string, requireMention: Json)
    ensures var next := MentionMovedTo(fs, key, requireMention).next;
      && (forall k {:trigger At(next, k)} :: k != key ==> At(next, k) == At(fs, k))
      && Get(At(next, key), "requireMention") == Get(At(fs, key), "requireMention")
  {
    var section := RecordOf(At(fs, key));
    if SectionMention(section) == Undefined {
      SectionKeepsOwnMention(fs, key, requireMention);
    } else {
      assert MentionMovedTo(fs, key, requireMention).next == fs;
    }
  }

  lemma SectionKeepsOwnMention(fs: seq<Field>, key: string, requireMention: Json)
    requires SectionMention(RecordOf(At(fs, key))) == Undefined
    ensures var next := Put(fs, key, Obj(WithDefaultMention(RecordOf(At(fs, key)), requireMention)));
      && MentionMovedTo(fs, key, requireMention).next == next
      && (forall k {:trigger At(next, k)} :: k != key ==> At(next, k) == At(fs, k))
      && Get(At(next, key), "requireMention") == Get(At(fs, key), "requireMention")
  {
    var section := RecordOf(At(fs, key));
    var section' := WithDefaultMention(section, requireMention);
    AtPut(fs, key, Obj(section'));
    DefaultMentionKeepsOwn(section, requireMention);
    assert Get(At(fs, key), "requireMention") == At(section, "requireMention");
  }

  /** Setting the default in `groups` leaves the section's own
      `requireMention` alone. */
  lemma DefaultMentionKeepsOwn(section: seq<Field>, requireMention: Json)
    ensures At(WithDefaultMention(section, requireMention), "requireMention") == At(section, "requireMention")
  {
    MentionKeyIsNotGroups();
  }

  lemma MentionKeyIsNotGroups()
    ensures "requireMention" != "groups"
  {
    assert |"requireMention"| != |"groups"|;
  }

  /** `applyTo(key)` sets `key.groups."*".requireMention` unless it is set. */
  lemma MentionMovedToDefault(fs: seq<Field>, key: string, requireMention: Json)
    ensures DefaultMention(MentionMovedTo(fs, key, requireMention).next, key) == OrIfUndefined(DefaultMention(fs, key), requireMention)
  {
    var section := RecordOf(At(fs, key));
    assert At(section, "groups") == Get(At(fs, key), "groups");
    if SectionMention(section) == Undefined {
      var section' := WithDefaultMention(section, requireMention);
      assert MentionMovedTo(fs, key, requireMention).next == Put(fs, key, Obj(section'));
      AtPut(fs, key, Obj(section'));
    } else {
      assert MentionMovedTo(fs, key, requireMention).next == fs;
    }
  }

  /** What the three `applyTo` calls guarantee together: each section
      gets the default unless it has one; `telegram.requireMention` and
      every key other than the three sections are untouched. */
  ghost predicate SectionsMoved(before: seq<Field>, after: seq<Field>, requireMention: Json) {
    && (forall k {:trigger At(after, k)} :: k != "whatsapp" && k != "telegram" && k != "imessage" ==> At(after, k) == At(before, k))
    && TelegramMention(after) == TelegramMention(before)
    && SectionDefaultsSet(before, after, requireMention)
  }

  lemma SectionsChain(a: seq<Field>, b: seq<Field>, c: seq<Field>, d: seq<Field>, requireMention: Json)
    requires SectionMoved(a, b, Sections[0], requireMention)
    requires SectionMoved(b, c, Sections[1], requireMention)
    requires SectionMoved(c, d, Sections[2], requireMention)
    ensures SectionsMoved(a, d, requireMention)
  {
    assert At(d, "whatsapp") == At(c, "whatsapp") == At(b, "whatsapp");
    assert At(d, "telegram") == At(c, "telegram");
    assert At(b, "telegram") == At(a, "telegram");
    assert At(c, "imessage") == At(a, "imessage");
  }

  /** One more section at the end of the list. */
  lemma MentionMovedToAllSnoc(fs: seq<Field>, keys: seq<string>, key: string, requireMention: Json)
    ensures var s := MentionMovedToAll(fs, keys, requireMention);
            var t := MentionMovedTo(s.next, key, requireMention);
            MentionMovedToAll(fs, keys + [key], requireMention) == Step(t.next, s.lines + t.lines)
  {
    assert (keys + [key])[..|keys + [key]| - 1] == keys;
  }

  /** The fold over the three sections is the three `applyTo` calls. */
  lemma SectionsUnfold(fs: seq<Field>, requireMention: Json)
    ensures var w := MentionMovedTo(fs, Sections[0], requireMention);
            var t := MentionMovedTo(w.next, Sections[1], requireMention);
            var i := MentionMovedTo(t.next, Sections[2], requireMention);
            MentionMovedToAll(fs, Sections, requireMention) == Step(i.next, w.lines + t.lines + i.lines)
  {
    var w := MentionMovedTo(fs, Sections[0], requireMention);
    var t := MentionMovedTo(w.next, Sections[1], requireMention);
    MentionMovedToAllSnoc(fs, [], Sections[0], requireMention);
    assert [] + [Sections[0]] == Sections[..1];
    assert [] + w.lines == w.lines;
    assert MentionMovedToAll(fs, Sections[..1], requireMention) == Step(w.next, w.lines);
    MentionMovedToAllSnoc(fs, Sections[..1], Sections[1], requireMention);
    assert Sections[..1] + [Sections[1]] == Sections[..2];
    assert MentionMovedToAll(fs, Sections[..2], requireMention) == Step(t.next, w.lines + t.lines);
    MentionMovedToAllSnoc(fs, Sections[..2], Sections[2], requireMention);
    assert Sections[..2] + [Sections[2]] == Sections;
  }

  lemma MentionMovedToAllFacts(fs: seq<Field>, requireMention: Json)
    ensures SectionsMoved(fs, MentionMovedToAll(fs, Sections, requireMention).next, requireMention)
  {
    var w := MentionMovedTo(fs, Sections[0], requireMention);
    var t := MentionMovedTo(w.next, Sections[1], requireMention);
    var i := MentionMovedTo(t.next, Sections[2], requireMention);
    SectionsUnfold(fs, requireMention);
    MentionMovedToFacts(fs, Sections[0], requireMention);
    MentionMovedToFacts(w.next, Sections[1], requireMention);
    MentionMovedToFacts(t.next, Sections[2], requireMention);
    SectionsChain(fs, w.next, t.next, i.next, requireMention);
  }

  /** `routing` after the group-chat migration: `groupChat.requireMention`
      is gone and `allowFrom` is as it was. */
  lemma GroupChatRoutingFacts(fs: seq<Field>)
    ensures var s := GroupChatMoved(fs);
      && GroupChatMention(s.next) == Undefined
      && RoutingAllowFrom(s.next) == RoutingAllowFrom(fs)
      && (GroupChatMention(fs) == Undefined ==> s.next == fs)
  {
    var routing := At(fs, "routing");
    if routing.Obj? && Get(routing, "groupChat").Obj? && Get(Get(routing, "groupChat"), "requireMention") != Undefined {
      var rm := GroupChatMention(fs);
      var groupChat := Get(routing, "groupChat");
      var sections := MentionMovedToAll(fs, Sections, rm);
      var chat := Remove(groupChat.fields, "requireMention");
      var routing' := Pruned(routing.fields, "groupChat", chat);
      var next := Pruned(sections.next, "routing", routing');
      assert GroupChatMoved(fs).next == next;
      MentionMovedToAllFacts(fs, rm);
      AtRemove(groupChat.fields, "requireMention");
      RoutingPruned(routing.fields, chat, routing', next);
    }
  }

  /** Reading back through the two prunings of the group-chat migration. */
  lemma RoutingPruned(routing: seq<Field>, chat: seq<Field>, routing': seq<Field>, next: seq<Field>)
    requires At(chat, "requireMention") == Undefined
    requires forall k {:trigger At(routing', k)} :: k != "groupChat" ==> At(routing', k) == At(routing, k)
    requires forall k {:trigger Get(At(routing', "groupChat"), k)} :: Get(At(routing', "groupChat"), k) == At(chat, k)
    requires forall k {:trigger Get(At(next, "routing"), k)} :: Get(At(next, "routing"), k) == At(routing', k)
    ensures GroupChatMention(next) == Undefined
    ensures RoutingAllowFrom(next) == At(routing, "allowFrom")
  {
    assert Get(At(next, "routing"), "groupChat") == At(routing', "groupChat");
  }

  /** The sections after the group-chat migration: each of whatsapp,
      telegram and imessage keeps a `groups."*".requireMention` it had and
      otherwise receives the moved value; `telegram.requireMention` and
      every key other than `routing` and the three sections are untouched. */
  lemma GroupChatSectionFacts(fs: seq<Field>)
    ensures var s := GroupChatMoved(fs);
      && TelegramMention(s.next) == TelegramMention(fs)
      && (forall k {:trigger At(s.next, k)} :: k != "routing" && k != "whatsapp" && k != "telegram" && k != "imessage" ==> At(s.next, k) == At(fs, k))
      && (GroupChatMention(fs) != Undefined ==> SectionDefaultsSet(fs, s.next, GroupChatMention(fs)))
  {
    var routing := At(fs, "routing");
    if routing.Obj? && Get(routing, "groupChat").Obj? && Get(Get(routing, "groupChat"), "requireMention") != Undefined {
      var rm := GroupChatMention(fs);
      var groupChat := Get(routing, "groupChat");
      var sections := MentionMovedToAll(fs, Sections, rm);
      var next := Pruned(sections.next, "routing", Pruned(routing.fields, "groupChat", Remove(groupChat.fields, "requireMention")));
      assert GroupChatMoved(fs).next == next;
      MentionMovedToAllFacts(fs, rm);
      RoutingPrunedAfterSections(fs, sections.next, next, rm);
    }
  }

  /** The three section defaults after the group-chat migration. */
  ghost predicate SectionDefaultsSet(before: seq<Field>, after: seq<Field>, requireMention: Json) {
    && DefaultMention(after, "whatsapp") == OrIfUndefined(DefaultMention(before, "whatsapp"), requireMention)
    && DefaultMention(after, "telegram") == OrIfUndefined(DefaultMention(before, "telegram"), requireMention)
    && DefaultMention(after, "imessage") == OrIfUndefined(DefaultMention(before, "imessage"), requireMention)
  }

  lemma RoutingPrunedAfterSections(fs: seq<Field>, sections: seq<Field>, next: seq<Field>, requireMention: Json)
    requires SectionsMoved(fs, sections, requireMention)
    requires forall k {:trigger At(next, k)} :: k != "routing" ==> At(next, k) == At(sections, k)
    ensures TelegramMention(next) == TelegramMention(fs)
    ensures forall k {:trigger At(next, k)} :: k != "routing" && k != "whatsapp" && k != "telegram" && k != "imessage" ==> At(next, k) == At(fs, k)
    ensures SectionDefaultsSet(fs, next, requireMention)
  {
    assert At(next, "telegram") == At(sections, "telegram");
    assert At(next, "whatsapp") == At(sections, "whatsapp");
    assert At(next, "imessage") == At(sections, "imessage");
  }

  /** `telegram.requireMention` is gone afterwards; the default group keeps
      a value it had and otherwise receives the moved one; `telegram`
      itself is never deleted once the migration acts, since it still
      holds `groups`; no other key changes. */
  lemma TelegramFacts(fs: seq<Field>)
    ensures var s := TelegramMoved(fs);
      && TelegramMention(s.next) == Undefined
      && (forall k {:trigger At(s.next, k)} :: k != "telegram" ==> At(s.next, k) == At(fs, k))
      && (TelegramMention(fs) == Undefined ==> s.next == fs)
  {
    var telegram := At(fs, "telegram");
    if telegram.Obj? && Get(telegram, "requireMention") != Undefined {
      var moved := SectionMention(telegram.fields) == Undefined;
      var telegram' := if moved then WithDefaultMention(telegram.fields, TelegramMention(fs)) else telegram.fields;
      var rest := Remove(telegram', "requireMention");
      assert TelegramMoved(fs).next == Pruned(fs, "telegram", rest);
      AtRemove(telegram', "requireMention");
    } else {
      assert TelegramMoved(fs).next == fs;
    }
  }

  /** The default group of `telegram` after the migration, and `telegram`
      itself still a record: it holds `groups`, so the deletion of an
      emptied `telegram` never happens. */
  lemma TelegramDefaultFacts(fs: seq<Field>)
    requires TelegramMention(fs) != Undefined
    ensures var s := TelegramMoved(fs);
      && At(s.next, "telegram").Obj?
      && DefaultMention(s.next, "telegram") == OrIfUndefined(DefaultMention(fs, "telegram"), TelegramMention(fs))
  {
    var telegram := At(fs, "telegram");
    var moved := SectionMention(telegram.fields) == Undefined;
    var telegram' := if moved then WithDefaultMention(telegram.fields, TelegramMention(fs)) else telegram.fields;
    var rest := Remove(telegram', "requireMention");
    assert TelegramMoved(fs).next == Pruned(fs, "telegram", rest);
    AtRemove(telegram', "requireMention");
    assert At(rest, "groups") == At(telegram', "groups");
    MentionNeedsGroups(telegram');
    KeepsSectionMention(telegram', rest);
  }

  /** A defined `groups."*".requireMention` lives in a `groups` record. */
  lemma MentionNeedsGroups(section: seq<Field>)
    requires SectionMention(section) != Undefined
    ensures At(section, "groups").Obj?
  {
  }

  /** A record with a field is not empty, and removing another key keeps
      `groups."*".requireMention`. */
  lemma KeepsSectionMention(section: seq<Field>, rest: seq<Field>)
    requires At(rest, "groups") == At(section, "groups")
    requires At(section, "groups").Obj?
    ensures rest != [] && SectionMention(rest) == SectionMention(section)
  {
  }

  /** What each migration leaves of the three values the rules flag. */
  ghost predicate AllowFromDone(before: seq<Field>, after: seq<Field>) {
    && RoutingAllowFrom(after) == Undefined
    && GroupChatMention(after) == GroupChatMention(before)
    && TelegramMention(after) == TelegramMention(before)
  }

  ghost predicate GroupChatDone(before: seq<Field>, after: seq<Field>) {
    && GroupChatMention(after) == Undefined
    && RoutingAllowFrom(after) == RoutingAllowFrom(before)
    && TelegramMention(after) == TelegramMention(before)
  }

  ghost predicate TelegramDone(before: seq<Field>, after: seq<Field>) {
    && TelegramMention(after) == Undefined
    && RoutingAllowFrom(after) == RoutingAllowFrom(before)
    && GroupChatMention(after) == GroupChatMention(before)
  }

  /** Each migration clears the value it is about and keeps the other two. */
  lemma AllowFromClears(fs: seq<Field>)
    ensures AllowFromDone(fs, AllowFromMoved(fs).next)
  {
    AllowFromRouting(fs);
    AllowFromKeeps(fs);
    KeysDistinct();
    KeptTelegram(fs, AllowFromMoved(fs).next);
  }

  /** The top-level keys the migrations touch are different keys. */
  lemma KeysDistinct()
    ensures "telegram" != "routing" && "telegram" != "whatsapp"
  {
    assert "telegram"[0] != "routing"[0] && "telegram"[0] != "whatsapp"[0];
  }

  lemma KeptTelegram(fs: seq<Field>, next: seq<Field>)
    requires At(next, "telegram") == At(fs, "telegram")
    ensures TelegramMention(next) == TelegramMention(fs)
  {
  }

  lemma GroupChatClears(fs: seq<Field>)
    ensures GroupChatDone(fs, GroupChatMoved(fs).next)
  {
    GroupChatRoutingFacts(fs);
    GroupChatSectionFacts(fs);
  }

  lemma TelegramClears(fs: seq<Field>)
    ensures TelegramDone(fs, TelegramMoved(fs).next)
  {
    TelegramFacts(fs);
    assert At(TelegramMoved(fs).next, "routing") == At(fs, "routing");
  }

  /** After the three migrations in order no flagged value is left. */
  lemma NothingLeft(fs: seq<Field>, a: seq<Field>, g: seq<Field>, t: seq<Field>)
    requires AllowFromDone(fs, a) && GroupChatDone(a, g) && TelegramDone(g, t)
    ensures RoutingAllowFrom(t) == Undefined && GroupChatMention(t) == Undefined && TelegramMention(t) == Undefined
  {
  }

  // ---------------------------------------------------------------------
  // The driver

  /** One more migration at the end of the list. */
  lemma MigrateAllSnoc(ms: seq<Migration>, m: Migration, fs: seq<Field>)
    ensures var s := MigrateAll(ms, fs);
            MigrateAll(ms + [m], fs) == Step(Migrate(m, s.next).next, s.lines + Migrate(m, s.next).lines)
  {
    assert (ms + [m])[..|ms + [m]| - 1] == ms;
  }

  /** All three migrations: the lines in migration order. */
  lemma MigrateAllUnfold(fs: seq<Field>)
    ensures var a := Migrate(AllowFromMigration, fs);
            var g := Migrate(GroupChatMigration, a.next);
            var t := Migrate(TelegramMigration, g.next);
            MigrateAll(Migrations, fs) == Step(t.next, a.lines + g.lines + t.lines)
  {
    var a := Migrate(AllowFromMigration, fs);
    var g := Migrate(GroupChatMigration, a.next);
    var t := Migrate(TelegramMigration, g.next);
    MigrateAllSnoc([], AllowFromMigration, fs);
    assert [] + [AllowFromMigration] == [AllowFromMigration];
    assert MigrateAll([AllowFromMigration], fs) == Step(a.next, [] + a.lines);
    assert [] + a.lines == a.lines;
    MigrateAllSnoc([AllowFromMigration], GroupChatMigration, fs);
    assert [AllowFromMigration] + [GroupChatMigration] == [AllowFromMigration, GroupChatMigration];
    assert MigrateAll([AllowFromMigration, GroupChatMigration], fs) == Step(g.next, a.lines + g.lines);
    MigrateAllSnoc([AllowFromMigration, GroupChatMigration], TelegramMigration, fs);
    assert [AllowFromMigration, GroupChatMigration] + [TelegramMigration] == Migrations;
  }

  /** A record gets a new value exactly when it has a legacy issue; one
      line for `routing.allowFrom`, three for `routing.groupChat.requireMention`
      and one for `telegram.requireMention`. */
  lemma ChangesIffIssues(fs: seq<Field>)
    ensures LegacyMigrated(Obj(fs)).next.Some? <==> LegacyIssues(Obj(fs)) != []
    ensures |LegacyMigrated(Obj(fs)).changes| ==
      (if RoutingAllowFrom(fs) != Undefined then 1 else 0) +
      (if GroupChatMention(fs) != Undefined then 3 else 0) +
      (if TelegramMention(fs) != Undefined then 1 else 0)
  {
    var a := AllowFromMoved(fs);
    var g := GroupChatMoved(a.next);
    MigrateAllUnfold(fs);
    AllowFromClears(fs);
    GroupChatClears(a.next);
    RecordIssues(fs);
  }

  /** A record none of whose flagged values is defined has no issue and is
      left alone. */
  lemma CleanRecord(fs: seq<Field>)
    requires RoutingAllowFrom(fs) == Undefined && GroupChatMention(fs) == Undefined && TelegramMention(fs) == Undefined
    ensures LegacyIssues(Obj(fs)) == [] && LegacyMigrated(Obj(fs)) == MigrationResult(None, [])
  {
    RecordIssues(fs);
    ChangesIffIssues(fs);
  }

  /** The migrations remove every key a rule flags, so their output has no
      legacy issue and migrating it again returns no record. */
  lemma MigrationIdempotent(fs: seq<Field>)
    ensures var r := LegacyMigrated(Obj(fs));
      r.next.Some? ==> r.next.value.Obj? && LegacyIssues(r.next.value) == [] && LegacyMigrated(r.next.value) == MigrationResult(None, [])
  {
    var t := MigrateAll(Migrations, fs).next;
    assert LegacyMigrated(Obj(fs)).next.Some? ==> LegacyMigrated(Obj(fs)).next.value == Obj(t);
    NothingLeftAfterAll(fs);
    CleanRecord(t);
  }

  /** The three migrations leave none of the flagged values. */
  lemma NothingLeftAfterAll(fs: seq<Field>)
    ensures var t := MigrateAll(Migrations, fs).next;
      RoutingAllowFrom(t) == Undefined && GroupChatMention(t) == Undefined && TelegramMention(t) == Undefined
  {
    var a := AllowFromMoved(fs);
    var g := GroupChatMoved(a.next);
    var t := TelegramMoved(g.next);
    MigrateAllUnfold(fs);
    AllowFromClears(fs);
    GroupChatClears(a.next);
    TelegramClears(g.next);
    NothingLeft(fs, a.next, g.next, t.next);
  }

  /** The record being migrated and the change lines so far. */
  class MigrationRun {
    var next: seq<Field>
    var changes: seq<Change>

    /** `structuredClone(raw)` and an empty change list. */
    constructor (root: seq<Field>)
      ensures next == root && changes == []
    {
      next := root;
      changes := [];
    }

    method MoveAllowFrom()
      modifies this
      ensures next == AllowFromMoved(old(next)).next
      ensures changes == old(changes) + AllowFromMoved(old(next)).lines
    {
      var routing := At(next, "routing");
      if !routing.Obj? {
        return;
      }
      var allowFrom := Get(routing, "allowFrom");
      if allowFrom == Undefined {
        return;
      }
      var whatsapp := RecordOf(At(next, "whatsapp"));
      if At(whatsapp, "allowFrom") == Undefined {
        whatsapp := Put(whatsapp, "allowFrom", allowFrom);
        changes := changes + [MovedAllowFrom];
      } else {
        changes := changes + [KeptAllowFrom];
      }
      var rest := Remove(routing.fields, "allowFrom");
      if rest == [] {
        next := Remove(next, "routing");
      } else {
        next := Put(next, "routing", Obj(rest));
      }
      next := Put(next, "whatsapp", Obj(whatsapp));
    }

    /** `applyTo(key)`. */
    method MoveMentionTo(key: string, requireMention: Json)
      modifies this
      ensures next == MentionMovedTo(old(next), key, requireMention).next
      ensures changes == old(changes) + MentionMovedTo(old(next), key, requireMention).lines
    {
      var section := RecordOf(At(next, key));
      var groups := RecordOf(At(section, "groups"));
      var entry := RecordOf(At(groups, "*"));
      if At(entry, "requireMention") == Undefined {
        entry := Put(entry, "requireMention", requireMention);
        groups := Put(groups, "*", Obj(entry));
        section := Put(section, "groups", Obj(groups));
        next := Put(next, key, Obj(section));
        changes := changes + [MovedGroupMention(key)];
      } else {
        changes := changes + [KeptGroupMention(key)];
      }
    }

    /** `applyTo("whatsapp")`, `applyTo("telegram")`, `applyTo("imessage")`. */
    method MoveMentionToSections(requireMention: Json)
      modifies this
      ensures next == MentionMovedToAll(old(next), Sections, requireMention).next
      ensures changes == old(changes) + MentionMovedToAll(old(next), Sections, requireMention).lines
    {
      ghost var startChanges := changes;
      ghost var w := MentionMovedTo(next, Sections[0], requireMention);
      ghost var t := MentionMovedTo(w.next, Sections[1], requireMention);
      ghost var i := MentionMovedTo(t.next, Sections[2], requireMention);
      SectionsUnfold(next, requireMention);
      MoveMentionTo(Sections[0], requireMention);
      MoveMentionTo(Sections[1], requireMention);
      MoveMentionTo(Sections[2], requireMention);
      AppendThree(startChanges, w.lines, t.lines, i.lines);
    }

    method MoveGroupChatMention()
      modifies this
      ensures next == GroupChatMoved(old(next)).next
      ensures changes == old(changes) + GroupChatMoved(old(next)).lines
    {
      var routing := At(next, "routing");
      if !routing.Obj? {
        return;
      }
      var groupChat := Get(routing, "groupChat");
      if !groupChat.Obj? {
        return;
      }
      var requireMention := Get(groupChat, "requireMention");
      if requireMention == Undefined {
        return;
      }
      MoveMentionToSections(requireMention);
      var chat := Remove(groupChat.fields, "requireMention");
      var rest := routing.fields;
      if chat == [] {
        rest := Remove(rest, "groupChat");
      } else {
        rest := Put(rest, "groupChat", Obj(chat));
      }
      if rest == [] {
        next := Remove(next, "routing");
      } else {
        next := Put(next, "routing", Obj(rest));
      }
    }

    method MoveTelegramMention()
      modifies this
      ensures next == TelegramMoved(old(next)).next
      ensures changes == old(changes) + TelegramMoved(old(next)).lines
    {
      var telegram := At(next, "telegram");
      if !telegram.Obj? {
        return;
      }
      var requireMention := Get(telegram, "requireMention");
      if requireMention == Undefined {
        return;
      }
      var groups := RecordOf(Get(telegram, "groups"));
      var entry := RecordOf(At(groups, "*"));
      var fields := telegram.fields;
      if At(entry, "requireMention") == Undefined {
        entry := Put(entry, "requireMention", requireMention);
        groups := Put(groups, "*", Obj(entry));
        fields := Put(fields, "groups", Obj(groups));
        changes := changes + [MovedTelegramMention];
      } else {
        changes := changes + [KeptTelegramMention];
      }
      fields := Remove(fields, "requireMention");
      if fields == [] {
        next := Remove(next, "telegram");
      } else {
        next := Put(next, "telegram", Obj(fields));
      }
    }

    /** `migration.apply(next, changes)`. */
    method Apply(m: Migration)
      modifies this
      ensures next == Migrate(m, old(next)).next
      ensures changes == old(changes) + Migrate(m, old(next)).lines
    {
      match m
      case AllowFromMigration => MoveAllowFrom();
      case GroupChatMigration => MoveGroupChatMention();
      case TelegramMigration => MoveTelegramMention();
    }
  }

  /** `applyLegacyMigrations`. */
  method ApplyLegacyMigrations(raw: Json) returns (result: MigrationResult)
    ensures result == LegacyMigrated(raw)
  {
    if !IsObjectLike(raw) {
      return MigrationResult(None, []);
    }
    var run := new MigrationRun(RecordOf(raw));
    for i := 0 to |Migrations|
      invariant run.next == MigrateAll(Migrations[..i], RecordOf(raw)).next
      invariant run.changes == MigrateAll(Migrations[..i], RecordOf(raw)).lines
    {
      MigrateAllSnoc(Migrations[..i], Migrations[i], RecordOf(raw));
      assert Migrations[..i] + [Migrations[i]] == Migrations[..i + 1];
      run.Apply(Migrations[i]);
    }
    assert Migrations[..|Migrations|] == Migrations;
    if |run.changes| == 0 {
      return MigrationResult(None, []);
    }
    return MigrationResult(Some(Obj(run.next)), run.changes);
  }
}

/** Where the Telegram bot token comes from: the explicit or process
    environment token first, then a configured token file, then the token
    written in the configuration.  The file system is an oracle that says
    whether a path exists and what reading it yields. */
module TelegramToken {
  import opened Wrappers
  import opened Strings

  datatype TokenSource = Env | TokenFile | Config | NoSource

  datatype Resolution = Resolution(token: string, source: TokenSource)

  /** The `telegram` section of the configuration, as far as tokens go. */
  datatype TelegramConfig = TelegramConfig(tokenFile: Option<string>, botToken: Option<string>)

  /** What reading a file gives: its text, or the error it throws. */
  datatype ReadOutcome = Contents(text: string) | ReadError(error: string)

  datatype FileSystem = FileSystem(fileExists: string -> bool, readFile: string -> ReadOutcome)

  /** The resolution, plus the messages handed to `logMissingFile` in order. */
  datatype Outcome = Outcome(resolution: Resolution, logged: seq<string>)

  const NotFoundPrefix: string := "telegram.tokenFile not found: "
  const ReadFailedPrefix: string := "telegram.tokenFile read failed: "

  const NoToken: Resolution := Resolution("", NoSource)

  /** The environment token before trimming: `opts.envToken` whenever the
      caller passed one (even `""`), `TELEGRAM_BOT_TOKEN` only when it is
      null or undefined; an absent value reads as blank. */
  function RawEnvToken(explicitEnv: Option<string>, processEnv: Option<string>): string {
    explicitEnv.GetOr(processEnv.GetOr(""))
  }

  /** The configured token file, trimmed, when it is non-blank. */
  function ConfiguredFile(telegram: Option<TelegramConfig>): (f: Option<string>)
    ensures f.Some? <==> telegram.Some? && telegram.value.tokenFile.Some? && !IsBlank(telegram.value.tokenFile.value)
    ensures f.Some? ==> f.value == Trim(telegram.value.tokenFile.value) && f.value != ""
  {
    if telegram.Some? && telegram.value.tokenFile.Some? && Trim(telegram.value.tokenFile.value) != "" then
      Some(Trim(telegram.value.tokenFile.value))
    else None
  }

  /** The configured bot token before trimming; absent reads as blank. */
  function RawConfigToken(telegram: Option<TelegramConfig>): string {
    if telegram.Some? then telegram.value.botToken.GetOr("") else ""
  }

  /** A candidate token once trimmed: the token from `source` when it is
      non-blank, no token otherwise. */
  function FromCandidate(raw: string, source: TokenSource): (r: Resolution)
    requires source != NoSource
    ensures Trim(r.token) == r.token
    ensures r.token == "" <==> r.source == NoSource
    ensures IsBlank(raw) ==> r == NoToken
    ensures !IsBlank(raw) ==> r == Resolution(Trim(raw), source)
  {
    TrimIdempotent(raw);
    if Trim(raw) != "" then Resolution(Trim(raw), source) else NoToken
  }

  /** The outcome decided by a configured token file `f`: a missing file and
      a read failure are logged and give no token, a blank file gives no
      token silently, anything else is the token. */
  function FromTokenFile(f: string, fs: FileSystem): (o: Outcome)
    ensures Trim(o.resolution.token) == o.resolution.token
    ensures o.resolution.token == "" <==> o.resolution.source == NoSource
    ensures o.resolution.source in {TokenFile, NoSource}
    ensures !fs.fileExists(f) ==> o == Outcome(NoToken, [NotFoundPrefix + f])
    ensures fs.fileExists(f) && fs.readFile(f).ReadError? ==>
              o == Outcome(NoToken, [ReadFailedPrefix + fs.readFile(f).error])
    ensures fs.fileExists(f) && fs.readFile(f).Contents? ==>
              o == Outcome(FromCandidate(fs.readFile(f).text, TokenFile), [])
  {
    if !fs.fileExists(f) then
      Outcome(NoToken, [NotFoundPrefix + f])
    else
      match fs.readFile(f)
      case ReadError(err) => Outcome(NoToken, [ReadFailedPrefix + err])
      case Contents(text) => Outcome(FromCandidate(text, TokenFile), [])
  }

  /** `resolveTelegramToken`. */
  function ResolveTelegramToken(
    telegram: Option<TelegramConfig>,
    explicitEnv: Option<string>,
    processEnv: Option<string>,
    fs: FileSystem): (o: Outcome)
    // every token is trimmed, and a token is empty exactly when there is no source
    ensures Trim(o.resolution.token) == o.resolution.token
    ensures o.resolution.token == "" <==> o.resolution.source == NoSource
    // a non-blank environment token wins
    ensures !IsBlank(RawEnvToken(explicitEnv, processEnv)) ==>
              o == Outcome(Resolution(Trim(RawEnvToken(explicitEnv, processEnv)), Env), [])
    ensures o.resolution.source == Env ==> !IsBlank(RawEnvToken(explicitEnv, processEnv))
    // otherwise a configured token file decides alone
    ensures IsBlank(RawEnvToken(explicitEnv, processEnv)) && ConfiguredFile(telegram).Some? ==>
              o == FromTokenFile(ConfiguredFile(telegram).value, fs)
    ensures o.resolution.source == TokenFile ==> ConfiguredFile(telegram).Some?
    // the configured bot token is used only without an environment token and a token file
    ensures IsBlank(RawEnvToken(explicitEnv, processEnv)) && ConfiguredFile(telegram).None? ==>
              o == Outcome(FromCandidate(RawConfigToken(telegram), Config), [])
    ensures o.resolution.source == Config ==>
              IsBlank(RawEnvToken(explicitEnv, processEnv)) && ConfiguredFile(telegram).None?
  {
    var env := FromCandidate(RawEnvToken(explicitEnv, processEnv), Env);
    if env.source == Env then
      Outcome(env, [])
    else if ConfiguredFile(telegram).Some? then
      FromTokenFile(ConfiguredFile(telegram).value, fs)
    else
      Outcome(FromCandidate(RawConfigToken(telegram), Config), [])
  }

  /** An explicit environment token, even `""`, hides `TELEGRAM_BOT_TOKEN`:
      the result does not depend on the process environment at all. */
  lemma ExplicitEnvTokenHidesProcessEnv(
    telegram: Option<TelegramConfig>, explicitEnv: string, processEnv1: Option<string>,
    processEnv2: Option<string>, fs: FileSystem)
    ensures ResolveTelegramToken(telegram, Some(explicitEnv), processEnv1, fs)
         == ResolveTelegramToken(telegram, Some(explicitEnv), processEnv2, fs)
  {
  }

  /** Once a non-blank token file is configured the configured bot token is
      never consulted. */
  lemma TokenFileShadowsBotToken(
    file: string, botToken1: Option<string>, botToken2: Option<string>,
    explicitEnv: Option<string>, processEnv: Option<string>, fs: FileSystem)
    requires !IsBlank(file)
    ensures ResolveTelegramToken(Some(TelegramConfig(Some(file), botToken1)), explicitEnv, processEnv, fs)
         == ResolveTelegramToken(Some(TelegramConfig(Some(file), botToken2)), explicitEnv, processEnv, fs)
    ensures ResolveTelegramToken(Some(TelegramConfig(Some(file), botToken1)), explicitEnv, processEnv, fs)
              .resolution.source != Config
  {
    var t1 := Some(TelegramConfig(Some(file), botToken1));
    var t2 := Some(TelegramConfig(Some(file), botToken2));
    assert ConfiguredFile(t1) == ConfiguredFile(t2) == Some(Trim(file));
  }

  /** `logMissingFile` hears of a missing file and of a read failure, once,
      and of nothing else. */
  lemma LoggingOnlyOnFileFailure(
    telegram: Option<TelegramConfig>, explicitEnv: Option<string>, processEnv: Option<string>, fs: FileSystem)
    ensures |ResolveTelegramToken(telegram, explicitEnv, processEnv, fs).logged| <= 1
    ensures ResolveTelegramToken(telegram, explicitEnv, processEnv, fs).logged != [] <==>
              FileFailure(telegram, explicitEnv, processEnv, fs)
  {
    var o := ResolveTelegramToken(telegram, explicitEnv, processEnv, fs);
    if IsBlank(RawEnvToken(explicitEnv, processEnv)) && ConfiguredFile(telegram).Some? {
      var f := ConfiguredFile(telegram).value;
      assert o == FromTokenFile(f, fs);
      if !fs.fileExists(f) {
        assert o.logged == [NotFoundPrefix + f];
      } else if fs.readFile(f).ReadError? {
        assert o.logged == [ReadFailedPrefix + fs.readFile(f).error];
      } else {
        assert o.logged == [];
      }
    } else {
      assert o.logged == [];
    }
  }

  /** The configured token file is consulted and turns out missing or unreadable. */
  predicate FileFailure(
    telegram: Option<TelegramConfig>, explicitEnv: Option<string>, processEnv: Option<string>, fs: FileSystem)
  {
    IsBlank(RawEnvToken(explicitEnv, processEnv)) && ConfiguredFile(telegram).Some? &&
    (!fs.fileExists(ConfiguredFile(telegram).value) || fs.readFile(ConfiguredFile(telegram).value).ReadError?)
  }
}

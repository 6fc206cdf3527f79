/** `src/core/config.py`: the bot's settings read from the environment. The
    environment is a map from variable names to values; Python's `int` on a
    string is a parameter. */
module Config {
  import opened Wrappers
  import opened Text
  import NewsService

  type Env = map<string, string>

  /** Python's `int(text)`: the value, or `None` where it raises ValueError. */
  type IntParser = string -> Option<int>

  /** `os.getenv(name, default)` */
  function GetEnv(env: Env, name: string, default: string): string
  {
    if name in env then env[name] else default
  }

  /** The ValueError `Config()` raises: a setting that is not an integer,
      or the missing bot token. */
  datatype ConfigError = NotAnInteger(setting: string, text: string) | MissingToken

  // ---------------------------------------------------------------------
  // ADMIN_IDS

  /** `x.strip() for x in tokens if x.strip()`: each token stripped, blank
      ones dropped, in token order. */
  function Cleaned(tokens: seq<string>): (r: seq<string>)
    ensures |r| <= |tokens|
    ensures forall j :: 0 <= j < |r| ==> r[j] != ""
  {
    if |tokens| == 0 then []
    else if Strip(tokens[0]) == "" then Cleaned(tokens[1..])
    else [Strip(tokens[0])] + Cleaned(tokens[1..])
  }

  /** Every cleaned token is some stripped token. */
  lemma {:induction false} CleanedFrom(tokens: seq<string>)
    ensures forall j :: 0 <= j < |Cleaned(tokens)| ==> exists i :: 0 <= i < |tokens| && Strip(tokens[i]) == Cleaned(tokens)[j]
    decreases |tokens|
  {
    if |tokens| > 0 {
      CleanedFrom(tokens[1..]);
      var r := Cleaned(tokens);
      var rest := Cleaned(tokens[1..]);
      var shift := if Strip(tokens[0]) == "" then 0 else 1;
      assert r == (if shift == 0 then [] else [Strip(tokens[0])]) + rest;
      forall j | 0 <= j < |r| ensures exists i :: 0 <= i < |tokens| && Strip(tokens[i]) == r[j] {
        if j < shift {
          assert Strip(tokens[0]) == r[j];
        } else {
          assert r[j] == rest[j - shift];
          var i :| 0 <= i < |tokens[1..]| && Strip(tokens[1..][i]) == rest[j - shift];
          assert Strip(tokens[i + 1]) == r[j];
        }
      }
    } else {
      assert Cleaned(tokens) == [];
    }
  }

  /** Every token that does not strip to nothing is among the cleaned ones. */
  lemma {:induction false} CleanedHas(tokens: seq<string>)
    ensures forall i :: 0 <= i < |tokens| && Strip(tokens[i]) != "" ==> Strip(tokens[i]) in Cleaned(tokens)
    decreases |tokens|
  {
    if |tokens| > 0 {
      CleanedHas(tokens[1..]);
      assert forall i :: 1 <= i < |tokens| ==> tokens[i] == tokens[1..][i - 1];
    }
  }

  /** `int` applied to each cleaned token in order: one value per token, or
      the first token `int` rejects. */
  function ParseAll(cs: seq<string>, parseInt: IntParser): (r: Result<seq<int>, string>)
    ensures r.Success? <==> forall j :: 0 <= j < |cs| ==> parseInt(cs[j]).Some?
    ensures r.Success? ==> |r.value| == |cs| && forall j :: 0 <= j < |cs| ==> parseInt(cs[j]) == Some(r.value[j])
    ensures r.Failure? ==> exists j :: 0 <= j < |cs| && cs[j] == r.error && parseInt(cs[j]).None?
                                       && forall k :: 0 <= k < j ==> parseInt(cs[k]).Some?
  {
    if |cs| == 0 then Success([])
    else
      var rest := ParseAll(cs[1..], parseInt);
      assert forall j :: 1 <= j < |cs| ==> cs[j] == cs[1..][j - 1];
      match parseInt(cs[0])
      case None => Failure(cs[0])
      case Some(n) =>
        if rest.Success? then
          var v := [n] + rest.value;
          assert forall j :: 1 <= j < |cs| ==> v[j] == rest.value[j - 1];
          Success(v)
        else
          var j :| 0 <= j < |cs[1..]| && cs[1..][j] == rest.error && parseInt(cs[1..][j]).None?
                   && forall k :: 0 <= k < j ==> parseInt(cs[1..][k]).Some?;
          assert cs[j + 1] == rest.error;
          assert forall k :: 1 <= k < j + 1 ==> cs[k] == cs[1..][k - 1];
          rest
  }

  /** `[int(x.strip()) for x in tokens if x.strip()]`: blank tokens are
      dropped, the others are stripped and parsed in order, and the first
      that is not an integer raises. */
  function ParseTokens(tokens: seq<string>, parseInt: IntParser): (r: Result<seq<int>, string>)
    ensures r.Success? ==> |r.value| == |Cleaned(tokens)| <= |tokens|
    ensures r.Success? ==> forall j :: 0 <= j < |r.value| ==> parseInt(Cleaned(tokens)[j]) == Some(r.value[j])
    ensures r.Success? <==> forall i :: 0 <= i < |tokens| && Strip(tokens[i]) != "" ==> parseInt(Strip(tokens[i])).Some?
    ensures r.Failure? ==> exists i :: 0 <= i < |tokens| && Strip(tokens[i]) == r.error && r.error != ""
                                       && parseInt(Strip(tokens[i])).None?
    ensures (forall i :: 0 <= i < |tokens| ==> Strip(tokens[i]) == "") ==> r == Success([])
  {
    var cs := Cleaned(tokens);
    var r := ParseAll(cs, parseInt);
    CleanedFrom(tokens);
    CleanedHas(tokens);
    assert r.Failure? ==> r.error in cs && r.error != "" by {
      if r.Failure? {
        var j :| 0 <= j < |cs| && cs[j] == r.error && parseInt(cs[j]).None?;
      }
    }
    assert (forall i :: 0 <= i < |tokens| ==> Strip(tokens[i]) == "") ==> cs == [] by {
      if |cs| > 0 {
        assert cs[0] != "";
      }
    }
    r
  }

  /** `ADMIN_IDS`: the comma-separated ids of `text`. */
  function ParseAdminIds(text: string, parseInt: IntParser): (r: Result<seq<int>, string>)
    ensures text == "" ==> r == Success([])
    ensures r.Success? ==> |r.value| <= Count(text, ',') + 1
    ensures r == ParseTokens(Split(text, ','), parseInt)
  {
    SplitJoin(text, ',');
    ParseTokens(Split(text, ','), parseInt)
  }

  /** The decimal forms of `ids`. */
  function Render(ids: seq<int>): (r: seq<string>)
    ensures |r| == |ids|
    ensures forall i :: 0 <= i < |ids| ==> r[i] == IntToString(ids[i])
  {
    if |ids| == 0 then [] else [IntToString(ids[0])] + Render(ids[1..])
  }

  /** A printed id holds only '-' and digits: no comma and no whitespace. */
  lemma IntToStringChars(i: int)
    ensures ',' !in IntToString(i)
    ensures !IsSpace(IntToString(i)[0]) && !IsSpace(IntToString(i)[|IntToString(i)| - 1])
    ensures Strip(IntToString(i)) == IntToString(i)
  {
    var s := IntToString(i);
    var d := NatToString(if i < 0 then -i else i);
    assert s[|s| - 1] == d[|d| - 1];
    forall j | 0 <= j < |s| ensures s[j] != ',' {
      if i < 0 && j > 0 { assert s[j] == d[j - 1]; }
    }
    StripUnchanged(s);
  }

  /** Any list of ids written as `str` values joined by commas is read back
      as that list, by Python's `int`-like decimal reading. */
  lemma AdminIdsRoundTrip(ids: seq<int>)
    ensures ParseAdminIds(Join(Render(ids), ','), ParseDecimal) == Success(ids)
  {
    var parts := Render(ids);
    if |ids| == 0 {
      assert Join(parts, ',') == "";
    } else {
      forall i | 0 <= i < |parts| ensures ',' !in parts[i] {
        IntToStringChars(ids[i]);
      }
      JoinSplit(parts, ',');
      TokensRoundTrip(ids);
    }
  }

  lemma TokensRoundTrip(ids: seq<int>)
    ensures ParseTokens(Render(ids), ParseDecimal) == Success(ids)
  {
    var parts := Render(ids);
    forall i | 0 <= i < |parts| ensures Strip(parts[i]) == parts[i] != "" && ParseDecimal(parts[i]) == Some(ids[i]) {
      IntToStringChars(ids[i]);
      IntToStringRoundTrip(ids[i]);
    }
    CleanedUnchanged(parts);
    var r := ParseTokens(parts, ParseDecimal);
    assert r == ParseAll(parts, ParseDecimal);
    assert r.value == ids;
  }

  /** Tokens that are already stripped and not blank pass through cleaning
      unchanged. */
  lemma {:induction false} CleanedUnchanged(tokens: seq<string>)
    requires forall i :: 0 <= i < |tokens| ==> Strip(tokens[i]) == tokens[i] != ""
    ensures Cleaned(tokens) == tokens
    decreases |tokens|
  {
    if |tokens| > 0 {
      assert forall i :: 1 <= i < |tokens| ==> tokens[1..][i - 1] == tokens[i];
      CleanedUnchanged(tokens[1..]);
      assert [tokens[0]] + tokens[1..] == tokens;
    }
  }

  /** `" 1, ,2"` reads as the ids 1 and 2: the blank token is dropped and the
      others are stripped before `int` sees them. */
  lemma BlankTokenDropped(parseInt: IntParser)
    requires parseInt("1") == Some(1) && parseInt("2") == Some(2)
    ensures ParseTokens([" 1", " ", "2"], parseInt) == Success([1, 2])
  {
    ExampleCleaned();
    var r := ParseAll(["1", "2"], parseInt);
    assert r.value == [1, 2];
  }

  lemma ExampleCleaned()
    ensures Cleaned([" 1", " ", "2"]) == ["1", "2"]
  {
    var ts := [" 1", " ", "2"];
    ExampleStrips();
    assert ts[1..] == [" ", "2"] && ts[1..][1..] == ["2"] && ["2"][1..] == [];
  }

  lemma ExampleStrips()
    ensures Strip(" 1") == "1" && Strip(" ") == "" && Strip("2") == "2"
  {
    assert LeadingSpaces(" 1") == 1 + LeadingSpaces(" 1"[1..]);
    assert " 1"[1..] == "1";
    StripUnchanged("2");
    StripUnchanged("1");
  }

  /** A token that strips to a value `int` accepts contributes that value in
      front of the values of the tokens after it. */
  lemma ParsedHead(tokens: seq<string>, parseInt: IntParser, n: int, rest: seq<int>)
    requires |tokens| > 0 && Strip(tokens[0]) != ""
    requires parseInt(Strip(tokens[0])) == Some(n)
    requires ParseTokens(tokens[1..], parseInt) == Success(rest)
    ensures ParseTokens(tokens, parseInt) == Success([n] + rest)
  {
    var cs := Cleaned(tokens);
    assert cs == [Strip(tokens[0])] + Cleaned(tokens[1..]);
    assert cs[1..] == Cleaned(tokens[1..]);
  }

  /** A token that strips to nothing is skipped. */
  lemma BlankHead(tokens: seq<string>, parseInt: IntParser)
    requires |tokens| > 0 && Strip(tokens[0]) == ""
    ensures ParseTokens(tokens, parseInt) == ParseTokens(tokens[1..], parseInt)
  {
    assert Cleaned(tokens) == Cleaned(tokens[1..]);
  }

  // ---------------------------------------------------------------------
  // NEWS_RSS_FEEDS

  /** The fallback list is the same two feeds the news service reads. */
  const DefaultFeeds: seq<string> := NewsService.Feeds

  /** `NEWS_RSS_FEEDS`: the ';'-separated feeds, or the two default feeds
      when the variable is unset or empty (its split is `[""]`). */
  function RssFeeds(env: Env): (feeds: seq<string>)
    ensures |feeds| >= 1 && feeds != [""]
    ensures GetEnv(env, "NEWS_RSS_FEEDS", "") == "" ==> feeds == DefaultFeeds
    ensures GetEnv(env, "NEWS_RSS_FEEDS", "") != "" ==>
      Join(feeds, ';') == env["NEWS_RSS_FEEDS"] && |feeds| == Count(env["NEWS_RSS_FEEDS"], ';') + 1
  {
    var raw := GetEnv(env, "NEWS_RSS_FEEDS", "");
    var parts := Split(raw, ';');
    SplitIsEmptyPiece(raw, ';');
    SplitJoin(raw, ';');
    if |parts| == 0 || parts == [""] then DefaultFeeds else parts
  }

  // ---------------------------------------------------------------------
  // Integer settings and the whole configuration

  /** `int(os.getenv(name, str(default)))` */
  function IntSetting(env: Env, name: string, default: int, parseInt: IntParser): (r: Result<int, ConfigError>)
    ensures name !in env ==> r == Success(default)
    ensures name in env ==>
      (parseInt(env[name]).Some? ==> r == Success(parseInt(env[name]).value))
      && (parseInt(env[name]).None? ==> r == Failure(NotAnInteger(name, env[name])))
  {
    if name !in env then Success(default)
    else match parseInt(env[name])
      case Some(n) => Success(n)
      case None => Failure(NotAnInteger(name, env[name]))
  }

  const PriceUpdateInterval: int := 30
  const NewsUpdateInterval: int := 3600
  const CheckMembershipInterval: int := 300

  datatype Settings = Settings(
    botToken: string,
    adminIds: seq<int>,
    databaseUrl: string,
    tgjuApiUrl: string,
    coingeckoApiUrl: string,
    newsRssFeeds: seq<string>,
    requiredChannelsCount: int,
    vipPrice: int,
    freeTrialDays: int,
    priceUpdateInterval: int,
    newsUpdateInterval: int,
    checkMembershipInterval: int)

  /** `Config()`: the settings in the order the constructor computes them;
      the first ValueError wins, so a bad integer is reported before an
      empty token. */
  function Load(env: Env, parseInt: IntParser): (r: Result<Settings, ConfigError>)
    ensures r.Success? ==>
      "BOT_TOKEN" in env && r.value.botToken == env["BOT_TOKEN"] != ""
      && ParseAdminIds(GetEnv(env, "ADMIN_IDS", ""), parseInt) == Success(r.value.adminIds)
      && r.value.newsRssFeeds == RssFeeds(env)
      && IntSetting(env, "REQUIRED_CHANNELS_COUNT", 3, parseInt) == Success(r.value.requiredChannelsCount)
      && IntSetting(env, "VIP_PRICE", 49000, parseInt) == Success(r.value.vipPrice)
      && IntSetting(env, "FREE_TRIAL_DAYS", 3, parseInt) == Success(r.value.freeTrialDays)
      && r.value.priceUpdateInterval == 30 && r.value.newsUpdateInterval == 3600
      && r.value.checkMembershipInterval == 300
    ensures GetEnv(env, "BOT_TOKEN", "") == "" ==> r.Failure?
    ensures ParseAdminIds(GetEnv(env, "ADMIN_IDS", ""), parseInt).Failure? ==>
      r == Failure(NotAnInteger("ADMIN_IDS", ParseAdminIds(GetEnv(env, "ADMIN_IDS", ""), parseInt).error))
    ensures r.Failure? && r.error == MissingToken ==> GetEnv(env, "BOT_TOKEN", "") == ""
    ensures r.Success? ==>
      && r.value.databaseUrl == GetEnv(env, "DATABASE_URL", "sqlite+aiosqlite:///data/marketpulse.db")
      && r.value.tgjuApiUrl == GetEnv(env, "TGJU_API_URL", "https://api.tgju.org/v1/data/sana.json")
      && r.value.coingeckoApiUrl == GetEnv(env, "COINGECKO_API_URL", "https://api.coingecko.com/api/v3")
  {
    var token := GetEnv(env, "BOT_TOKEN", "");
    match ParseAdminIds(GetEnv(env, "ADMIN_IDS", ""), parseInt)
    case Failure(bad) => Failure(NotAnInteger("ADMIN_IDS", bad))
    case Success(admins) =>
      match IntSetting(env, "REQUIRED_CHANNELS_COUNT", 3, parseInt)
      case Failure(e) => Failure(e)
      case Success(count) =>
        match IntSetting(env, "VIP_PRICE", 49000, parseInt)
        case Failure(e) => Failure(e)
        case Success(vip) =>
          match IntSetting(env, "FREE_TRIAL_DAYS", 3, parseInt)
          case Failure(e) => Failure(e)
          case Success(trial) =>
            if token == "" then Failure(MissingToken)
            else Success(Settings(
              token, admins,
              GetEnv(env, "DATABASE_URL", "sqlite+aiosqlite:///data/marketpulse.db"),
              GetEnv(env, "TGJU_API_URL", "https://api.tgju.org/v1/data/sana.json"),
              GetEnv(env, "COINGECKO_API_URL", "https://api.coingecko.com/api/v3"),
              RssFeeds(env), count, vip, trial,
              PriceUpdateInterval, NewsUpdateInterval, CheckMembershipInterval))
  }

  /** Past the admin ids, the integer settings are checked in the order
      REQUIRED_CHANNELS_COUNT, VIP_PRICE, FREE_TRIAL_DAYS, the first bad one
      wins, and only then is the token checked: with every setting readable
      and a token set, loading succeeds. */
  lemma LoadOrder(env: Env, parseInt: IntParser)
    requires ParseAdminIds(GetEnv(env, "ADMIN_IDS", ""), parseInt).Success?
    ensures var r := Load(env, parseInt);
      var count := IntSetting(env, "REQUIRED_CHANNELS_COUNT", 3, parseInt);
      var vip := IntSetting(env, "VIP_PRICE", 49000, parseInt);
      var trial := IntSetting(env, "FREE_TRIAL_DAYS", 3, parseInt);
      && (count.Failure? ==> r == Failure(count.error))
      && (count.Success? && vip.Failure? ==> r == Failure(vip.error))
      && (count.Success? && vip.Success? && trial.Failure? ==> r == Failure(trial.error))
      && (count.Success? && vip.Success? && trial.Success? ==>
            if GetEnv(env, "BOT_TOKEN", "") == "" then r == Failure(MissingToken) else r.Success?)
  {
  }

  /** With only a bot token set, every other setting takes its default. */
  lemma Defaults(token: string, parseInt: IntParser)
    requires token != ""
    ensures var r := Load(map["BOT_TOKEN" := token], parseInt);
      r.Success? && r.value.adminIds == [] && r.value.newsRssFeeds == DefaultFeeds
      && r.value.requiredChannelsCount == 3 && r.value.vipPrice == 49000 && r.value.freeTrialDays == 3
      && r.value.databaseUrl == "sqlite+aiosqlite:///data/marketpulse.db"
      && r.value.tgjuApiUrl == "https://api.tgju.org/v1/data/sana.json"
      && r.value.coingeckoApiUrl == "https://api.coingecko.com/api/v3"
  {
  }
}

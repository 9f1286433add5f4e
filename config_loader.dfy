/** The configuration loader of the trading bot (src/configLoader.js): reads the process
    environment, given here as a map from variable name to value, into a typed configuration
    with a default for every key. */
module ConfigLoader {
  import opened JsString
  import opened JsNumber

  /** The JavaScript values `parseBoolean` and `parseNumber` may be handed. Values read from the
      environment are always `Text` or `Undefined`. */
  datatype JsValue = Undefined | Null | Boolean(b: bool) | Text(s: string) | Numeric(n: real) | Object

  /** `parseBoolean(val)`. */
  function ParseBoolean(v: JsValue): bool {
    match v
    case Boolean(b) => b
    case Text(s) => ToLowerCase(s) == "true"
    case _ => false
  }

  /** A string spells "true" in any mix of cases, with nothing around it. */
  predicate SpellsTrue(s: string) {
    |s| == 4
    && (s[0] == 't' || s[0] == 'T') && (s[1] == 'r' || s[1] == 'R')
    && (s[2] == 'u' || s[2] == 'U') && (s[3] == 'e' || s[3] == 'E')
  }

  /** `parseBoolean` passes booleans through, is true for exactly the strings that spell "true"
      ignoring case (so "TRUE" is true and " true" is false), and is false for every other value. */
  lemma ParseBooleanSpec(v: JsValue)
    ensures v.Boolean? ==> ParseBoolean(v) == v.b
    ensures v.Text? ==> (ParseBoolean(v) <==> SpellsTrue(v.s))
    ensures !v.Boolean? && !v.Text? ==> !ParseBoolean(v)
  {
    if v.Text? {
      var s := v.s;
      if |s| == 4 {
        var l := ToLowerCase(s);
        forall i | 0 <= i < 4 ensures l[i] == LowerChar(s[i]) {
          ToLowerCaseAt(s, i);
        }
        LowerCharIs(s[0], 't', 'T');
        LowerCharIs(s[1], 'r', 'R');
        LowerCharIs(s[2], 'u', 'U');
        LowerCharIs(s[3], 'e', 'E');
        assert l == "true" <==> l[0] == 't' && l[1] == 'r' && l[2] == 'u' && l[3] == 'e';
      }
    }
  }

  /** The characters that lower-case to a given lower-case letter are that letter and its capital. */
  lemma LowerCharIs(c: char, lower: char, upper: char)
    requires 'a' <= lower <= 'z' && upper as int == lower as int - 32
    ensures LowerChar(c) == lower <==> c == lower || c == upper
  {
  }

  /** JavaScript's `Number(val)`; a plain object converts to NaN. */
  function ToNumber(v: JsValue): Number {
    match v
    case Undefined => NaN
    case Null => Finite(0.0)
    case Boolean(b) => Finite(if b then 1.0 else 0.0)
    case Text(s) => StringToNumber(s)
    case Numeric(n) => Finite(n)
    case Object => NaN
  }

  /** `parseNumber(val, fallback)`. */
  function ParseNumber(v: JsValue, fallback: real): real {
    match ToNumber(v)
    case NaN => fallback
    case Finite(n) => n
  }

  /** `parseNumber` falls back for a missing variable and for text that starts with a letter, and
      reads a blank variable as 0, not as the fallback. */
  lemma ParseNumberSpec(v: JsValue, fallback: real)
    ensures v.Undefined? ==> ParseNumber(v, fallback) == fallback
    ensures v.Text? && v.s != [] && 'a' <= v.s[0] <= 'z' ==> ParseNumber(v, fallback) == fallback
    ensures v.Text? && (forall i :: 0 <= i < |v.s| ==> IsWhiteSpace(v.s[i])) ==> ParseNumber(v, fallback) == 0.0
  {
    if v.Text? && v.s != [] && 'a' <= v.s[0] <= 'z' {
      LetterIsNaN(v.s);
    }
  }

  /** A variable set to the decimal rendering of `n` is read as `n`, whatever the fallback. */
  lemma ParseNumberShowNat(n: nat, fallback: real)
    ensures ParseNumber(Text(ShowNat(n)), fallback) == n as real
  {
    StringToNumberShowNat(n);
  }

  /** The configuration object `loadConfig` returns. */
  datatype Config = Config(
    uniqueTrend: string,
    certainty: real,
    adaptiveCertaintyEnabled: bool,
    certaintyAdjustStep: real,
    debugVerbose: bool,
    perfLoggingEnabled: bool,
    fixedOrderVolume: real,
    maxOrderOpen: real,
    feeBuffer: real,
    maxPercentLoss: real,
    maxPercentProfit: real,
    authorizedMarket: seq<string>,
    minAtrPercent: real,
    stoplossAtrMultiplier: real,
    takeprofitAtrMultiplier: real,
    enableStoploss: bool,
    trailingStopEnabled: bool,
    trailingStopGap: real)

  /** `process.env[key]`. */
  function EnvValue(env: map<string, string>, key: string): JsValue {
    if key in env then Text(env[key]) else Undefined
  }

  /** `UNIQUE_TREND` upper-cased and trimmed. A missing variable counts as the empty string; an
      empty one already is, so a present value is used as it stands. */
  function UniqueTrend(env: map<string, string>): string {
    Trim(ToUpperCase(if "UNIQUE_TREND" in env then env["UNIQUE_TREND"] else ""))
  }

  /** `AUTHORIZED_MARKET`: when set to a non-empty string, its comma-separated pieces, each
      trimmed; otherwise the empty list (the empty string is falsy in JavaScript). */
  function AuthorizedMarket(env: map<string, string>): seq<string> {
    if "AUTHORIZED_MARKET" in env && env["AUTHORIZED_MARKET"] != "" then
      TrimmedPieces(env["AUTHORIZED_MARKET"])
    else
      []
  }

  /** The comma-separated pieces of `v`, each trimmed. */
  function TrimmedPieces(v: string): seq<string> {
    var parts := Split(v, ',');
    seq(|parts|, i requires 0 <= i < |parts| => Trim(parts[i]))
  }

  /** `loadConfig()`. */
  function LoadConfig(env: map<string, string>): Config {
    Config(
      uniqueTrend := UniqueTrend(env),
      certainty := ParseNumber(EnvValue(env, "CERTAINTY"), 75.0),
      adaptiveCertaintyEnabled := ParseBoolean(EnvValue(env, "ADAPTIVE_CERTAINTY_ENABLED")),
      certaintyAdjustStep := ParseNumber(EnvValue(env, "CERTAINTY_ADJUST_STEP"), 2.0),
      debugVerbose := ParseBoolean(EnvValue(env, "DEBUG_VERBOSE")),
      perfLoggingEnabled := ParseBoolean(EnvValue(env, "PERF_LOGGING_ENABLED")),
      fixedOrderVolume := ParseNumber(EnvValue(env, "FIXED_ORDER_VOLUME"), 150.0),
      maxOrderOpen := ParseNumber(EnvValue(env, "MAX_ORDER_OPEN"), 3.0),
      feeBuffer := ParseNumber(EnvValue(env, "FEE_BUFFER"), 0.001),
      maxPercentLoss := ParseNumber(EnvValue(env, "MAX_PERCENT_LOSS"), 0.005),
      maxPercentProfit := ParseNumber(EnvValue(env, "MAX_PERCENT_PROFIT"), 0.02),
      authorizedMarket := AuthorizedMarket(env),
      minAtrPercent := ParseNumber(EnvValue(env, "MIN_ATR_PERCENT"), 0.005),
      stoplossAtrMultiplier := ParseNumber(EnvValue(env, "STOPLOSS_ATR_MULTIPLIER"), 0.7),
      takeprofitAtrMultiplier := ParseNumber(EnvValue(env, "TAKEPROFIT_ATR_MULTIPLIER"), 3.0),
      enableStoploss := ParseBoolean(EnvValue(env, "ENABLE_STOPLOSS")),
      trailingStopEnabled := ParseBoolean(EnvValue(env, "TRAILING_STOP_ENABLED")),
      trailingStopGap := ParseNumber(EnvValue(env, "TRAILING_STOP_GAP"), 0.004))
  }

  /** The variables `loadConfig` reads. */
  const Keys: set<string> := {
    "UNIQUE_TREND", "CERTAINTY", "ADAPTIVE_CERTAINTY_ENABLED", "CERTAINTY_ADJUST_STEP",
    "DEBUG_VERBOSE", "PERF_LOGGING_ENABLED", "FIXED_ORDER_VOLUME", "MAX_ORDER_OPEN", "FEE_BUFFER",
    "MAX_PERCENT_LOSS", "MAX_PERCENT_PROFIT", "AUTHORIZED_MARKET", "MIN_ATR_PERCENT",
    "STOPLOSS_ATR_MULTIPLIER", "TAKEPROFIT_ATR_MULTIPLIER", "ENABLE_STOPLOSS",
    "TRAILING_STOP_ENABLED", "TRAILING_STOP_GAP"}

  /** With none of its variables set, the configuration is all defaults: flags off, no trend, no
      allow-list, and the stated numbers. */
  lemma LoadConfigDefaults(env: map<string, string>)
    requires forall k :: k in Keys ==> k !in env
    ensures LoadConfig(env) == Config(
      uniqueTrend := "", certainty := 75.0, adaptiveCertaintyEnabled := false,
      certaintyAdjustStep := 2.0, debugVerbose := false, perfLoggingEnabled := false,
      fixedOrderVolume := 150.0, maxOrderOpen := 3.0, feeBuffer := 0.001,
      maxPercentLoss := 0.005, maxPercentProfit := 0.02, authorizedMarket := [],
      minAtrPercent := 0.005, stoplossAtrMultiplier := 0.7, takeprofitAtrMultiplier := 3.0,
      enableStoploss := false, trailingStopEnabled := false, trailingStopGap := 0.004)
  {
    assert "UNIQUE_TREND" in Keys && "AUTHORIZED_MARKET" in Keys;
    assert UniqueTrend(env) == "";
  }

  /** `UNIQUE_TREND` is empty when unset; otherwise it is the value upper-cased and trimmed, so it
      holds no lower-case ASCII letter and no surrounding white space. */
  lemma UniqueTrendSpec(env: map<string, string>)
    ensures "UNIQUE_TREND" !in env ==> UniqueTrend(env) == ""
    ensures "UNIQUE_TREND" in env ==> UniqueTrend(env) == Trim(ToUpperCase(env["UNIQUE_TREND"]))
    ensures forall i :: 0 <= i < |UniqueTrend(env)| ==> !('a' <= UniqueTrend(env)[i] <= 'z')
    ensures UniqueTrend(env) != [] ==>
      !IsWhiteSpace(UniqueTrend(env)[0]) && !IsWhiteSpace(UniqueTrend(env)[|UniqueTrend(env)| - 1])
  {
    var raw := if "UNIQUE_TREND" in env then env["UNIQUE_TREND"] else "";
    var u := Trim(ToUpperCase(raw));
    assert UniqueTrend(env) == u;
    if "UNIQUE_TREND" !in env {
      assert ToUpperCase(raw) == [];
    }
    UpperTrimmedHasNoLower(raw);
    assert NoLower(u);
  }

  /** No lower-case ASCII letter anywhere in `s`. */
  predicate NoLower(s: string) {
    forall k :: 0 <= k < |s| ==> !('a' <= s[k] <= 'z')
  }

  lemma UpperTrimmedHasNoLower(raw: string)
    ensures NoLower(Trim(ToUpperCase(raw)))
  {
    UpperHasNoLower(raw);
    TrimHasNoLower(ToUpperCase(raw));
  }

  /** Trimming adds no lower-case letter. */
  lemma TrimHasNoLower(s: string)
    requires NoLower(s)
    ensures NoLower(Trim(s))
  {
    var t := TrimStart(s);
    SliceHasNoLower(s, |s| - |t|, |s|);
    SliceHasNoLower(t, 0, |TrimEnd(t)|);
    assert Trim(s) == TrimEnd(t);
  }

  /** Upper-casing leaves no lower-case ASCII letter anywhere. */
  lemma UpperHasNoLower(raw: string)
    ensures NoLower(ToUpperCase(raw))
  {
    forall i | 0 <= i < |ToUpperCase(raw)| ensures !('a' <= ToUpperCase(raw)[i] <= 'z') {
      ToUpperCaseAt(raw, i);
    }
  }

  /** A piece of a string without lower-case ASCII letters has none either. */
  lemma SliceHasNoLower(s: string, i: nat, j: nat)
    requires i <= j <= |s| && NoLower(s)
    ensures NoLower(s[i..j])
  {
    forall k | 0 <= k < j - i ensures !('a' <= s[i..j][k] <= 'z') {
      assert s[i..j][k] == s[i + k];
    }
  }

  /** `AUTHORIZED_MARKET` is empty when unset or blank; otherwise it has one entry per comma plus
      one, entry `i` is the `i`-th comma-separated piece trimmed, and no entry holds a comma or
      surrounding white space. */
  lemma AuthorizedMarketSpec(env: map<string, string>)
    ensures "AUTHORIZED_MARKET" !in env || env["AUTHORIZED_MARKET"] == "" ==> AuthorizedMarket(env) == []
    ensures "AUTHORIZED_MARKET" in env && env["AUTHORIZED_MARKET"] != "" ==>
      var v := env["AUTHORIZED_MARKET"];
      var r := AuthorizedMarket(env);
      |r| == Occurrences(v, ',') + 1
      && (forall i :: 0 <= i < |r| ==> r[i] == Trim(Split(v, ',')[i]))
      && (forall i :: 0 <= i < |r| ==> ',' !in r[i])
      && (forall i :: 0 <= i < |r| && r[i] != [] ==> !IsWhiteSpace(r[i][0]) && !IsWhiteSpace(r[i][|r[i]| - 1]))
  {
    if "AUTHORIZED_MARKET" in env && env["AUTHORIZED_MARKET"] != "" {
      var v := env["AUTHORIZED_MARKET"];
      TrimmedPiecesEntries(v);
      TrimmedPiecesClean(v);
    }
  }

  /** One entry per comma-separated piece, each the trim of its piece. */
  lemma TrimmedPiecesEntries(v: string)
    ensures |TrimmedPieces(v)| == Occurrences(v, ',') + 1
    ensures forall i :: 0 <= i < |TrimmedPieces(v)| ==> TrimmedPieces(v)[i] == Trim(Split(v, ',')[i])
  {
  }

  /** No entry holds a comma or starts or ends with white space. */
  lemma TrimmedPiecesClean(v: string)
    ensures forall i :: 0 <= i < |TrimmedPieces(v)| ==> ',' !in TrimmedPieces(v)[i]
    ensures forall i :: 0 <= i < |TrimmedPieces(v)| && TrimmedPieces(v)[i] != [] ==>
      !IsWhiteSpace(TrimmedPieces(v)[i][0]) && !IsWhiteSpace(TrimmedPieces(v)[i][|TrimmedPieces(v)[i]| - 1])
  {
    var parts := Split(v, ',');
    var r := TrimmedPieces(v);
    forall i | 0 <= i < |r|
      ensures ',' !in r[i]
    {
      TrimKeepsOut(parts[i], ',');
    }
  }

  /** Trimming adds no character: what a string lacks, its trim lacks. */
  lemma TrimKeepsOut(s: string, c: char)
    requires c !in s
    ensures c !in Trim(s)
  {
    var t := TrimStart(s);
    SliceKeepsOut(s, |s| - |t|, |s|, c);
    assert c !in t;
    var r := TrimEnd(t);
    SliceKeepsOut(t, 0, |r|, c);
  }

  /** A slice holds no character its string lacks. */
  lemma SliceKeepsOut(s: string, i: nat, j: nat, c: char)
    requires i <= j <= |s| && c !in s
    ensures c !in s[i..j]
  {
    forall k | 0 <= k < j - i ensures s[i..j][k] != c {
      assert s[i..j][k] == s[i + k];
    }
  }

  /** Round trip: a list of market names that hold no comma and no surrounding white space,
      written comma-separated into `AUTHORIZED_MARKET`, is read back as the same list. */
  lemma {:induction false} AuthorizedMarketRoundTrip(env: map<string, string>, names: seq<string>)
    requires |names| >= 1 && Join(names, ',') != ""
    requires forall i :: 0 <= i < |names| ==> ',' !in names[i] && Trim(names[i]) == names[i]
    ensures AuthorizedMarket(env["AUTHORIZED_MARKET" := Join(names, ',')]) == names
  {
    var v := Join(names, ',');
    var e := env["AUTHORIZED_MARKET" := v];
    assert "AUTHORIZED_MARKET" in e && e["AUTHORIZED_MARKET"] == v;
    SplitJoin(names, ',');
    TrimEach(names);
  }

  lemma TrimEach(names: seq<string>)
    requires forall i :: 0 <= i < |names| ==> Trim(names[i]) == names[i]
    ensures seq(|names|, i requires 0 <= i < |names| => Trim(names[i])) == names
  {
  }
}

/** The option checks that `run` performs, in order, before anything is
    started (main.go:36-68). */
module Config {
  import opened Wrappers

  /** The options as `flag.Parse` leaves them. The three integer options are
      Go `int`s, which are 64 bits wide on the platforms the program targets. */
  newtype int64 = x: int | -0x8000_0000_0000_0000 <= x < 0x8000_0000_0000_0000

  datatype Options = Options(
    senderAddr: string,
    keystoreDir: string,
    chainID: int64,
    provider: string,
    sendInterval: int64,
    randomizeInterval: int64,
    maxGasPrice: string,
    minGasPrice: string)

  /** The value `-chainID` holds when it is not given on the command line. */
  const UnsetChainID: int64 := -1

  /** The flag defaults of main.go:24-32. */
  function Defaults(): (o: Options)
    ensures o.chainID == UnsetChainID && o.senderAddr == "" && o.keystoreDir == ""
  {
    Options("", "", UnsetChainID, "http://localhost:8545", 5, 30, "1000", "100")
  }

  /** One constructor per check, in the order in which `run` performs them. */
  datatype ConfigError =
    | MissingSenderAddr
    | MissingKeystoreDir
    | MissingChainID
    | MissingProvider
    | SendIntervalNotPositive
    | RandomizeIntervalNotPositive
    | BadMaxGasPrice
    | BadMinGasPrice

  /** The two gas-price bounds that survive validation. */
  datatype GasPrices = GasPrices(max: nat, min: nat)

  /** A parser for base-10 integer strings, standing for `big.Int.SetString(s, 10)`:
      `Some(n)` where that call succeeds with value `n`, `None` where it fails. */
  type Parser = string -> Option<int>

  /** Position of a check in the chain; an earlier check has a smaller rank. */
  function Rank(e: ConfigError): (k: nat)
    ensures k < 8
  {
    match e
    case MissingSenderAddr => 0
    case MissingKeystoreDir => 1
    case MissingChainID => 2
    case MissingProvider => 3
    case SendIntervalNotPositive => 4
    case RandomizeIntervalNotPositive => 5
    case BadMaxGasPrice => 6
    case BadMinGasPrice => 7
  }

  /** A gas-price string is acceptable when it parses to a non-negative integer. */
  predicate GasPriceOk(parse: Parser, s: string)
  {
    parse(s).Some? && parse(s).value >= 0
  }

  /** Whether the check reported by `e` fails for these options, looked at
      on its own and regardless of the other checks. */
  predicate Fails(o: Options, parse: Parser, e: ConfigError)
  {
    match e
    case MissingSenderAddr => o.senderAddr == ""
    case MissingKeystoreDir => o.keystoreDir == ""
    case MissingChainID => o.chainID == UnsetChainID
    case MissingProvider => o.provider == ""
    case SendIntervalNotPositive => o.sendInterval <= 0
    case RandomizeIntervalNotPositive => o.randomizeInterval <= 0
    case BadMaxGasPrice => !GasPriceOk(parse, o.maxGasPrice)
    case BadMinGasPrice => !GasPriceOk(parse, o.minGasPrice)
  }

  /** The validation block of `run`: the first failing check's error, or the
      two parsed gas prices when every check passes. */
  function Validate(o: Options, parse: Parser): (r: Result<GasPrices, ConfigError>)
    ensures r.Failure? ==> Fails(o, parse, r.error)
    ensures r.Failure? ==> forall e :: Rank(e) < Rank(r.error) ==> !Fails(o, parse, e)
    ensures r.Success? ==> forall e :: !Fails(o, parse, e)
    ensures r.Success? ==>
      parse(o.maxGasPrice) == Some(r.value.max as int) &&
      parse(o.minGasPrice) == Some(r.value.min as int)
  {
    if o.senderAddr == "" then Failure(MissingSenderAddr)
    else if o.keystoreDir == "" then Failure(MissingKeystoreDir)
    else if o.chainID == UnsetChainID then Failure(MissingChainID)
    else if o.provider == "" then Failure(MissingProvider)
    else if o.sendInterval <= 0 then Failure(SendIntervalNotPositive)
    else if o.randomizeInterval <= 0 then Failure(RandomizeIntervalNotPositive)
    else match parse(o.maxGasPrice)
      case None => Failure(BadMaxGasPrice)
      case Some(max) =>
        if max < 0 then Failure(BadMaxGasPrice)
        else match parse(o.minGasPrice)
          case None => Failure(BadMinGasPrice)
          case Some(min) =>
            if min < 0 then Failure(BadMinGasPrice)
            else Success(GasPrices(max, min))
  }

  /** Every check but the two gas-price checks passes. */
  predicate PrefixPasses(o: Options)
  {
    o.senderAddr != "" && o.keystoreDir != "" && o.chainID != UnsetChainID &&
    o.provider != "" && o.sendInterval > 0 && o.randomizeInterval > 0
  }

  /** An empty `-senderAddr` is reported whatever else is wrong. */
  lemma EmptySenderAddrWins(o: Options, parse: Parser)
    requires o.senderAddr == ""
    ensures Validate(o, parse) == Failure(MissingSenderAddr)
  {
  }

  /** `-chainID` is refused only when it holds the sentinel: any other value,
      zero and negative ones included, leads to the same outcome. */
  lemma ChainIDOnlySentinelRefused(o: Options, parse: Parser, c: int64)
    requires o.chainID != UnsetChainID && c != UnsetChainID
    ensures Validate(o.(chainID := c), parse) == Validate(o, parse)
  {
  }

  /** Only the sign of an interval matters: all positive values of
      `-sendInterval` give the same outcome, and so do all positive values of
      `-randomizeInterval`. */
  lemma PositiveIntervalsInterchangeable(o: Options, parse: Parser, s: int64, t: int64)
    requires o.sendInterval > 0 && s > 0
    requires o.randomizeInterval > 0 && t > 0
    ensures Validate(o.(sendInterval := s, randomizeInterval := t), parse) == Validate(o, parse)
  {
  }

  /** A non-positive interval is refused as soon as the earlier checks pass. */
  lemma NonPositiveIntervalRefused(o: Options, parse: Parser)
    requires o.senderAddr != "" && o.keystoreDir != "" && o.chainID != UnsetChainID && o.provider != ""
    requires o.sendInterval <= 0 || o.randomizeInterval <= 0
    ensures Validate(o, parse).Failure?
    ensures Validate(o, parse).error ==
      if o.sendInterval <= 0 then SendIntervalNotPositive else RandomizeIntervalNotPositive
  {
  }

  /** Once the other checks pass, validation succeeds exactly when both
      gas-price strings parse to non-negative integers, zero included, and
      it hands back those integers unchanged. Nothing relates the two bounds. */
  lemma GasPricesAcceptedIffNonNegative(o: Options, parse: Parser)
    requires PrefixPasses(o)
    ensures Validate(o, parse).Success? <==>
      GasPriceOk(parse, o.maxGasPrice) && GasPriceOk(parse, o.minGasPrice)
    ensures Validate(o, parse).Success? ==>
      Validate(o, parse).value == GasPrices(parse(o.maxGasPrice).value as nat, parse(o.minGasPrice).value as nat)
  {
  }

  /** A minimum above the maximum passes validation: there is no range check. */
  lemma InvertedRangeAccepted(o: Options, parse: Parser)
    requires PrefixPasses(o)
    requires parse(o.maxGasPrice) == Some(100) && parse(o.minGasPrice) == Some(500)
    ensures Validate(o, parse) == Success(GasPrices(100, 500))
    ensures Validate(o, parse).value.min > Validate(o, parse).value.max
  {
  }

  /** Validation succeeds exactly when no check fails. */
  lemma ValidateSucceedsIffAllPass(o: Options, parse: Parser)
    ensures Validate(o, parse).Success? <==> forall e :: !Fails(o, parse, e)
  {
  }

  // Error messages

  /** The names of the options `run` defines (main.go:24-32). */
  const Flags: set<string> := {"senderAddr", "keystoreDir", "chainID", "provider",
    "sendInterval", "randomizeInterval", "maxGasPrice", "minGasPrice"}

  /** The option whose value the check reporting `e` looks at. */
  function Flag(e: ConfigError): (f: string)
    ensures f in Flags
  {
    match e
    case MissingSenderAddr => "senderAddr"
    case MissingKeystoreDir => "keystoreDir"
    case MissingChainID => "chainID"
    case MissingProvider => "provider"
    case SendIntervalNotPositive => "sendInterval"
    case RandomizeIntervalNotPositive => "randomizeInterval"
    case BadMaxGasPrice => "maxGasPrice"
    case BadMinGasPrice => "minGasPrice"
  }

  /** No two checks report on the same option. */
  lemma FlagInjective(e1: ConfigError, e2: ConfigError)
    requires Flag(e1) == Flag(e2)
    ensures e1 == e2
  {
  }

  /** A message names option `f` when it is "need -f" or starts with "-f ". */
  predicate NamesFlag(msg: string, f: string)
  {
    msg == "need -" + f || "-" + f + " " <= msg
  }

  /** The error texts exactly as `run` builds them. */
  function MessageAsWritten(e: ConfigError): (m: string)
    ensures e != SendIntervalNotPositive ==> NamesFlag(m, Flag(e))
  {
    match e
    case MissingSenderAddr =>
      assert "need -senderAddr" == "need -" + "senderAddr";
      "need -senderAddr"
    case MissingKeystoreDir =>
      assert "need -keystoreDir" == "need -" + "keystoreDir";
      "need -keystoreDir"
    case MissingChainID =>
      assert "need -chainID" == "need -" + "chainID";
      "need -chainID"
    case MissingProvider =>
      assert "need -provider" == "need -" + "provider";
      "need -provider"
    case SendIntervalNotPositive => "-senderInterval must be > 0"
    case RandomizeIntervalNotPositive =>
      assert "-randomizeInterval must be > 0" == "-" + "randomizeInterval" + " " + "must be > 0";
      "-randomizeInterval must be > 0"
    case BadMaxGasPrice =>
      assert "-maxGasPrice must be >= 0" == "-" + "maxGasPrice" + " " + "must be >= 0";
      "-maxGasPrice must be >= 0"
    case BadMinGasPrice =>
      assert "-minGasPrice must be >= 0" == "-" + "minGasPrice" + " " + "must be >= 0";
      "-minGasPrice must be >= 0"
  }

  /** The text reported for a non-positive send interval names an option,
      `-senderInterval`, that the program does not define, and none that it does. */
  lemma AsWrittenSendIntervalMessageNamesUnknownFlag()
    ensures NamesFlag(MessageAsWritten(SendIntervalNotPositive), "senderInterval")
    ensures "senderInterval" !in Flags
    ensures forall f :: f in Flags ==> !NamesFlag(MessageAsWritten(SendIntervalNotPositive), f)
  {
    var msg := MessageAsWritten(SendIntervalNotPositive);
    assert msg == "-" + "senderInterval" + " " + "must be > 0";
    forall f | f in Flags ensures !NamesFlag(msg, f) {
      // every defined option name differs from "senderInterval" within its first seven letters
      var p := "-" + f + " ";
      assert p[5] == f[4] && p[7] == f[6] && p[|f| + 1] == ' ';
    }
  }

  /** The error texts with the send-interval message naming `-sendInterval`. */
  function Message(e: ConfigError): (m: string)
    ensures NamesFlag(m, Flag(e))
    ensures e != SendIntervalNotPositive ==> m == MessageAsWritten(e)
  {
    if e == SendIntervalNotPositive then
      assert "-sendInterval must be > 0" == "-" + "sendInterval" + " " + "must be > 0";
      "-sendInterval must be > 0"
    else
      MessageAsWritten(e)
  }
}

/** What `run` hands to the two periodic components once validation has
    passed: the arguments of `gasprice.NewRandomizer` (main.go:70) and the
    chain ID and interval given to `tx.NewSender` (main.go:101). */
module Launch {
  import opened Wrappers
  import opened Config

  const NanosPerSecond: int := 1_000_000_000
  const TwoTo63: int := 0x8000_0000_0000_0000
  const TwoTo64: int := 0x1_0000_0000_0000_0000

  /** The largest number of seconds whose duration in nanoseconds fits in an int64. */
  const MaxSeconds: int64 := 9_223_372_036

  /** Two's complement wrap-around of a Go int64 operation. */
  function Wrap(x: int): (w: int64)
    ensures (x - w as int) % TwoTo64 == 0
    ensures -TwoTo63 <= x < TwoTo63 ==> w as int == x
  {
    ((x + TwoTo63) % TwoTo64 - TwoTo63) as int64
  }

  /** `time.Duration(seconds) * time.Second`, an int64 product of nanoseconds. */
  function DurationOf(seconds: int64): (d: int64)
    ensures (seconds as int * NanosPerSecond - d as int) % TwoTo64 == 0
    ensures 0 <= seconds <= MaxSeconds ==> d as int == seconds as int * NanosPerSecond
    ensures 0 < seconds <= MaxSeconds ==> d > 0
  {
    Wrap(seconds as int * NanosPerSecond)
  }

  /** The arguments of `gasprice.NewRandomizer`, in the order they are passed. */
  datatype RandomizerArgs = RandomizerArgs(interval: int64, max: nat, min: nat)

  /** The chain ID and the interval passed to `tx.NewSender`. */
  datatype SenderArgs = SenderArgs(chainID: int64, interval: int64)

  datatype Wiring = Wiring(randomizer: RandomizerArgs, sender: SenderArgs)

  /** Validation followed by the argument wiring of main.go:70 and main.go:101,
      durations computed with int64 wrap-around as the program does. */
  function WireAsWritten(o: Options, parse: Parser): (r: Result<Wiring, ConfigError>)
    ensures r.Success? <==> Validate(o, parse).Success?
    ensures r.Failure? ==> r.error == Validate(o, parse).error
    ensures r.Success? ==>
      parse(o.maxGasPrice) == Some(r.value.randomizer.max as int) &&
      parse(o.minGasPrice) == Some(r.value.randomizer.min as int)
    ensures r.Success? ==> r.value.sender.chainID == o.chainID && o.chainID != UnsetChainID
    ensures r.Success? ==>
      r.value.randomizer.interval == DurationOf(o.randomizeInterval) &&
      r.value.sender.interval == DurationOf(o.sendInterval)
  {
    match Validate(o, parse)
    case Failure(e) => Failure(e)
    case Success(prices) =>
      Success(Wiring(
        RandomizerArgs(DurationOf(o.randomizeInterval), prices.max, prices.min),
        SenderArgs(o.chainID, DurationOf(o.sendInterval))))
  }

  /** A randomize interval of 9223372037 seconds passes the "> 0" check, yet
      the duration handed to the randomizer is negative. */
  lemma AsWrittenIntervalOverflows(o: Options, parse: Parser)
    requires Validate(o, parse).Success?
    requires o.randomizeInterval == MaxSeconds + 1
    ensures WireAsWritten(o, parse).value.randomizer.interval as int == -9_223_372_036_709_551_616
    ensures WireAsWritten(o, parse).value.randomizer.interval < 0
  {
  }

  datatype WiringError =
    | Invalid(ConfigError)
    | SendIntervalTooLong
    | RandomizeIntervalTooLong

  /** The wiring with the missing guard added: an interval whose duration does
      not fit in an int64 is refused after the checks of `Validate`. */
  function Wire(o: Options, parse: Parser): (r: Result<Wiring, WiringError>)
    ensures Validate(o, parse).Failure? ==> r == Failure(Invalid(Validate(o, parse).error))
    ensures r.Success? ==> r.value.randomizer.interval > 0 && r.value.sender.interval > 0
    ensures r.Success? ==>
      r.value.randomizer.interval as int == o.randomizeInterval as int * NanosPerSecond &&
      r.value.sender.interval as int == o.sendInterval as int * NanosPerSecond
    ensures r.Success? <==>
      Validate(o, parse).Success? && o.sendInterval <= MaxSeconds && o.randomizeInterval <= MaxSeconds
    ensures r.Success? ==> WireAsWritten(o, parse) == Success(r.value)
    ensures Validate(o, parse).Success? && r.Failure? ==>
      r.error == (if o.sendInterval > MaxSeconds then SendIntervalTooLong else RandomizeIntervalTooLong)
  {
    match WireAsWritten(o, parse)
    case Failure(e) => Failure(Invalid(e))
    case Success(w) =>
      if o.sendInterval > MaxSeconds then Failure(SendIntervalTooLong)
      else if o.randomizeInterval > MaxSeconds then Failure(RandomizeIntervalTooLong)
      else Success(w)
  }
}

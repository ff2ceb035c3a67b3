# eth-tx-filler startup checks and wallet lookup

eth-tx-filler sends zero-value transactions from one account to itself at a
fixed interval, with a gas price re-drawn at random on its own schedule.
Before it starts anything, `run` in `main.go` checks its command-line options
in a fixed order and stops at the first one that is wrong. It then passes the
two gas-price bounds and the intervals to the gas-price randomizer and the
transaction sender. It also finds the key-store wallet whose first account is
the sender account. This project models these parts:

- `config.dfy`, module `Config`: the options record, the chain of eight checks
  (`Validate`), and the error texts. `Validate` is specified independently of
  its if-chain: each check is a predicate `Fails`, and each check has a `Rank`
  in the chain. The result is the error of the lowest-ranked failing check, or
  success with the two parsed gas prices when no check fails. The decimal
  parse of a gas-price string (`big.Int.SetString(s, 10)`) is a parameter
  `parse: string -> Option<int>`.
- `launch.dfy`, module `Launch`: the values `run` hands to
  `gasprice.NewRandomizer` (interval, maximum, then minimum) and to
  `tx.NewSender` (chain ID, interval). Durations are computed as Go does
  (`time.Duration(n) * time.Second`): an int64 product of nanoseconds that
  wraps around.
- `wallets.dfy`, module `Wallets`: `findWallet` as a loop (`FindWallet`),
  proved against a recursive first-match function (`FirstMatch`).
- `wrappers.dfy`, module `Wrappers`: `Option` and `Result`.

Go's `int` is taken to be 64 bits wide, so the integer options are a
`newtype int64`.

The code accepts a minimum gas price above the maximum: nothing in `run`
compares the two bounds, and `InvertedRangeAccepted` states this.

## Model

| member | source | states |
|---|---|---|
| `Config.Defaults` | main.go:24-32 | the flag defaults leave `-chainID` at the sentinel -1 and the sender address and key-store directory empty, so the defaults alone never pass validation |
| `Config.Validate` | main.go:36-68 | a failure names a check that fails, and every check earlier in the fixed order passes; success means no check fails and returns exactly the parsed maximum and minimum |
| `Config.ValidateSucceedsIffAllPass` | main.go:36-68 | validation succeeds if and only if none of the eight checks fails |
| `Config.EmptySenderAddrWins` | main.go:36-38 | an empty sender address is reported whatever else is wrong |
| `Config.ChainIDOnlySentinelRefused` | main.go:44-46 | replacing a chain ID other than -1 by any other non-sentinel value, 0 and negatives included, gives the same outcome |
| `Config.PositiveIntervalsInterchangeable` | main.go:52-58 | all positive send and randomize intervals give the same outcome |
| `Config.NonPositiveIntervalRefused` | main.go:52-58 | once the four presence checks pass, a send interval <= 0 is reported, or else a randomize interval <= 0 |
| `Config.GasPricesAcceptedIffNonNegative` | main.go:60-68 | after the earlier checks, validation succeeds iff both strings parse to integers >= 0 (zero allowed), and it returns those integers |
| `Config.InvertedRangeAccepted` | main.go:60-70 | a minimum of 500 with a maximum of 100 is accepted unchanged: nothing checks min <= max |
| `Config.Flag` | main.go:24-32 | every check reports on one of the eight defined options |
| `Config.FlagInjective` | main.go:24-68 | no two checks report on the same option |
| `Config.MessageAsWritten` | main.go:36-68 | the eight error texts exactly as `run` builds them; every text but the send-interval one names the option its check reads |
| `Config.AsWrittenSendIntervalMessageNamesUnknownFlag` | main.go:52-54 | the send-interval error text names `-senderInterval`, which is not a defined option, and names no defined option |
| `Config.Message` | main.go:36-68 | each corrected error text names the option its check reads; it equals the program's text for all checks but the send interval |
| `Launch.DurationOf` | main.go:70 | the duration is the int64 wrap-around of seconds times 10^9; it is exact and positive for 1 to 9223372036 seconds |
| `Launch.WireAsWritten` | main.go:70 | wiring fails exactly when validation fails, with the same error; the randomizer gets the parsed maximum then the parsed minimum, and the sender gets the non-sentinel chain ID; both intervals are `DurationOf` the options, wrap-around included (also main.go:101) |
| `Launch.AsWrittenIntervalOverflows` | main.go:56-70 | a validated randomize interval of 9223372037 seconds reaches the randomizer as the negative duration -9223372036709551616 ns |
| `Launch.Wire` | main.go:70 | with an overflow guard added, success iff validation succeeds and both intervals are at most 9223372036 s; then both durations are positive and exact, and equal the as-written wiring; past validation, a too-long send interval is reported before a too-long randomize interval |
| `Wallets.FirstMatch` | main.go:112-122 | the index returned holds a matching wallet and no earlier one matches; none is returned iff no wallet matches |
| `Wallets.FindWallet` | main.go:112-122 | the loop returns the first wallet whose first account is the requested one, or the not-found error with that account's address iff no wallet matches |
| `Wallets.FirstMatchIsEarliest` | main.go:114-118 | a matching wallet preceded by no match is the one the search returns |
| `Wallets.OnlyFirstAccountMatters` | main.go:116 | replacing a wallet by one with the same first account, whatever its later accounts are, does not change the search result |
| `Wallets.LaterOrLookalikeAccountIgnored` | main.go:116 | a wallet holding the account only in second place does not match, and neither does one whose first account has the same address but another URL |

## Findings

| source | as written | input that shows it | evidently intended | confidence | as-written member | corrected member |
|---|---|---|---|---|---|---|
| main.go:52-54 | the error for a non-positive send interval reads "-senderInterval must be > 0" | `-sendInterval 0` with every other option valid | the text names the option the user set, `-sendInterval` | not executed; high, the text is a literal | `Config.MessageAsWritten`, `Config.AsWrittenSendIntervalMessageNamesUnknownFlag` | `Config.Message` |
| main.go:56-70 | `time.Duration(*randomizeInterval)*time.Second` is an int64 product that wraps; only `> 0` is checked | `-randomizeInterval 9223372037` gives -9223372036709551616 ns; `-sendInterval` at main.go:101 behaves the same | the duration passed on is the positive number of seconds given, or the value is refused | not executed; high for the arithmetic, the callee's reaction is not part of this model | `Launch.AsWrittenIntervalOverflows` | `Launch.Wire` |

## Left out

- Flag definition and parsing (`flag.*`, main.go:24-34): the parsed values are the input record. The defaults appear only in `Defaults`.
- `big.Int.SetString` is not part of this model. Its result is the `parse` parameter, so every statement holds for any parser.
- Key-store construction, `ks.Find`, `ks.Unlock`, the passphrase prompt and `ethclient.Dial` (main.go:75-99) are I/O. `WireAsWritten` gives the sender's arguments as a function of the options alone, so a setup failure between main.go:72 and main.go:101 is not modelled.
- `randomizer.Start/Stop`, `sender.Start/Stop`, the deferred stops and the interrupt wait (main.go:72-73, 101-107) are not modelled. They run in goroutines whose code (`gasprice`, `tx`) is not part of this model.
- `log.Fatal` in `main` (main.go:124-128) only exits the process.
- `FindWallet`: a wallet is modelled by the account list its `Accounts()` returns. Two distinct wallets with the same list cannot be told apart, so the result is stated as the list at the first matching index.
- `ks.Wallets()` is modelled as the sequence passed in.
- Go `int` on 32-bit platforms is not modelled; the integer options are 64-bit.

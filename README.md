# Tradier broker plugin for Zorro — a Dafny model of its bridge layer

The plugin is a DLL that the Zorro trading platform (the host) loads and
calls through a fixed C ABI. It forwards these calls to the Tradier REST
API. This project models the logic that sits between the host's calls and
the network:

- **The day-count date codec** (`util.dfy`, module `Util`). The host's
  `DATE` is an `f64` count of days since 1899-12-30T00:00:00Z, which is
  Unix second -2209161600. The model converts Unix milliseconds to a day
  count and back. Rust's toward-zero integer division and `f64::round`
  (halfway cases away from zero) are written out explicitly. The round
  trip and the anchor values are proved.
- **The raw buffer writes** (`util.dfy`). `copy_into` copies a string's
  bytes into a host buffer and writes a zero byte. `copy_nonoverlapping`
  block-copies records. Both are methods over arrays, with frame
  conditions that say which indices change and which do not.
- **The session state and entry points** (`dll.dfy`, module `Dll`). The
  process-wide `STATE` is the class `Dll.State`, with fields `handle`,
  `subscriptions` and `config`. Its methods `Open`, `Login`, `Asset`,
  `History2` and `Buy2` model `BrokerOpen`, `BrokerLogin`, `BrokerAsset`,
  `BrokerHistory2` and `BrokerBuy2`. `BrokerCommand`, the endpoint choice,
  the start-date clamp, the count truncation, the `c_int` casts and the
  side/quantity decoding are pure functions.
- **The candle record** `T6` (`types.dfy`, module `Types`). It has seven
  fields in wire order, together with the host's `c_int` and byte widths.

Each remote Tradier call becomes a function parameter: `lookupProfile`,
`timeAndSales` and `postOrder`. It receives exactly the configuration and
request the plugin builds, so a contract can state what is sent as well as
what is done with the answer. The conversion of a provider bar into a `T6`
is not part of this model, so it is the parameter `convert`. The current
time is the parameter `nowSeconds`. A `CStr::to_str` result arrives as an
`Option<string>` (`None` = not UTF-8). A host pointer is an array: `pPrice`
has length 1, and `Name` and `ticks` are the host's buffers.

Where the code panics (`unwrap`, `expect`, `assert_eq!`, an index), the
model turns that into a precondition. In these places the code does not do
what the plugin is meant to do, and the model follows the code:

- A history, order or asset call before login is meant to fail with a
  documented return code. `BrokerHistory2` and `BrokerBuy2` instead unwrap
  the stored config. `BrokerAsset` does not check for a login at all and
  subscribes the symbol anyway.
- The config is meant to be stored only after a successful login. The
  code stores it before the profile check, so it is set even when
  `Login` returns 0.
- A missing account or a failed order post is meant to give a failure
  value. The code unwraps both.
- The string copy is meant to write its terminator right after the bytes.
  The code writes it one byte further on (see Findings).
- The history copy is meant to be bounded by the host's count. A negative
  count copies every bar (see Findings).

## Model

| member | source | states |
|---|---|---|
| Util.StartDateIsDayCountEpoch | src/util.rs:7-9 | The reference instant -2209161600 s is 1899-12-30 00:00:00 by an independent civil-calendar computation (1970-01-01 is day 0), and a day is 86400 s |
| Util.TruncDiv | src/util.rs:32 | Rust's integer `/`: the remainder lies strictly within one divisor of zero and has the dividend's sign |
| Util.TruncDivVersusEuclidean | src/util.rs:32 | Rust's `/` equals Dafny's Euclidean `/` exactly when the dividend is non-negative or a multiple of the divisor, which is why the explicit helper is needed |
| Util.RoundHalfAwayFromZero | src/util.rs:53 | `f64::round`: the result is within 1/2 of the input, and a halfway case goes away from zero |
| Util.TimestampToDatetime | src/util.rs:31-34 | The datetime keeps only the whole second of the millisecond timestamp, truncated toward zero for negative timestamps too |
| Util.EpochTimestampToT6Date | src/util.rs:36-42 | The day count times 86400 equals the whole seconds elapsed since the reference instant |
| Util.T6DateToEpochTimestamp | src/util.rs:51-57 | The result is a multiple of 1000 ms, and its second lies within 1/2 s of the reference instant plus days·86400 |
| Util.DayCountAnchors | src/util.rs:36-57 | The reference instant encodes to 0.0 and one day later to 1.0; days 0.0 and 1.0 decode back to those instants |
| Util.RoundTripMillis | src/util.rs:36-57 | Decoding an encoded timestamp gives 1000·trunc(m/1000): the round trip keeps exactly the whole second |
| Util.RoundTripWholeSeconds | src/util.rs:36-57 | For a whole-second timestamp the round trip is the identity |
| Util.RoundTripDays | src/util.rs:36-57 | A day count that is a whole number of seconds survives decoding then encoding unchanged |
| Util.CopyNonoverlapping | src/util.rs:24 | The first `count` destination elements take the source's; every other element is untouched |
| Util.CStringOf | src/util.rs:25-26 | The C string a host reads is the longest zero-free prefix ending just before the first zero, or nothing if there is no zero |
| Util.WrittenByCopyInto | src/util.rs:22-29 | The buffer after the copy as written: same length, the source bytes first, index len keeps its old byte, a zero at len+1, the rest as before |
| Util.CopyInto | src/util.rs:22-29 | Bytes 0..len take the source, index len keeps its old byte, index len+1 becomes 0, everything beyond is untouched, and the result is always Ok |
| Util.CopyIntoReadBack | src/util.rs:25-26 | After the copy as written, the host reads back exactly the source if and only if the skipped byte at index len was already zero |
| Util.CopyIntoCounterexample | src/util.rs:25-26 | "TR" copied over a buffer of ones reads back as "TR\x01" |
| Util.WrittenByTerminatedCopy | src/util.rs:25-26 | The buffer after the corrected copy: same length, the source bytes first, a zero at len, the rest as before |
| Util.CopyIntoTerminated | src/util.rs:25-26 | Corrected copy: the source bytes, then a zero at index len, the rest untouched |
| Util.TerminatedCopyReadBack | src/util.rs:25-26 | After the corrected copy the host always reads back exactly the source |
| Dll.Command | src/dll.rs:64-71 | The answer is non-zero exactly for code 43, and is then 300; every other code gets the neutral 0 |
| Dll.EndpointFor | src/dll.rs:105-109 | The live endpoint is chosen exactly when the account type is "Real", the sandbox endpoint otherwise |
| Dll.LogDelivery | src/dll.rs:55-62 | A message reaches the host callback exactly when a handle is registered, and then with a newline appended |
| Dll.ClampStart | src/dll.rs:179-180 | The requested start is the later of the requested start and now minus 27 days |
| Dll.ClampNinetyDaysBack | src/dll.rs:179-180 | A start ninety days back is narrowed to now minus 27 days |
| Dll.HistoryRequest | src/dll.rs:175-190 | The query sends the symbol, interval "1min", the end second decoded from `tEnd`, and as start exactly the later of the second decoded from `tStart` and the retention cutoff now minus 27 days |
| Dll.UsizeOf | src/dll.rs:203 | `nTicks as usize` is nTicks when non-negative and beyond any vector length when negative |
| Dll.KeptCount | src/dll.rs:203 | Truncation keeps min(#bars, nTicks) when nTicks ≥ 0, and every bar when nTicks < 0 |
| Dll.NegativeTicksKeepEveryBar | src/dll.rs:203-205 | With a negative nTicks the truncation keeps every bar, so the copy into `ticks` is bounded by nothing the host passed |
| Dll.CheckedKeptCount | src/dll.rs:203 | Corrected truncation: never more than the available bars, never more than nTicks, none for a negative nTicks, and the same as the source for every non-negative nTicks |
| Dll.ToCInt | src/dll.rs:206 | `as c_int` agrees with its input modulo 2^32 and is the identity on values that fit 32 bits |
| Dll.DecodeAmount | src/dll.rs:234-236 | The side is sell exactly when the amount is negative; the quantity is the amount's magnitude, so side and quantity give back the signed amount |
| Dll.DecodeAmountExamples | src/dll.rs:234-236 | Amount +10 buys 10 and amount -7 sells 7 |
| Dll.MarketOrder | src/dll.rs:247-259 | The posted order is an equity market order, good till cancelled, on the given account and symbol, with the decoded side and quantity |
| Dll.Subscribed | src/dll.rs:147-160 | The new list holds the old symbols plus the asset, keeps the old list as its prefix, grows by one exactly when the asset was new, and stays duplicate-free |
| Dll.SubscribeIdempotent | src/dll.rs:147-160 | Subscribing the same symbol twice is the same as subscribing once |
| Dll.Reversed | src/dll.rs:202 | `Vec::reverse` as a value: the reversed sequence has the same length |
| Dll.ReversedIndex | src/dll.rs:202 | Position i of the reversed sequence holds the element at position len-1-i |
| Dll.ReverseInPlace | src/dll.rs:202 | `Vec::reverse` leaves the buffer holding the reverse of its old contents |
| Dll.Converted | src/dll.rs:194-201 | One candle per provider bar, in the provider's order, each the conversion of its bar |
| Dll.NewestFirst | src/dll.rs:202-203 | The candles after reverse and truncate number exactly KeptCount, and the first of them is the newest bar's candle |
| Dll.NewestFirstIndex | src/dll.rs:192-206 | The candles handed over number KeptCount (at most nTicks when nTicks ≥ 0), and candle i is the conversion of the i-th newest bar |
| Dll.State.constructor | src/dll.rs:47-53 | The state starts with no callback, no subscriptions and no configuration |
| Dll.State.Open | src/dll.rs:73-94 | Writes "TR" into `Name` with the as-written copy, registers the callback, changes nothing else and returns 2 |
| Dll.State.Login | src/dll.rs:96-125 | Stores the token and the endpoint chosen by the account type, whatever the outcome, and returns 1 exactly when the profile lookup with that config succeeds, else 0 |
| Dll.State.Asset | src/dll.rs:127-164 | A non-UTF-8 symbol is logged and returns 0, touching neither subscriptions nor price; a new symbol is appended once and its price set to 0; a known symbol changes nothing; both return 1, and the list stays duplicate-free |
| Dll.State.History2 | src/dll.rs:166-215 | On provider failure returns 0 and leaves `ticks` untouched; on success writes the kept candles newest first to the front of `ticks`, leaves the rest untouched and returns their count as a `c_int` |
| Dll.State.Buy2 | src/dll.rs:217-264 | Posts the market order for the first account of the profile fetched with the stored config, and returns the order id cast to `c_int` |

## Left out

- FFI plumbing: `DllMain`, the `extern` signatures, raw pointers and `CStr`/`CString` handling. A C string crosses in as `Option<string>` and a pointer as an array.
- The `Mutex`/`SyncLazy` around `STATE`, `lock().unwrap()` and `try_lock`. The model is a single-threaded owned object, so poisoned or contended locks are not modelled.
- The log4rs file-logger setup in `BrokerOpen` and the `log::warn!` lines in `BrokerBuy2`. They are file I/O and global logger configuration. Because of them, a second `BrokerOpen` panics in `init_config(..).unwrap()`; the model does not capture this.
- Invoking the host callback. `Dll.LogDelivery` models only the text handed to it and that nothing is sent while no handle is registered.
- The Tradier HTTP clients `get_user_profile`, `get_time_and_sales` and `post_order`. They become the function parameters `lookupProfile`, `timeAndSales` and `postOrder`.
- The conversion of a provider bar into `T6`, whose source is not part of this model. It is the uninterpreted parameter `convert`.
- The `repr(C)`/`repr(align(1))` byte layout of `T6`. Only the field order is kept.
- The serde `Config` struct of src/util.rs. It is data only and no modelled code uses it.
- Util.EpochTimestampToT6Date: `f64`/`f32` rounding is not modelled. Day counts and candle fields are exact reals, which is an idealisation of the floating-point division.
- Util.T6DateToEpochTimestamp: the `f64` product and the saturating `f64 → i64` cast in `round() as i64` are not modelled. Chrono's panics on out-of-range durations and dates are not modelled either.
- Util.TimestampToDatetime: chrono's representable range, and its panic outside it, are not modelled.
- Dll.State.History2: `now` is taken as a whole Unix second, so the sub-second part of `Utc::now()` is not modelled. The `checked_sub_signed(..).unwrap()` overflow is not modelled either. The unused `session_filter` argument (`None`) is not part of `HistoryQuery`.
- Dll.State.Buy2: the unused `StopDist`, `Limit`, `pPrice` and `pFill` arguments, and the three `None` price/stop/tag arguments of `post_order`, are not modelled.
- Dll.State.Login: the unused `User` and `Accounts` arguments are not modelled.
- Dll.State.History2: the source passes `nTicks as usize` to `truncate`, so a negative `nTicks` copies every provider bar into `ticks` with no bound and can overrun the host's buffer. The model does not capture that overrun. It requires instead that `ticks` holds the kept count; for a negative `nTicks` that is every bar the provider returns (see Findings).
- Dll.UsizeOf: models `as usize` on a 64-bit target, where a negative `nTicks` becomes n + 2^64. On a 32-bit target it becomes n + 2^32 and the bound `u >= 2^63` does not hold. The kept count is the same on both, because a vector there holds fewer than 2^31 elements.
- Dll.DecodeAmount: requires `Amount != i32::MIN`. For that value the source's `abs()` overflows, so the model states no behaviour there.

## Findings

| source | as written | input that shows it | evidently intended | confidence | as-written member | corrected member |
|---|---|---|---|---|---|---|
| src/dll.rs:203-205 | `truncate(nTicks as usize)` turns a negative `nTicks` into a huge length, so every bar is copied into `ticks` | nTicks = -1 with 10 bars from the provider: 10 records are written into a buffer the host sized from nTicks | a negative count leaves room for no records, so nothing is copied | not executed; medium | Dll.NegativeTicksKeepEveryBar | Dll.CheckedKeptCount |
| src/util.rs:25-26 | `copy_into` writes the zero terminator at `dst + len + 1`, skipping index `len` | "TR" into a `Name` buffer whose bytes are all 1: the host reads "TR\x01" | the terminator at `dst + len`, so the host reads exactly the source | not executed; high | Util.CopyIntoReadBack | Util.TerminatedCopyReadBack |

Util.CopyIntoCounterexample exhibits the input in the table. The corrected
copy is Util.CopyIntoTerminated. `Dll.State.Open` keeps the as-written
`Util.CopyInto`, so that its contract describes what `BrokerOpen` actually
writes into `Name`. The host sees "TR" only when byte 2 of its buffer was
already zero. In the same way `Dll.State.History2` keeps the as-written
`Dll.KeptCount`; `Dll.CheckedKeptCount` is the corrected count.

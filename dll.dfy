/**
 * The broker entry points of src/dll.rs and the process-wide session state
 * they share.
 *
 * Each remote Tradier call (profile lookup, time and sales, order post) is a
 * function parameter that receives exactly the arguments the plugin sends,
 * and the host's conversion of a provider bar into a candle is the parameter
 * `convert`. A `CStr::to_str` result crosses in as an `Option<string>`
 * (`None` for bytes that are not UTF-8), and a host pointer as an array.
 */
module Dll {
  import opened Wrappers
  import opened Types
  import opened Util

  /** The host's error callback, identified by its address. */
  datatype FnPtr = FnPtr(address: nat)

  /** The credentials every remote call is made with. */
  datatype TradierConfig = TradierConfig(token: string, endpoint: string)

  datatype Account = Account(accountNumber: string)

  datatype Profile = Profile(accounts: seq<Account>)

  /** The time-and-sales query: symbol, interval and the range in Unix seconds. */
  datatype HistoryQuery = HistoryQuery(symbol: string, interval: string, startSeconds: int, endSeconds: int)

  datatype Side = Buy | Sell

  datatype OrderClass = Equity

  datatype OrderType = Market

  datatype OrderDuration = Gtc

  datatype OrderRequest = OrderRequest(
    account: string, orderClass: OrderClass, symbol: string, side: Side,
    quantity: nat, orderType: OrderType, duration: OrderDuration)

  datatype OrderResponse = OrderResponse(id: int)

  const LiveEndpoint: string := "https://api.tradier.com"
  const SandboxEndpoint: string := "https://sandbox.tradier.com"

  /** The provider serves no history older than this many days. */
  const RetentionDays: int := 27

  /** The broker name `BrokerOpen` reports: the bytes of "TR". */
  const BrokerName: seq<Byte> := [84, 82]

  const AssetConversionMessage: string := "Could not convert asset to a string"

  // ---------------------------------------------------------------------
  // Decisions the entry points make

  /** `BrokerCommand`: code 43 answers 300, every other code the neutral 0. */
  function Command(command: CInt, data: CInt): (r: real)
    ensures r != 0.0 <==> command == 43
    ensures r == 0.0 || r == 300.0
  {
    if command == 43 then 300.0 else 0.0
  }

  /** The endpoint `BrokerLogin` chooses for an account type. */
  function EndpointFor(kind: string): (endpoint: string)
    ensures endpoint == LiveEndpoint <==> kind == "Real"
    ensures endpoint == SandboxEndpoint <==> kind != "Real"
  {
    if kind == "Real" then LiveEndpoint else SandboxEndpoint
  }

  /** `log`: the text handed to the host's callback, if one is registered. */
  function LogDelivery(handle: Option<FnPtr>, msg: string): (delivered: Option<string>)
    ensures delivered.Some? <==> handle.Some?
    ensures delivered.Some? ==> |delivered.value| == |msg| + 1
    ensures delivered.Some? ==> delivered.value[..|msg|] == msg && delivered.value[|msg|] == '\n'
  {
    if handle.Some? then Some(msg + "\n") else None
  }

  /** The start of the range actually requested: never before the retention window. */
  function ClampStart(startSeconds: int, nowSeconds: int): (r: int)
    ensures r >= startSeconds && r >= nowSeconds - RetentionDays * SecondsInADay
    ensures r == startSeconds || r == nowSeconds - RetentionDays * SecondsInADay
  {
    if startSeconds >= nowSeconds - RetentionDays * SecondsInADay then startSeconds
    else nowSeconds - RetentionDays * SecondsInADay
  }

  /** A request for data ninety days back is narrowed to the retention window. */
  lemma ClampNinetyDaysBack(nowSeconds: int)
    ensures ClampStart(nowSeconds - 90 * SecondsInADay, nowSeconds)
         == nowSeconds - RetentionDays * SecondsInADay
  {
  }

  /** The query `BrokerHistory2` sends for a symbol and a day-count range. */
  function HistoryRequest(symbol: string, tStart: real, tEnd: real, nowSeconds: int): (q: HistoryQuery)
    ensures q.symbol == symbol && q.interval == "1min"
    ensures q.startSeconds >= nowSeconds - RetentionDays * SecondsInADay
    ensures q.startSeconds >= TimestampToDatetime(T6DateToEpochTimestamp(tStart))
    ensures q.startSeconds == TimestampToDatetime(T6DateToEpochTimestamp(tStart))
         || q.startSeconds == nowSeconds - RetentionDays * SecondsInADay
    ensures 1000 * q.endSeconds == T6DateToEpochTimestamp(tEnd)
  {
    HistoryQuery(symbol, "1min",
      ClampStart(TimestampToDatetime(T6DateToEpochTimestamp(tStart)), nowSeconds),
      TimestampToDatetime(T6DateToEpochTimestamp(tEnd)))
  }

  /** `n as usize` on a 64-bit target: a negative count wraps past any vector length. */
  function UsizeOf(n: CInt): (u: nat)
    ensures 0 <= n ==> u == n
    ensures n < 0 ==> u >= 0x8000_0000_0000_0000
  {
    if n >= 0 then n else n + 0x1_0000_0000_0000_0000
  }

  /** How many candles `truncate(nTicks as usize)` keeps out of `available`. */
  function KeptCount(available: nat, nTicks: CInt): (k: nat)
    ensures k <= available
    ensures 0 <= nTicks ==> k == if available <= nTicks then available else nTicks
    ensures nTicks < 0 && available < 0x8000_0000_0000_0000 ==> k == available
  {
    var limit := UsizeOf(nTicks);
    if available <= limit then available else limit
  }

  /** A negative `nTicks` keeps every bar, so the copy is bounded by nothing the host passed. */
  lemma NegativeTicksKeepEveryBar(available: nat, nTicks: CInt)
    requires nTicks < 0 && available < 0x8000_0000_0000_0000
    ensures KeptCount(available, nTicks) == available
    ensures available > 0 ==> KeptCount(available, nTicks) > 0
  {
  }

  /** The truncation with the host's count as a capacity: a negative `nTicks` leaves room for nothing. */
  function CheckedKeptCount(available: nat, nTicks: CInt): (k: nat)
    ensures k <= available
    ensures k <= if nTicks < 0 then 0 else nTicks
    ensures 0 <= nTicks ==> k == KeptCount(available, nTicks)
  {
    if nTicks < 0 then 0 else KeptCount(available, nTicks)
  }

  /** `x as c_int`: the low 32 bits of `x`, read as a two's-complement number. */
  function ToCInt(x: int): (r: CInt)
    ensures (x - r) % 0x1_0000_0000 == 0
    ensures MinCInt <= x <= MaxCInt ==> r == x
  {
    var low := x % 0x1_0000_0000;
    if low <= MaxCInt then low else low - 0x1_0000_0000
  }

  /** The side and size `BrokerBuy2` derives from a signed amount. */
  function DecodeAmount(amount: CInt): (order: (Side, nat))
    requires amount != MinCInt
    ensures order.0 == Sell <==> amount < 0
    ensures order.1 <= MaxCInt
    ensures SignedAmount(order.0, order.1) == amount
  {
    if amount < 0 then (Sell, -amount) else (Buy, amount)
  }

  /** The signed amount the host would pass for a side and size. */
  function SignedAmount(side: Side, quantity: nat): int
  {
    if side == Sell then -(quantity as int) else quantity
  }

  /** Amount 10 buys 10 and amount -7 sells 7. */
  lemma DecodeAmountExamples()
    ensures DecodeAmount(10) == (Buy, 10) && DecodeAmount(-7) == (Sell, 7)
  {
  }

  /** The market order `BrokerBuy2` posts for `amount` of `symbol` on `account`. */
  function MarketOrder(account: string, symbol: string, amount: CInt): (request: OrderRequest)
    requires amount != MinCInt
    ensures request.account == account && request.symbol == symbol
    ensures request.side == Sell <==> amount < 0
    ensures request.quantity == if amount < 0 then -amount else amount
    ensures request.orderClass == Equity && request.orderType == Market && request.duration == Gtc
  {
    var (side, quantity) := DecodeAmount(amount);
    OrderRequest(account, Equity, symbol, side, quantity, Market, Gtc)
  }

  // ---------------------------------------------------------------------
  // Subscriptions

  ghost predicate NoDuplicates(s: seq<string>)
  {
    forall i, j :: 0 <= i < j < |s| ==> s[i] != s[j]
  }

  /** The subscription list after `BrokerAsset(symbol)`: the symbol is appended unless already present. */
  function Subscribed(subscriptions: seq<string>, symbol: string): (r: seq<string>)
    ensures forall s :: s in r <==> s in subscriptions || s == symbol
    ensures |r| == if symbol in subscriptions then |subscriptions| else |subscriptions| + 1
    ensures r[..|subscriptions|] == subscriptions
    ensures NoDuplicates(subscriptions) ==> NoDuplicates(r)
  {
    if symbol in subscriptions then subscriptions else subscriptions + [symbol]
  }

  /** Subscribing twice to a symbol is the same as subscribing once. */
  lemma SubscribeIdempotent(subscriptions: seq<string>, symbol: string)
    ensures Subscribed(Subscribed(subscriptions, symbol), symbol) == Subscribed(subscriptions, symbol)
  {
  }

  // ---------------------------------------------------------------------
  // Candles

  /** A sequence read from its last element to its first, as `Vec::reverse` leaves it. */
  function Reversed<T>(s: seq<T>): (r: seq<T>)
    ensures |r| == |s|
    decreases |s|
  {
    if |s| == 0 then [] else [s[|s| - 1]] + Reversed(s[..|s| - 1])
  }

  lemma {:induction false} ReversedIndex<T>(s: seq<T>, i: nat)
    requires i < |s|
    ensures Reversed(s)[i] == s[|s| - 1 - i]
  {
    if i > 0 {
      ReversedIndex(s[..|s| - 1], i - 1);
    }
  }

  /** `Vec::reverse` on the candle buffer. */
  method ReverseInPlace<T>(a: array<T>)
    modifies a
    ensures a[..] == Reversed(old(a[..]))
  {
    var lo, hi := 0, a.Length - 1;
    while lo < hi
      invariant 0 <= lo && hi == a.Length - 1 - lo && lo <= a.Length / 2
      invariant forall k :: 0 <= k < lo ==> a[k] == old(a[a.Length - 1 - k]) && a[a.Length - 1 - k] == old(a[k])
      invariant forall k :: lo <= k <= hi ==> a[k] == old(a[k])
    {
      a[lo], a[hi] := a[hi], a[lo];
      lo, hi := lo + 1, hi - 1;
    }
    forall k | 0 <= k < a.Length
      ensures a[k] == Reversed(old(a[..]))[k]
    {
      ReversedIndex(old(a[..]), k);
    }
  }

  /** The provider's bars converted to candles, in the provider's (oldest-first) order. */
  function Converted<B>(bars: seq<B>, convert: B -> T6): (candles: seq<T6>)
    ensures |candles| == |bars|
    ensures forall i :: 0 <= i < |bars| ==> candles[i] == convert(bars[i])
  {
    seq(|bars|, i requires 0 <= i < |bars| => convert(bars[i]))
  }

  /** The candles `BrokerHistory2` hands to the host: newest first, truncated to `nTicks`. */
  function NewestFirst<B>(bars: seq<B>, convert: B -> T6, nTicks: CInt): (candles: seq<T6>)
    ensures |candles| == KeptCount(|bars|, nTicks)
    ensures |bars| > 0 && KeptCount(|bars|, nTicks) > 0 ==> candles[0] == convert(bars[|bars| - 1])
  {
    Reversed(Converted(bars, convert))[..KeptCount(|bars|, nTicks)]
  }

  /** Candle `i` handed to the host is the `i`-th newest bar, and there are at most `nTicks` of them. */
  lemma NewestFirstIndex<B>(bars: seq<B>, convert: B -> T6, nTicks: CInt)
    ensures |NewestFirst(bars, convert, nTicks)| == KeptCount(|bars|, nTicks)
    ensures 0 <= nTicks ==> |NewestFirst(bars, convert, nTicks)| <= nTicks
    ensures forall i :: 0 <= i < |NewestFirst(bars, convert, nTicks)| ==>
      NewestFirst(bars, convert, nTicks)[i] == convert(bars[|bars| - 1 - i])
  {
    forall i | 0 <= i < KeptCount(|bars|, nTicks)
      ensures NewestFirst(bars, convert, nTicks)[i] == convert(bars[|bars| - 1 - i])
    {
      ReversedIndex(Converted(bars, convert), i);
    }
  }

  // ---------------------------------------------------------------------
  // The session state and the entry points that use it

  /** The process-wide `STATE`: the host callback, the subscribed symbols and the login configuration. */
  class State {
    var handle: Option<FnPtr>
    var subscriptions: seq<string>
    var config: Option<TradierConfig>

    /** No symbol is subscribed twice. */
    ghost predicate Valid()
      reads this
    {
      NoDuplicates(subscriptions)
    }

    /** The state as first used: no callback, no subscriptions, not logged in. */
    constructor ()
      ensures Valid()
      ensures handle == None && subscriptions == [] && config == None
    {
      handle := None;
      subscriptions := [];
      config := None;
    }

    /**
     * `BrokerOpen`: writes the broker name into the host's `Name` buffer with
     * `copy_into`, registers the error callback and reports success (2).
     */
    method Open(name: array<Byte>, fpError: FnPtr) returns (status: CInt)
      requires Valid()
      requires |BrokerName| + 2 <= name.Length
      modifies this`handle, name
      ensures Valid()
      ensures handle == Some(fpError)
      ensures name[..] == WrittenByCopyInto(BrokerName, old(name[..]))
      ensures status == 2
    {
      var _ := CopyInto(BrokerName, name);
      handle := Some(fpError);
      status := 2;
    }

    /**
     * `BrokerLogin`: stores the configuration for the endpoint the account
     * type selects, before checking it, and reports whether the profile
     * lookup with it succeeded.
     */
    method Login(pwd: Option<string>, kind: Option<string>,
                 lookupProfile: TradierConfig -> Result<Profile, string>) returns (status: CInt)
      requires Valid()
      requires kind.Some? && pwd.Some?
      modifies this`config
      ensures Valid()
      ensures config == Some(TradierConfig(pwd.value, EndpointFor(kind.value)))
      ensures status == 1 <==> lookupProfile(config.value).Success?
      ensures status == 0 <==> lookupProfile(config.value).Failure?
    {
      var endpoint := EndpointFor(kind.value);
      var cfg := TradierConfig(pwd.value, endpoint);
      config := Some(cfg);
      var profile := lookupProfile(cfg);
      if profile.Success? {
        status := 1;
      } else {
        status := 0;
      }
    }

    /**
     * `BrokerAsset`: a symbol that is not UTF-8 is logged and refused (0);
     * a new symbol is subscribed and its price reported as 0; a subscribed
     * one changes nothing. Both of the latter report 1.
     */
    method Asset(asset: Option<string>, pPrice: array<real>) returns (status: CInt, delivered: Option<string>)
      requires Valid()
      requires pPrice.Length == 1
      modifies this`subscriptions, pPrice
      ensures Valid()
      ensures asset.None? ==> status == 0 && delivered == LogDelivery(handle, AssetConversionMessage)
      ensures asset.None? ==> subscriptions == old(subscriptions) && pPrice[0] == old(pPrice[0])
      ensures asset.Some? ==> status == 1 && delivered == None
      ensures asset.Some? ==> subscriptions == Subscribed(old(subscriptions), asset.value)
      ensures asset.Some? && asset.value in old(subscriptions) ==> pPrice[0] == old(pPrice[0])
      ensures asset.Some? && asset.value !in old(subscriptions) ==> pPrice[0] == 0.0
    {
      if asset.None? {
        delivered := LogDelivery(handle, AssetConversionMessage);
        status := 0;
        return;
      }
      delivered := None;
      var symbol := asset.value;
      if symbol !in subscriptions {
        subscriptions := subscriptions + [symbol];
        pPrice[0] := 0.0;
      }
      status := 1;
    }

    /**
     * `BrokerHistory2`: asks the provider for one-minute bars from the
     * clamped start to the end date; on success writes them newest first,
     * at most `nTicks` of them, to the front of `ticks` and returns how many;
     * on failure returns 0 and writes nothing.
     */
    method History2<B>(asset: Option<string>, tStart: real, tEnd: real, nTickMinutes: CInt, nTicks: CInt,
                       ticks: array<T6>, nowSeconds: int, convert: B -> T6,
                       timeAndSales: (TradierConfig, HistoryQuery) -> Result<seq<B>, string>)
      returns (count: CInt)
      requires nTickMinutes == 1
      requires asset.Some? && config.Some?
      requires var history := timeAndSales(config.value, HistoryRequest(asset.value, tStart, tEnd, nowSeconds));
               history.Success? ==> KeptCount(|history.value|, nTicks) <= ticks.Length
      modifies ticks
      ensures var history := timeAndSales(config.value, HistoryRequest(asset.value, tStart, tEnd, nowSeconds));
              history.Failure? ==> count == 0 && ticks[..] == old(ticks[..])
      ensures var history := timeAndSales(config.value, HistoryRequest(asset.value, tStart, tEnd, nowSeconds));
              var kept := if history.Success? then KeptCount(|history.value|, nTicks) else 0;
              history.Success? ==>
                && count == ToCInt(kept)
                && ticks[..kept] == NewestFirst(history.value, convert, nTicks)
                && ticks[kept..] == old(ticks[kept..])
    {
      var query := HistoryRequest(asset.value, tStart, tEnd, nowSeconds);
      var history := timeAndSales(config.value, query);
      if history.Failure? {
        count := 0;
        return;
      }
      var bars := history.value;
      var candles := new T6[|bars|];
      var i := 0;
      while i < |bars|
        invariant 0 <= i <= |bars|
        invariant forall k :: 0 <= k < i ==> candles[k] == convert(bars[k])
        modifies candles
      {
        candles[i] := convert(bars[i]);
        i := i + 1;
      }
      assert candles[..] == Converted(bars, convert);
      ReverseInPlace(candles);
      var kept := KeptCount(candles.Length, nTicks);
      CopyNonoverlapping(candles[..], ticks, kept);
      count := ToCInt(kept);
      assert ticks[..kept] == candles[..kept];
      assert forall k :: kept <= k < ticks.Length ==> ticks[k] == old(ticks[k]);
      assert ticks[kept..] == old(ticks[kept..]);
    }

    /**
     * `BrokerBuy2`: posts a market, good-till-cancelled equity order on the
     * first account of the profile, selling when `amount` is negative and
     * buying otherwise, and returns the order id as a `c_int`.
     */
    method Buy2(asset: Option<string>, amount: CInt,
                lookupProfile: TradierConfig -> Result<Profile, string>,
                postOrder: (TradierConfig, OrderRequest) -> Result<OrderResponse, string>)
      returns (orderId: CInt)
      requires config.Some?
      requires lookupProfile(config.value).Success? && |lookupProfile(config.value).value.accounts| > 0
      requires amount != MinCInt
      requires asset.Some?
      requires postOrder(config.value, MarketOrder(lookupProfile(config.value).value.accounts[0].accountNumber,
                                                   asset.value, amount)).Success?
      ensures orderId == ToCInt(postOrder(config.value, MarketOrder(
                lookupProfile(config.value).value.accounts[0].accountNumber, asset.value, amount)).value.id)
    {
      var cfg := config.value;
      var account := lookupProfile(cfg).value.accounts[0].accountNumber;
      var request := MarketOrder(account, asset.value, amount);
      var response := postOrder(cfg, request);
      orderId := ToCInt(response.value.id);
    }
  }
}

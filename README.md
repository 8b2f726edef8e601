# MemeKipedia trading and upload core, in Dafny

MemeKipedia gives every wiki page a meme token on the MemeCore chain. The
token is first traded on a bonding curve, paid in the native M asset. Later
it is traded on a constant-product pool against wrapped M. This project
models the logic that decides and settles those trades on the client and
server side:

- `native_bonding_curve.dfy`: buying from and selling to the bonding curve,
  with the curve's allowance check and approval
  (`lib/memecore/native-bonding-curve-service.ts`).
- `swap_service.dfy`: swaps through the router (`lib/memecore/swap-service.ts`).
- `pool_creator.dfy`: creating and seeding a pool from the deployer's account
  (`lib/memecore/pool-creator.ts`).
- `trade_bounds.dfy`: the slippage bounds, deadlines and liquidity minimums
  these three share.
- `ledger.dfy`: the chain state the services touch. Allowances follow EIP-20
  `approve`/`allowance`. Every mined write is kept in an ordered history.
- `trading_panel.dfy`: the buy/sell panel of a wiki page
  (`components/wiki/trading-panel.tsx`). It covers which back-end trades, the
  approval check, the balance check, the Max button, the action button, and
  the Approve and Buy/Sell handlers.
- `event_indexer.dfy`: OHLC candles built from a pool's swap events, the
  block window, and the trailing slice (`lib/memecore/event-indexer.ts`).
- `pool_service.dfy`: pool lookup and reserve orientation
  (`lib/memecore/pool-service.ts`).
- `config.dfy` and `utils.dfy`: the network table, explorer links, ticker
  sanitising, supply and address helpers (`lib/memecore/config.ts`,
  `lib/memecore/utils.ts`).
- `ipfs.dfy`, `upload_route.dfy`, `media_upload.dfy` and
  `image_upload_button.dfy`: the upload validators and their outcome rules
  (`lib/ipfs.ts`, `app/api/upload/route.ts`,
  `components/media-upload-area.tsx`, `components/image-upload-button.tsx`).
- `wrappers.dfy`, `js_math.dfy` and `strings.dfy`: shared helpers. They hold
  Option/Result, JavaScript's integer division and floor, and ASCII string
  operations.

Amounts are exact integers in wei. Slippage tolerances and prices are exact
reals. Everything the program asks of the outside world is a parameter:

- RPC reads (`Read<T>`: an answer or a throw);
- wallet and receipt outcomes (`TxOutcome`);
- Pinata and `/api/upload` replies;
- `Date.now()`.

State that the source mutates is a class: the chain (`Ledger.Chain`), the
panel's React state (`TradingPanel.Panel`) and the two upload components.
Each of their methods is specified against pure functions. Lemmas are proved
about those functions.

## Model

| member | source | states |
|---|---|---|
| MemecoreConfig.GetNetworkConfig | lib/memecore/config.ts:5-45 | Every network's currency symbol is "M". Every explorer root ends in exactly one "/". Exactly the two testnets have a faucet. |
| MemecoreConfig.ChainIdsDistinct | lib/memecore/config.ts:5-32 | The chain ids are 4352, 43522 and 43521. Different networks never share a chain id. |
| MemecoreConfig.DefaultNetwork | lib/memecore/config.ts:37-38 | An unset variable selects insectarium. "mainnet", "insectarium" and "formicarium" select their own networks: a set variable selects exactly the network whose key it is. A value naming no network selects nothing. |
| MemecoreConfig.EveryKeySelectsItsNetwork | lib/memecore/config.ts:34-38 | Every network's key selects that network, and a set variable that selects a network is its key. |
| MemecoreConfig.GetExplorerUrl | lib/memecore/config.ts:47-50 | The link is the network's explorer root, then "address/" and the address. |
| MemecoreConfig.GetTxExplorerUrl | lib/memecore/config.ts:52-55 | The link is the network's explorer root, then "tx/" and the hash. |
| MemecoreConfig.SingleSeparator | lib/memecore/config.ts:11-27 | In both kinds of link, the path segment is preceded by exactly one "/". |
| MemecoreUtils.KeepSymbolChars | lib/memecore/utils.ts:17-20 | Only A-Z and 0-9 survive the filter. A string of them only is returned whole. The result is empty exactly when no character qualifies. |
| MemecoreUtils.Candidate | lib/memecore/utils.ts:23-30 | A leading digit gets an "M" in front. Nothing left gives "MEME". The result never starts with a digit. |
| MemecoreUtils.SanitizeTokenSymbol | lib/memecore/utils.ts:15-34 | The symbol has 1 to 6 characters, all in A-Z or 0-9, and never a leading digit. It is "MEME" for a title without them. Otherwise it is the filtered title's first 6 characters, or "M" plus its first 5. |
| MemecoreUtils.NoLettersGiveMeme | lib/memecore/utils.ts:28-30 | A title with no ASCII letter or digit yields exactly "MEME". |
| MemecoreUtils.SanitizeIdempotent | lib/memecore/utils.ts:15-34 | Sanitising a sanitised symbol returns it unchanged. |
| MemecoreUtils.GenerateTokenDescription | lib/memecore/utils.ts:39-41 | The text starts with the title and the fixed lead-in, and ends with the category and the fixed tail. |
| MemecoreUtils.WholeTokens | lib/memecore/utils.ts:46-51 | The whole-token count is the supply divided by 10^decimals, truncated toward zero. The bounds are stated for both signs. |
| MemecoreUtils.WholeTokensOfMultiple | lib/memecore/utils.ts:46-51 | A supply that is a whole number of tokens converts back to exactly that number. |
| MemecoreUtils.IsValidAddress | lib/memecore/utils.ts:56-58 | An address is valid exactly when it is "0x" followed by forty characters, each a hex digit of either case. |
| MemecoreUtils.ValidityIgnoresHexCase | lib/memecore/utils.ts:56-58 | Changing the case of a valid address's hex digits keeps it valid, so no checksum is tested. |
| MemecoreUtils.TruncateAddress | lib/memecore/utils.ts:63-66 | An invalid address comes back unchanged. A valid one keeps its first chars+2 and last chars characters around "...". |
| MemecoreUtils.TruncateDefault | lib/memecore/utils.ts:63-66 | With the default of 4, a valid address shows its first 6 and last 4 characters, 13 in all. |
| TradeBounds.BasisPoints | lib/memecore/swap-service.ts:69 | The result is the percentage times 100, rounded down. |
| TradeBounds.MinOut | lib/memecore/swap-service.ts:68-70 | The minimum output is the quote times the remaining basis points over 10000, rounded down. It never exceeds the quote for a tolerance from 0 to 100. Above 100 it is at most 0. |
| TradeBounds.MaxIn | lib/memecore/native-bonding-curve-service.ts:228 | The corrected buy ceiling is the cost times (100+s)% in basis points, rounded down. It is never below the cost for s ≥ 0. |
| TradeBounds.WiderToleranceLooser | lib/memecore/swap-service.ts:68-70 | A wider tolerance only lowers the minimum output and only raises the maximum input. |
| TradeBounds.Deadline | lib/memecore/swap-service.ts:73 | The deadline is the current whole second plus 1200. |
| TradeBounds.LiquidityMin | lib/memecore/pool-creator.ts:184-185 | The minimum is never above the amount, and never more than 1% (rounded up) below it. |
| NativeBondingCurve.Settle | lib/memecore/native-bonding-curve-service.ts:242-252 | A trade succeeds exactly when its write was mined with success. It then reports the hash and the quoted figures. |
| NativeBondingCurve.MaxMInAsWritten | lib/memecore/native-bonding-curve-service.ts:228 | As written, the buy ceiling exists exactly for whole-number tolerances. It is the cost times (100+s)/100, rounded down, and at least the cost for s ≥ 0. |
| NativeBondingCurve.MinMOutAsWritten | lib/memecore/native-bonding-curve-service.ts:275 | As written, the sell floor exists exactly for whole-number tolerances. It is the return times (100−s)/100, rounded down, and at most the return for 0 ≤ s ≤ 100. |
| NativeBondingCurve.HalfPercentToleranceThrows | lib/memecore/native-bonding-curve-service.ts:228-275 | With a tolerance of 0.5, both bounds as written throw. |
| NativeBondingCurve.BoundsAgreeOnWholeTolerances | lib/memecore/native-bonding-curve-service.ts:228-275 | For whole-number tolerances, the corrected basis-point bounds equal the bounds as written. |
| NativeBondingCurve.TokenBalanceOrZero | lib/memecore/native-bonding-curve-service.ts:325-347 | A balance read that throws gives 0. Otherwise the balance is returned. |
| NativeBondingCurve.CheckAllowance | lib/memecore/native-bonding-curve-service.ts:352-370 | The answer is true exactly when the curve's allowance on the token is at least the amount. A failed read is an error. |
| NativeBondingCurve.ApproveToken | lib/memecore/native-bonding-curve-service.ts:375-393 | Exactly the approval is written. The hash is returned whatever the receipt's status. A successful receipt sets the allowance to the amount. |
| NativeBondingCurve.BuyFromCurve | lib/memecore/native-bonding-curve-service.ts:219-253 | A buy never changes an allowance. A failed quote, or a tolerance with a fractional part, writes nothing and fails. Otherwise one buy write is made, with the bound as written as both maxMIn and the native value. The report carries the quoted cost. |
| NativeBondingCurve.SellToCurve | lib/memecore/native-bonding-curve-service.ts:258-320 | A failed read, or a tolerance with a fractional part, writes nothing and fails (NotAnInteger for the tolerance). A sell approves exactly tokensIn only when the allowance is below it. The sell is written only once that approval is sent, with the quote lowered as written as the minimum. The report carries the quoted return. |
| NativeBondingCurve.SellAfterApproval | lib/memecore/native-bonding-curve-service.ts:278-306 | A successful sell had a whole-number tolerance and ends with the sell at the as-written minimum. Before it, either the allowance already covered it or a mined approval of exactly tokensIn was written. |
| SwapService.Side.Other | lib/memecore/swap-service.ts:126-132 | The reported toToken is always the other side from fromToken. |
| SwapService.SwapPath | lib/memecore/swap-service.ts:53-56 | The path is [M, token] when selling M and [token, M] otherwise. It runs from the sold token to the bought one. |
| SwapService.ReversedPath | lib/memecore/swap-service.ts:53-56 | Swapping the other way walks the same pair in reverse. |
| SwapService.SwapCall | lib/memecore/swap-service.ts:104-115 | The router swap sends to the user with the right path and deadline. Its minimum output never exceeds the quote for a tolerance from 0 to 100. |
| SwapService.ExecuteSwap | lib/memecore/swap-service.ts:35-133 | Without configuration, or when a read fails, nothing is written. The quote is the router's output for amountIn along the swap path. The sold token is approved for exactly amountIn only when its allowance is lower, and that approval comes before the swap. Success means the swap was mined with success. It reports the quote that getSwapQuote gives for the same amount and path. |
| SwapService.GetSwapQuote | lib/memecore/swap-service.ts:138-176 | An unconfigured service is an error. Otherwise the router is asked for amountIn along [M, token] when selling M and [token, M] when selling the token. Its failure is QuoteFailed. Its answer is the quote's output, with a price impact of 0.1. |
| SwapService.GetTokenBalance | lib/memecore/swap-service.ts:181-194 | Unlike the curve service, a failed balance read propagates as an error. |
| SwapService.CheckAllowance | lib/memecore/swap-service.ts:199-219 | No router is an error. Otherwise the answer is true exactly when the router's allowance is at least the amount. |
| SwapService.ApproveToken | lib/memecore/swap-service.ts:224-245 | No router writes nothing. Otherwise exactly one approval to the router is written. A successful receipt sets the allowance to the amount. |
| SwapService.SwapLeavesApprovedAllowance | lib/memecore/swap-service.ts:76-124 | After a successful swap, the router's allowance is the old one if it sufficed. Otherwise it is the amount of the mined approval, when that approval succeeded. |
| PoolService.GetPoolAddress | lib/memecore/pool-service.ts:58-85 | The result is null exactly when the factory or M is unset, the pair is the zero address, or the read throws. |
| PoolService.PoolExists | lib/memecore/pool-service.ts:156-162 | The pool exists exactly when getPoolAddress is non-null. |
| PoolService.Orient | lib/memecore/pool-service.ts:132-134 | With M as token0 the sides are (reserve0, reserve1), else swapped. They are always a permutation of the two reserves. |
| PoolService.OrientSwapped | lib/memecore/pool-service.ts:132-134 | Listing the pair the other way round yields the same sides. |
| PoolService.Price | lib/memecore/pool-service.ts:137-138 | A price is 0 over an empty reserve. Otherwise it is the exact ratio of the reserves. |
| PoolService.GetPoolReserves | lib/memecore/pool-service.ts:98-151 | Without a pool or after any failed read, the result is all zeros. Otherwise the sides follow token0's case-insensitive comparison with M, and each price is the ratio of the reserves. |
| PoolService.PricesReciprocal | lib/memecore/pool-service.ts:137-138 | With both reserves non-zero, the two prices multiply to 1. |
| PoolService.GetPoolStats | lib/memecore/pool-service.ts:176-191 | exists equals the reserves' poolExists. Liquidity is the M reserve in whole tokens. A reported pool had a non-null address in the reserves' read. |
| PoolService.ConsistentStats | lib/memecore/pool-service.ts:176-191 | When both getPair reads agree, a pool reported to exist comes with that address. |
| PoolCreator.ResolveNetwork | lib/memecore/pool-creator.ts:43-44 | A given network wins. Otherwise the default is used, which is insectarium when unset. |
| PoolCreator.ChosenAmount | lib/memecore/pool-creator.ts:59-60 | The parameter wins, then the environment override, then the built-in default of 100 M or 500000 tokens. |
| PoolCreator.Guard | lib/memecore/pool-creator.ts:47-56 | The run passes exactly when factory, router and M are set and the key starts with "0x". Missing contracts are reported first. |
| PoolCreator.PoolToFund | lib/memecore/pool-creator.ts:104-145 | An existing non-zero pair is reused. Otherwise only a pair whose creation was mined with success is funded. |
| PoolCreator.AddLiquidityCall | lib/memecore/pool-creator.ts:173-188 | Token A is the wiki token and B is M, with desired amounts in that order. The minimums are within 1% below them. The deadline is now + 1200 seconds. |
| PoolCreator.ObtainPool | lib/memecore/pool-creator.ts:104-145 | A pair is created only when getPair answered zero. The result is the pool to fund, and a failed creation receipt is an error. |
| PoolCreator.FundPool | lib/memecore/pool-creator.ts:151-199 | The router is approved for exactly the M amount, then the token amount, each only after the previous write was sent, then the liquidity is added. Success means that write was mined with success. |
| PoolCreator.CreatePoolAndAddLiquidity | lib/memecore/pool-creator.ts:40-222 | A failed guard or unknown network writes nothing. Otherwise the writes are create (if needed), approve M, approve token, add liquidity, in that order. Success echoes the chosen amounts, the pool and its explorer link. |
| PoolCreator.GetPoolInfo | lib/memecore/pool-creator.ts:227-307 | An unknown network, a missing factory or M address, and a failed read are errors. A zero pair gives null. An info is returned exactly when the set-up network, factory and M, a non-zero pair, and all three pair reads answer. It carries the pair address, the read reserves, timestamp, token0 and token1, and the reserves by side follow the same token0 orientation as getPoolReserves. |
| PoolCreator.PoolInfoAgreesWithReserves | lib/memecore/pool-creator.ts:289-300 | When getPoolReserves reads the same pair, the same two reserves and the same token0, it finds the pool and gives the same M and token reserves as getPoolInfo. |
| PoolCreator.GetSwapQuote | lib/memecore/pool-creator.ts:312-365 | Given a network, router and M, the router is read for amountIn along [M, token] when selling M and [token, M] otherwise. The quote is exactly that read's two amounts and that path, with a price impact of 0. A failed read is an error. |
| PoolCreator.QuoteAgreesWithSwapService | lib/memecore/pool-creator.ts:343-355 | Against the same router, the server-side quote walks the client's swap path and reports the output the client-side quote reports. |
| Ledger.LastApprovalWins | lib/memecore/native-bonding-curve-service.ts:286-297 | An allowance is the amount of the last successful approval for that owner, spender and token. Approving overwrites rather than adds. |
| Ledger.NoApprovalNoChange | lib/memecore/native-bonding-curve-service.ts:219-253 | Writes that are not approvals of a key leave its allowance at the initial value. |
| Ledger.Chain.Submit | lib/memecore/native-bonding-curve-service.ts:233-246 | A write is rejected if an argument does not encode as uint256. A refused write changes nothing. A mined one is appended to the history, and a successful approval sets that allowance. |
| TradingPanel.BackendOf | components/wiki/trading-panel.tsx:62-63 | A curve address selects the curve. A pool is used only without a curve and with a non-zero pool address. |
| TradingPanel.TradingAvailable | components/wiki/trading-panel.tsx:67 | A curve is always tradable. A pool is tradable exactly when the router and M are configured. |
| TradingPanel.NoCurveZeroPoolUnavailable | components/wiki/trading-panel.tsx:62-67 | Without a curve, a missing or zero pool means no trading and no back-end. |
| TradingPanel.CurveRejectsFirstPreset | components/wiki/trading-panel.tsx:478 | With the panel's 0.5% preset, both curve bounds as written throw. The 1% and 2% presets work. |
| TradingPanel.InsufficientBalance | components/wiki/trading-panel.tsx:351-393 | The check is false without a positive amount. A curve buy compares the quoted M cost with the M balance, and is false without a quote. Every other trade compares amountIn with the balance it spends. |
| TradingPanel.MaxAmount | components/wiki/trading-panel.tsx:337-349 | Max fills the token balance on a curve in both modes. On a pool it fills the M balance on buy and the token balance on sell. |
| TradingPanel.MaxIsNeverInsufficient | components/wiki/trading-panel.tsx:337-393 | Except on a curve buy, the amount Max fills in never fails the balance check. |
| TradingPanel.CurveBuyNeedsAQuote | components/wiki/trading-panel.tsx:356-368 | On a curve buy with no M, the balance check fails exactly when a cost has been quoted. |
| TradingPanel.ApprovalQueryOf | components/wiki/trading-panel.tsx:209-233 | No approval is needed without an address or a positive amount, or on a curve buy. A curve sell asks for the token's allowance to the curve. A pool asks for the router's allowance on M (buy) or the token (sell). |
| TradingPanel.ApproveCallOf | components/wiki/trading-panel.tsx:242-251 | A curve buy approves nothing. A curve sell approves the token to the curve. Otherwise M (buy) or the token (sell) is approved to the router, for the amount entered. |
| TradingPanel.ApproveMatchesQuery | components/wiki/trading-panel.tsx:216-251 | The Approve button writes exactly the allowance the approval check asked about. |
| TradingPanel.ApproveLabel | components/wiki/trading-panel.tsx:631 | The label names $M on a buy and the token symbol on a sell, whatever the back-end. |
| TradingPanel.TradeLabel | components/wiki/trading-panel.tsx:639 | The label is the mode's verb, with "ing..." appended while a trade is in flight. |
| TradingPanel.ActionButton | components/wiki/trading-panel.tsx:613-641 | The button's priority is: unavailable, log in, insufficient, approve, then buy/sell, each shown exactly in its case. Approve carries its label and is enabled exactly when nothing is in flight. Buy/sell carries its label and is enabled exactly with a positive amount and nothing in flight. |
| TradingPanel.BuyOnCurve | components/wiki/trading-panel.tsx:271-281 | A completed curve buy ends the history with the user's successful buy of that amount and changes no allowance. A tolerance with a fractional part never completes and writes nothing. |
| TradingPanel.SellOnCurve | components/wiki/trading-panel.tsx:282-291 | A completed curve sell ends the history with the user's successful sell of that amount. A tolerance with a fractional part never completes and writes nothing. |
| TradingPanel.SwapOnPool | components/wiki/trading-panel.tsx:292-303 | A completed pool trade ends the history with the user's successful swap along the mode's path. |
| TradingPanel.Panel.constructor | components/wiki/trading-panel.tsx:47-56 | The panel starts in buy mode with empty fields, 1% tolerance, zero balances and no error. |
| TradingPanel.Panel.MaxClick | components/wiki/trading-panel.tsx:337-349 | The amount field becomes MaxAmount of the current state. |
| TradingPanel.Panel.CheckApproval | components/wiki/trading-panel.tsx:209-233 | needsApproval is cleared when nothing is needed. Otherwise it is set to whether the asked allowance is below the amount. A failed read leaves it unchanged. |
| TradingPanel.Panel.HandleApprove | components/wiki/trading-panel.tsx:235-260 | Without an address nothing happens. Otherwise ApproveCallOf's approval is written, and a sent one clears needsApproval whatever its receipt says. A throw shows the error. The loading flag always ends cleared. |
| TradingPanel.Panel.Trade | components/wiki/trading-panel.tsx:268-303 | The trade goes to the selected back-end. A completed one ends with the matching successful write. A negative amount writes nothing, and so does a curve trade at a tolerance with a fractional part. No back-end counts as done. |
| TradingPanel.Panel.HandleSwap | components/wiki/trading-panel.tsx:262-335 | A failed trade leaves the fields and balances and shows an error. A completed one clears both amount fields and then re-reads both balances, updating both or neither. The loading flag always ends cleared. |
| EventIndexer.Interval.Seconds | lib/memecore/event-indexer.ts:172-180 | Every chart interval is a positive multiple of five minutes. |
| EventIndexer.PeriodStart | lib/memecore/event-indexer.ts:186 | The period start is at or before the timestamp, less than one period before it. |
| EventIndexer.InsertBy | lib/memecore/event-indexer.ts:212 | Insertion keeps the sequence sorted and is a permutation with one more element. |
| EventIndexer.SortByStable | lib/memecore/event-indexer.ts:159 | Sorting keeps the input order of elements with equal keys. |
| EventIndexer.FirstSeenStartsBuckets | lib/memecore/event-indexer.ts:183-192 | The map's keys are distinct, and a period is a key exactly when it has an event. |
| EventIndexer.MaxPrice | lib/memecore/event-indexer.ts:201 | The high is one of the prices and at least every price. |
| EventIndexer.MinPrice | lib/memecore/event-indexer.ts:202 | The low is one of the prices and at most every price. |
| EventIndexer.CandleOf | lib/memecore/event-indexer.ts:195-210 | Open is the first price and close the last. Low ≤ open, close ≤ high, and every price lies in [low, high]. Trades is the bucket size. |
| EventIndexer.Candles | lib/memecore/event-indexer.ts:165-213 | The candles are sorted by timestamp. |
| EventIndexer.GroupByPeriod | lib/memecore/event-indexer.ts:183-192 | The loop builds each period's events in input order, with keys in order of first appearance. |
| EventIndexer.CandlesInKeyOrder | lib/memecore/event-indexer.ts:195-210 | The loop builds one candle per key, in key order. |
| EventIndexer.BuildOHLCCandles | lib/memecore/event-indexer.ts:165-213 | The method returns exactly Candles, so an empty event list gives no candles. |
| EventIndexer.CandlesStrictlyAscending | lib/memecore/event-indexer.ts:183-212 | Candle timestamps are distinct and strictly ascending. |
| EventIndexer.CandleOfItsPeriod | lib/memecore/event-indexer.ts:186-206 | Each candle is the candle of the non-empty period its timestamp starts. |
| EventIndexer.CandleContents | lib/memecore/event-indexer.ts:186-208 | Open and close are the period's first and last prices in input order. High and low bound every price. Volume is the sum and trades the count. Every event lies in [timestamp, timestamp + period). |
| EventIndexer.EveryEventHasACandle | lib/memecore/event-indexer.ts:183-192 | Every event's period has a candle. |
| EventIndexer.TradesCountEvents | lib/memecore/event-indexer.ts:208 | The trades of all candles add up to the number of events. |
| EventIndexer.Stamped | lib/memecore/event-indexer.ts:97-157 | Each log becomes one event, in log order, stamped with its block's timestamp. |
| EventIndexer.QuerySwapEvents | lib/memecore/event-indexer.ts:97-159 | The events are sorted by timestamp, are a permutation of the stamped logs, and keep log order within a second. |
| EventIndexer.FromBlock | lib/memecore/event-indexer.ts:258-261 | The window is the current block minus ceil(interval × limit / 12), but not below 0. A non-zero start spans the time requested by less than one extra block. |
| EventIndexer.RecentCandles | lib/memecore/event-indexer.ts:270 | slice(-limit) gives the last limit candles. 0 gives all of them, and a negative limit drops the first −limit. |
| EventIndexer.GetRecentCandles | lib/memecore/event-indexer.ts:218-271 | The result is the trailing slice of the candles of the window's events, sorted by time. Events of the same second keep their log order. There are at most limit candles for limit ≥ 1. |
| Ipfs.Settle | lib/ipfs.ts:21-27 | A non-2xx status throws with that status. Success returns IpfsHash. |
| Ipfs.UploadText | lib/ipfs.ts:6-28 | There is no size guard. The upload succeeds exactly on a 2xx reply and returns its hash. |
| Ipfs.UploadFile | lib/ipfs.ts:30-58 | A file above 5 MiB is refused before any request, and exactly 5 MiB is sent. Otherwise a 2xx reply decides success. |
| Ipfs.Utf8LengthBounds | lib/ipfs.ts:64 | A text's UTF-8 size is between one and four bytes per character. |
| Ipfs.UploadSnapshot | lib/ipfs.ts:60-89 | JSON text above 1 MiB of UTF-8 is refused before any request. Otherwise a 2xx reply decides success. |
| Ipfs.SnapshotLimitInCharacters | lib/ipfs.ts:61-66 | At most 256 Ki characters always fits. More than 1 Mi characters never does. |
| Ipfs.AsciiSnapshotLimit | lib/ipfs.ts:61-66 | For ASCII text the snapshot is refused exactly when it has more than 1 Mi characters. |
| Ipfs.GetIPFSUrl | lib/ipfs.ts:91-93 | The URL is the gateway prefix followed by the CID. |
| Ipfs.CidOf | lib/ipfs.ts:91-93 | A gateway URL yields its CID, and any other URL yields nothing. |
| Ipfs.UrlRoundTrip | lib/ipfs.ts:91-93 | The CID is read back from its URL, so distinct CIDs give distinct URLs. |
| UploadRoute.SizeLimit | app/api/upload/route.ts:15-16 | The limit is 30 MiB for a video type and 15 MiB for any other type. |
| UploadRoute.Post | app/api/upload/route.ts:5-57 | A missing file is 400. A size above the type's limit is 400 before any upload. A non-2xx Pinata status is passed through. Success is 200 with the CID. A thrown fetch or bad form is 500. |
| UploadRoute.LimitIsInclusive | app/api/upload/route.ts:17-22 | A file of exactly the limit reaches Pinata. One byte more is refused with 400. |
| MediaUpload.ImageIsNotVideo | components/media-upload-area.tsx:25-26 | No MIME type is both image and video. |
| MediaUpload.ValidateFile | components/media-upload-area.tsx:24-42 | A file is valid exactly when it is an image or video within its MB limit, inclusive. |
| MediaUpload.DefaultImageLimitIsInclusive | components/media-upload-area.tsx:17-39 | With the defaults, an image of exactly 15 MiB passes and one byte more fails. |
| MediaUpload.DefaultsAgreeWithRoute | components/media-upload-area.tsx:17-18 | With the default limits, the client check accepts a media file exactly when the upload route's size check does. |
| MediaUpload.CidIn | components/media-upload-area.tsx:61 | The client finds a CID exactly in a CID body. |
| MediaUpload.RouteSuccessCarriesCid | components/media-upload-area.tsx:57-62 | Every 2xx answer of the route names the pinned CID. |
| MediaUpload.MediaUploadArea.constructor | components/media-upload-area.tsx:14-21 | The limits default to 15 and 30 MB. The component starts idle with no uploads. |
| MediaUpload.MediaUploadArea.HandleFile | components/media-upload-area.tsx:44-72 | An invalid file changes nothing and makes no request. A valid one calls onUpload only after a 2xx response, and always ends with the flag cleared and the input emptied. |
| MediaUpload.MediaUploadArea.HandleFileChange | components/media-upload-area.tsx:74-78 | No selected file is a no-op. Otherwise the file is handled as HandleFile does. |
| MediaUpload.MediaUploadArea.HandleDrop | components/media-upload-area.tsx:90-98 | The drag highlight always goes off. The dropped file, if any, is handled as HandleFile does. |
| ImageUploadButton.Accepts | components/image-upload-button.tsx:19-27 | The button accepts exactly image or video types of at most 5 MiB. |
| ImageUploadButton.AcceptedFilesAreNeverTooLarge | components/image-upload-button.tsx:24-31 | A file the button accepts is never refused by uploadFile for its size. Its upload succeeds exactly on a 2xx reply. |
| ImageUploadButton.UploadButton.constructor | components/image-upload-button.tsx:12-13 | The button starts idle with an empty input and no uploads. |
| ImageUploadButton.UploadButton.HandleFileChange | components/image-upload-button.tsx:15-42 | No file, a wrong type or a file above 5 MiB changes nothing. Otherwise onUpload is called only on success, and the flag and input are always reset. |

## Left out

**Not part of this model**

- Pricing formulas:
  - The curve's `calculateBuyCost` and `calculateSellReturn` and the router's `getAmountsOut` are on-chain contracts that are not part of this model.
  - Their answers are inputs.
  - `getBuyQuote`, `getSellQuote` and `getCurveInfo` are reads whose answers are inputs, and so is the float `pricePerToken`.
- The effects of the trade contracts on balances and allowances:
  - curve buy and sell, router swap, `createPair` and `addLiquidity`;
  - their writes are logged with their receipt status and change no allowance.
- Floating point:
  - prices derived from swap amounts in `querySwapEvents`;
  - `getCurrentPrice` (a float reserve ratio);
  - `priceInM` in `getPoolInfo`;
  - the `toFixed`/`parseFloat` display strings.
  - Candle prices and volumes are exact reals.
- `parseUnits` and `formatUnits` are taken as exact 18-decimal conversions. Amounts are wei integers, and an empty field is 0 wei.
- NaN amounts are not modelled, and neither is locale formatting in `formatTokenSupply`.
- Wallet and network behaviour: receipt timeouts, RPC clients, `defineChain`.
  - `Promise.all` is modelled as sequential.
- React plumbing:
  - the quote effect (`getQuote`), its debounce, the balance polling and the wagmi balance hooks;
  - the mode and slippage setters;
  - `handleDrag`;
  - alerts and console output.
- `JSON.stringify`: the snapshot is given as its JSON text. `uploadText`'s `Date.now()` metadata name is not modelled.
- The route's `statusText` in its error message is not modelled.

**Modelled differently**

- `uploading` in both upload components is observed only after the handler ends. Its `true` value during the request is not modelled.
- A file input ref that may be null: the model always resets the input value.
- `MediaUpload.MediaUploadArea.HandleFile`: an invalid file returns before the `finally`, so the flag and input are not reset on that path. This follows the code.
- `NativeBondingCurve.BuyFromCurve` and `NativeBondingCurve.SellToCurve` compute their bounds as written, so every curve trade at a tolerance with a fractional part fails with `NotAnInteger`. The corrected bounds `TradeBounds.MaxIn` and `TradeBounds.MinOut` are stated and related to them, but no trade uses them.
- `TradingPanel.Panel.Trade`: a negative amount is modelled as throwing before any write, as a `uint256` encoding failure would.
- `TradingPanel.Panel.CheckApproval`: a failed allowance read leaves the flag unchanged (the effect's promise rejects). The read's failure is a parameter.

**Weaker contracts**

- MemecoreUtils.WholeTokens: requires `decimals <= 22`, because `10 ** decimals` is a JavaScript number that is exact only up to 10^22.
- TradeBounds.BasisPoints: computes floor((100 − s)·100) over exact reals, where the source computes it in IEEE doubles. There the product can round to just below a whole number: for s = 18.15 the source gets 8184 basis points and the model 8185. So `MinOut`, `SwapCall` and `ExecuteSwap` can set the minimum output one basis point above the source's. The panel's presets 0.5, 1 and 2 are exact in both.
- MemecoreUtils.SanitizeTokenSymbol: case mapping is ASCII only. JavaScript's `toUpperCase` also maps some non-ASCII letters (for example 'ſ' to 'S' and 'ı' to 'I'), which then survive the filter.
- PoolCreator.CreatePoolAndAddLiquidity: `lpTokensReceived` is always 0 in the source and in the model. A network name with no table entry is reported as `UnknownNetwork` after the guards, where the source first uses the chain configuration.

## Findings

| source | as written | input that shows it | evidently intended | confidence | as-written member | corrected member |
|---|---|---|---|---|---|---|
| lib/memecore/native-bonding-curve-service.ts:228 and :275 | `mCost * BigInt(100 + slippageTolerance) / 100n` and `mReturn * BigInt(100 - slippageTolerance) / 100n`. `BigInt` of a number with a fractional part throws a RangeError. | The panel's first slippage preset, 0.5 (components/wiki/trading-panel.tsx:478), makes every bonding-curve buy and sell throw before anything is sent. | Bounds in basis points, as `executeSwap` computes them (`Math.floor((100 - s) * 100)` over 10000). These agree with the code for whole-number tolerances and accept 0.5. | not executed | NativeBondingCurve.MaxMInAsWritten, NativeBondingCurve.MinMOutAsWritten, NativeBondingCurve.HalfPercentToleranceThrows, TradingPanel.Panel.Trade | TradeBounds.MaxIn, TradeBounds.MinOut, NativeBondingCurve.BoundsAgreeOnWholeTolerances |

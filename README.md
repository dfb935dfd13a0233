# alpaca_trader core, modelled in Dafny

This project models the self-contained logic of `alpaca_trader`, a Python
command-line trader for the Alpaca brokerage with an LLM-driven "AI broker".
The parts modelled are:

- **Action extraction and dispatch in the AI broker.**
  - The `<actions_taken>` block of a model reply is turned into
    `buy_stock` / `get_stock_price` / `get_account_info` actions.
  - `execute_actions` runs those actions into a results dictionary keyed
    by action name and position.
  - `buy_stock` checks its inputs.
  - Ticker candidates are collected from the user's text.
- **Order validation and construction.** There are two implementations: the
  REST one (`core/orders.py`, `OrderManager`) and the SDK one
  (`official/orders.py`, `OfficialOrderManager`). This includes order
  dictionaries, the `is_ready` guards, `cancel_order` and the
  `cancel_all_orders` loop.
- **The configuration store (`ConfigManager`).**
  - The IV-prefixed framing of encrypted values.
  - `load_config` / `save_config`, including the shallow copy that aliases
    the in-memory `alpaca` section.
  - Getting and setting the credentials.
- **The two account managers.**
  - The REST `AccountManager`: credential formats, the configured state,
    `configure_account` and the `get_account_info` guard.
  - The SDK `OfficialAccountManager`: paper detection from the base URL,
    client initialization, `configure_account` and the
    `get_account_info` guard.
- **The SDK `DataManager`.** When its clients exist, when it is ready, and
  the default bar window of `get_crypto_bars` / `get_stock_bars`.

Everything outside the program is a parameter of the model. This covers:

- the brokerage and SDK calls;
- the LLM's reply;
- the regular-expression engine for `action_patterns[0..6]`;
- the cipher, Base64 and UTF-8;
- the file system;
- the clock.

Each of these is a function value. Where the model needs laws about one
(the cipher inverts, Base64 round-trips), those laws are a predicate
(`Config.Lawful`) that the lemmas assume.

Files, one module each:

| file | module | source |
|---|---|---|
| base.dfy | Base | Python string helpers (`upper`, `lower`, `strip`, `in`, `split`, `int`); case mapping, digits and `\w` on ASCII |
| extraction.dfy | ActionExtraction | `AIBroker.extract_action_from_response` |
| dispatch.dfy | ActionDispatch | `AIBroker.execute_actions`, `AIBroker.buy_stock` |
| symbols.dfy | SymbolCandidates | ticker candidates in `AIBroker.process_instruction` |
| core_orders.dfy | CoreOrders | `core/orders.py` |
| official_orders.dfy | OfficialOrders | `official/orders.py` |
| config.dfy | Config | `utils/config.py` |
| core_account.dfy | CoreAccount | `core/account.py` |
| official_account.dfy | OfficialAccount | `official/account.py` |
| official_data.dfy | OfficialData | `official/data.py` |

## Model

| member | source | states |
|---|---|---|
| Base.ParseInt | alpaca_trader/broker/ai_broker.py:503 | `int()` of a string: a run of 1 to 4300 digits reads as its decimal value, and more digits than CPython's default limit of 4300 are refused. |
| Base.LongNumeralRefused | alpaca_trader/broker/ai_broker.py:503 | A 4301-digit numeral is refused, so such a buy match is skipped as unparsable. |
| ActionExtraction.BuyAt | alpaca_trader/broker/ai_broker.py:497-519 | A buy pattern yields no outcome exactly when it does not match the line. |
| ActionExtraction.BuyAtValid | alpaca_trader/broker/ai_broker.py:501-516 | A buy action that a buy pattern emits is `buy_stock` with exactly the keys symbol and quantity, a non-empty upper-case symbol and a quantity > 0. |
| ActionExtraction.PriceAt | alpaca_trader/broker/ai_broker.py:523-535 | A price pattern yields no outcome exactly when it does not match; a match always ends the price search, since no int() can fail there. |
| ActionExtraction.PriceAtValid | alpaca_trader/broker/ai_broker.py:527-532 | A price action that a price pattern emits is `get_stock_price` with a non-empty upper-case symbol as its only parameter. |
| ActionExtraction.MatchesLower | alpaca_trader/broker/ai_broker.py:538 | Decides a case-insensitive match of `get_account_info(` at a position, where as under `re.IGNORECASE` the dotless ı and the dotted İ also match the pattern's i. |
| ActionExtraction.DotlessAccountCallFound | alpaca_trader/broker/ai_broker.py:538 | `get_account_ınfo()`, with a dotless ı, is found by the case-insensitive search. |
| ActionExtraction.SpacesThenClose | alpaca_trader/broker/ai_broker.py:538 | Decides whether optional whitespace and then `)` follow a position. |
| ActionExtraction.SearchAccountCall | alpaca_trader/broker/ai_broker.py:538 | True iff `get_account_info\(\s*\)` matches, ignoring case, somewhere at or after the position. |
| ActionExtraction.ActionsBlock | alpaca_trader/broker/ai_broker.py:467-471 | The block is the text between the first opening tag and the first closing tag after it. |
| ActionExtraction.BlockIffTags | alpaca_trader/broker/ai_broker.py:467-469 | A block is found iff an opening tag is followed somewhere by a closing tag. |
| ActionExtraction.NoBlockNoActions | alpaca_trader/broker/ai_broker.py:467-469 | With no `<actions_taken>…</actions_taken>` block, no actions are extracted. |
| ActionExtraction.FindBuy | alpaca_trader/broker/ai_broker.py:497-520 | The loop over buy patterns 0-4 returns the action of the first pattern that matches and parses. It moves on after a match whose quantity does not parse, and stops at a match whose symbol or quantity is rejected. |
| ActionExtraction.FindPrice | alpaca_trader/broker/ai_broker.py:523-535 | The loop over price patterns 5-6 returns the action of the first pattern that matches. |
| ActionExtraction.ExtractFromLine | alpaca_trader/broker/ai_broker.py:492-542 | The actions of one line: none for a blank line; otherwise the buy action, then the price action, then the account action, each if present. |
| ActionExtraction.ExtractFromLines | alpaca_trader/broker/ai_broker.py:491-542 | The loop over lines concatenates each line's actions in line order. |
| ActionExtraction.ExtractActionFromResponse | alpaca_trader/broker/ai_broker.py:454-544 | The result is the concatenated actions of the lines of the stripped block, or empty when there is no block. |
| ActionExtraction.ActionsOfLinesSnoc | alpaca_trader/broker/ai_broker.py:491-542 | Adding a line appends exactly that line's actions. |
| ActionExtraction.ActionsOfLinesAppend | alpaca_trader/broker/ai_broker.py:491-542 | Actions follow the order of their lines: the actions of `a + b` are those of `a` followed by those of `b`. |
| ActionExtraction.BlankLineContributesNothing | alpaca_trader/broker/ai_broker.py:492-494 | A blank line yields no action. |
| ActionExtraction.BlankLinesAreIgnored | alpaca_trader/broker/ai_broker.py:492-494 | Removing a blank line anywhere leaves the extracted actions unchanged. |
| ActionExtraction.CallSymbolUnquoted | alpaca_trader/broker/ai_broker.py:502 | A symbol cleaned with strip(), strip quotes and upper() is empty or neither starts nor ends with a quote. |
| ActionExtraction.FirstDecisiveWins | alpaca_trader/broker/ai_broker.py:497-520 | When pattern k is the first that decides, the line's result is pattern k's. |
| ActionExtraction.FirstDecisiveFrom | alpaca_trader/broker/ai_broker.py:497-520 | Any action found comes from a pattern that decided, with no earlier pattern deciding. |
| ActionExtraction.FirstDecisiveHolds | alpaca_trader/broker/ai_broker.py:497-520 | A property of every deciding pattern's action holds of the action found. |
| ActionExtraction.RejectedMatchStopsSearch | alpaca_trader/broker/ai_broker.py:512-520 | A match with an empty symbol or a quantity ≤ 0 yields no buy action and stops the search: later buy patterns are not tried. |
| ActionExtraction.FirstDecisiveSkips | alpaca_trader/broker/ai_broker.py:497-520 | Patterns that match nothing or fail to parse are passed over: the search result is that of the patterns after them. |
| ActionExtraction.UnparsableMatchIsSkipped | alpaca_trader/broker/ai_broker.py:517-519 | When buy pattern k is the first to match and int() rejects its quantity, the match is skipped: the line's buy action is what patterns k+1 to 4 decide. |
| ActionExtraction.FirstBuyValid | alpaca_trader/broker/ai_broker.py:497-520 | A line's buy action, if any, has a non-empty upper-case symbol and a quantity > 0. |
| ActionExtraction.FirstPriceValid | alpaca_trader/broker/ai_broker.py:523-535 | A line's price action, if any, has a non-empty upper-case symbol. |
| ActionExtraction.LineShape | alpaca_trader/broker/ai_broker.py:492-542 | One line yields at most three actions, strictly in the order buy, price, account, each well formed. |
| ActionExtraction.LineOfShape | alpaca_trader/broker/ai_broker.py:513-542 | At most one of each action, appended in the order buy, price, account, gives at most three actions in that order. |
| ActionExtraction.ExtractedActionsWellFormed | alpaca_trader/broker/ai_broker.py:491-542 | Every extracted action is a valid buy, a valid price query or the account query. |
| ActionDispatch.BuyStock | alpaca_trader/broker/ai_broker.py:223-275 | buy_stock submits iff the symbol is non-empty and the quantity is > 0. An empty symbol gives "Symbol is required" and a bad quantity gives "Quantity must be positive". A submitted order is a market buy of the upper-cased symbol, and the brokerage's answer is returned. |
| ActionDispatch.BuyStockCall | alpaca_trader/broker/ai_broker.py:237-255 | buy_stock calls the brokerage iff the symbol is non-empty and the quantity is > 0. |
| ActionDispatch.SymbolParam | alpaca_trader/broker/ai_broker.py:569 | The symbol read from params is upper case. Reading it raises exactly when it is not a string. |
| ActionDispatch.QuantityParam | alpaca_trader/broker/ai_broker.py:570 | A missing quantity reads as 0 and an integer reads as itself. Only a string can make int() raise. |
| ActionDispatch.Entries | alpaca_trader/broker/ai_broker.py:560-616 | The loop makes exactly one assignment per action. |
| ActionDispatch.ExecuteActions | alpaca_trader/broker/ai_broker.py:546-618 | The loop's results dict is the map of (key, reply) entries, one per action in order, and the brokerage calls are made in action order. |
| ActionDispatch.KeyIndexPlain | alpaca_trader/broker/ai_broker.py:573-607 | The position can be read back from a key `{prefix}_{i}`. |
| ActionDispatch.KeyIndexError | alpaca_trader/broker/ai_broker.py:612 | The position can be read back from a key `{name}_{i}_error`. |
| ActionDispatch.MakeKeyIndex | alpaca_trader/broker/ai_broker.py:573-612 | Every form of result key encodes its action's zero-based position. |
| ActionDispatch.KeysDistinct | alpaca_trader/broker/ai_broker.py:573-612 | Keys made for different positions differ, whatever their form and name. |
| ActionDispatch.EntryKeysDistinct | alpaca_trader/broker/ai_broker.py:560-616 | No two actions write the same result key. |
| ActionDispatch.OneEntryPerAction | alpaca_trader/broker/ai_broker.py:560-618 | The results hold exactly one entry per action, under that action's key and with that action's reply, and no other entry. |
| ActionDispatch.InvalidBuyIsRefused | alpaca_trader/broker/ai_broker.py:569-584 | A buy action with an empty symbol or a quantity ≤ 0 is recorded as an error, and buy_stock is not called. |
| ActionDispatch.DispatchedBuyIsSubmitted | alpaca_trader/broker/ai_broker.py:586-588 | A buy that passes the loop's checks also passes buy_stock's checks, so it is submitted as is and its answer is stored. |
| ActionDispatch.PerformBuyIsNormalized | alpaca_trader/broker/ai_broker.py:569-584 | A buy the loop performs has a non-empty, already upper-case symbol and a quantity > 0. |
| ActionDispatch.SubmittedBuysAreValid | alpaca_trader/broker/ai_broker.py:567-588 | Every market buy submitted has a non-empty upper-case symbol and a quantity > 0. |
| ActionDispatch.CallsOfAppend | alpaca_trader/broker/ai_broker.py:560-616 | The calls for a + b are those for a followed by those for b. No outcome of one action stops later ones. |
| SymbolCandidates.ExtractSymbols | alpaca_trader/broker/ai_broker.py:681-701 | The symbols are the bare 1-5-letter tokens, the $-tokens and the tickers of the company names in the upper-cased text, minus the common words. None of them is a common word. |
| SymbolCandidates.AddNamedSymbols | alpaca_trader/broker/ai_broker.py:688-692 | The company loop adds exactly the tickers of the companies whose names occur in the text. |
| SymbolCandidates.NamedAmongStep | alpaca_trader/broker/ai_broker.py:690-692 | One more company adds its ticker exactly when its name occurs. |
| SymbolCandidates.DollarTokensAreBare | alpaca_trader/broker/ai_broker.py:681-686 | Every $-ticker is also a bare token, so the $ pass adds nothing. |
| SymbolCandidates.CandidatesWithoutDollar | alpaca_trader/broker/ai_broker.py:681-701 | The candidates are the bare tokens and the named tickers, minus the common words. |
| SymbolCandidates.CandidateShape | alpaca_trader/broker/ai_broker.py:681-701 | Every candidate is not a common word, and is either 1-5 upper-case letters or a ticker of the company table. |
| SymbolCandidates.CompanyNameBringsTicker | alpaca_trader/broker/ai_broker.py:688-701 | A company name in the text always brings its ticker into the candidates. |
| SymbolCandidates.NoTickerIsStopword | alpaca_trader/broker/ai_broker.py:697-701 | No ticker of the company table is a common word. |
| SymbolCandidates.AppleExample | alpaca_trader/broker/ai_broker.py:681-701 | "Buy 10 shares of Apple" yields AAPL and not OF. |
| CoreOrders.ParameterError | alpaca_trader/core/orders.py:41-72 | Validation passes iff the symbol is non-empty, exactly one of qty and notional is given, and the given one is > 0. An empty symbol is reported first. The qty-xor-notional error is reported iff the symbol is non-empty and both or neither are given. |
| CoreOrders.FirstRejection | alpaca_trader/core/orders.py:123-125 | An order of any kind is accepted iff the shared parameters are valid and every price the kind takes is given and > 0. |
| CoreOrders.PrepareOrderBase | alpaca_trader/core/orders.py:74-105 | The base is None iff the parameters are invalid, with the validation's reason. Otherwise it holds exactly the upper-cased symbol, the side value, the time-in-force value and one of qty / notional. |
| CoreOrders.MarketOrder | alpaca_trader/core/orders.py:107-133 | Invalid input is rejected and nothing is submitted. Otherwise the submitted body is the base plus type market, and extended_hours only when asked. |
| CoreOrders.LimitOrder | alpaca_trader/core/orders.py:135-168 | A missing or non-positive limit price is rejected before anything is submitted. Otherwise the body is the base plus type limit, the limit price, and extended_hours only when asked. |
| CoreOrders.StopOrder | alpaca_trader/core/orders.py:170-200 | A missing or non-positive stop price is rejected. Otherwise the body is the base plus type stop and the stop price, never extended_hours. |
| CoreOrders.StopLimitOrder | alpaca_trader/core/orders.py:202-238 | Both prices must be given and > 0; otherwise the body is the base plus type stop_limit and both prices. |
| CoreOrders.ExtendedHoursOnlyWhenAsked | alpaca_trader/core/orders.py:128-130 | An order body has extended_hours iff the kind is market or limit and the flag is set. |
| CoreOrders.QtyXorNotionalKey | alpaca_trader/core/orders.py:96-103 | An order body has qty iff a qty was given, and notional otherwise. |
| CoreOrders.StopCheckedBeforeLimit | alpaca_trader/core/orders.py:224-235 | With valid parameters and a bad stop price, a stop-limit order is rejected for the stop price, whatever the limit price. |
| CoreOrders.ParametersCheckedBeforePrices | alpaca_trader/core/orders.py:123-125 | Invalid shared parameters are reported before any price problem. |
| OfficialOrders.ValidateBasicParams | alpaca_trader/official/orders.py:34-66 | Validation succeeds iff the symbol is non-empty, exactly one of qty and notional is given, and a string side is "buy" or "sell" ignoring case. An enum side is passed through. A string side maps to BUY iff it is "buy" ignoring case. An empty symbol is reported first. |
| OfficialOrders.FirstRefusal | alpaca_trader/official/orders.py:123-126 | An order is refused iff the basic validation fails or a price the kind takes is missing or ≤ 0. |
| OfficialOrders.AlwaysEntries | alpaca_trader/official/orders.py:78-91 | The dictionary literal holds the twelve always-present attributes. |
| OfficialOrders.OptionalEntries | alpaca_trader/official/orders.py:93-100 | qty, notional, limit_price and stop_price are included exactly when each is truthy. |
| OfficialOrders.OrderToDict | alpaca_trader/official/orders.py:68-102 | The dictionary has the twelve fixed keys plus each optional amount exactly when it is truthy, all with the order's values. |
| OfficialOrders.BaseRequestData | alpaca_trader/official/orders.py:130-141 | The order data holds exactly the upper-cased symbol, the side, the time in force and one of qty / notional. |
| OfficialOrders.RequestFor | alpaca_trader/official/orders.py:130-144 | The request for an order kind carries the order data, its prices, and extended_hours for market and limit only. |
| OfficialOrders.Submit | alpaca_trader/official/orders.py:146-157 | A submitted order is returned as the dictionary of the SDK order, or None when submission fails. |
| OfficialOrders.MarketOrder | alpaca_trader/official/orders.py:104-157 | Without a client nothing is done. Invalid input is refused without submitting. Otherwise the market request is sent. |
| OfficialOrders.LimitOrder | alpaca_trader/official/orders.py:159-219 | As for a market order, and a missing or non-positive limit price is refused. |
| OfficialOrders.StopOrder | alpaca_trader/official/orders.py:221-279 | As for a market order, and a missing or non-positive stop price is refused. |
| OfficialOrders.StopLimitOrder | alpaca_trader/official/orders.py:281-345 | As for a market order; the stop price is checked first, then the limit price. |
| OfficialOrders.CancelOrder | alpaca_trader/official/orders.py:407-427 | Cancelling succeeds iff a client exists and the cancellation succeeds. |
| OfficialOrders.CountCancelled | alpaca_trader/official/orders.py:449-456 | At most one success is counted per order. |
| OfficialOrders.CountCancelledAll | alpaca_trader/official/orders.py:449-458 | The count equals the number of orders iff every cancellation succeeded. |
| OfficialOrders.CancelAllOrders | alpaca_trader/official/orders.py:429-462 | Without a client, or when listing fails, the result is False and nothing is attempted. Otherwise every open order is attempted, in order, even after failures. The result is True iff all cancellations succeeded, which includes an empty list. |
| OfficialOrders.SideIgnoresCase | alpaca_trader/official/orders.py:57-63 | A string side is validated the same whatever its case. |
| OfficialOrders.NoSignCheck | alpaca_trader/official/orders.py:52-54 | Unlike the REST manager, the SDK manager does not check the sign of qty or notional. |
| OfficialOrders.StopCheckedBeforeLimit | alpaca_trader/official/orders.py:307-313 | With valid parameters and a bad stop price, a stop-limit order is refused for the stop price. |
| Config.DecryptEncrypt | alpaca_trader/utils/config.py:60-100 | Decrypting an encrypted value gives the value back. The stored form is Base64 of the 16-byte IV followed by the ciphertext, and decryption splits at byte 16. |
| Config.EncryptValueLonger | alpaca_trader/utils/config.py:60-77 | The stored form is longer than, and so different from, the plain value, and is never empty. |
| Config.MapTruthy | alpaca_trader/utils/config.py:114-121 | Only the named field is transformed, and only when it is non-empty. All other fields and keys are unchanged. |
| Config.OpenSealField | alpaca_trader/utils/config.py:114-133 | Decrypting one sealed field restores it. |
| Config.OpenSealFields | alpaca_trader/utils/config.py:114-133 | Loading what saving sealed restores the whole alpaca section. |
| Config.CredentialsIn | alpaca_trader/utils/config.py:145-160 | (None, None, None) without an alpaca section. base_url defaults to the paper URL. A present key is returned as stored and an absent secret is None. |
| Config.SaveLoadRoundTrip | alpaca_trader/utils/config.py:102-143 | Loading the file that save wrote restores the in-memory configuration. |
| Config.SealedKeyIsNotTheKey | alpaca_trader/utils/config.py:125-133 | After setting credentials with the shallow-copy save, the key read back is the encrypted form, not the key that was set. |
| Config.PlainCredentialsAfterSet | alpaca_trader/utils/config.py:171-181 | Before saving, the section holds the plain key, secret and the URL of the chosen environment. |
| Config.ConfigManager.constructor | alpaca_trader/utils/config.py:33-44 | A new manager holds what loading its file yields. |
| Config.ConfigManager.LoadConfig | alpaca_trader/utils/config.py:102-121 | Memory becomes what the file yields: empty when it is missing or unreadable, with non-empty fields decrypted. |
| Config.ConfigManager.GetAlpacaCredentials | alpaca_trader/utils/config.py:145-160 | Returns the credentials in memory, with the defaults above. |
| Config.ConfigManager.SaveConfig | alpaca_trader/utils/config.py:123-143 | As written, the shallow copy makes the in-memory section sealed too, and the file holds the same sealed configuration. |
| Config.ConfigManager.SaveConfigCopying | alpaca_trader/utils/config.py:123-143 | With a deep copy, as the source comment intends, memory is unchanged and the file holds its sealed form. |
| Config.ConfigManager.StoreCredentials | alpaca_trader/utils/config.py:171-181 | Creates the alpaca section only when missing, then stores the key, the secret and the URL of the chosen environment. Other entries are left alone. |
| Config.ConfigManager.SetAlpacaCredentials | alpaca_trader/utils/config.py:162-184 | As written, after set_alpaca_credentials the in-memory section holds the sealed credentials. |
| Config.ConfigManager.SetAlpacaCredentialsCopying | alpaca_trader/utils/config.py:162-184 | Corrected: memory keeps the plain credentials, the file holds them sealed, and loading the file gives memory back. |
| CoreAccount.AsWrittenAcceptsTrailingNewline | alpaca_trader/core/account.py:42-48 | The checks as written accept exactly the intended strings and those strings followed by one newline. |
| CoreAccount.NewlineKeyPasses | alpaca_trader/core/account.py:42-44 | "AAAAAAAAAAAA\n" passes the key check as written, but not the intended one. |
| CoreAccount.AcceptedHasNoNewline | alpaca_trader/core/account.py:42-48 | A key or secret that passes the intended check is non-empty and holds no newline. |
| CoreAccount.AccountManager.constructor | alpaca_trader/core/account.py:15-18 | The manager starts with the stored credentials. |
| CoreAccount.AccountManager.ConfigureAccount | alpaca_trader/core/account.py:29-69 | Succeeds iff the key is ≥ 12 of [A-Z0-9], the secret is ≥ 32 of [a-zA-Z0-9], and the key test passes. On failure nothing changes. On success the key, the secret and the paper or live URL are stored, the manager is configured, the store holds the same credentials, and the configuration file holds their sealed form. The other configuration entries are never touched. |
| CoreAccount.AccountManager.GetAccountInfo | alpaca_trader/core/account.py:109-136 | When not configured, None is returned without a request. Otherwise the endpoint's answer for the stored URL and credentials is returned. |
| OfficialAccount.LiveUrlIsNotPaper | alpaca_trader/official/account.py:27 | The live URL does not contain "paper". |
| OfficialAccount.PaperFromStoredUrl | alpaca_trader/official/account.py:27 | The URL that configure_account stores is detected as paper iff paper trading was chosen. |
| OfficialAccount.NoUrlMeansPaper | alpaca_trader/official/account.py:27 | A missing or empty base URL means paper trading. |
| OfficialAccount.OfficialAccountManager.constructor | alpaca_trader/official/account.py:14-22 | The stored credentials are loaded. The client is built only when key and secret are both non-empty; otherwise there is none. |
| OfficialAccount.OfficialAccountManager.InitializeClient | alpaca_trader/official/account.py:24-39 | The client is built for the environment the URL names. Success iff it was built; a failure leaves no client. |
| OfficialAccount.OfficialAccountManager.ConfigureAccount | alpaca_trader/official/account.py:50-81 | The credentials are persisted first: the in-memory store holds them, the configuration file holds their sealed form, and the other entries are untouched. The fields and the paper or live URL are set. The client is built for the chosen environment. The result says whether the manager is now configured. |
| OfficialAccount.OfficialAccountManager.GetAccountInfo | alpaca_trader/official/account.py:83-110 | When not configured, None is returned without asking the client. Otherwise the client's answer is returned. |
| OfficialData.DefaultStart | alpaca_trader/official/data.py:78-87 | For a limit ≥ 0 the default start is not after the end, and for a limit > 0 it is strictly before. |
| OfficialData.ResolveStart | alpaca_trader/official/data.py:130-140 | An explicit start is used unchanged. Otherwise the default window applies when its start is a datetime, and there is no start when the subtraction leaves datetime's range. |
| OfficialData.DefaultWindowFits | alpaca_trader/official/data.py:130-140 | A default window of limit ≥ 0 steps has a start iff its length in seconds is at most the end's distance from datetime.min. |
| OfficialData.WholeRangeWindowOverflows | alpaca_trader/official/data.py:133-134 | A day window longer than datetime's whole range has no start, whatever the end. |
| OfficialData.ResolveEnd | alpaca_trader/official/data.py:127-128 | An explicit end is used unchanged; otherwise now. |
| OfficialData.DefaultWindowUnits | alpaca_trader/official/data.py:133-138 | 24n hour steps span n day steps, and 60n minute steps span n hour steps. |
| OfficialData.DefaultWindowsNest | alpaca_trader/official/data.py:133-138 | For one limit, the minute window lies inside the hour window, which lies inside the day window. |
| OfficialData.OtherTimeframesCountDays | alpaca_trader/official/data.py:139-140 | Any timeframe other than Day, Hour and Minute (for example 5-minute bars) counts days. |
| OfficialData.DefaultStartAdds | alpaca_trader/official/data.py:131-140 | Going back a steps and then b steps is going back a + b steps. |
| OfficialData.CryptoRequest | alpaca_trader/official/data.py:72-96 | The crypto request carries the symbol, timeframe, limit, the resolved end and the resolved start. There is no request iff the default start leaves datetime's range. |
| OfficialData.StockRequest | alpaca_trader/official/data.py:142-149 | The stock request exists iff the crypto request does; it has the same start, but no end. |
| OfficialData.StockRequestIgnoresEnd | alpaca_trader/official/data.py:143-149 | With an explicit start, the stock request does not depend on the end or the clock. |
| OfficialData.DataManager.constructor | alpaca_trader/official/data.py:16-26 | The account manager's credentials are taken. The clients are built only when key and secret are both non-empty. There is no stock client without a crypto client. |
| OfficialData.DataManager.InitializeClients | alpaca_trader/official/data.py:28-43 | The crypto client is built, then the stock client. A failing constructor leaves its field and the later ones as they were. Success iff both were built, and then the manager is ready. |
| OfficialData.DataManager.GetCryptoBars | alpaca_trader/official/data.py:54-105 | When not ready, or when the default start overflows (caught by the `except`), nothing is asked and None is returned. Otherwise the crypto request is sent and the client's answer is returned. |
| OfficialData.DataManager.GetStockBars | alpaca_trader/official/data.py:107-158 | When not ready, or when the default start overflows, nothing is asked and None is returned. Otherwise the stock request, without an end, is sent and the client's answer is returned. |

## Left out

- Network, SDK and LLM calls are function-valued parameters. This covers the Claude call and its prompt, every Alpaca SDK and HTTP request, `core/client.py` and `AccountManager._test_api_keys`. An exception is modelled as a `None` answer.
- The regular-expression engine: `action_patterns[0..6]` are recognizers passed in as parameters. Pattern 7 (`get_account_info()`), the `<actions_taken>` search and the ticker patterns of `process_instruction` are modelled concretely.
- Cryptography, Base64, UTF-8 and the key file are abstract function values. Their inverse laws are the predicate `Config.Lawful`, required by the round-trip lemmas. File reads, writes and `chmod` are a `FileState` field.
- Config.ConfigManager.SaveConfig: encryption is assumed to succeed, which means the key file is readable and holds a length AES accepts (16, 24 or 32 bytes; the program itself writes 32, config.py:49). In the source, `_encrypt_value` re-reads the key file on every call (config.py:55-58) and calls `AES.new` (config.py:72) outside any `try`. So an unreadable key file, or one of another length, raises out of `save_config` before anything is written, and out of `set_alpaca_credentials` and both `configure_account` methods. The same applies to Config.ConfigManager.SaveConfigCopying. `Config.Lawful` states the cipher laws for every key, and the SaveConfig, SaveConfigCopying and ConfigureAccount contracts promise the written file under that assumption. On load, a key of the wrong length is caught inside `_decrypt_value` (config.py:94-100) and the value reads as None, which the model allows. An unreadable key file on load is caught instead by `load_config`'s `except` (config.py:119-121), which empties the configuration; the model does not cover that case.
- Config.ConfigManager.SaveConfig and Config.ConfigManager.SaveConfigCopying: the write always succeeds. In the source, `mkdir`, `open`, `json.dump` and `chmod` (config.py:136-143) are unguarded. A failure there raises out of `set_alpaca_credentials` and both `configure_account` methods, possibly leaving a truncated file, and on the as-written path the in-memory section is already sealed. Both ConfigureAccount contracts promise the written file under this assumption.
- `ConfigManager.__init__`'s key-file generation and `get_config_manager`'s singleton: I/O and process-global state.
- Config: the top-level entries other than `alpaca` are carried as opaque values, since only the `alpaca` section is read or written. A non-object `alpaca` entry in the file is not modelled.
- Python floats are reals; only their sign and truthiness matter. `str()` formatting of amounts and `float(order.qty)` are not modelled.
- Case mapping is ASCII only: `upper()` and `lower()` change only the letters A-Z and a-z. The one case-insensitive search modelled concretely (pattern 7) also accepts ı and İ for its i, as `re.IGNORECASE` does; no other letter of that pattern has a non-ASCII case partner. Whitespace (`strip()`, `isspace()`, `\s`) is Python's full Unicode set.
- SymbolCandidates.ExtractSymbols: decides `\b` with an ASCII `\w` (`Base.IsWordChar`), while Python's `\w` is Unicode. In "AAPLé" the source finds no bare token, but the model yields AAPL.
- ActionExtraction.BuyAt: reads a quantity with `Base.ParseInt`, which accepts only the ASCII digits 0-9. Python's `\d` and `int()` accept any Unicode decimal digit, so for "buy_stock(AAPL, ١٠)" the source emits a buy of 10, while the model reports the match as Unparsable and moves on.
- ActionDispatch.QuantityParam: `int()` of a string quantity is `Base.ParseInt` too, so non-ASCII digits and Python's digit-group underscores (`int("1_0") == 10`) read as a failure in the model. `Base.ParseInt` does follow CPython's default limit: more than 4300 digits is a failure.
- ActionDispatch.ExecuteActions: the log line built outside the `try` (ai_broker.py:563) formats every parameter with `str()`, which raises for an integer of more than 4300 digits and ends `execute_actions`. The model's results do not capture that. Extracted quantities never reach that size, since `Base.ParseInt` refuses them.
- SymbolCandidates.ExtractSymbols: returns the set of candidates. The order of the source's list comes from Python's set iteration and is not modelled.
- ActionDispatch: `get_stock_price` and `get_account_info` are one oracle; their response conversion is left out.
- OfficialOrders: `get_orders` and `get_order` only forward to the SDK and convert the answers; they are not modelled.
- CoreOrders: `cancel_order`, `cancel_all_orders`, `get_orders` and `get_order` only call the REST client and are not modelled.
- CoreAccount.AccountManager.ConfigureAccount: uses the intended full-match format checks (`CoreAccount.KeyAccepted`) and the copying save (`Config.ConfigManager.SetAlpacaCredentialsCopying`) rather than the code as written; the as-written forms are modelled beside them (see Findings).
- OfficialAccount.OfficialAccountManager.ConfigureAccount: persists through the copying save for the same reason. Its own fields do not depend on which save is used.
- OfficialAccount.OfficialAccountManager.GetAccountInfo: the eight-field account dictionary is part of the client's answer.
- `print_account_summary`, `print_bars`, `_print_bar`, the menus, demos, entry points, `test_broker.py` and `fix_dependencies.py`: console I/O.
- OfficialData.DefaultStep: assumes the SDK's `TimeFrame` compares by value (amount and unit), so `timeframe == TimeFrame.Day` (official/data.py:80, 133) holds for any day timeframe. The SDK's class is not part of this model. If it compared by identity, a timeframe built separately would get a window of `limit` days.
- OfficialData: times are whole seconds since datetime.min (0001-01-01), with `datetime.now()` passed in as `now`. Time zones and microseconds are not modelled, so the last microseconds of 9999-12-31 are not in range.

## Findings

| source | as written | input that shows it | evidently intended | confidence | as-written member | corrected member |
|---|---|---|---|---|---|---|
| alpaca_trader/utils/config.py:125-133 | `save_config` copies `self.config` with `.copy()`, which is shallow, so encrypting the copy's `alpaca` section also encrypts the in-memory one. | `set_alpaca_credentials("AKEY…", "secret…", True)`, then `get_alpaca_credentials()`: it returns the Base64 ciphertext of the key, not the key. | Memory keeps the plain credentials and only the file holds them encrypted, as the code's own comment says. | not executed | Config.ConfigManager.SetAlpacaCredentials, Config.SealedKeyIsNotTheKey | Config.ConfigManager.SetAlpacaCredentialsCopying, Config.SaveLoadRoundTrip |
| alpaca_trader/core/account.py:42-48 | `re.match(r'^[A-Z0-9]{12,}$', key)`: Python's `$` also matches just before a final newline. | `"AAAAAAAAAAAA\n"` passes the key format check. Whether it is then saved depends on `_test_api_keys` (lines 71-107) accepting it: that test sends the value unchanged as the `APCA-API-KEY-ID` header, and the model leaves the test as an unconstrained oracle. | The whole string consists of the character class (`re.fullmatch`). | not executed | CoreAccount.KeyAcceptedAsWritten, CoreAccount.NewlineKeyPasses | CoreAccount.KeyAccepted, CoreAccount.AcceptedHasNoNewline |

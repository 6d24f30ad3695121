# Moving-average backtest: strategy state machine and price cache

A Dafny model of the decision logic in `firo_ui.py`, a Streamlit page that backtests one moving-average crossover rule with a percentage take-profit exit. The page hands the rule to backtrader and gets its prices from yfinance. Two pieces of the file are the project's own logic, and they are modelled here:

- **`TestStrategy`** (`strategy.dfy`, module `Strategy`). A class with the strategy's fields:
  - the pending-order slot (`order`);
  - the entry price and commission of the last completed buy (`buyPrice`, `buyComm`), which `Valid` keeps paired and recorded only alongside a fill's bar count;
  - the remembered order size (`size`) and the bar count of the last fill (`barExecuted`);
  - the append-only decision log (`logs`).

  `Next` is backtrader's per-bar `next`. The current close, the crossover value, the broker's cash and whether a position is held are its inputs. `NotifyOrder` and `NotifyTrade` are the broker callbacks. Each log row is a date plus a tagged message rather than a formatted string.
- **The price cache** (`cache_key.dfy` and `price_cache.dfy`, modules `CacheKeys` and `PriceCache`).
  - `CacheKeys` models Python's `str(datetime)`, the `split(' ')[0]` that keeps the date, and the key `stock_start_end`.
  - `PriceCache.Cache` holds the cache directory as a `map<string, Frame>`. Its `FetchWithCache` is `fetch_data_with_cache`.
  - `GetDataFromYahoo` is the fetch followed by the empty-frame check.

Prices are exact `real`s. The entry and exit rules use only comparisons, one division with `floor`, and one multiplication.

Behaviour of the code that the model keeps as written:
- When `floor(cash / close)` is 0, `next` still calls `self.buy(size=0)` and stores its result in `self.order` (firo_ui.py:245-248). The model assumes that `buy` and `sell` return a pending order for every size, 0 included. `Next` therefore fills the slot with a buy of size 0.
- `fetch_data_with_cache` writes the downloaded frame (firo_ui.py:150-151) before `get_data_from_yahoo` tests `df.empty` (firo_ui.py:96). An empty frame is therefore cached, and a later request on the same dates raises without downloading.
- `next` raises in three cases, and `Next` reports each one as a `Fault`:
  - `ZeroClose`: a buy at a close of 0 divides by zero, right after the "BUY CREATE" row is logged (firo_ui.py:241-245).
  - `EntryPriceUnset`: a held position with no recorded buy price fails in the threshold multiplication (firo_ui.py:255).
  - `SizeUnset`: a sell before any buy has set `self.size` fails, right after the "SELL CREATE" row is logged (firo_ui.py:258-261).

## Model

| member | source | states |
|---|---|---|
| `CacheKeys.Digits` | firo_ui.py:127-128 | the zero-padded decimal fields of `str(datetime)` have exactly the field width and only digit characters |
| `CacheKeys.DigitsInjective` | firo_ui.py:127-128 | zero-padded rendering is injective: equal text means equal numbers |
| `CacheKeys.DateText` | firo_ui.py:127-128 | the date part of `str(datetime)` is 10 characters, has no space, and has dashes at positions 4 and 7 |
| `CacheKeys.TimeText` | firo_ui.py:127-128 | the time part of `str(datetime)` is `HH:MM:SS` (8 characters), or `HH:MM:SS.ffffff` (15) when the microseconds are not zero, and has no space |
| `CacheKeys.Str` | firo_ui.py:127-128 | `str(t)` is the date text, one space, then the time text (19 or 26 characters), so `split(' ')[0]` of it is exactly the date text |
| `CacheKeys.DatePart` | firo_ui.py:127-128 | `split(' ')[0]` is a prefix of the text, has no space, and stops only at a space or at the end of the text |
| `CacheKeys.DatePartOfJoin` | firo_ui.py:127-128 | cutting `a + " " + b` at the first space gives `a` back when `a` has no space |
| `CacheKeys.CacheKey` | firo_ui.py:125-131 | the key is the stock, `_`, the start's calendar date, `_`, the end's calendar date; the time of day is dropped |
| `CacheKeys.DateTextInjective` | firo_ui.py:127-128 | two timestamps have the same date text if and only if they fall on the same calendar date |
| `CacheKeys.JoinInjective` | firo_ui.py:131 | `a_b_c` with `b` and `c` of 10 characters each determines `a`, `b` and `c` |
| `CacheKeys.KeyIdentifiesRequest` | firo_ui.py:125-135 | two requests share a key if and only if they have the same stock and the same start and end dates; timestamps on the same days give the same cache entry |
| `PriceCache.Cache.constructor` | firo_ui.py:135-140 | the store starts as the given directory contents, and no download has been made |
| `PriceCache.Cache.FetchWithCache` | firo_ui.py:125-153 | a hit returns the stored frame and neither downloads nor writes; a miss downloads with the full timestamps, stores the frame under the key and returns it; no other entry changes, and afterwards the key holds the returned frame |
| `PriceCache.GetDataFromYahoo` | firo_ui.py:86-97 | raises `NoData` exactly when the fetched frame is empty, otherwise returns it; the fetched frame, even an empty one, is in the store afterwards under the request's key |
| `PriceCache.FetchTwice` | firo_ui.py:140-153 | a second fetch on the same calendar dates is a hit that returns the first frame; over both calls the download runs once if the first call missed and not at all if it hit, and only the first call's key is written |
| `Strategy.BuySize` | firo_ui.py:244-245 | `floor(cash / close)` lies within one below `cash / close`; for a positive close it is the largest share count whose cost `size * close` is at most the cash, and it is non-negative when the cash is |
| `Strategy.TakeProfitPrice` | firo_ui.py:255 | the sell threshold lies `percent`% of the entry price above it, and above the entry price exactly when the percentage is positive |
| `Strategy.TestStrategy.constructor` | firo_ui.py:168-185 | the slot, entry price, entry commission and size start unset, the log starts empty, and the take-profit percentage is the value given at construction |
| `Strategy.TestStrategy.Log` | firo_ui.py:161-166 | appends exactly one row with the bar's date and the message, keeping earlier rows in order |
| `Strategy.TestStrategy.NotifyOrder` | firo_ui.py:187-217 | Submitted and Accepted change nothing. Every other status clears the slot. A completed buy records the executed price and commission. A completed sell keeps them. Each completion logs one row and records the bar count. Canceled, Margin and Rejected log one row. Created, Partial and Expired log nothing. The size is never touched |
| `Strategy.TestStrategy.NotifyTrade` | firo_ui.py:219-224 | a closed trade appends one profit row with the given gross and net amounts; an open trade changes nothing |
| `Strategy.TestStrategy.Next` | firo_ui.py:226-261 | With an order pending, nothing changes. While flat, a negative crossover logs one row and creates a buy of `BuySize(cash, close)` shares, remembered in `size`; a crossover of 0 or more creates nothing. While in position, a close at or above `TakeProfitPrice` (inclusive) logs one row and creates a sell of the remembered size; a lower close creates nothing. The entry price and commission never change here, and each raising path is reported with its state |

## Left out

- The Streamlit page: widgets, tabs, charts and `run_backtesting` (firo_ui.py:14-81, 300-327). This includes the profit/loss arithmetic in `run`, which is display code.
- `load_tickers_from_folder` (firo_ui.py:38-50): directory listing and CSV reading.
- `run_backtrading` (firo_ui.py:264-297): Cerebro's bar loop, broker fills, cash and commission accounting, and `broker.getvalue()` are backtrader's. Cash and the in-position flag are inputs of `Next` instead.
- The SMA and `CrossOver` indicators and their warm-up (firo_ui.py:180-184): backtrader code. The crossover value is an input of `Next`.
- The trade's `pnl` and `pnlcomm` (firo_ui.py:223-224) are computed by backtrader. `NotifyTrade` takes them as inputs.
- Strategy.TestStrategy.Next: what backtrader's `buy` and `sell` return is not visible here. The model assumes they always return a pending order, for any size including 0, and the slot holds the requested side and size. If `buy` returned `None` for a size of 0, the source's slot would stay empty, while the model keeps a size-0 buy pending until the broker reports it.
- The MD5 digest and file name (firo_ui.py:135). The store is keyed by the key string itself, which treats the digest as injective.
- Pickle files and `os.path.exists` (firo_ui.py:140-151). They are the map store. An unreadable or corrupt file is not modelled.
- `yf.download` (firo_ui.py:147) is the function parameter `download`. An exception raised inside it is not modelled.
- The wall-clock window `now() - timedelta(days)` (firo_ui.py:88-89). The start and end timestamps are inputs.
- Reshaping the frame and wrapping it in `PandasData` (firo_ui.py:99-121): library plumbing. `GetDataFromYahoo` returns the frame.
- Float formatting of the log texts. Each log row is a tagged `Message`.
- Strategy.BuySize: exact real division, not IEEE-754 floating point. A float quotient that rounds up to a whole number can give one share more than the exact floor.
- Strategy.TakeProfitPrice: exact real arithmetic. Float rounding can move a close that sits exactly on the threshold to either side.

# Whale tracker: the provider client and the alert routes

This project models the core of a small whale-monitoring service. The service asks
an Ethereum data provider (Alchemy's `alchemy_getAssetTransfers`) for native-ETH
transfers. It keeps the transfers of at least 100 ETH as `WhaleTransfer` records.
Three HTTP routes serve them:

- `/alerts/latest` returns the list with a count and a message;
- `/alerts/summary` and `/alerts/chat` write the list into a language-model prompt,
  one line per transfer.

The modules follow the program:

- `Wrappers` holds `Option` (Python's `None` or a value) and `Result` (a value or a
  raised exception).
- `Numerals` models the Python conversions the code relies on: `hex(n)` for the
  request's `maxCount`, `int(s, 16)` for block numbers, and `str(n)` for numbers
  printed into text.
- `Schemas` holds the records of `app/schemas.py`.
- `WhaleService` covers `app/whale_service.py`: the endpoint URL, the request body,
  the per-record normalisation and filter, and the loop over the provider's records.
  The loop is a method proved equal to a specification function. Lemmas about that
  function state what the loop promises:
  - every record that survives is a whale;
  - order is kept;
  - skipped records contribute nothing;
  - the call raises exactly when some record raises.
- `Api` covers the text-building of `app/api.py`: the latest-alerts message, the two
  address shortenings, the prompt line of a transfer, the `"\n".join` of the lines,
  and the two prompt-building routes as methods with loops.

The HTTP exchange, the clock and the language model are parameters:

- the provider is a function from the request to its answer;
- `now` is the timestamp stamped into `observed_at`;
- `llm` maps the prompt text to the reply;
- `show` prints a float amount.

The model follows the code:

- The whale threshold is the constant 100. The `min_usd_value` argument is accepted
  and ignored.
- There is no token allowlist, no sorting, no result cache and no truncation to
  `limit`. `limit` only becomes the request's `maxCount`.
- A missing or empty block number gives `None`. A malformed one raises `ValueError`,
  and that ends the whole call.
- The token symbol is taken as the provider sends it, with no upper-casing.
- A JSON `null` in `hash`, `from`, `to` or `asset` is not replaced by the default
  (`dict.get` returns the default only for a missing key). The `WhaleTransfer`
  constructor then rejects it, and the whole call raises (`NullField`).

## Model

| member | source | states |
|---|---|---|
| WhaleService.Get | app/whale_service.py:75-78 | `item.get(key, default)`: the default only for a missing key; a JSON null reads as None |
| WhaleService.BlockNumber | app/whale_service.py:71-72 | `int(blockNum, 16) if blockNum else None`: None for a missing, null or empty block number, the decoded value otherwise, and a ValueError for malformed text |
| WhaleService.Normalize | app/whale_service.py:60-86 | One pass of the loop body: skip a falsy or sub-100 value, raise on a malformed block number or a null string, otherwise build the `WhaleTransfer` |
| WhaleService.ConvertTransfers | app/whale_service.py:57-90 | The list the loop builds, record by record in order, or the first exception raised |
| Numerals.Hex | app/whale_service.py:41 | `hex(n)`: a minus sign for negatives, `0x`, then lowercase hexadecimal digits |
| Numerals.IntFromHex | app/whale_service.py:72 | `int(s, 16)`: surrounding whitespace, an optional sign, an optional `0x` prefix with one optional `_`, then digits of either case with single `_` separators; None for a ValueError |
| Numerals.Decimal | app/api.py:63 | `str(n)` of a Python int, as the f-string prints the block number |
| Api.ShortenAddress | app/api.py:61-62 | `s[:6] + "..." + s[-4:]` with Python's slice clamping |
| Api.ShortenAddressOrEmpty | app/api.py:127-128 | The chat route's shortening: an empty address stays empty |
| Api.Line | app/api.py:63 | The f-string `- {amount} {symbol} from {from} to {to} (block {block})`, with `None` printed for a missing block number |
| Api.JoinLines | app/api.py:66 | `"\n".join(lines)` |
| WhaleService.AlchemyUrl | app/whale_service.py:16-19 | The URL exists exactly when the API key is set and non-empty; otherwise the call fails with the missing-key error |
| WhaleService.AlchemyUrlCarriesKey | app/whale_service.py:19 | The URL is the fixed Alchemy mainnet endpoint followed by exactly the key, so distinct keys give distinct URLs |
| WhaleService.BuildRequest | app/whale_service.py:31-44 | The request is the JSON-RPC 2.0 call `alchemy_getAssetTransfers` with id 1, posted to the given URL; it asks for external transfers from block 0x0 to latest, with metadata; its `maxCount` is `hex(limit)` and decodes with `int(_, 16)` back to `limit` |
| Numerals.HexRoundTrip | app/whale_service.py:41 | For every integer n, `int(hex(n), 16) == n`, so the `maxCount` sent carries `limit` exactly, negative values included |
| Numerals.HexShape | app/whale_service.py:41 | `hex(n)` of a non-negative n is `0x` followed by lowercase hexadecimal digits with no leading zero (except 0 itself) |
| Numerals.Digits | app/whale_service.py:41 | The digits printed for n are non-empty, lowercase digits of the base, with a leading zero exactly when n is 0 |
| Numerals.DigitsRoundTrip | app/whale_service.py:72 | Reading back the digits printed for n gives n |
| Numerals.BareDigitsRoundTrip | app/whale_service.py:72 | `int(_, 16)` also accepts a block number written without the `0x` prefix |
| Numerals.IntFromHexRejects | app/whale_service.py:72 | `int(_, 16)` rejects the empty string, a bare `0x` and a doubled `_`; it accepts `0x_ff` as 255 |
| Numerals.DecimalShape | app/api.py:63 | `str(n)` is an optional minus sign (exactly when n < 0) then decimal digits, and reading the digits of a non-negative n back gives n |
| WhaleService.NormalizeDecision | app/whale_service.py:60-86 | A record is skipped exactly when its value is missing, zero or below 100; it raises exactly when it is kept by that test but its block number is malformed or one of its strings is null |
| WhaleService.KeptTransferFields | app/whale_service.py:71-86 | A kept transfer has the record's value as amount (at least 100), chain `eth`, no token address, USD value or timestamp, and `observed_at` set to now; each string is the record's, or its default when the key is missing; the block number is the hex-decoded `blockNum`, or None when that is absent or empty |
| WhaleService.ConvertAppend | app/whale_service.py:57-90 | Converting `a + b` is converting `a`, then continuing with `b`; a failure in `a` is final |
| WhaleService.ConvertFailureIsFinal | app/whale_service.py:71-72 | Once a prefix of the records raises, the whole call raises with the same error |
| WhaleService.SkippedRecordContributesNothing | app/whale_service.py:61-69 | Removing a record with a missing, zero or sub-100 value from anywhere in the input does not change the result |
| WhaleService.ConvertIsOrderedSubsequence | app/whale_service.py:57-90 | On success, the k-th output is the conversion of input idx[k], with strictly increasing indices and every kept input present; the output is never longer than the input |
| WhaleService.EveryResultIsAWhale | app/whale_service.py:67-86 | Every returned transfer has amount at least 100, chain `eth`, no token address, USD value or timestamp, and `observed_at` set to now |
| WhaleService.ConvertFailsIff | app/whale_service.py:57-90 | The call raises exactly when some record raises, and then with the error of the first such record |
| WhaleService.ConvertRawTransfers | app/whale_service.py:57-90 | The loop (skip with `continue`, raise, append) returns exactly the specified conversion of the provider's records |
| WhaleService.FetchWhaleTransfersFromProvider | app/whale_service.py:22-90 | Without an API key, the call raises and sends no request; otherwise it sends the built request; an HTTP error gives an empty list; a delivered answer gives the conversion of its records |
| Api.LatestAlerts | app/api.py:25-36 | The response carries the transfers and their count; for none, the fixed no-transfers message; otherwise a message starting with `Showing up to ` followed by the count in decimal |
| Api.ShortenAddressShape | app/api.py:61-62 | A shortened address is min(len,6) + 3 + min(len,4) long; from 10 characters on it is exactly the first 6, `...` and the last 4; up to 4 characters it is `s...s`; it adds no line break |
| Api.ShorteningsDifferOnlyOnEmpty | app/api.py:127-128 | The chat route's shortening agrees with the summary route's on every address except the empty one, which stays empty instead of becoming `...` |
| Api.LineShape | app/api.py:63 | A prompt line starts with `- `, ends with `)`, and contains no line break when the amount, symbol and shortened addresses contain none |
| Api.JoinSplitRoundTrip | app/api.py:66 | Splitting the joined text at line breaks gives back exactly the lines, so breaks fall between lines and nowhere else |
| Api.JoinEndsWithLastLine | app/api.py:66 | The joined text of one line is that line; otherwise it ends with the last line, with no trailing break |
| Api.SummaryLines | app/api.py:58-64 | One line per transfer |
| Api.ChatLines | app/api.py:125-130 | One line per transfer |
| Api.SummarizeAlerts | app/api.py:51-103 | For no transfers, the fixed nothing-to-analyze message with count 0 and no model call; otherwise the model gets the joined summary lines and the response carries its reply with the transfer count |
| Api.ChatAboutAlerts | app/api.py:118-162 | For no transfers, the fixed not-enough-data answer with count 0 and no model call; otherwise the model gets the joined chat lines with the question, and the response carries its reply with the transfer count |
| Api.SummaryTextHasOneLinePerTransfer | app/api.py:58-66 | When no field holds a line break, the summary prompt text splits into exactly one line per transfer, in order |
| Api.ChatTextHasOneLinePerTransfer | app/api.py:125-132 | When no field holds a line break, the chat prompt text splits into exactly one line per transfer, in order |

## Left out

- The HTTP POST, its 10-second timeout, `raise_for_status` and JSON decoding are not
  modelled. The provider is a function returning either an HTTP error or the list
  under `result.transfers`. A missing `result` or `transfers` key is treated as an
  empty list.
- The printed error message on an HTTP failure is left out; output is not modelled.
- Loading the API key from the environment and `.env` is left out; the key is a
  parameter.
- The `observed_at` clock is read once per call (`now`); the source reads the clock
  anew for each record.
- The record's `value` is modelled as a JSON number only. A string value and its
  `float()` parsing are left out, and so are float rounding, NaN and infinities;
  amounts are reals.
- `int(s, 16)` is modelled for ASCII whitespace and ASCII digits. Unicode whitespace
  and Unicode digits are left out.
- The model checks only that required string fields are not null. pydantic's other
  validation and coercion (a number where a string is expected, say) is left out.
- How an f-string prints a float amount is the parameter `show`.
- The language-model call is the parameter `llm`. Left out with it:
  - the fixed system and user message texts around the transfer list;
  - the model name and temperature;
  - the `.strip()` of the reply.
- The FastAPI router, query parameters, response-model serialisation and
  the application entry point `main.py` are left out.
- The routes take the transfer list as an input. The source's own calls do not reach
  the service as written. `/alerts/latest` calls `fetch_whales`, which
  `app/whale_service.py` does not define. The other two pass a `min_amount` keyword,
  which `fetch_whale_transfers_from_provider` does not accept. Both fail at request
  time.

# raybot message handlers — a Dafny model

This project models the message-resolution core of raybot, a Telegram bot that
looks up points of interest (POIs). The model covers `raybot/handlers/default.py`:

- `process` dispatches every text message. Bot senders are ignored. Replies to a
  forwarded message go to the reply handler. Stale sessions of the same user are
  finished. Empty input is logged as `empty`. Otherwise the sender's session is reset
  and three stages run in order: predefined response, street address, fuzzy POI query.
- `process_query` is the query-relaxation search. It tries the full phrase, then
  every phrase with one token left out, then every single token. In each scan it keeps
  the first non-empty result with the fewest POIs. Then it sets the conversation state
  and writes the log row.
- `test_predefined` scans the configured responses in order. It picks the first one
  whose keywords match and whose role gate the user passes, and composes its text.
- `welcome` handles `/start`. An integer argument is a POI id; any other argument is
  searched as text.
- `write_search_log` writes a four-field row: date, trimmed text, joined tokens
  (`None` when there are none), outcome tag. A failed write becomes a warning.

Layout (one module per file):

- `wrappers.dfy`: `Option`.
- `text.dfy`: the Python built-ins the handlers use: `str.strip`, `str.lower`,
  `str.join`, `str(int)` and `int(str)`.
- `search.dfy`: the relaxation search of `process_query`.
- `predefined.dfy`: `test_predefined`.
- `searchlog.dfy`: log rows and outcome tags.
- `session.dfy`: the per-user conversation state (phase and data).
- `handlers.dfy`: the bot. Its state is a `Bot` class with three fields: the session
  storage (a map from user id to session), the rows of `search.log`, and the rows that
  were logged as warnings instead.

The code's collaborators are defined in other modules of the bot, so the model takes
them as function parameters, bundled in `Handlers.Env`, and assumes nothing about them:
`split_tokens`, `has_keyword`, `db.find_poi`, `db.get_poi_by_id`, `test_address`,
`prune_users`, and the roles returned by `get_user`. Whether a log write succeeds is a
boolean parameter. So is the clock: the message date arrives already formatted as
`YYYY-MM-DD`.

Three behaviours of the code may be unexpected; the model follows the code:

- One might expect the stored `query` of a multi-result search to be the phrase that
  found the results. The code stores whatever `query` held last (`default.py:89`, `:94`,
  `:113`). That is the full phrase, or the phrase without the last token once the
  omission scan has run, even when another omission or a single token won.
  `Search.StoredQueryIsLastOmission` exhibits such a case.
- One might expect a blank line between a reply's name and message whenever a message is
  configured. The code adds it only when the name is non-empty (`default.py:151`).
- One might expect stale-session pruning to be best effort. The code does not catch a
  failure of `prune_users` (`default.py:61`). The model's `prune_users` cannot fail.

## Model

| member | source | states |
|---|---|---|
| `Search.Step` | raybot/handlers/default.py:96-97 | defines one scan step: a candidate lookup replaces the current result when it is non-empty and the current one is empty or strictly larger |
| `Search.Scan` | raybot/handlers/default.py:93-103 | defines a relaxation scan: the steps over the queries, in order, from a starting result |
| `Search.Relaxed` | raybot/handlers/default.py:89-103 | defines the search result: the full-phrase lookup, the omission scan when that is empty and there are more than two tokens, and the single-token scan when still empty and there is more than one token |
| `Search.StoredQuery` | raybot/handlers/default.py:89-113 | defines the value of `query` after the loops: the phrase without the last token when the omission scan ran, the full phrase otherwise |
| `Search.Resolve` | raybot/handlers/default.py:88-103 | returns the relaxation-search result and the final value of `query`. The search tries the full phrase. If that finds nothing and there are more than two tokens, it scans the omission phrases. If still nothing and more than one token, it scans the single tokens. A candidate replaces the current result only if it is non-empty and strictly smaller |
| `Search.ScanFirstMinimum` | raybot/handlers/default.py:93-103 | a scan starting from nothing returns nothing exactly when every lookup is empty. Otherwise it returns the lookup of the first query whose non-empty result is smallest, so a later tie never replaces an earlier one |
| `Search.ScanComputesOutcome` | raybot/handlers/default.py:93-103 | the inductive form of the same scan property |
| `Search.FirstMinimumUnique` | raybot/handlers/default.py:93-103 | at most one position is the first minimum of a scan, so the winning query is determined |
| `Search.RelaxationStages` | raybot/handlers/default.py:89-103 | a non-empty full-phrase lookup is the result. With at most one token, nothing else is tried. With exactly two tokens, only the single-token scan follows. With more than two, the omission scan follows, and the single-token scan runs only if the omission scan found nothing |
| `Search.RelaxedProvenance` | raybot/handlers/default.py:89-103 | a non-empty result is the lookup of one candidate phrase: the full phrase, an omission phrase or a single token. The result is empty exactly when every candidate lookup is empty |
| `Search.FewestWins` | raybot/handlers/default.py:91-97 | for `a b c` with no exact match, leaving out `b` finds 1 POI and leaving out `a` or `c` finds 3; the one-POI result is chosen |
| `Search.FirstTieWins` | raybot/handlers/default.py:93-97 | when two omission lookups tie for the fewest results, the earlier omission index is kept |
| `Search.StoredQueryIsLastOmission` | raybot/handlers/default.py:89-113 | when only the phrase without the first token finds POIs, that is the result, while the stored `query` is the phrase without the last token |
| `Predefined.Eligible` | raybot/handlers/default.py:133-138 | defines when an entry applies: `has_keyword`, given the lower-cased keywords, accepts the joined tokens or the lower-cased, stripped text, and the entry has no role or the user holds it |
| `Predefined.FirstEligibleFrom` | raybot/handlers/default.py:132-138 | defines the position of the first eligible entry at or after `i`; a position it returns lies between `i` and the end |
| `Predefined.Select` | raybot/handlers/default.py:132-165 | defines the reply: the first eligible entry's position and composed content, or none |
| `Predefined.TestPredefined` | raybot/handlers/default.py:129-165 | the scan returns the reply `Select` describes. Matching uses the space-joined tokens and the lower-cased, trimmed text. Role-gated mismatches are skipped with `continue`, and the content is built in place |
| `Predefined.FirstEligibleFromIsFirst` | raybot/handlers/default.py:132-138 | the scan from position `i` finds nothing exactly when no entry from `i` on is eligible. Otherwise it finds an eligible entry, and every entry before it is ineligible |
| `Predefined.SelectIsFirstEligible` | raybot/handlers/default.py:132-165 | a reply exists exactly when some entry matches and passes its role gate. The reply is for the first such entry in declaration order, and its content is the composition of that entry's name and message |
| `Predefined.RoleGateSkips` | raybot/handlers/default.py:135-138 | a matching entry whose role the user lacks is never selected and does not block the next eligible entry |
| `Predefined.Compose` | raybot/handlers/default.py:139-153 | the content starts with the name (empty when absent) and ends with the message when one is present. Between them is `\n\n` exactly when the name is non-empty and a message exists. Its length is the sum of those parts |
| `SearchLog.TagText` | raybot/handlers/default.py:68-116 | defines the result column: `empty`, `predefined`, `address`, `poi <id>`, `<n> results` and `not found` |
| `SearchLog.SearchRow` | raybot/handlers/default.py:44-45 | defines the four-field row: the date, the stripped text, the space-joined tokens or `None` when there are none, and the result text |
| `SearchLog.QueryTag` | raybot/handlers/default.py:105-116 | one result is logged as `poi <id>` with that POI's id; several as `<n> results` with their count; none as `not found` |
| `SearchLog.TagTextInjective` | raybot/handlers/default.py:68-116 | distinct outcomes are written as distinct texts, so the last field of a row names its outcome |
| `Session.QuerySession` | raybot/handlers/default.py:105-113 | one result sets phase `PoiState.poi` with data `{'poi': id}`. Several set `PoiState.poi_list` with data holding the stored query and the full ordered id list. The session is well formed |
| `Text.Strip` | raybot/handlers/default.py:44 | defines `str.strip()`: leading and then trailing Python whitespace removed |
| `Text.Lower` | raybot/handlers/default.py:131 | defines `str.lower()` character by character, for ASCII and Cyrillic capitals; the length is kept |
| `Text.Join` | raybot/handlers/default.py:89 | defines `' '.join(tokens)`: the parts with one separator between neighbours |
| `Text.IntToString` | raybot/handlers/default.py:106-111 | defines `str(n)`: a minus sign for negative numbers, then decimal digits without leading zeros |
| `Text.ParseInt` | raybot/handlers/default.py:22 | defines `int(payload)`: surrounding whitespace that `int()` skips (`TrimInt`: Python whitespace except U+001C-U+001F) ignored, one optional sign, digits with single underscores between digits; anything else is `None`, the `ValueError` |
| `Text.NumeralShape` | raybot/handlers/default.py:22 | a numeral `int()` accepts starts and ends with a digit and has no two neighbouring underscores |
| `Text.SeparatorControlsNotSkipped` | raybot/handlers/default.py:22 | `strip()` removes a leading U+001C, but `int()` does not skip it: `"\x1c5"` is not an integer, so at `default.py:26-29` it is searched as text |
| `Text.StrayUnderscoresRejected` | raybot/handlers/default.py:22 | `_1`, `1_` and `1__0` do not parse as integers |
| `Text.StripIsTrim` | raybot/handlers/default.py:44 | `strip()` keeps one slice of the text. Everything cut off on either side is whitespace in Python's sense, and the slice neither starts nor ends with whitespace |
| `Text.StripLeftRemovesLeadingSpace` | raybot/handlers/default.py:44 | the left-hand half of `strip()`: what it cuts is whitespace, and what remains does not start with whitespace |
| `Text.StripRightRemovesTrailingSpace` | raybot/handlers/default.py:44 | the right-hand half of `strip()`: what it cuts is whitespace, and what remains does not end with whitespace |
| `Text.StripLowerCommute` | raybot/handlers/default.py:131 | `s.lower().strip()` equals `s.strip().lower()`: lower-casing neither creates nor removes whitespace, so the order of the two calls does not matter |
| `Text.ParseIntToString` | raybot/handlers/default.py:22 | `int(str(n)) == n`: an id written in decimal parses back to the same integer |
| `Text.IntToStringInjective` | raybot/handlers/default.py:106-111 | distinct integers are written differently in the `poi <id>` and `<n> results` tags |
| `Handlers.Route` | raybot/handlers/default.py:54-85 | defines the outcome of `process`: ignored for a bot sender, the reply handler for a reply to a forward, empty input when there are no tokens, otherwise the stages |
| `Handlers.Stages` | raybot/handlers/default.py:74-85 | defines the stages in order: the predefined reply if one is selected, else the address when `test_address` accepts, else the query result and stored query |
| `Handlers.ParsePayload` | raybot/handlers/default.py:19-27 | defines how the `/start` argument is read: none when empty, a POI id when `int()` accepts it, else the tokens of `split_tokens` |
| `Handlers.StartRoute` | raybot/handlers/default.py:19-29 | defines the outcome of `welcome`: started, a shown POI, a failed id lookup, nothing to search, or a search of the tokens |
| `Handlers.OutcomeTag` | raybot/handlers/default.py:68-116 | defines the result column `process` logs for each logged outcome: `empty`, `predefined`, `address`, or the query's `QueryTag` |
| `Handlers.Appended` | raybot/handlers/default.py:46-51 | defines the effect of one `write_search_log`: the row is added to the log when the write succeeds and to the warnings when it fails, and nothing else is added |
| `Handlers.AfterQuery` | raybot/handlers/default.py:105-116 | defines the session storage after `process_query`: the user's session becomes `QuerySession` of the result when there is one, and is untouched when nothing was found |
| `Handlers.AfterStages` | raybot/handlers/default.py:72-85 | defines the storage after the stages: the sender's session finished, then set by `AfterQuery` when the query stage ran |
| `Handlers.AfterProcess` | raybot/handlers/default.py:56-85 | defines the storage after `process`: unchanged for bot senders and replies to forwards; otherwise every pruned user finished, and for non-empty input then `AfterStages` |
| `Handlers.AfterStart` | raybot/handlers/default.py:17-29 | defines the storage after `welcome`: the sender's session phase `poi` with the POI's id when one is shown, finished then `AfterQuery` for a search, finished otherwise |
| `Handlers.DispatchOrder` | raybot/handlers/default.py:56-85 | each of the six outcomes of `process` happens exactly when every earlier check declined it. The order is: bot sender, reply to a forward, empty tokens, predefined response, address, fuzzy query |
| `Handlers.FinishAll` | raybot/handlers/default.py:61-62 | every pruned user's session is finished, and every other session is unchanged |
| `Handlers.PayloadRoundTrip` | raybot/handlers/default.py:19-24 | a `/start` argument written from a POI id is read back as that id |
| `Handlers.PayloadTokensOnlyForNonIntegers` | raybot/handlers/default.py:20-27 | the argument is split into search tokens exactly when it is non-empty and does not parse as an integer |
| `Handlers.Bot.WriteSearchLog` | raybot/handlers/default.py:43-51 | appends the row `[date, text.strip(), joined tokens or None, result]` to the log. If the write fails, the row goes to the warnings instead; the sessions are unchanged |
| `Handlers.Bot.FinishUsers` | raybot/handlers/default.py:61-62 | finishes the session of each user `prune_users` returned, in order; the result is `FinishAll` |
| `Handlers.Bot.ProcessQuery` | raybot/handlers/default.py:88-116 | runs the relaxation search. It stores the session for one result or for several, and leaves the session untouched when nothing is found. It writes one row tagged `poi <id>`, `<n> results` or `not found` |
| `Handlers.Bot.Process` | raybot/handlers/default.py:54-85 | returns the outcome `Route` gives. Bot senders and replies to forwards change nothing. Otherwise pruned users are finished. Empty input is logged as `empty`, and the sender's own session is not reset. Every other message resets the sender's session, then runs the stages, writing exactly one log row |
| `Handlers.Bot.Answer` | raybot/handlers/default.py:71-85 | resets the sender's session. Then the first stage that succeeds ends the message, logged as `predefined`, `address`, or the query's tag |
| `Handlers.Bot.Welcome` | raybot/handlers/default.py:15-29 | finishes the session. An integer argument whose POI exists shows it, with phase `poi` and that POI's id. A failed id lookup changes nothing more. Any other argument is split into tokens and searched only when the token list is non-empty |

## Left out

- Sending messages is not modelled: text, photos, captions, inline keyboards and the "not found" and review buttons. These are transport and UI. The model records which reply was selected (entry index and content) and nothing about how it is sent.
- The photo upload cache is not modelled: the file-existence and size checks, `db.find_file_ids` and `db.store_file_id`. These are file-system and database effects, done only while sending a photo. The configured `photo` and `buttons` fields of a response are left out with them.
- Writing the log file is not modelled: the CSV quoting, the tab delimiter and the file path. The model keeps the row value, and a failed write becomes a warning instead of an error.
- `help` and `set_loc` are not modelled. They are thin wrappers over statistics-template replacement, the user's location field and keyboards.
- The collaborators in other modules have no semantics here: `split_tokens`, `has_keyword`, `test_address`, `prune_users`, `get_user`, `db`, `print_poi`, `print_poi_list` and `process_reply`. Their own changes to session state are left out too, such as what `test_address` or `process_reply` may store. So are the sessions other handlers create; the `Valid` invariant covers only the phases set here.
- Concurrency is not modelled: the async scheduling and the atomicity of the session storage. Each handler runs as one sequential step.
- `Text.Lower`: models `str.lower()` only for ASCII and the Cyrillic capitals U+0400 to U+042F, one character to one. Other scripts are left unchanged, while Python would lower them too. The model also keeps the length, which Python may not: `'İ'.lower()` is two characters.
- `Text.ParseInt`: models `int(str)` for ASCII digits only. Python also accepts other Unicode decimal digits, which the model reads as non-integers.
- `Handlers.Bot.Welcome`: a failed `db.get_poi_by_id` is taken to raise before anything is set, so the model ends with `PoiLookupFailed` and a finished session. It does not model what the uncaught error does next. If the lookup returned `None` instead, the code would set phase `poi` (`default.py:23`) and then fail on `poi.id`; the model does not represent that half-set state.
- `Handlers.Bot.Welcome`: the model assumes that `db.get_poi_by_id`, `PoiState.poi.set()`, `state.set_data` and `print_poi` never raise `ValueError`. In the code such an error is caught like a failed `int()` (`default.py:21-26`), and the payload is then searched as tokens. The model sends only a failed `int()` to the token search.
- The session storage is keyed by user alone. `state.storage.finish(user=user_id)` (`default.py:62`) addresses a storage keyed by chat and user. The two agree for private chats, the only chats the model represents.
- `Handlers.Bot.Process`: the message date is taken as already formatted. `strftime('%Y-%m-%d')` is not modelled.

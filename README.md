# CortexAI core, modelled in Dafny

CortexAI answers business questions about a Tally Prime company in chat form.
A language model is given a list of tools. The tools are served over MCP by
`tally_mcp.py`, which exports XML from Tally, sanitises and parses it, and
formats the records as text. Every tool call goes through a live-or-cache
gate that falls back to the last good snapshot (`snapshot.py`) when Tally
cannot be reached. `orchestrator.py` runs the conversation. It builds the
system prompt from the discovered tools, calls the model (up to three
attempts per call) and reads `TOOL_CALL:` directives out of its replies. It
runs the requested tool, feeds the result back, stops after at most five
rounds, and keeps a per-user history trimmed to the last 20 messages.

This project models that core and proves properties of the model:

- `sanitizer.dfy`:
  - the two deletion passes of `_clean_xml`.
- `xml.dfy`:
  - the element tree the parsers read;
  - its `iter` (pre-order), `find`, `findtext` and `get`.
- `parsers.dfy`:
  - `_parse_ledgers`, `_parse_groups`, `_parse_stock_items` and `_parse_display_report`;
  - the list-building loops are methods.
- `vouchers.dfy`:
  - `_extract_voucher_amount`, its four-step fallback chain, and `_parse_vouchers`.
- `formatters.dfy`:
  - the `format` closures of the eleven tools;
  - receivables and payables (filter, stable sort, total);
  - search, and the period summary with its `Counter` loop and its cap of 15 detail lines.
- `server.dfy`:
  - the request and cache key of each tool, and the date-variable rule of `tally_report`;
  - the live-or-cache gate, as a method on a `TallyServer` class with the `_tally_is_alive` flag and the snapshot store as state;
  - `get_tally_status`.
- `snapshot.py` → `snapshot.dfy`:
  - the store, as a class with a `map` field;
  - `save`, `load` and `age_str`.
- `toolcall.dfy`:
  - `parse_tool_call`, with the two regular expressions written out as matchers.
- `orchestrator.dfy`:
  - `get_tool_descriptions` and the result joining of `call_tool`;
  - `call_llm`'s retry contract;
  - the round loop of `handle_query`, and its update of the `conversation_history` dictionary, as a method on a `Conversations` class with a `map` field.
- `text.dfy`, `seqs.dfy`, `wrappers.dfy`:
  - the parts of Python's `str`, `list` and `sorted` the code relies on.

Three things are parameters of the model:

- The Tally transport: a function from request to "raised" or "returned text".
- The XML parser: a function from cleaned text to an element tree, or nothing when it fails.
- `_fmt_currency`: a function from amount to text.

The clock is an integer count of seconds, and how a snapshot write goes
(it completes, `open` raises, or the write raises part-way) is a parameter
of each gated call. The language model is a function from messages and
attempt number to an attempt outcome. The MCP server is a function from
round, tool name and arguments to a tool reply.

Amounts are `real`. Python's `float()` on amount text is modelled by
`Text.ParseDecimal`: surrounding whitespace, an optional sign, digits, and an
optional fraction.

Some properties one might expect of this system do not hold in the code, and
the model follows the code:

- Sanitising is not idempotent, and it does not leave only characters that XML 1.0 allows.
  - The reference pattern deletes `&#10;` and `&#11;` but keeps `&#12;` and `&#13;`. It also keeps an illegal code written with a leading zero (`&#04;`) or in hexadecimal (`&#x4;`); `Sanitizer.PaddedAndHexKept` states this.
  - Deleting one reference can create another: `&#&#4;4;` cleans to `&#4;`, which a second pass deletes. `Sanitizer.ReferenceCases` and `Sanitizer.CleanXmlNotIdempotent` state both facts.
  - Only the raw-character pass is proved idempotent.
- A snapshot save is not atomic, and a broken snapshot file is not always survived.
  - `save` truncates the file and then writes it, so a write that fails part-way leaves a partial file. `Snapshots.SnapshotStore.Save` takes the disk's behaviour as a parameter and leaves exactly that file.
  - A save that raises inside the gate's `try` sends a good live result to the offline branch.
  - `load` catches `JSONDecodeError` and `IOError` only. A file that is not UTF-8 raises `UnicodeDecodeError` out of `load`, out of the gate's `except` branch and out of `get_tally_status`. `Server.OfflineRaises` and `Server.TallyServer.StatusRaises` state when.
- `call_llm` returns a reply's `content` even when it is JSON `null`. `handle_query` then raises a `TypeError` when it slices that value for its log line. The `NullContent` outcome of `Orchestrator.Rounds` models this; the history is left unchanged.

## Model

| member | source | states |
|---|---|---|
| Sanitizer.RefLength | tally_mcp.py:80-82 | The reference pattern matches 0, 4 or 5 characters. A match starts with `&#` and ends with `;`, and its digits spell a code in the illegal set 0-8, 10, 11, 14-31. |
| Sanitizer.RefOfIllegalCode | tally_mcp.py:80-82 | Conversely, the decimal reference to every code in the illegal set is matched in full. |
| Sanitizer.ReferenceCases | tally_mcp.py:80-82 | `&#10;` and `&#11;` are deleted. `&#9;`, `&#12;` and `&#13;` are not matched. |
| Sanitizer.PaddedAndHexKept | tally_mcp.py:80-82 | `&#04;` and `&#x4;` are not matched, and the first pass leaves text holding them unchanged. |
| Sanitizer.CleanXml | tally_mcp.py:87-90 | The cleaned text contains no raw character of `[\x00-\x08\x0b\x0c\x0e-\x1f]`, and it is never longer than the input. |
| Sanitizer.CleanXmlSubsequence | tally_mcp.py:87-90 | `_clean_xml` only deletes: its output is a subsequence of its input. |
| Sanitizer.StripRefsSubsequence | tally_mcp.py:88 | The reference pass alone only deletes. |
| Sanitizer.StripRefsKeeps | tally_mcp.py:88 | The reference pass keeps every occurrence of every character that cannot be part of a reference. |
| Sanitizer.CleanXmlKeepsWhitespace | tally_mcp.py:83-90 | Every tab, line feed and carriage return of the input survives both passes. |
| Sanitizer.StripRawIdempotent | tally_mcp.py:83-85 | The raw-character pass is idempotent. |
| Sanitizer.CleanXmlNotIdempotent | tally_mcp.py:87-90 | `_clean_xml("&#&#4;4;")` is `"&#4;"`, and cleaning that again gives `""`. |
| XmlTree.Iter | tally_mcp.py:188 | `iter(tag)` yields only elements with that tag, and the element itself first when it has the tag. |
| XmlTree.IterIsFilteredNodes | tally_mcp.py:188 | `iter(tag)` is exactly the document-order list of all elements, filtered by tag. |
| XmlTree.Find | tally_mcp.py:192-193 | `find` finds nothing iff no direct child has the tag. Otherwise it returns the first child with the tag. |
| Parsers.StrippedText | tally_mcp.py:196-197 | An element's text counts as absent iff it is missing or all whitespace. Otherwise it is read as the stripped, non-empty text. |
| Parsers.ParseLedgers | tally_mcp.py:179-199 | The parse fails (the `float` raises) iff some named ledger's balance does not parse. Otherwise it returns one record per `LEDGER` element with a non-empty `NAME`, in document order. |
| Parsers.RecordsStep | tally_mcp.py:188-198 | One loop step: an unnamed element adds nothing and a named one adds its record. A step that does not raise keeps all balances parseable. |
| Parsers.LedgerRecordNames | tally_mcp.py:189-191 | There are as many records as named elements, never more than elements, and each record carries its element's non-empty name. |
| Parsers.LedgerDefaults | tally_mcp.py:196-197 | A missing `PARENT` gives group `""`. A missing, text-less or blank `CLOSINGBALANCE` gives balance 0. |
| Parsers.NamesOf | tally_mcp.py:208 | A name list holds only non-empty names, never more than the elements. |
| Parsers.NamesOfMembers | tally_mcp.py:202-217 | A name is in the group or stock-item list iff some element with the tag has that non-empty `NAME`. |
| Parsers.DisplayNames | tally_mcp.py:230 | Display names are the non-empty texts of `DSPDISPNAME`. |
| Parsers.AmountAt | tally_mcp.py:237-238 | The `i`-th paired amount is the default when the index is past the amount elements or the amount is blank. Otherwise it is the stripped, non-empty text. |
| Parsers.PnlAmountCases | tally_mcp.py:247-249 | A P&L amount is never empty, and it is `"0"` when both the main and the sub amount are missing or blank. |
| Parsers.TrialBalanceRows | tally_mcp.py:232-240 | One trial-balance row per display name, in order; debit and credit are paired by index, `""` when missing or blank. |
| Parsers.PnlRows | tally_mcp.py:242-250 | One P&L row per display name, in order, with amount `main or sub or "0"`. |
| Parsers.BalanceSheetRows | tally_mcp.py:252-258 | One balance-sheet row per display name, in order, with the main amount or `"0"`. |
| Parsers.ParseDisplayReport | tally_mcp.py:220-260 | For the three known kinds, one row per display name, paired as above. For any other kind, `[]`. |
| Vouchers.PartyAmount | tally_mcp.py:301-308 | A flagged party entry with a parseable amount yields a non-negative value. |
| Vouchers.PositiveAmount | tally_mcp.py:333-340 | Step 4 accepts only a strictly positive absolute amount. |
| Vouchers.VoucherAmount | tally_mcp.py:296-342 | The resolved voucher amount is never negative. |
| Vouchers.ExtractVoucherAmount | tally_mcp.py:296-342 | The loops with early returns compute exactly the fallback chain: party entry, ledger party entry, positive inventory sum, first positive `AMOUNT`, 0. |
| Vouchers.PartyEntryWins | tally_mcp.py:300-308 | The first usable party entry in `ALLLEDGERENTRIES.LIST` decides the amount, even when it is 0, whatever the other entries hold. |
| Vouchers.LedgerEntryNext | tally_mcp.py:310-318 | Only when step 1 finds nothing, the first usable party entry in `LEDGERENTRIES.LIST` decides. |
| Vouchers.InventoryThenAnyAmount | tally_mcp.py:320-340 | Without a party entry, the inventory sum is returned only when it is positive. Otherwise the result is the first positive `AMOUNT` anywhere, or 0. |
| Vouchers.NothingMatchesIsZero | tally_mcp.py:342 | When no step matches, the amount is 0. |
| Vouchers.ParseVouchers | tally_mcp.py:263-293 | One record per `VOUCHER` element, in document order. The type defaults to `"?"` and the texts default to `""`. |
| Formatters.RenderLines | tally_mcp.py:370-372 | The loop's list of lines is the line function applied to each item, in the items' order, one line per item. |
| Formatters.ReadBackLines | tally_mcp.py:373 | Lines without a line break, joined by `"\n"`, split back into exactly those lines. |
| Formatters.FormatLedgers | tally_mcp.py:365-373 | `get_all_ledgers` gives one line per ledger, or the fixed message when there are none. |
| Formatters.FormatReport | tally_mcp.py:413-465 | The three report tools give one line per row, an amount `"0"` shown as `"-"`, or the fixed empty message. |
| Formatters.Outstanding | tally_mcp.py:479-482 | The listed ledgers are a permutation of the group's ledgers, sorted by non-increasing absolute balance. |
| Formatters.OutstandingSelection | tally_mcp.py:479-489 | The list holds exactly the ledgers whose group is the given one. The sort is stable, and the total is the sum of their absolute balances. |
| Formatters.FormatOutstanding | tally_mcp.py:477-490 | The receivables/payables loop prints the header, one line per ledger in sorted order and the total, or the fixed message for an empty group. |
| Formatters.SearchMatches | tally_mcp.py:529-530 | The matches are exactly the ledgers whose lowercased name contains the lowercased query, in ledger order. |
| Formatters.FormatSearch | tally_mcp.py:527-538 | The search tool prints the matching ledgers, or all names after "No match" when there is none. |
| Formatters.FormatDay | tally_mcp.py:551-563 | The day tool prints a header with the voucher count and one line per voucher, or the fixed message. |
| Formatters.Types | tally_mcp.py:579-582 | The `Counter` keys, in first-seen order, contain no duplicates and exactly the voucher types present. |
| Formatters.CountsSum | tally_mcp.py:579-582 | The per-type counts add up to the number of vouchers. |
| Formatters.MostCommon | tally_mcp.py:588 | `most_common()` is a permutation of the types, by non-increasing count. |
| Formatters.MostCommonCountsSum | tally_mcp.py:586-589 | The counts printed in the summary add up to the voucher count. Types with equal counts keep first-seen order. |
| Formatters.TallyByType | tally_mcp.py:579-583 | After the loop, each type in the dictionaries has its number of vouchers and the sum of their amounts, in first-seen key order. |
| Formatters.TalliedLines | tally_mcp.py:588-589 | The lines rendered from the dictionaries equal the lines of the true tallies. |
| Formatters.PeriodCap | tally_mcp.py:584-596 | At most 15 detail lines are printed. With more than 15 vouchers the last line is "... and N more", with N = count − 15; otherwise the last line is the last voucher's detail line. |
| Formatters.PeriodLastLine | tally_mcp.py:590-596 | The last line holds no `\|` exactly when there are more than 15 vouchers, so it is the "more" line exactly then and a detail line otherwise. |
| Formatters.FormatPeriod | tally_mcp.py:575-596 | The period summary built by the loops, sorting the types by the counts the tally loop filled, is the specified summary, or the fixed message for no vouchers. |
| Server.DateVars | tally_mcp.py:149-154 | The date variables are present iff both dates are non-empty, starting with the from-date. |
| Server.DayBookDates | tally_mcp.py:548-573 | The Day Book tools send a date range exactly when their dates are given. |
| Server.SearchKeyIgnoresCase | tally_mcp.py:530-541 | Queries equal up to case share the cache key `"search_" + lower(query)` and select the same ledgers. |
| Server.RenderFailures | tally_mcp.py:365-598 | Once the XML parses, a tool's `format` fails iff it is a ledger tool and some named ledger's balance does not parse. |
| Server.Format | tally_mcp.py:365-596 | Each tool's `format` closure, running the parser and formatter loops, gives the specified text or fails as specified. |
| Server.OfflineReplyEndsWithData | tally_mcp.py:64-70 | An offline reply with a snapshot and its age returns normally, starts with the offline banner and ends with exactly the cached text. |
| Server.OfflineRaises | tally_mcp.py:59-72 | The `except` branch raises exactly when the file under the key is not UTF-8. |
| Server.TallyServer.LiveOrCache | tally_mcp.py:32-72 | When the live text is produced and saved, the flag is set, the text is stored under the tool's key and returned. On a raise, an `<ERROR>` response, an XML failure or a failing `format`, the flag is cleared, the store is unchanged and the reply is the offline reply for the old store. When the save raises, the flag is cleared, the store is as the failed save left it, and the reply is the offline reply for that store. |
| Server.TallyServer.Live | tally_mcp.py:45-52 | The `try` body up to the save yields the formatted text exactly when the fetch returns without `<ERROR>`, the XML parses and `format` succeeds. |
| Server.TallyServer.Offline | tally_mcp.py:59-72 | The `except` branch clears the flag and replies from the cache. |
| Server.TallyServer.AgeLines | tally_mcp.py:629-631 | One `"  label: age"` line per report key, in order; the lines raise exactly when `age_str` raises for some key. |
| Server.TallyServer.Status | tally_mcp.py:602-633 | The status text is the ping line, a blank line, the heading and the six age lines, or an exception when some `age_str` raises. |
| Server.TallyServer.StatusRaises | tally_mcp.py:627-631 | The status report raises exactly when one of the six report files is not UTF-8. |
| Server.TallyServer.StatusLines | tally_mcp.py:602-633 | A status text that is returned reads back as exactly its nine lines. |
| Snapshots.Minutes | snapshot.py:48 | `int(seconds / 60)` truncates toward zero; it is below 1 iff fewer than 60 seconds passed. |
| Snapshots.AgeBuckets | snapshot.py:48-57 | The four buckets: under a minute is "just now"; under an hour, whole minutes; under a day, whole hours; otherwise whole days. |
| Snapshots.AgeTextIsNotMissing | snapshot.py:49-57 | An age is never the "no cached data" sentinel. |
| Snapshots.AgeTextNoBreak | snapshot.py:49-57 | An age is one line. |
| Snapshots.SnapshotStore.constructor | snapshot.py:12-13 | The store starts as the directory found at start-up. |
| Snapshots.SnapshotStore.Load | snapshot.py:28-37 | `load` returns `None` iff the file is absent, not JSON or cannot be opened, and raises iff it is not UTF-8. Otherwise it returns the stored record. |
| Snapshots.SnapshotStore.Save | snapshot.py:16-25 | `save` returns normally iff the write completes; `load(k)` then returns `d` with the save time. A failed `open` leaves the file; a failed write leaves the partial file. No other key changes. |
| Snapshots.SnapshotStore.AgeStr | snapshot.py:40-57 | "no cached data" for a snapshot `load` does not find; the bucketed age for one it finds; it raises iff `load` raises. |
| Snapshots.SnapshotStore.AgeStrMissing | snapshot.py:42-44 | `age_str` returns "no cached data" iff `load` returns `None`. |
| ToolCalls.WordEnd | orchestrator.py:160 | The greedy `\w+` run is maximal. |
| ToolCalls.MatchCall | orchestrator.py:160 | A directive match at a position names a tool made of word characters, with argument text free of `)`. |
| ToolCalls.SearchCall | orchestrator.py:160-162 | `re.search` finds nothing iff no position holds a match. Otherwise it returns the match at the leftmost such position. |
| ToolCalls.MatchArg | orchestrator.py:169 | An argument match has a word name and a value without `"`. |
| ToolCalls.ArgPairs | orchestrator.py:169-170 | Every pair `finditer` yields has a word name and a value without `"`. |
| ToolCalls.ToMap | orchestrator.py:167-170 | The dictionary's keys are exactly the names that occur, each with a value that occurs with it. |
| ToolCalls.LastValueWins | orchestrator.py:169-170 | When a name repeats, its last value is the one kept. |
| ToolCalls.ParseToolCall | orchestrator.py:158-172 | The result is `(None, None)` iff the text holds no directive. Otherwise the tool name is made of word characters, and every key is a word and every value free of `"`. |
| ToolCalls.ArgPairsOfArgsText | orchestrator.py:169 | Arguments written `name="value"` and separated by `", "` are read back exactly, in order. |
| ToolCalls.DirectiveRoundTrip | orchestrator.py:158-172 | A reply that starts with a directive in the taught syntax parses back to that name and the dictionary of its arguments, whatever follows. |
| Orchestrator.ArgsShown | orchestrator.py:102-107 | A tool's arguments are its schema property names joined by `", "`, or `"none"` without any. |
| Orchestrator.ToolDescriptionLines | orchestrator.py:97-109 | The tool list reads back as one line per discovered tool, in order, each starting with its name and arguments. |
| Orchestrator.CollectTexts | orchestrator.py:84-87 | The loop collects the text of every text block, in order, skipping other blocks. |
| Orchestrator.CallTool | orchestrator.py:80-89 | The result is the text blocks joined by `"\n"`, "No result returned." for empty content, or "Tool error: " plus the error when the call raises. |
| Orchestrator.ResultTextCases | orchestrator.py:83-89 | Non-empty content without text blocks gives `""`. One-line text blocks read back one per line. |
| Orchestrator.FirstAnswerMeaning | orchestrator.py:130-155 | There is no answer iff all three attempts fail (an error field or an exception). Otherwise the answer is the content, possibly `null`, of the earliest successful attempt. |
| Orchestrator.CallLlm | orchestrator.py:130-155 | The retry loop makes three attempts whenever all fail; otherwise it stops at the first answer, one attempt after the failures before it, and returns that answer's content, `null` included. |
| Orchestrator.PromptShowsDirective | orchestrator.py:206-227 | The system prompt shows the example directive, with or without business context. |
| Orchestrator.ExampleParses | orchestrator.py:212 | The example directive parses as a call of `tool_name` with `arg1` and `arg2`. |
| Orchestrator.Rounds | orchestrator.py:238-279 | A query ends in a failure, an answer or a `null` answer in some round below 5, or is exhausted. |
| Orchestrator.Trim | orchestrator.py:260-261 | The kept history is the last `min(20, n)` entries, in order. |
| Orchestrator.TrimKeepsExchange | orchestrator.py:253-261 | After trimming, the history ends with the query and the answer. |
| Orchestrator.Turn | orchestrator.py:241-277 | One round either ends the query with this round's outcome, or appends the model's call and `"TOOL_RESULT for <name>:\n<result>"` and continues. |
| Orchestrator.RunRounds | orchestrator.py:238-279 | The loop reaches the outcome of `Rounds`. It makes one model call per round and one tool call per round that does not end the query: at most 5 of each, 5 of each when exhausted. |
| Orchestrator.Conversations.constructor | orchestrator.py:183 | Histories start empty. |
| Orchestrator.Conversations.HandleQuery | orchestrator.py:179-279 | The prompt lists the discovered tools, and the reply and the new history follow `Rounds`. An answer is returned and stored after the user's earlier entries together with the query, and trimmed to 20. A failure returns the overloaded message and exhaustion the "Could not complete" message; `null` content makes the call raise. In these three cases the history is unchanged, except that a missing user gets `[]`. Other users are untouched and no tool-round message is stored. |
| Orchestrator.Conversations.Converse | orchestrator.py:229-279 | The same, for a given prompt and directive parser. |
| Orchestrator.FailureEndsLoop | orchestrator.py:241-245 | When all three attempts fail, the query ends in that round as overloaded. |
| Orchestrator.AnswerHasNoCall | orchestrator.py:249-262 | An answered query's answer is a model reply in which the parser finds no tool call. |

## Left out

- The HTTP transport (`_tally_request`, streaming, timeouts, the XML envelopes of `tally_collection` and `tally_report`) is a parameter. Its three error payloads all contain `<ERROR>`, which the gate tests for.
- `ET.fromstring` is a parameter on the cleaned text; a parse error is its "nothing".
- `_fmt_currency` is a parameter. Its `,` grouping is Western, whatever its comment says, and the model does not specify its digits.
- `Text.ParseDecimal` covers decimal text with sign and fraction only. Exponents, `inf`, `nan` and underscores, which Python's `float` also accepts, are not modelled.
- Amounts are exact reals, so the rounding of float sums (the inventory total, the totals and the per-type amounts) is not modelled.
- `Text.Lower` and `Text.IsWordChar` cover ASCII only. Python's `lower()` and `\w` also handle non-ASCII letters.
- Snapshots.SnapshotStore.Save: what a failed write leaves on disk is a parameter (`Disk`), not derived from the bytes written. The file a concurrent reader could see during a write is not modelled.
- Snapshots: the JSON encoding, file paths, `timestamp_human` and `datetime` are not modelled. Time is a whole number of seconds, so sub-second ages are not modelled.
- Snapshots: a file that decodes but lacks `saved_at` or `data` makes the code raise a `KeyError`. The model treats every readable file as a complete record.
- Server.TallyServer.LiveOrCache: `if cached:` treats a decoded empty JSON object as absent, which the model does not distinguish.
- `get_tally_status`'s ping is a parameter (its outcome), as is the clock.
- The async MCP stdio session, subprocess launch, `connect`/`disconnect` and tool discovery are not modelled. The discovered tools are an input, and of their input schemas only the property names are modelled.
- `httpx` and tenacity's two-second waits are not modelled. Only "three attempts, an error field fails an attempt" is kept.
- The RAG lookup (`rag.py`, a wrapper over a vector store) and the date text of `handle_query` are inputs of the prompt.
- `telegram_bot.py` is a front end and is not part of this model.
- `print` logging is not modelled, except that slicing a `null` reply for the log line raises `TypeError`, which ends `handle_query` (the `NullContent` outcome).
- Concurrency between queries is not modelled.

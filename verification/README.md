# ETW export of trace events: category gating

This project models, in Dafny, the part of Chromium's trace-event system that
exports trace events to ETW (Event Tracing for Windows). The source is
`trace_event/trace_event_etw_export_win.cc`.

A trace controller such as xperf enables the "Chrome" ETW provider with a
64-bit *keyword*. The exporter keeps one on/off flag per category, read from
that keyword:

- sixteen categories are listed by name, and bit i governs the i-th of them;
- every other category falls into one of two buckets: bit 62 governs names
  starting with `disabled-by-default`, and bit 61 governs the rest;
- the bucket names `__OTHER_EVENTS` and `__DISABLED_OTHER_EVENTS` are keys of
  the table as well.

A category group such as `"cc,gpu"` is exported when any of its categories is.

The model has five modules, one per file:

- `CategoryTable` (`category_table.dfy`) holds the table constants. It also
  holds `KeywordBit`, the bit that governs a category name, and `Decode`, the
  flag table a keyword stands for. The lemmas characterise both.
- `CategoryTokens` (`category_tokens.dfy`) splits a group name on commas and
  drops empty pieces, as the tokenizer the exporter uses does.
- `EventFormat` (`event_format.dfy`) holds:
  - the phase display strings;
  - the three argument-value slots, of which two are forwarded;
  - the eight-string ETW record.
- `EtwExport` (`etw_export.dfy`) holds two classes:
  - `TraceEventEtwExport`, the exporter object, with the stored keyword and
    the flag table. It always holds `Decode(keyword)`.
  - `ExportProcess`, the process-wide state the exporter's static members act
    on. That is the singleton slot, the registration-complete flag, an
    abstract ETW provider, and the records written to that provider.
- `Scenarios` (`scenarios.dfy`) works through:
  - the two xperf keywords given in the source's comments;
  - the group `"cc,madeup"`;
  - the start-up order in which a session is enabled before the exporter
    exists.

`IsCategoryEnabled` is a const query in the source. Here it is a method that
changes nothing. Callers then reason only about its contract, which states the
flag as the governing keyword bit.

`AddEvent` and `AddCompleteEndEvent` use the get-or-create accessor. They
write the record without looking at the event's category; callers check
`IsCategoryGroupEnabled` first. The argument buffer has three slots; the first
two are forwarded.

The comment giving the keyword 0xA0000000000000A0 says it exports "gpu",
"netlog" and all other events that are not disabled by default. "All other"
covers only the categories outside the table: a listed category whose bit is
clear, such as "cc", stays off (`Scenarios.GpuNetlogAndOthersListed`).

## Model

| member | source | states |
|---|---|---|
| CategoryTable.KnownNamesDistinct | trace_event/trace_event_etw_export_win.cc:65-87 | the sixteen listed names and the two bucket names are pairwise distinct, eighteen in all (kNumberOfCategories) |
| CategoryTable.ReservedNamesNotListed | trace_event/trace_event_etw_export_win.cc:65-84 | neither bucket name is a listed category, the two differ, and both are table keys |
| CategoryTable.ReservedKeywordBits | trace_event/trace_event_etw_export_win.cc:85-86 | the masks kOtherEventsKeywordBit and kDisabledOtherEventsKeywordBit test bits 61 and 62 |
| CategoryTable.KeywordBitOfKnown | trace_event/trace_event_etw_export_win.cc:290-309 | table entry i is governed by bit i for a listed name, by bit 61 for `__OTHER_EVENTS` and by bit 62 for `__DISABLED_OTHER_EVENTS` |
| CategoryTable.KeywordBitOfListed | trace_event/trace_event_etw_export_win.cc:291-297 | listed category i is governed by keyword bit i |
| CategoryTable.KeywordBitOfUnknown | trace_event/trace_event_etw_export_win.cc:327-335 | a name outside the table is governed by bit 62 exactly when it starts with `disabled-by-default`, otherwise by bit 61 |
| CategoryTable.KeywordBitBelow16 | trace_event/trace_event_etw_export_win.cc:36-46 | a name governed by a bit below 16 is the listed category at that position (no unlisted name shares a listed bit) |
| CategoryTable.KeywordBitRange | trace_event/trace_event_etw_export_win.cc:36-46 | every name is governed by one of bits 0..15, 61, 62 |
| CategoryTable.Decode | trace_event/trace_event_etw_export_win.cc:123-131 | the decoded table has exactly the eighteen table names as keys |
| CategoryTable.DecodeEntry | trace_event/trace_event_etw_export_win.cc:290-309 | every decoded entry is the keyword bit governing its name |
| CategoryTable.DecodeListed | trace_event/trace_event_etw_export_win.cc:290-309 | entry of listed category i is bit i; `__OTHER_EVENTS` is bit 61; `__DISABLED_OTHER_EVENTS` is bit 62 |
| CategoryTable.DecodeSize | trace_event/trace_event_etw_export_win.cc:87 | the decoded table always has kNumberOfCategories (18) entries |
| CategoryTable.DecodeZero | trace_event/trace_event_etw_export_win.cc:111 | under the initial keyword 0 every flag is off |
| CategoryTable.AllOff | trace_event/trace_event_etw_export_win.cc:127-128 | inserting names one by one with value false gives exactly those names as keys, all off |
| CategoryTable.InitialTableIsDecodeZero | trace_event/trace_event_etw_export_win.cc:127-131 | the constructor's table (listed names, then the two buckets, all false) equals the decoding of keyword 0 |
| CategoryTable.SetListedFlag | trace_event/trace_event_etw_export_win.cc:291-297 | one loop step of the update keeps the key set and makes one more listed entry follow its bit |
| CategoryTable.FollowingTableIsDecode | trace_event/trace_event_etw_export_win.cc:290-311 | a table with the eighteen keys whose listed and bucket entries follow the keyword is the decoded table: nothing else is stored |
| CategoryTable.SetBucketFlags | trace_event/trace_event_etw_export_win.cc:299-309 | once every listed entry follows the keyword, setting the two buckets from bits 61 and 62 yields the decoded table |
| CategoryTable.UsedBitsCoverKeywordBit | trace_event/trace_event_etw_export_win.cc:36-46 | bits 0..15, 61 and 62 read the same in a keyword and in that keyword masked to those bits |
| CategoryTable.DecodeDependsOnlyOnUsedBits | trace_event/trace_event_etw_export_win.cc:48-50 | keywords that agree on bits 0..15, 61 and 62 give the same table, so bit 63 (always set for ETW) and the other bits change nothing |
| CategoryTokens.Split | trace_event/trace_event_etw_export_win.cc:271-273 | splitting on ',' gives at least one piece, and no piece contains a comma |
| CategoryTokens.JoinSplit | trace_event/trace_event_etw_export_win.cc:271-273 | splitting loses nothing: joining the pieces with ',' gives the group name back |
| CategoryTokens.SplitAround | trace_event/trace_event_etw_export_win.cc:271-273 | the pieces of "a,b" are the pieces of a followed by those of b |
| CategoryTokens.NonEmpty | trace_event/trace_event_etw_export_win.cc:273-274 | the kept tokens are exactly the non-empty pieces |
| CategoryTokens.NonEmptyAppend | trace_event/trace_event_etw_export_win.cc:273-274 | dropping empty pieces distributes over concatenation |
| CategoryTokens.Tokens | trace_event/trace_event_etw_export_win.cc:271-274 | every token is non-empty and comma-free |
| CategoryTokens.TokensOfCategoryName | trace_event/trace_event_etw_export_win.cc:271-274 | a non-empty name without a comma is a single token |
| CategoryTokens.TokensAround | trace_event/trace_event_etw_export_win.cc:271-274 | the tokens of "a,b" are the tokens of a followed by those of b |
| EventFormat.PhaseString | trace_event/trace_event_etw_export_win.cc:164-230 | the twenty named phases get a multi-character name; any other non-NUL phase c is shown as [c], and NUL as the empty C string |
| EventFormat.PhaseStringInjective | trace_event/trace_event_etw_export_win.cc:164-230 | no two phase codes share a display string (ParsePhase inverts PhaseString) |
| EventFormat.CompleteEndIsNotAPhase | trace_event/trace_event_etw_export_win.cc:257 | the "Complete End" record is never confused with a phase's display string |
| EventFormat.FormatArgValues | trace_event/trace_event_etw_export_win.cc:232-243 | the three-slot buffer holds each non-convertible argument's value in its slot and "" everywhere else |
| EventFormat.ExportedEvent | trace_event/trace_event_etw_export_win.cc:245-248 | the record carries the event name, the phase's display string (which reads back as the phase), and the names and values of arguments 0 and 1 ("" when absent; "" as value when convertible); the third pair is empty |
| EtwExport.TraceEventEtwExport.constructor | trace_event/trace_event_etw_export_win.cc:111-132 | keyword 0; the table holds exactly the 18 names, all false; the table invariant holds |
| EtwExport.TraceEventEtwExport.UpdateEnabledCategories | trace_event/trace_event_etw_export_win.cc:282-317 | returns true exactly when the keyword differs from the stored one; stores it; listed entry i = bit i, `__OTHER_EVENTS` = bit 61, `__DISABLED_OTHER_EVENTS` = bit 62; keys never change; an unchanged keyword leaves the table and the trace-log notification untouched |
| EtwExport.TraceEventEtwExport.IsCategoryEnabled | trace_event/trace_event_etw_export_win.cc:319-336 | the result is the stored keyword's bit governing the name: the name's own entry if it is a key, else the bucket chosen by the `disabled-by-default` prefix; nothing is inserted |
| EtwExport.SingleCategoryGroup | trace_event/trace_event_etw_export_win.cc:271-278 | a one-category group is enabled exactly when that category is |
| EtwExport.JoinedGroups | trace_event/trace_event_etw_export_win.cc:271-278 | group "a,b" is enabled exactly when group a or group b is |
| EtwExport.ExportProcess.constructor | trace_event/trace_event_etw_export_win.cc:109 | a fresh process has no exporter, the registration-complete flag unset (its static initial value), and nothing written; the provider's session state is given |
| EtwExport.ExportProcess.GetInstance | trace_event/trace_event_etw_export_win.cc:353-357 | creates the exporter at most once, registering the provider first; an enable callback sent during registration finds the flag unset and is dropped, so the new exporter has keyword 0; after destruction it returns null |
| EtwExport.ExportProcess.EtwEnableCallback | trace_event/trace_event_etw_export_win.cc:89-102 | the provider context takes the session's new state; once registration is complete, the exporter's stored keyword becomes the session keyword |
| EtwExport.ExportProcess.OnEtwEnableUpdate | trace_event/trace_event_etw_export_win.cc:340-350 | does nothing unless registration is complete; otherwise brings the exporter's keyword and table in step with the provider's keyword |
| EtwExport.ExportProcess.EnableEtwExport | trace_event/trace_event_etw_export_win.cc:140-148 | creates the exporter (fresh) only when none was ever created, otherwise keeps the existing one, and leaves its keyword equal to the provider's, refreshing the trace log exactly when the keyword changed |
| EtwExport.ExportProcess.AddEvent | trace_event/trace_event_etw_export_win.cc:151-249 | creates the exporter if none was ever created, with keyword 0 so every category is off until the next resynchronisation, and otherwise leaves the exporter untouched; writes exactly one formatted record when the exporter exists and the provider is enabled, nothing otherwise |
| EtwExport.ExportProcess.AddCompleteEndEvent | trace_event/trace_event_etw_export_win.cc:252-258 | creates or keeps the exporter as AddEvent does; writes exactly the "Complete End" record (the name, "Complete End", six empty strings) under the same conditions |
| EtwExport.ExportProcess.IsCategoryGroupEnabled | trace_event/trace_event_etw_export_win.cc:261-280 | false without an exporter or with the provider disabled; otherwise true exactly when some comma-separated token is enabled; never creates the exporter |
| EtwExport.ExportProcess.DestroyInstance | trace_event/trace_event_etw_export_win.cc:134-137 | unregisters the provider, clears the registration-complete flag and empties the singleton slot for good |
| Scenarios.BenchmarkAndCcBits | trace_event/trace_event_etw_export_win.cc:53-54 | of the bits a name can be governed by, 0x8000000000000009 sets only 0 and 3 |
| Scenarios.BenchmarkAndCcExample | trace_event/trace_event_etw_export_win.cc:53-54 | keyword 0x8000000000000009 exports "benchmark" and "cc" events and no other category |
| Scenarios.GpuNetlogAndOthersBits | trace_event/trace_event_etw_export_win.cc:56-58 | of the bits a name can be governed by, 0xA0000000000000A0 sets only 5, 7 and 61 |
| Scenarios.GpuNetlogAndOthersListed | trace_event/trace_event_etw_export_win.cc:56-58 | under 0xA0000000000000A0 the listed categories exported are exactly "gpu" and "netlog" |
| Scenarios.GpuNetlogAndOthersUnlisted | trace_event/trace_event_etw_export_win.cc:56-58 | under 0xA0000000000000A0 an unlisted category is exported exactly when it is not disabled by default |
| Scenarios.GpuNetlogAndOthersBuckets | trace_event/trace_event_etw_export_win.cc:56-58 | under 0xA0000000000000A0 `__OTHER_EVENTS` is on and `__DISABLED_OTHER_EVENTS` is off |
| Scenarios.MadeupIsUnlisted | trace_event/trace_event_etw_export_win.cc:65-84 | "madeup" is not a table name and does not carry the disabled-by-default prefix |
| Scenarios.ListedAndUnlistedGroup | trace_event/trace_event_etw_export_win.cc:261-280 | "cc,madeup" is enabled exactly when bit 3 ("cc") or bit 61 (the bucket of "madeup") is set |
| Scenarios.SessionStartedBeforeExporter | trace_event/trace_event_etw_export_win.cc:140-148 | with a session already enabled for 0x8000000000000009, "cc" is off right after the exporter is created and on after EnableEtwExport |

## Left out

- ETW itself is not modelled. That covers `EventRegister`, `EventUnregisterChrome`, `McGenControlCallbackV2` and the `CHROME_Context` it fills. The provider is three fields: registered, enabled by a session, and the session's keyword. A keyword change reaches the model as a call of `EtwEnableCallback`.
- `EventEnabledChromeEvent` also checks the event descriptor's level and keyword. The model reduces this to the single "enabled" flag.
- `EventWriteChromeEvent` is modelled as appending its eight strings to `written`.
- `AppendAsJSON` formatting is not modelled. Each argument carries the text it would produce.
- `TraceLog::UpdateETWCategoryGroupEnabledFlags` is not modelled. The model counts the calls in the ghost field `categoryFlagRefreshes`.
- Threads are not modelled. That covers concurrent callbacks, lock-free reads of the table, and the thread-safe construction inside `Singleton`. base/memory/singleton.h is not part of this model. Its at-most-once construction, its null after destruction and the at-exit destruction are modelled as the `lifecycle` field and `DestroyInstance`.
- `CStringTokenizer` is replaced by `Split` followed by dropping empty pieces.
- The phase codes come from trace_event_common.h, which is not part of this model. Their values are restated as character constants.
- `AddEvent`'s `category_group_enabled` and `id` parameters are not modelled because the code never reads them. A null argument pointer is the empty sequence.
- `EtwExport.ExportProcess.AddEvent`: requires at most three arguments, the size of the value buffer. It does not model the trace-argument container's own cap of two.
- `DCHECK(!ChromeHandle)` in the constructor is not modelled.

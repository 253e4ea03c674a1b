# GEDCOM decoder engine, modelled in Dafny

This project models the decoding engine of the Go package `gedcom` (decoder.go) and the
citation formatter `(*SourceRecord).GetReferenceString` (source.go).

The decoder is a pushdown automaton. It is fed `(level, tag, value, xref)` lines and
builds a graph of genealogy records.

- **Registry.** One get-or-create function per record kind, all over the single map
  `d.refs`. An empty xref gives a fresh, unregistered record; a non-empty one gives the
  instance registered under it, created and registered on first mention.
- **Stack of contexts.** `d.parsers` holds the contexts. Each context runs one tag table
  and remembers the `minLevel` it was opened at.
  - A line at or above that level closes the context: its close action runs, it is
    popped, and the line is delivered again to the context below.
  - Otherwise the tag table updates its record, appends to its lists and/or opens one
    child context at the line's level.
  - An unknown tag is reported to the caller's callback and opens a "slurk" context that
    swallows the whole subtree.
  - The root context acts on level-0 lines only and is never closed.
- **Continuations.** `CONT` adds a newline and the value, `CONC` adds the value alone.
- **Close actions.** An event closing without a date gets "now" as its sort key. Families
  and individuals sort their events (and an individual's attributes) by sort key.
  `getSortDate` turns the free-text date into that key.

Layout:

| file | module | models |
|---|---|---|
| `strings.dfy` | `Strings` | `stripXref`, continuation joins, `strings.Split`/`strings.Join` |
| `sortdate.dfy` | `SortDate` | `getSortDate`: the date pattern, the "02 Jan 2006" parse, the Gregorian calendar |
| `citation.dfy` | `Citation` | the publication scan and the assembly of `GetReferenceString` |
| `tags.dfy` | `Tags` | the tag names the tables switch on |
| `records.dfy` | `Records` | the record types, as classes with the fields the decoder assigns |
| `contexts.dfy` | `Contexts` | lines, contexts, the stack shape and its invariants |
| `engine.dfy` | `Engine` | the decoder state, `pushParser`/`popParser`, the registry getters |
| `header_tables.dfy`, `people_tables.dfy`, `source_tables.dfy` | `HeaderTables`, `PeopleTables`, `SourceTables` | every `make*Parser` tag table |
| `decoder.dfy` | `Decoding` | the root table, close actions, delivering a line to the stack |

Design choices:

- **Records.** A record is a class. Fields set only in Go's composite literal are
  `const`. Everything updated later sits in one `fields` value whose defaults are Go's
  zero values, so a tag table states its whole effect as `r.fields == old(r.fields).(f := v)`.
- **Contexts.** A context is a datatype naming its tag table, the record it writes and
  its `minLevel`. A text table names the string variable it extends: a citation's page,
  one element of a data record's text list, a source field, or a local copy.
- **The callback** is a ghost log `unrecognized` of the lines it was called with.
- **The clock.** `time.Now()` is a parameter `now`.
- **Panics.** Go's two panics are the `Outcome` value `Panic`: `value[0:1]` on an empty
  value, and "MASSIVE ERROR" in `popParser`. The model proves the second never happens
  when a line is delivered.

Behaviour of the code as written:

- **Copied list values.** For the multi-valued source fields PAGE, FILM, FILE, FILN,
  DATE, PLAC, DATV, URL, LOCA, REPO and SUBM, the source table appends a copy of the
  value. The text table it opens extends a local variable. So `CONT`/`CONC` lines under
  these tags never reach the stored list element. The model keeps this: the context
  opened is `TextTable(LocalCopy(cell))`, a fresh cell, and `ParseText` on such a target
  may write that cell only.
- **Contexts left open.** Contexts still open when the lines run out are never closed.
  A file without a closing level-0 line (normally `TRLR`) leaves the events of its last
  record unsorted.

## Model

| member | source | states |
|---|---|---|
| Strings.StripXref | decoder.go:1189-1191 | the result is the value with the run of `@` at each end removed and nothing else: everything cut off is `@`, the result is the middle slice, and it neither starts nor ends with `@` |
| Strings.StripXrefOfPointer | decoder.go:1189-1191 | any number of `@` on either side of an id that does not start or end with `@` strips back to exactly that id |
| Strings.TrimLeadingAts | decoder.go:1190 | the leading half of `strings.Trim(value, "@")`: drops exactly the leading `@` run |
| Strings.TrimTrailingAts | decoder.go:1190 | the trailing half: drops exactly the trailing `@` run |
| Strings.ExtendAll | decoder.go:1141-1159 | after a base value and a run of continuation lines, applied one line at a time, the text is the base followed, in order, by `"\n"+v` for each CONT and `v` for each CONC |
| Strings.ExtendAllSplits | decoder.go:1147-1150 | applying a run of continuations in two parts gives the same text as applying it at once |
| Strings.ConcConcCont | decoder.go:825-828 | a concrete join: CONC c1, CONC c2, CONT n1 on a base gives `base + c1 + c2 + "\n" + n1` |
| Strings.Split | source.go:26 | `strings.Split` on one character gives at least one part, and no part holds the separator |
| Strings.JoinSplit | source.go:26 | joining the parts of a split with the separator gives back the input |
| SortDate.MonthYearAt | decoder.go:1196-1198 | the month-and-year tail of the pattern matches at a position exactly when four digits stand there or a month abbreviation, whitespace and four digits do; a month is captured whenever one can be (the optional group is tried first); without a month the year is the four characters at the position, with one the month is the three characters there and the year the four after the maximal run of whitespace |
| SortDate.WithDay | decoder.go:1196-1198 | the pattern with a day of exactly 1 or 2 digits matches exactly when those digits, a run of whitespace and the month-and-year tail stand at the position; the day captured is those digits, and the month and year lie after the whitespace as above |
| SortDate.MatchAt | decoder.go:1196-1198 | the match at a position, with a leftmost-first engine's priorities: it exists exactly when a 2-digit day, a 1-digit day or no day can lead to the month-and-year tail; the day captured is 2 digits when a 2-digit day fits, else 1 when a 1-digit day fits, else none; a month is captured exactly when one can follow; each capture is the text at its place |
| SortDate.FirstMatch | decoder.go:1197 | the leftmost position where the pattern matches: no earlier position matches |
| SortDate.FindDate | decoder.go:1197-1198 | there is a match iff the pattern matches at some position, and then it is the leftmost match |
| SortDate.Defaulted | decoder.go:1203-1208 | a missing month becomes `JAN`, a missing day becomes `1`, the year is kept |
| SortDate.ParseTriple | decoder.go:1210-1211 | the `02 Jan 2006` parse of a padded triple succeeds exactly when the day lies between 1 and the length of the month in that (Gregorian) year, and then gives the date the three captures name |
| SortDate.NoYearGivesNow | decoder.go:1194-1200 | with no 4-digit year in the text, the sort date is "now" |
| SortDate.InvalidTripleGivesNow | decoder.go:1211-1214 | a triple that fails the `02 Jan 2006` parse leaves the sort date at "now" |
| SortDate.YearAloneIsJanuaryFirst | decoder.go:1203-1214 | a leftmost match with a year alone gives 1 January of that year |
| SortDate.MonthYearIsFirstOfMonth | decoder.go:1203-1214 | a leftmost match with a month and a year but no day gives the first of that month |
| SortDate.GetSortDate | decoder.go:1193-1219 | with no match the sort date is "now"; otherwise it is midnight of the date the leftmost match names (a missing month read as January, a missing day as the 1st) when that date exists, and "now" when it does not; so it is always "now" or a valid calendar date with a year from 0 to 9999 |
| SortDate.AboutQualifierSkipped | decoder.go:1196-1198 | in `"ABT 1850"` no match starts inside the qualifier `"ABT "` |
| SortDate.AboutYearAtYear | decoder.go:1196-1198 | in `"ABT 1850"` the pattern matches at the year with no day and no month |
| SortDate.AboutYearIsJanuaryFirst | decoder.go:1193-1219 | `"ABT 1850"` sorts as 1 January 1850 |
| SortDate.FullDateAtStart | decoder.go:1196-1198 | in `"5 JAN 1850"` the pattern matches at the start with day `5`, month `JAN` and year `1850` |
| SortDate.FullDateIsThatDay | decoder.go:1193-1219 | `"5 JAN 1850"` sorts as 5 January 1850 |
| SortDate.WrittenDateMatch | decoder.go:1196-1198 | for any date written as a 1-2 digit day, a month abbreviation and a 4-digit year separated by single spaces, the leftmost match is at the start and captures all three |
| SortDate.WrittenDateIsThatDay | decoder.go:1193-1219 | any such written date sorts as exactly that day when it exists, and as "now" when it does not (such as `30 FEB 1850`) |
| SortDate.ChronologicalOrder | decoder.go:1211 | an earlier valid calendar date is an earlier instant, so sort keys order events by date |
| SortDate.YearLength | decoder.go:1211 | a year lasts 366 days when it is a Gregorian leap year and 365 otherwise |
| SortDate.MonthTableConsistent | decoder.go:1211 | the day counts before each month add up month by month to the length of the year |
| SortDate.DaysBeforeMonthMonotone | decoder.go:1211 | a later month of the same year starts after every day of an earlier month |
| SortDate.DaysBeforeYearMonotone | decoder.go:1211 | a later year starts after every day of an earlier year |
| Citation.MatchSegment | source.go:27-29 | whatever the pattern `^ *([^:]+): (.+)$` accepts is spaces, a label without a colon, `": "`, and a non-empty value on one line, the value running to the end of the segment |
| Citation.MatchSegmentComplete | source.go:27-29 | every segment of that form is accepted with exactly that value, and the captured label is that label, possibly with spaces before it |
| Citation.LastValueSnoc | source.go:28-40 | a later segment with the wanted label overrides every earlier one; any other segment changes nothing |
| Citation.LastValueEmpty | source.go:28-40 | the value of a label is empty exactly when no segment carries that label |
| Citation.LastValueIsLastCarrier | source.go:28-40 | the value of a label is the one captured from the last segment carrying it |
| Citation.ReadSegment | source.go:30-39 | one turn of the scan: a segment carrying one of the three labels replaces that label's value and leaves the other two |
| Citation.FactsShape | source.go:41-52 | the facts are Location, Name, Date in that order, the empty ones left out, with `", "` only between the present ones |
| Citation.FactsEmpty | source.go:41-52 | the facts are empty iff all three values are empty |
| Citation.ScanPublication | source.go:25-40 | the loop leaves in each of the three variables the value of the last segment carrying that label |
| Citation.CombineFacts | source.go:41-52 | the two appends leave exactly the ordered, comma-separated facts |
| Citation.AuthorFirst | source.go:18-20 | a non-empty author opens the result verbatim, followed either by nothing or by `", "` |
| Citation.TitleQuoted | source.go:21-23 | a non-empty title appears in double quotes right after the author and its separator, or first when there is no author |
| Citation.FactsLast | source.go:53-57 | non-empty publication facts close the result as `(facts)`, after the joined author and title and a `", "` when either is present, and alone otherwise |
| Citation.ReferenceString | source.go:15-58 | the reference string is empty exactly when author and title are empty and no segment carries `Location`, `Name` or `Date`; a present author opens it verbatim |
| Citation.NoStraySeparator | source.go:57 | no component is empty, so the join has no leading, trailing or doubled separator; the result is empty iff there are no components |
| Records.SourceRecord.GetReferenceString | source.go:15-58 | the method's result is the reference string the lemmas above describe, for the record's author, title and publication |
| Records.SetSourceText | decoder.go:967-984 | the single-valued source field written is set to the value and every other field is unchanged |
| Records.AppendSourceList | decoder.go:1015-1058 | the chosen multi-valued source list gains the value at its end, and every other field and list is unchanged |
| Contexts.Targets | decoder.go:98-112 | every object a context on the stack writes to is in the footprint of the stack |
| Contexts.TargetsPrefix | decoder.go:104-112 | popping contexts only shrinks that footprint |
| Contexts.LevelsIncrease | decoder.go:226-273 | in a well-formed stack `minLevel` rises strictly between any two open contexts, from level 0 up |
| Contexts.Survivors | decoder.go:104-112 | the contexts left after a line has closed the ones it closes form a prefix of the stack |
| Contexts.SurvivorsExact | decoder.go:104-112 | a line at level L closes exactly the contexts opened at L or deeper; the root and every context opened above L survive, and the result is still well formed |
| Contexts.PushWellFormed | decoder.go:226-273 | opening a context at a level above every open context, or at level 0 on the root alone, keeps the stack well formed |
| Contexts.LiveTop | decoder.go:413-414 | opening a context keeps every text table's target element existing, provided the new one's does |
| Contexts.LivePrefix | decoder.go:104-112 | closing contexts keeps the targets of those that remain existing |
| Engine.Decoder.constructor | decoder.go:35-51 | an empty file with an empty header, an empty registry, and the root context alone on a well-formed stack |
| Engine.Decoder.PushParser | decoder.go:100-102 | the stack grows by exactly the new context |
| Engine.Decoder.PopParser | decoder.go:104-112 | exactly the top context is removed; with only the root left it panics with "MASSIVE ERROR" and changes nothing |
| Engine.Decoder.Unrecognized | decoder.go:298-300 | the callback is called once with the line, and a slurk context is opened at the line's level |
| Engine.Decoder.OpenChild | decoder.go:100-102 | one context is opened at the line's level, and nothing else changes |
| Engine.Decoder.Individual | decoder.go:114-126 | the registry getter for individuals: `""` gives a blank record with an empty id and leaves the registry alone; a known id of the same kind gives the registered record; any other id gives a new blank record registered under it |
| Engine.Decoder.Family | decoder.go:128-140 | the same for families |
| Engine.Decoder.Repository | decoder.go:142-154 | the same for repositories |
| Engine.Decoder.Source | decoder.go:156-168 | the same for sources |
| Engine.Decoder.Submitter | decoder.go:170-182 | the same for submitters |
| Engine.Decoder.Submission | decoder.go:184-196 | the same for submissions |
| Engine.Decoder.Note | decoder.go:198-210 | the same for notes |
| Engine.Decoder.Object | decoder.go:212-224 | the same for objects |
| Engine.ResolvesKeyed | decoder.go:114-224 | the getters keep every record registered under its own id, so a non-empty id yields a record whose id is that id |
| Engine.ResolvesRegisters | decoder.go:114-224 | after a getter call with a non-empty id, that id maps to the returned record |
| Engine.ResolvesAgain | decoder.go:114-224 | asking again for the same kind and id gives the identical instance and leaves the registry as it was |
| Engine.ResolvesKeeps | decoder.go:114-224 | the registry only gains or overwrites the requested entry; nothing is removed and no other entry changes |
| Engine.ResolvesReplaces | decoder.go:119-124 | asking for an id held by a record of another kind fails the type assertion and replaces the entry |
| Engine.ResolveNote | decoder.go:467-484 | a NOTE or CAUS value starting with `@` resolves through the registry and opens nothing; any other value is a new unregistered note holding the value, whose context is opened |
| Engine.ResolveObject | decoder.go:558-566 | the same for OBJE: a pointer resolves through the registry, anything else is a new inline object with its context opened |
| Engine.OpenInlineObject | decoder.go:562-565 | a new unregistered object with an empty id, with its context opened |
| Engine.OpenCitation | decoder.go:463-466 | a new citation of the source the value points to, with its context opened |
| Engine.OpenFamilyLink | decoder.go:486-490 | a new family link to the family the value points to, with its context opened |
| Engine.OpenInlineNote | decoder.go:473-475 | a new unregistered note holding the value, with its context opened |
| Engine.OpenEvent | decoder.go:547-550 | a new event with the line's tag and value, blank place and address, with its context opened |
| HeaderTables.ParseAddress | decoder.go:275-305 | CONT extends the full address with a newline and the value; ADR1, ADR2, CITY, STAE, POST, CTRY and PHON set their field; nothing else accepts continuations; any other tag is reported and slurked |
| HeaderTables.ParseChanged | decoder.go:307-327 | DATE makes a timestamp and opens it; NOTE appends an inline note; anything else is reported |
| HeaderTables.ParseCorp | decoder.go:348-367 | ADDR makes an address holding the value and opens it; PHON appends a phone number |
| HeaderTables.ParseEncoding | decoder.go:426-441 | VERS sets the version |
| HeaderTables.ParseHeaderData | decoder.go:612-629 | DATE and COPR set their fields |
| HeaderTables.ParseHeaderInfo | decoder.go:631-648 | VERS and FORM set their fields |
| HeaderTables.ParseHeader | decoder.go:650-690 | the header table: each tag sets its field or opens its sub-record, and anything else is reported |
| HeaderTables.SetHeaderField | decoder.go:656-663 | COPR, FILE, LANG and DEST set their fields; SUBM and SUBN resolve the submitter and submission through the registry |
| HeaderTables.OpenHeaderChild | decoder.go:664-682 | CHAR, DATE, SOUR, GEDC and NOTE each make a new sub-record from the value and open its context |
| HeaderTables.ParseHeaderSource | decoder.go:692-717 | VERS, NAME and FORM set fields; CORP and DATA make and open their sub-records |
| HeaderTables.ParseSubmission | decoder.go:1086-1111 | FAMF, TEMP, ANCE, DESC and ORDI set fields; SUBM resolves the submitter and opens nothing |
| HeaderTables.ParseSubmitter | decoder.go:1113-1139 | NAME and LANG set fields; ADDR and CHAN make and open sub-records; PHON appends |
| HeaderTables.ParseTimestamp | decoder.go:1161-1178 | TIME sets the time |
| PeopleTables.ParseChild | decoder.go:329-346 | `_FREL` and `_MREL` set the relations |
| PeopleTables.ParseFamilyLink | decoder.go:506-528 | PEDI and ADOP set fields; NOTE appends an inline note |
| PeopleTables.ParseName | decoder.go:791-817 | NSFX and NPFX set fields; SOUR appends a citation; NOTE appends an inline note |
| PeopleTables.ParsePlace | decoder.go:870-894 | SOUR appends a citation; NOTE appends an inline note; MAP opens the map table on the same place |
| PeopleTables.ParseMap | decoder.go:896-915 | LATI and LONG set the coordinates |
| PeopleTables.ParseSpouseInfo | decoder.go:1069-1084 | AGE sets the age |
| PeopleTables.ParseEvent | decoder.go:443-504 | the event table, with the panic on an empty NOTE or CAUS value as its only failure |
| PeopleTables.SetEventDetail | decoder.go:452-462 | TYPE sets the type; DATE sets the date and the sort key `getSortDate(value)`; PLAC and ADDR fill the embedded place or address and open it; HUSB/WIFE append spouse information and open it (decoder.go:492-495) |
| PeopleTables.LinkEvent | decoder.go:463-466 | SOUR appends a citation; FAMC appends a family link, only for BIRT and ADOP events (decoder.go:485-491) |
| PeopleTables.NoteEvent | decoder.go:467-484 | NOTE and CAUS append a note resolved or made inline from the value; an empty value panics before any change |
| PeopleTables.OpenChildRecord | decoder.go:543-546 | a new child record for the individual the value points to, with its context opened |
| PeopleTables.ParseFamily | decoder.go:530-586 | the family table, with the panic on an empty NOTE or OBJE value as its only failure |
| PeopleTables.SetFamilySpouse | decoder.go:539-542 | HUSB and WIFE resolve the individual through the registry and open nothing |
| PeopleTables.AddFamilyChildOrCitation | decoder.go:543-557 | CHIL appends a child record; SOUR appends a citation |
| PeopleTables.AddFamilyEvent | decoder.go:547-553 | the family events append a new event; NCHI sets the number-of-children event; CHAN makes a change record (decoder.go:576-578) |
| PeopleTables.AddFamilyPointer | decoder.go:558-575 | OBJE and NOTE append a record resolved or made inline; an empty value panics before any change |
| PeopleTables.ParseIndividual | decoder.go:719-789 | the individual table, with the panic on an empty NOTE or OBJE value as its only failure |
| PeopleTables.AddIndividualFact | decoder.go:731-744 | NAME appends a name; SEX sets the sex; events and attributes append a new event to their list; CHAN makes a change record (decoder.go:779-781) |
| PeopleTables.LinkIndividual | decoder.go:745-754 | FAMC and FAMS append a family link |
| PeopleTables.SourceIndividual | decoder.go:755-760 | SOUR appends a citation; `_PHOTO` sets the photo |
| PeopleTables.AddIndividualPointer | decoder.go:761-778 | OBJE and NOTE append a record resolved or made inline; an empty value panics before any change |
| SourceTables.ContinuationOf | decoder.go:1147-1150 | CONT and CONC lines are the two continuation kinds, carrying the line's value |
| SourceTables.WriteText | decoder.go:1148-1150 | writing through the text table's address changes that one string variable and nothing else |
| SourceTables.ParseText | decoder.go:1141-1159 | CONT/CONC extend the target string exactly as the continuation join prescribes and open nothing; any other tag leaves it and is reported |
| SourceTables.ParseNote | decoder.go:819-841 | CONT/CONC extend the note's text; SOUR appends a citation |
| SourceTables.ParseData | decoder.go:405-424 | DATE sets the date; TEXT appends the value to the text list and opens a text table on that new element |
| SourceTables.ParseObject | decoder.go:843-868 | FILE makes a file record named by the value and opens it; NOTE appends a note resolved or made inline, panicking on an empty value |
| SourceTables.ParseFile | decoder.go:588-610 | TITL and FORM set fields; `_TEXT` makes an inline description note |
| SourceTables.ParseRepository | decoder.go:917-934 | NAME, ADDR, EMAIL and PHON are accepted and ignored, with nothing opened and no callback; anything else is reported |
| SourceTables.ParseCitation | decoder.go:369-403 | PAGE sets the page and opens a text table on it; QUAY sets the quality; NOTE appends an inline note; DATA opens the embedded data record; OBJE appends an object |
| SourceTables.AddCitationObject | decoder.go:386-394 | OBJE appends an object resolved or made inline; an empty value panics before any change |
| SourceTables.ParseSourceData | decoder.go:936-959 | AGNC sets the agency; EVEN appends a new `EVEN` event; NOTE appends an inline note |
| SourceTables.ParseSource | decoder.go:961-1067 | the source table, with the panic on an empty OBJE value as its only failure |
| SourceTables.SetSourceField | decoder.go:967-984 | AUTH, TITL, ABBR, PUBL, TEXT, TYPE, PERI, VOL and MEDI set their field and open a text table on it (decoder.go:1006-1014) |
| SourceTables.AppendSourceField | decoder.go:1015-1058 | the multi-valued tags append the value to their list and open a text table on a fresh local copy, so continuations never reach the stored element |
| SourceTables.AddSourceChild | decoder.go:985-991 | CHAN makes a change record; NOTE appends an inline note; DATA makes the event-data record (decoder.go:1001-1003); each is opened |
| SourceTables.AddSourceObject | decoder.go:992-1000 | OBJE appends an object resolved or made inline; an empty value panics before any change |
| Decoding.ParseRoot | decoder.go:226-273 | only level-0 lines act: HEAD opens the header; INDI, SUBM, FAM, SOUR, NOTE, OBJE and REPO resolve the line's xref, append the record to their list and open it; SUBN sets the submission; TRLR does nothing; anything else is reported |
| Decoding.ListPerson | decoder.go:233-247 | INDI, SUBM and FAM append the record for the xref to their list and open it at level 0 |
| Decoding.ListSource | decoder.go:248-263 | SOUR, NOTE, OBJE and REPO do the same |
| Decoding.InsertByKeyPermutes | decoder.go:533-535 | inserting into the sorted list adds exactly the inserted entry |
| Decoding.InsertByKeySorted | decoder.go:533-535 | inserting into a list sorted by key keeps it sorted |
| Decoding.SortByKeyPermutes | decoder.go:533-535 | sorting keeps exactly the entries it was given |
| Decoding.SortByKeySorted | decoder.go:533-535 | sorting leaves the keys in non-decreasing order |
| Decoding.InsertByKeyEvents | decoder.go:533-535 | inserting adds exactly the inserted event to the events of the list |
| Decoding.SortByKeyEvents | decoder.go:533-535 | sorting keeps exactly the events it was given |
| Decoding.KeyedSortPermutes | decoder.go:533-535 | sorting the events paired with their keys keeps exactly the events of the list |
| Decoding.KeyedSortOrdered | decoder.go:533-535 | sorting the events paired with their keys leaves them non-decreasing by sort key |
| Decoding.ByDate | decoder.go:533-535 | the events sorted by date are a permutation of the list, non-decreasing by sort key |
| Decoding.SortedKeysTrue | decoder.go:533-535 | every entry of the sorted list carries its own event's sort key |
| Decoding.CloseEvent | decoder.go:446-448 | an event closing with an empty date takes "now" as its sort key; otherwise it is unchanged |
| Decoding.CloseFamily | decoder.go:533-535 | a closing family's events become a permutation of themselves, non-decreasing by sort key; nothing else in the family changes |
| Decoding.CloseIndividual | decoder.go:722-727 | a closing individual's events and attributes each become such a sorted permutation; nothing else changes |
| Decoding.Close | decoder.go:443-449 | the close action of a context: an event without a date takes "now" as its sort key, a family's events and an individual's events and attributes are put in date order (decoder.go:530-536, 719-728), and every other table closes without a change; only the context's own record is written |
| Decoding.StepsStart | decoder.go:104-112 | before any context closes, every record of the stack is as it was and no close action has run |
| Decoding.StepsKept | decoder.go:104-112 | running the close action of the next context keeps every record of the stack within what its own close action does, and adds that context to those closed |
| Decoding.ListsKept | decoder.go:104-112 | the lists sorted by contexts closed earlier stay in date order when the next close action does not touch their events |
| Decoding.CloseRecord | decoder.go:443-449 | the close action of the next context to close runs, extending the closed part of the stack by one |
| Decoding.CloseTop | decoder.go:104-112 | the top open context runs its close action and is popped; the stack stays well formed and the closed part grows by that context |
| Decoding.PopClosed | decoder.go:104-112 | popping and closing repeats while the top context was opened at the line's level or deeper: the stack left is exactly the survivors, each closed context has run its close action, and no record outside the closed contexts is written |
| Decoding.ClosingDone | decoder.go:104-112 | after the closing, every record of the stack was written by no more than its own close action, and the close action of every closed context has run |
| Decoding.CloseContexts | decoder.go:104-112 | a line closes exactly the contexts it closes, never the root, so `popParser` never panics; each closed context ran its close action (an undated event's sort key is "now", a family's or individual's lists are a sorted permutation); the registry and the callback are untouched |
| Decoding.ClosingSurvives | decoder.go:104-112 | the close actions' effects survive on every record that the handling table does not write to |
| Decoding.Redeliver | decoder.go:104-112 | the redelivery after the pops: the context left on top handles the line with exactly its table's effect (against the state after the closing), and the close actions' effects survive on the records that table does not write to |
| Decoding.CloseAndDispatch | decoder.go:104-112 | a line that closes the top context: it closes at least one context, the closed contexts ran their close actions, at most one context is opened at the line's level above those that remain, and the stack stays well formed |
| Decoding.DispatchHeader | decoder.go:275-1178 | the header-side table of the context handles the line with exactly the effect that table's handler states (address, change, corporation, encoding, header data and info, header, header source, submission, submitter, timestamp); at most one context is added, at the line's level, and the callback is called at most once with the line |
| Decoding.DispatchPeople | decoder.go:329-915 | the same for the people tables (child, family link, name, place, map, spouse information, event, family, individual), each with the effect its handler states; they fail only on an empty pointer value |
| Decoding.DispatchSource | decoder.go:369-1187 | the same for the citation, data, file, note, object, repository, source data, source and text tables, each with the effect its handler states; the slurk table accepts the line and changes nothing (decoder.go:1180-1187) |
| Decoding.Dispatch | decoder.go:226-1187 | the top context handles the line with exactly the effect its table states (the root table's, or the table of the top open context); at most one context is opened, at the line's level; the root opens one only on level 0; a panic is only the out-of-range slice of an empty value; the slurk table changes nothing |
| Decoding.Deliver | decoder.go:104-112 | one call of the top parser: the contexts the line closes are gone, having run their close actions; at most one context is opened at the line's level above those that remain; a line that closes nothing has exactly the effect of the top context's table; the stack stays well formed, and the registry only grows |

## Left out

- Decode driver: `Decode` and `scan` (decoder.go:35-96) read bytes, tokenize them into lines and hand each line to the top parser. Tokenizing (the `scanner` type) is not part of this model, and neither is the refill loop. `Deliver` models one hand-over of a line. A loop delivering a whole sequence of lines is not modelled, because its modifies frame would need a freshness fact in every tag table.
- `NewDecoder` and `SetUnrecTagFunc` (decoder.go:17-31) only store the reader and the callback. The callback is the ghost log `unrecognized`; what caller code does in it is not modelled.
- `println` of a scanner error (decoder.go:80) is I/O.
- Tags.Classify: the tag names the tokenizer produces are mapped to the `Tag` datatype by `Classify`, and tags the tables do not name become `Other(name)`. A `Line` is taken to carry a classified tag: nothing rules out a line built by hand with `Other("NOTE")`, which no table would treat as NOTE. `Classify` states only that `Other` keeps the text; the round trip `Name(Classify(s)) == s` over its 120 literal cases is beyond the resource limit.
- Regular expressions and `time.Parse` are not modelled as libraries. The date pattern of `getSortDate` is a specified leftmost search. The `"02 Jan 2006"` parse is a validity check on the day, month and year of the Gregorian calendar, followed by a days-from-civil count. Times are whole seconds; time zones and `time.Time`'s monotonic reading are left out.
- Decoding.CloseFamily: `sort.Slice` is not stable, so the contract states a sorted permutation rather than one particular order of equal keys. The insertion sort that meets it stands in for Go's sort.
- Engine.Decoder.PopParser: the redelivery of the line after the pop is done by `Deliver`, which pops every context the line closes before the remaining top handles the line.
- Decoding.Deliver: the close actions' effects are stated only for the closed records that the table handling the line afterwards does not write to. A record shared by a closed context and a surviving one is written by both, and the model does not compose the two effects. The same holds for Decoding.CloseAndDispatch and Decoding.Redeliver.
- Decoding.CloseAndDispatch: when the line closes contexts, what the table left on top then does with the line is stated by `Redeliver`, against the state after the closing, and is not restated against the state before the line. That would relate three heaps (before the line, after the closing, after the handling), which is beyond the resource limit. The same holds for Decoding.Deliver, which states the table's effect only for a line that closes nothing.
- Decoding.CloseContexts: a closed family's or individual's lists are stated to be in date order only when no event on them belongs to a context that closes after it, lower on the stack (`EventsClosedFirst`). Such an event would change its own sort key after the list was sorted. On a stack built from a file, the events of a record sit above it and close first. The same condition holds for Decoding.Deliver, Decoding.CloseAndDispatch and Decoding.PopClosed.
- Decoding.PopClosed: the modifies frame is stated over the stack before the line, so the records it may write are those of every context that line closes.
- Record freshness: the tag tables state that a record they create is fresh and blank. The model does not track which objects are reachable from the file, so aliasing between records made by different lines is visible only through the registry.

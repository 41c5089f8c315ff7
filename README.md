# jogiocr core, modelled in Dafny

jogiocr is a Next.js service. It reads Chilean financial and identity
documents from images and PDFs by asking a language model for their fields as
JSON. It also merges several such extractions into one applicant report. This
project models the service's core logic:

- **`lib/ocr.ts` — `Doc2Fields`** (`ocr_extract.dfy`). The file-kind and
  model guards; the choice of the reply text; the clean-up of that text
  (code fences removed, whitespace trimmed, the outermost `{…}` or `[…]`
  span kept); and the reading of the parsed reply into a document result
  (`doctypeid`, `matched`, `multiple`, `periodo`, `data`).
- **`pages/api/v1/ocr.ts`** (`ocr_handler.dfy`). The 405, 400 and 500 replies;
  the page slices cut from a PDF, with their file names; and the file name
  of a whole image.
- **`pages/api/parser.ts`** (`parser_handler.dfy`). The 405 reply; the API-key
  gate (`x-api-key` header or `Bearer` token); the 500 reply when the model
  key is not configured; the 400 reply for a bad upload; the clean-up that
  keeps objects only; and the 500 reply carrying the parser's message.
- **`pages/api/v1/megajson.ts`** (`megajson.dfy`). The alias-aware field
  resolution; the merge of incoming documents by catalogue id, last one
  wins; the stamping of each entry with its document's `docdate`; the
  identity sets (all RUTs, all names) kept free of duplicates and falsy
  values; the three aggregation blocks (salary slips, annual receipts,
  bank account); and the handler's 400 and 500 replies and its report.
- **`lib/database.ts`** (`database.dfy`). `execute` builds
  `SELECT * FROM proc(p_k1 := $1, …)` with one placeholder per parameter and
  passes the values in key order. `logapi` and `logerror` build their
  parameter dictionaries.

Supporting modules:

- `js.dfy`: JavaScript values (`undefined`, `null`, booleans, numbers as
  reals, strings, arrays, objects as ordered property lists), with property
  read, truthiness, `??` and `||`.
- `text.dfy`: the string routines (`startsWith`, `trim`, fence removal, the
  bracket-span match, `split`).
- `decimal.dfy`: array index keys.
- `http.dfy`: the error bodies and the upload record.
- `results.dfy`: `Option` and `Result`.

Some host behaviour cannot be seen from the source and is passed in as
parameters:

- the model's reply text;
- `JSON.parse` (`string -> Result<Value>`);
- `parseFloat` and number-to-string;
- the database query (`(sql, values) -> Result<rows>`);
- the clock (`now`, `start`);
- the PDF page count.

The megajson handler builds its state step by step in the source, so it is
modelled with methods and loops:

- `MergeDocuments` and `StampEntries` are each proved equal to a fold
  (`MergeAll`, `StampAll`).
- `CollectIdentities` is proved equal to `AllRuts`/`AllNames`, which are
  proved duplicate-free and exact.

The rest of the core is expression code, so it is modelled as functions and
lemmas.

Three behaviours of the code are easy to miss:

- `lib/ocr.ts:108` reads one document type per reply. It picks the
  requested type; else the first key of the reply that the catalogue knows,
  unless that key is the falsy `''`; else the reply's first key. Other
  recognised keys in the same reply are ignored. `OcrExtract.SchemaKey` and
  `OcrExtract.Interpret` do the same.
- `pages/api/v1/ocr.ts:36` reads `result.documents`, which `Doc2Fields` never
  returns. The PDF and image file lists are therefore always empty
  (`OcrHandler.NothingListed`, `OcrHandler.Handle`). The slicing is still
  modelled and proved on its own (`OcrHandler.PdfFiles`).
- `pages/api/v1/megajson.ts` has no `try`/`catch`. A `null` entry in
  `documents` makes `doc.id` throw, which the framework answers with a bare
  500 (`Megajson.Handle`).

## Model

| member | source | states |
|---|---|---|
| Megajson.SchemaIds | pages/api/v1/megajson.ts:40-43 | the catalogue is exactly the non-empty required-document ids |
| Megajson.FirstDefined | pages/api/v1/megajson.ts:23-29 | undefined exactly when every alias is undefined; otherwise the value of the first alias that is defined |
| Megajson.ResolveField | pages/api/v1/megajson.ts:17-30 | non-objects resolve to undefined; the field itself wins when it is defined; otherwise the first defined alias of that document type is used |
| Megajson.ResolveSingle | pages/api/v1/megajson.ts:17-21 | a field present under its own name is read directly, whatever the alias table says |
| Megajson.KnownKey | pages/api/v1/megajson.ts:46-47 | a document is merged only under its own id read as a property key, and only when the catalogue contains it; a text id is accepted exactly when it is catalogued |
| Megajson.FilterObjects | pages/api/v1/megajson.ts:49-50 | the cleaned entries are exactly the plain objects of the data, never more than before |
| Megajson.StampEntry | pages/api/v1/megajson.ts:55-58 | an entry that already has a truthy docdate, or is not an object, is unchanged; otherwise it gets the document's docdate and keeps every other field |
| Megajson.StampAll | pages/api/v1/megajson.ts:53-60 | every entry is stamped, one for one and in order |
| Megajson.StampEntries | pages/api/v1/megajson.ts:53-60 | the stamping loop produces exactly the stamped list |
| Megajson.MergeDocuments | pages/api/v1/megajson.ts:45-61 | the merge loop builds exactly the fold of the merge step over the incoming documents |
| Megajson.MergeStepKeys | pages/api/v1/megajson.ts:46-51 | after one step, an id is a key exactly when it was one before or is the known id of this document |
| Megajson.MergeKeys | pages/api/v1/megajson.ts:45-61 | the merged ids are exactly the known ids of the incoming documents |
| Megajson.MergeLastWins | pages/api/v1/megajson.ts:45-51 | when several documents share an id, the stored value is the last one's |
| Megajson.StoredShape | pages/api/v1/megajson.ts:49-51 | when no entry survives the filter, undefined is stored; one entry is stored bare; two or more are stored as the array of the cleaned entries |
| Megajson.StoredArrayHasTwo | pages/api/v1/megajson.ts:49-51 | when no entry of the data is itself an array, a stored array holds at least two entries |
| Megajson.MainRut | pages/api/v1/megajson.ts:63-65 | the main RUT is the cedula's resolved rut when truthy, and the empty string otherwise |
| Megajson.FullNameOfText | pages/api/v1/megajson.ts:66-68 | the main name joins the given names and surnames with one space, leaving out empty parts |
| Megajson.RutCandidates | pages/api/v1/megajson.ts:73-76 | one rut candidate per entry, in entry order |
| Megajson.NamesOfEntry | pages/api/v1/megajson.ts:77-79 | the name candidates of an entry are its fields under the four name keys, in order |
| Megajson.TruthyOnly | pages/api/v1/megajson.ts:142 | the filter keeps exactly the truthy values |
| Megajson.AddTruthySpec | pages/api/v1/megajson.ts:70-81 | adding to a Set keeps the old members as a prefix, adds exactly the new truthy values and never repeats one |
| Megajson.AddTruthyAppend | pages/api/v1/megajson.ts:70-81 | adding two batches in turn is the same as adding them together |
| Megajson.AllRutsSpec | pages/api/v1/megajson.ts:70-81 | the RUT set holds each truthy rut of any entry of any document once and nothing else, so the response filter is a no-op |
| Megajson.AllNamesSpec | pages/api/v1/megajson.ts:70-81 | the name set holds each truthy name field of any entry once and nothing else |
| Megajson.CollectIdentities | pages/api/v1/megajson.ts:70-81 | the nested loops over documents and entries produce exactly the two sets specified above |
| Megajson.ScanEntries | pages/api/v1/megajson.ts:74-80 | the inner loop over one document's entries adds exactly that document's rut and name candidates |
| Megajson.AddNames | pages/api/v1/megajson.ts:77-79 | the four name fields of an entry are added to the set in order |
| Megajson.Amount | pages/api/v1/megajson.ts:92-93 | a falsy value counts 0; a value whose text does not parse counts 0; otherwise its parsed number |
| Megajson.WithField | pages/api/v1/megajson.ts:87-90 | the counted entries are exactly those whose driving field resolves to a present value |
| Megajson.DatesOf | pages/api/v1/megajson.ts:101 | the listed periods are exactly the truthy resolved dates of the counted entries, in entry order |
| Megajson.EmitsIffCounted | pages/api/v1/megajson.ts:86-91 | a block is emitted exactly when at least one entry carries its driving field |
| Megajson.Average | pages/api/v1/megajson.ts:98-100 | the average times the count gives back the total |
| Megajson.SalaryAggregation | pages/api/v1/megajson.ts:85-104 | present exactly when some salary slip has `liquido_a_pagar`; the count, totals, averages and periods range over those slips only |
| Megajson.ReceiptsAggregation | pages/api/v1/megajson.ts:106-120 | present exactly when some receipt has `total_liquido`; the count, totals and years range over those only |
| Megajson.BankAggregation | pages/api/v1/megajson.ts:122-136 | present exactly when some statement has `saldo_final`; the average balance and the credit and debit totals range over those only |
| Megajson.UnparsableAmountCounted | pages/api/v1/megajson.ts:87-97 | an entry whose amount does not parse is still counted and adds nothing to the total |
| Megajson.SalaryOmittedWhenMissing | pages/api/v1/megajson.ts:86-91 | without any `liquido_a_pagar` the salary block is absent, not zero |
| Megajson.PairCounted | pages/api/v1/megajson.ts:87-97 | two entries that both carry the field are both counted and their amounts add up |
| Megajson.SalaryArithmeticExample | pages/api/v1/megajson.ts:85-104 | two slips of 500000 and 700000 give count 2, total 1200000 and average 600000 |
| Megajson.ProvidedIds | pages/api/v1/megajson.ts:146 | one id per incoming document, in order |
| Megajson.Handle | pages/api/v1/megajson.ts:32-150 | 400 unless the body holds a documents array; a bare 500 when an entry is null or undefined; otherwise the report with the merged documents, identity fields, present aggregation blocks, clock, required and provided ids |
| OcrExtract.ReplyText | lib/ocr.ts:78 | a missing reply becomes `{}`; a non-empty reply is used as is; an empty one becomes `{}` for gpt5 only |
| OcrExtract.CleanFencedObject | lib/ocr.ts:97-99 | a JSON object wrapped in a json code fence comes out exactly as the object |
| OcrExtract.CleanTextIdempotent | lib/ocr.ts:97-99 | cleaning an already cleaned text changes nothing, for every reply text |
| OcrExtract.CleanedHasNoFence | lib/ocr.ts:97-99 | no three back-quotes in a row survive the clean-up |
| Text.StripFencesTwice | lib/ocr.ts:97 | after the two fence replacements no fence is left, so running them again changes nothing |
| OcrExtract.SpanTrimmed | lib/ocr.ts:97-99 | the bracket span of a trimmed text is itself trimmed |
| OcrExtract.FirstKnown | lib/ocr.ts:108 | none exactly when no key is in the catalogue; otherwise the first key that is |
| OcrExtract.FirstKnownAt | lib/ocr.ts:108 | the first catalogue key at any position is the one `find` returns |
| OcrExtract.SchemaKey | lib/ocr.ts:108 | the requested type when one is given; else the first catalogue key of the reply unless it is ''; else the reply's first key; undefined exactly when there is no requested type and the reply has no key |
| OcrExtract.EmptyKnownKeyFallsBack | lib/ocr.ts:108 | a catalogued key '' is falsy: for `{"foo": {}, "": {}}` the key read is "foo", unmatched |
| OcrExtract.Periodo | lib/ocr.ts:118-123 | for a non-empty array, the first item's periodo when truthy and null otherwise; for any other data, its own periodo when truthy and null otherwise |
| OcrExtract.Interpret | lib/ocr.ts:101-131 | a null reply fails with the property-read or `Object.keys` error; otherwise the data is the value under the schema key, or the whole reply when that is falsy; text data fails with the format error, a nullish first slip with the periodo read error; otherwise the result is ok with matched exactly when the key is catalogued, doctypeid that key when matched and non-empty text, multiple exactly for arrays, and the periodo rule |
| OcrExtract.InterpretErrors | lib/ocr.ts:101-120 | every error from reading a parsed reply is `Object.keys` of null, the invalid-format message with the text, or the read of the requested type or of `periodo` from null or undefined; none starts like the file-kind message |
| OcrExtract.Doc2Fields | lib/ocr.ts:17-131 | neither image nor PDF is an error; a PDF for gpt5 is an error; otherwise the parse of the cleaned reply, read into a result, or the parse error with the text |
| OcrExtract.MimeGuard | lib/ocr.ts:23-25 | the file-kind error is returned exactly when the type is neither `image/…` nor `application/pdf` |
| OcrExtract.StringPayloadRejected | lib/ocr.ts:109-113 | a payload that is text is always reported as invalid data |
| OcrExtract.AutoDetectPicksKnownKey | lib/ocr.ts:108-131 | without a requested type, the first catalogue key of the reply is reported as matched, with its value as the data |
| OcrExtract.InterpretKnown | lib/ocr.ts:108-131 | a detected key whose value is a usable object or array yields exactly that result |
| OcrExtract.SchemaKeyAt | lib/ocr.ts:108 | the detected key is the first catalogue key of the reply object |
| OcrExtract.UnknownKeyIgnored | lib/ocr.ts:108-131 | a key the catalogue does not know does not change the detected type |
| OcrExtract.MultiplePreserved | lib/ocr.ts:115-123 | two slips under one key are kept as an array, flagged multiple, with the first slip's period |
| OcrExtract.RequestedTypeRead | lib/ocr.ts:108-116 | a requested type is read directly; it is matched exactly when the catalogue knows it |
| OcrHandler.PageIndices | pages/api/v1/ocr.ts:10-11 | the zero-based pages of a 1-based inclusive range, in order |
| OcrHandler.PageIndicesOfKept | pages/api/v1/ocr.ts:7-14 | a kept range copies only existing pages, start-1 through end-1 |
| OcrHandler.TextOr | pages/api/v1/ocr.ts:39 | a text field is used as is, anything else gets the fallback |
| OcrHandler.NumberOr0 | pages/api/v1/ocr.ts:40-41 | a numeric field is used as is, anything else becomes 0 |
| OcrHandler.KeptDocs | pages/api/v1/ocr.ts:36-43 | the sliced documents are exactly the objects with a valid page range inside the file |
| OcrHandler.Slices | pages/api/v1/ocr.ts:36-43 | one normalised slice per kept document, each within the page count |
| OcrHandler.PdfFilesAsWritten | pages/api/v1/ocr.ts:45-57 | as written: the file for the j-th kept slice takes its date from the j-th unfiltered document |
| OcrHandler.MisalignedDateExample | pages/api/v1/ocr.ts:48 | a first document without a range shifts the dates: the slice of the second gets the first one's date |
| OcrHandler.PdfFileOf | pages/api/v1/ocr.ts:48-53 | a file is named docdate, id and `.pdf`, and carries its document's range |
| OcrHandler.PdfFiles | pages/api/v1/ocr.ts:45-57 | corrected: one file per kept document, named from that same document |
| OcrHandler.PdfFilesSpec | pages/api/v1/ocr.ts:45-57 | every file has a valid range within the PDF and is named from an incoming document |
| OcrHandler.NothingDroppedAgrees | pages/api/v1/ocr.ts:36-57 | when no document is dropped, the written and the corrected file lists coincide |
| OcrHandler.KeptAll | pages/api/v1/ocr.ts:36-43 | when every document has a valid range, all are kept in order |
| OcrHandler.Extension | pages/api/v1/ocr.ts:68 | the extension is the mimetype's non-empty second '/'-field; `jpg` when that field is missing or empty |
| OcrHandler.ExtensionOfPng | pages/api/v1/ocr.ts:68 | `image/png` gives `png` |
| OcrHandler.ObjectsOnly | pages/api/v1/ocr.ts:64 | the imaged documents are exactly the objects of the list |
| OcrHandler.ImageFiles | pages/api/v1/ocr.ts:63-75 | one file per object, named docdate, id and extension, in order |
| OcrHandler.ResultObject | lib/ocr.ts:125-131 | the result object has exactly the five documented keys |
| OcrHandler.NothingListed | pages/api/v1/ocr.ts:36 | a Doc2Fields result has no `documents` list, so no file is cut |
| OcrHandler.Handle | pages/api/v1/ocr.ts:18-87 | 405 unless POST; 400 without a file; otherwise Doc2Fields (claude, auto-detect) decides: its error is a 500 with that message, its result is a success with an empty PDF file list for a PDF and an empty image file list for an image |
| ParserHandler.Bearer | pages/api/parser.ts:20-21 | a token is read exactly when the header starts with `Bearer `, and it is the rest of the header |
| ParserHandler.ProvidedKey | pages/api/parser.ts:18-22 | a truthy `x-api-key` header wins; otherwise the bearer token |
| ParserHandler.GateIff | pages/api/parser.ts:16-27 | with a key configured, a request passes exactly when the header, or else the bearer token, equals it |
| ParserHandler.HeaderShadowsBearer | pages/api/parser.ts:22 | a wrong header is rejected even with a correct bearer token |
| ParserHandler.LowercaseSchemeRejected | pages/api/parser.ts:20-21 | a lowercase `bearer` scheme is never accepted |
| ParserHandler.NoKeyNoGate | pages/api/parser.ts:16-17 | without a configured key every request passes the gate |
| ParserHandler.Handle | pages/api/parser.ts:12-118 | 405 unless POST; 401 exactly when the gate fails; 500 without the model key; 400 `Invalid file` without a file path or type; 400 `Images and PDFs only` for other types; then 200 with the parsed value when the cleaned reply parses, and 500 with the parser's message when it does not |
| ParserHandler.ArrayReplyUnwrapped | pages/api/parser.ts:105-107 | a reply `[{}]` is cut to its inner object here, while lib/ocr.ts keeps the array |
| ParserHandler.ObjectInsideArray | pages/api/parser.ts:105-107 | the object-only span of `[{}]` is `{}` |
| Database.Assignments | lib/database.ts:38 | one `p_key := $n` per key, numbered from 1 in key order |
| Database.SqlShape | lib/database.ts:38-39 | the statement is `SELECT * FROM`, the procedure, and in parentheses `p_<key> := $<n>` for the n-th parameter in record order, separated by `, ` |
| Database.SqlWithoutParams | lib/database.ts:39 | without parameters the call is `proc()` |
| Database.PlaceholderPerParam | lib/database.ts:36-39 | the statement holds exactly one placeholder per parameter |
| Database.ValuesFollowKeys | lib/database.ts:36-38 | the i-th placeholder names the i-th key and is bound to that key's value |
| Database.Execute | lib/database.ts:32-49 | the rows of the query on that statement and values, or its error message prefixed with the procedure |
| Database.Endpoint | lib/database.ts:60 | the endpoint is the URL up to its first `?` (a prefix without `?`, followed by `?` or the end of the URL); `''` without a URL |
| Database.LogApiParams | lib/database.ts:58-66 | the seven parameters in order, the endpoint without query, and a duration that adds back to the clock |
| Database.LogApiSql | lib/database.ts:58-66 | the logging call numbers its seven parameters `$1` to `$7` |
| Database.Coalesce | lib/database.ts:89-93 | `??` keeps a value that is neither null nor undefined, else the default |
| Database.LogErrorParams | lib/database.ts:77-96 | the seven parameters in order: the procedure name; number, severity, state and line passed through or 0 when null or undefined; procedure passed through or `''`; and the truthy message or the error's text |
| Database.LogError | lib/database.ts:77-96 | a nullish error fails like the source's property read; any other is logged through execute |
| Database.TextErrorLogged | lib/database.ts:78-95 | a thrown string is logged with zero codes and its own text as the message |
| Js.Put | pages/api/v1/megajson.ts:58 | assignment sets the key, leaves every other key alone, and appends a new key at the end |
| Js.GetIndex | pages/api/v1/megajson.ts:64 | reading an array at the decimal text of an index gives that element |
| Text.TrimIdempotent | lib/ocr.ts:97 | trimming twice is trimming once |
| Text.TrimShape | lib/ocr.ts:97 | the trimmed text is a slice of the input with only whitespace cut off either side, and starts and ends with non-whitespace |
| Text.StripFencedBlock | lib/ocr.ts:97 | removing the fences of a json block and trimming gives the trimmed body |
| Text.ExtractSpan | lib/ocr.ts:98-99 | without an opening bracket the text is unchanged; otherwise from the first opener to the last matching closer |
| Text.SpanIdempotent | lib/ocr.ts:98-99 | extracting the span twice is extracting it once |
| Text.SpanObjectsOnly | pages/api/parser.ts:105-107 | the object-only span starts with `{` and ends with `}` whenever it is cut |
| Text.SecondField | pages/api/v1/ocr.ts:68 | `split(c)[1]` is none exactly when the separator is absent; otherwise the separator-free field right after the first separator, ending at the next separator or the end of the text |

## Left out

- Calls to the language models and their prompts: the reply text is a parameter. `max_tokens`, temperature and the base64 payload are not modelled.
- Reading the upload from disk, `formidable` parsing, `unlink`, and the exceptions those raise: the upload is a value.
- pdf-lib: loading, copying pages and saving bytes. The page count is a parameter. A slice is modelled by its page indices, its range and its file name.
- Floating point: numbers are reals. NaN, infinities and rounding are not modelled; `parseFloat` and number-to-text are parameters.
- Fractional page bounds: `pages/api/v1/ocr.ts:10-11` would index by a fractional number. The model keeps the range check and lists the integer pages only.
- Property reads that reach the prototype chain (`constructor`, `toString`, …): an object here holds only its own properties.
- `Object.keys` ordering of integer-like keys: keys stay in insertion order.
- Megajson.KnownKey: an id that is a number, array or object counts as unknown, while JavaScript would convert it to text.
- Megajson.AllRutsSpec: a JavaScript Set compares objects by identity; the model compares values structurally.
- Strings are sequences of Unicode scalar values, not UTF-16 code units; `\s` in the clean-up regex is modelled by `IsSpace`, a fixed whitespace set.
- JSON serialisation of replies, including the dropping of `undefined` fields: replies are values.
- The `pg` pool, connection reuse and its hooks: `execute` runs a query parameter, and a failure is that query's error message.
- Database.LogError: the `err instanceof Error ? err.message : String(err)` distinction in the error prefix is folded into the message the query returns.
- `console.error`, stack traces and the `generatedAt` clock formatting: the clock value is passed in.
- `pages/api/v1/doctypes/listall.ts` and the front-end components are not part of this model; the catalogue and alias table are parameters.
- `pages/api/ocr.ts` (the older handler) is not part of this model.

## Findings

| source | as written | input that shows it | evidently intended | confidence | as-written member | corrected member |
|---|---|---|---|---|---|---|
| pages/api/v1/ocr.ts:48 | the file name of the j-th kept slice takes its `docdate` from `result.documents[j]`, the unfiltered list | documents `[{id:"x", docdate:"2024-01"}, {id:"a", start:1, end:1, docdate:"2024-02"}]` on a one-page PDF: the only file is named `2024-01_a.pdf` | the date of the document the slice was cut from: `2024-02_a.pdf` | not executed | OcrHandler.PdfFilesAsWritten | OcrHandler.PdfFiles |

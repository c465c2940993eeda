# deepl-rs core, modelled in Dafny

This project models the deterministic core of the `deepl` Rust crate, a client for the DeepL translation API, and proves properties about it. The core covers:

- the two language-code tables: `Lang`, whose 31 upper-case codes are used for text and documents, and `GlossaryLanguage`, whose 33 lower-case codes are used for glossaries. Each table is a total encoder with a case-sensitive, partial decoder.
- the glossary entry body sent when a glossary is created (TSV or CSV lines), and the parser for the TSV body returned when the entries are retrieved.
- the wire tokens of `Formality` and `EntriesFormat`, and the message built by `extract_deepl_error`.
- the requesters with optional parameters: `TranslateRequester`, `UploadDocumentRequester` and `DeepLApiBuilder`. Their setters change one field in place and return the same object, so they are Dafny classes.
- the choice of base URL and authorization value by `DeepLApiBuilder::new`, and how `get_endpoint` resolves a route.
- the multipart form assembled by `to_multipart_form` when a document is uploaded.

Files, one module each:

- `wrappers.dfy`: `Option`, `Result`, and `Outcome`. An `Outcome` either returns a value or panics with a message; Rust's `unwrap`/`expect` panics are modelled this way.
- `text.dfy`: Rust's `join`, `str::split` on one character, and `to_lowercase` on ASCII text.
- `lang.dfy` (src/lang.rs)
- `glossary_languages.dfy` (src/endpoint/glossary/languages.rs)
- `endpoint.dfy` (src/endpoint/mod.rs)
- `deepl.dfy` (src/lib.rs)
- `translate.dfy` (src/endpoint/translate.rs)
- `glossary.dfy` (src/endpoint/glossary.rs)
- `document.dfy` (src/endpoint/document.rs, with the `impl_requester!` macro of src/endpoint/mod.rs)

File contents and HTTP replies are parameters of the model:

- the result of reading the uploaded file is its bytes or an `IoError`;
- the reply to the glossary entries request is a send failure, a failure to read the body, or the body text.

## Model

| member | source | states |
|---|---|---|
| Text.Split | src/endpoint/glossary.rs:282-284 | `split` on one character gives at least one piece; no piece holds the separator; joining the pieces with the separator gives back the input |
| Text.SplitJoin | src/endpoint/glossary.rs:144-149 | splitting the join of separator-free pieces gives the pieces back (at least one piece) |
| Language.FromInverse | src/lang.rs:56-93 | whatever `from` accepts has that string as its code; anything else is `InvalidLang` carrying the input |
| Language.FromAcceptsExactlyTheCodes | src/lang.rs:56-93 | `from` succeeds exactly on the codes of the 31 languages |
| Language.RoundTrip | src/lang.rs:57-88 | decoding the code of a language gives that language |
| Language.AsRefInjective | src/lang.rs:150-186 | distinct languages have distinct codes |
| Language.AsRefShape | src/lang.rs:150-186 | every code is 2 or 5 characters, each an upper-case ASCII letter or `-` |
| Language.FromRejectsLowerCase | src/lang.rs:57-89 | a string with a lower-case letter (e.g. "en", "en-gb") is rejected with `InvalidLang` of the input |
| Language.ToString | src/lang.rs:188-192 | `to_string` yields the `as_ref` code, which decodes back to the language |
| Language.DescriptionIdentifiesLang | src/lang.rs:96-130 | each full name maps back to its own language through the name table |
| Language.DescriptionInjective | src/lang.rs:96-130 | distinct languages have distinct full names |
| Language.Deserialize | src/lang.rs:133-148 | an error from deserialising the string propagates unchanged; otherwise deserialising succeeds exactly when `from` succeeds, the language decoded has the input as its code, and a failure carries the "invalid language code ..." message naming the input |
| GlossaryLanguages.FromStrInverse | src/endpoint/glossary/languages.rs:21-27 | whatever `from_str` accepts has that string as its code; anything else is `InvalidLang` carrying the input |
| GlossaryLanguages.FromStrAcceptsExactlyTheCodes | src/endpoint/glossary/languages.rs:18-29 | `from_str` succeeds exactly on the 33 codes of the table |
| GlossaryLanguages.RoundTrip | src/endpoint/glossary/languages.rs:22-36 | decoding the code of a glossary language gives that language |
| GlossaryLanguages.AsRefInjective | src/endpoint/glossary/languages.rs:51-85 | distinct glossary languages have distinct codes |
| GlossaryLanguages.AsRefIsLowerCase | src/endpoint/glossary/languages.rs:51-85 | every code is two lower-case ASCII letters |
| GlossaryLanguages.FromStrRejectsUpperCase | src/endpoint/glossary/languages.rs:21-27 | a string with an upper-case letter (e.g. "EN") is rejected with `InvalidLang` of the input |
| GlossaryLanguages.Display | src/endpoint/glossary/languages.rs:41-45 | `Display` writes the code, so its text decodes back to the language |
| GlossaryLanguages.LowercaseKeepsCode | src/endpoint/glossary.rs:141-142 | lower-casing the displayed code gives the code unchanged |
| GlossaryLanguages.SerdeNameIsCode | src/endpoint/glossary/languages.rs:7-14 | serde's lowercase rename of each variant name equals that variant's `as_ref` code |
| Endpoint.FormalityTokenInjective | src/endpoint/mod.rs:103-113 | the five formality tokens are pairwise distinct |
| Endpoint.SerdeNameIsToken | src/endpoint/mod.rs:93-113 | serde's snake_case rename of each variant name equals its `as_ref` token (e.g. `PreferMore` gives "prefer_more") |
| Endpoint.FormalityDisplay | src/endpoint/mod.rs:115-119 | `Display` writes the `as_ref` token, which is also the snake_case serde name of the variant |
| Endpoint.ExtractDeeplError | src/endpoint/mod.rs:122-128 | the result is always `Err(RequestFail(..))`; the message starts with the status; it is the status alone when the body is unreadable, and the status, a space and the body otherwise |
| DeepL.DeepLApiBuilder.Init | src/lib.rs:106-112 | the builder holds the key, the free tier and no client |
| DeepL.DeepLApiBuilder.SetClient | src/lib.rs:115-118 | sets only the client, to `Some(c)`, and returns the same builder |
| DeepL.DeepLApiBuilder.SetIsPro | src/lib.rs:121-124 | sets only the tier and returns the same builder |
| DeepL.DeepLApiBuilder.New | src/lib.rs:127-144 | reads the builder without changing it; the pro URL is chosen iff pro, the free URL iff not; the key is "DeepL-Auth-Key " followed by the stored key; a missing client becomes the default |
| DeepL.GetEndpoint | src/lib.rs:93-95 | a plain route resolved against a base ending in `/` is the base followed by the route; the result always ends with the route; the empty route gives the base |
| DeepL.RoutesExtendTheBase | src/lib.rs:127-144 | with either base URL that `new` chooses, a plain route resolves to that base followed by the route |
| Translate.TranslateRequester.New | src/endpoint/translate.rs:24-30 | stores the client, text and target language; all seven optional fields are unset |
| Translate.TranslateRequester.SetSourceLang | src/endpoint/translate.rs:32-37 | sets only `source_lang`, to `Some(v)`, and returns the same requester |
| Translate.TranslateRequester.SetSplitSentences | src/endpoint/translate.rs:32-37 | sets only `split_sentences`, to `Some(v)`, and returns the same requester |
| Translate.TranslateRequester.SetPreserveFormatting | src/endpoint/translate.rs:32-37 | sets only `preserve_formatting`, to `Some(v)`, and returns the same requester |
| Translate.TranslateRequester.SetGlossaryId | src/endpoint/translate.rs:32-37 | sets only `glossary_id`, to `Some(v)`, and returns the same requester |
| Translate.TranslateRequester.SetTagHandling | src/endpoint/translate.rs:32-37 | sets only `tag_handling`, to `Some(v)`, and returns the same requester |
| Translate.TranslateRequester.SetNonSplittingTags | src/endpoint/translate.rs:32-37 | sets only `non_splitting_tags`, to `Some(v)`, and returns the same requester |
| Translate.TranslateRequester.SetIgnoreTags | src/endpoint/translate.rs:32-37 | sets only `ignore_tags`, to `Some(v)`, and returns the same requester |
| Translate.AdvancedRequest | src/endpoint.rs:31-37 | chained setters accumulate on one requester; a repeated setter keeps its last value; text and target language stay as given |
| Glossary.FormatToken | src/endpoint/glossary.rs:171-178 | the token is "tsv" iff TSV and "csv" iff CSV |
| Glossary.CreateGlossaryStart | src/endpoint/glossary.rs:219-223 | the builder holds the client and name; languages, entries and format are unset |
| Glossary.ConvertEntries | src/endpoint/glossary.rs:67-70 | the entries have the items' length and order, and each part is converted by its `to_string` |
| Glossary.WithEntries | src/endpoint/glossary.rs:57-76 | sets the converted entries on a builder that has none and keeps every other field |
| Glossary.Build | src/endpoint/glossary.rs:17-32 | carries every builder field over; a missing format becomes TSV |
| Glossary.FormatLines | src/endpoint/glossary.rs:144-155 | one line per entry, in order; each line is the two terms around the separator |
| Glossary.ToRequestParam | src/endpoint/glossary.rs:137-160 | the name is kept; the languages are their lower-case codes; `entries_format` is "tsv"/"csv" according to the format; the entries are the newline-joined lines of that format |
| Glossary.ParseLineMeaning | src/endpoint/glossary.rs:284-288 | a line parses iff it holds a tab, and otherwise panics with the `unwrap` message; the first term is the text before the first tab, the second the text up to the next tab or the end |
| Glossary.ParseLines | src/endpoint/glossary.rs:281-291 | the lines parse iff every line does; the entries are then one per line, in order |
| Glossary.ParseEmptyBodyPanics | src/endpoint/glossary.rs:281-291 | an empty body panics |
| Glossary.RetrieveGlossaryEntries | src/endpoint/glossary.rs:269-295 | a send failure is `RequestFail` of its text; an unreadable body is `RequestFail` with the "fail to retrieve glossary entries: " prefix; otherwise it panics iff TSV parsing panics, and returns the parsed entries |
| Glossary.EncodedLines | src/endpoint/glossary.rs:143-156 | with at least one entry and no newline inside a term, the body of either format splits into exactly one line per entry |
| Glossary.TsvRoundTrip | src/endpoint/glossary.rs:281-291 | retrieving a TSV body gives back the encoded entries when there is at least one and no term holds a tab or newline |
| Glossary.TsvEncodingInjective | src/endpoint/glossary.rs:144-149 | distinct clean, non-empty entry lists have distinct TSV bodies |
| Glossary.CsvCommaIsAmbiguous | src/endpoint/glossary.rs:150-155 | CSV terms are not quoted, so ("a,b","c") and ("a","b,c") are sent as the same body |
| Glossary.GlossaryTestEntries | src/endpoint/glossary.rs:357-364 | assuming the service replies with the TSV encoding of the entries it stored, the two entries of the glossary test are retrieved unchanged (the test itself creates them in CSV) |
| Glossary.BodyWithoutTabPanics | src/endpoint/glossary.rs:269-295 | a body with no tab, such as an error reply's JSON, makes the entries request panic |
| Glossary.RetrieveGlossaryEntriesChecked | src/endpoint/glossary.rs:244-256 | agrees with the unchecked request on success or send failure; a non-success status gives `extract_deepl_error`'s `RequestFail` instead of parsing |
| Glossary.CheckedErrorReplyDoesNotPanic | src/endpoint/glossary.rs:250-252 | with the status checked, a non-success reply returns an error and never panics |
| Document.FileName | src/endpoint/document.rs:71-73 | a file name, when there is one, is a normal component: non-empty, not `.` or `..`, and without `/` |
| Document.FileNameOfChild | src/endpoint/document.rs:71-73 | a normal name is its own file name, also below any directory |
| Document.FileNameIgnoresTrailingSlash | src/endpoint/document.rs:71-73 | a trailing `/` does not change the file name |
| Document.FileNameOfParent | src/endpoint/document.rs:71-73 | a path ending in `..` has no file name |
| Document.FileNameWithoutComponent | src/endpoint/document.rs:71-73 | a path whose pieces between separators are all empty or `.` has no file name |
| Document.FileNameOfRootAndDot | src/endpoint/document.rs:71-73 | "", "/", "." and "./" have no file name, so uploading them without a filename panics |
| Document.ReadFailureIsReported | src/endpoint/document.rs:62-64 | a failed read gives `ReadFileError` with the path and the cause, and no form |
| Document.PanicsWithoutAnyName | src/endpoint/document.rs:67-74 | the call panics, with the `expect` message, exactly when the file was read, no filename is set and the path has no file name |
| Document.FieldsInFixedOrder | src/endpoint/document.rs:53-86 | the fields come in the order source_lang, target_lang, filename, file, formality, glossary_id, and none repeats |
| Document.FormPieces | src/endpoint/document.rs:53-86 | the value found under each field name in the assembled form |
| Document.LanguageFields | src/endpoint/document.rs:54-59 | `target_lang` always carries the target code; `source_lang` is present iff set and carries its code |
| Document.FileFields | src/endpoint/document.rs:66-76 | a `filename` field is present iff a filename is set; the file part carries the bytes and is named by the filename, else by the path's file name |
| Document.OptionalFields | src/endpoint/document.rs:79-86 | `formality` is present iff set and carries its token; `glossary_id` is present iff set |
| Document.UploadDocumentRequester.New | src/endpoint/mod.rs:72-78 | stores the client, file path and target language; the four optional fields are unset |
| Document.UploadDocumentRequester.SetSourceLang | src/endpoint/mod.rs:80-86 | sets only `source_lang`, to `Some(v)`, and returns the same requester |
| Document.UploadDocumentRequester.SetFilename | src/endpoint/mod.rs:80-86 | sets only `filename`, to `Some(v)`, and returns the same requester |
| Document.UploadDocumentRequester.SetFormality | src/endpoint/mod.rs:80-86 | sets only `formality`, to `Some(v)`, and returns the same requester |
| Document.UploadDocumentRequester.SetGlossaryId | src/endpoint/mod.rs:80-86 | sets only `glossary_id`, to `Some(v)`, and returns the same requester |
| Document.UploadDocumentRequester.ToMultipartForm | src/endpoint/document.rs:40-89 | building the form step by step gives exactly the form, error or panic that the lemmas above describe |

## Left out

- HTTP traffic is not modelled: sending, awaiting, numeric status codes and JSON decoding through reqwest and serde are foreign-library I/O. A reply enters as the text `extract_deepl_error` and the entries request see. The HTTP status appears as its display text and, in the corrected `RetrieveGlossaryEntriesChecked`, as a `success` flag standing for `status().is_success()`.
- Async plumbing is not modelled: `Pollable`, `IntoFuture`, `ToPollable`, and the `Future::poll` of the translate requester, which is `todo!()`.
- `tokio::fs::read` is not modelled; its result is a parameter of `ToMultipartForm`.
- Download, streaming and file writes are not modelled.
- The `Arc`/`Clone` sharing inside `DeepLApi` is not modelled. `reqwest::Client` is reduced to an identity.
- The typed_builder type state of `CreateGlossaryBuilder` is reduced to `requires` clauses on `WithEntries` and `Build`. Its generated setters for the languages and the format are not modelled: only the `entries` conversion and the TSV default are source logic.
- The serde `Serialize` impl of `Lang` (`SCREAMING-KEBAB-CASE`) is not modelled, because the text it produces is not shown to match `as_ref`.
- `Deserialize` for `GlossaryLanguage` is covered only by `SerdeNameIsCode`.
- src/endpoint/usage.rs, src/endpoint/languages.rs and the examples are request/response plumbing and are not part of this model.
- The parameter types `SplitSentences`, `PreserveFormatting` and `TagHandling` are not defined in the modelled files. They are modelled as small enumerations, since only their identity matters to the requester.
- document.rs invokes `impl_requester!` with `@must`, while the macro in src/endpoint/mod.rs expects `@required`. The requester is modelled as the macro would expand it.
- DeepL.GetEndpoint: modelled only for plain relative routes (no scheme, no leading `/`, no query, no fragment, no dot segment, nothing percent-encoded). The fixed routes are plain; a route built from a glossary id (src/endpoint/glossary.rs:246, 260, 274) is plain only when the id is (the service's ids are UUIDs); any other id is outside the model. The general URL parser and `join` of reqwest, and its `unwrap`, are not modelled.
- Text.ToLowercase: ASCII lower-casing only, not Unicode `to_lowercase`. The codes it is applied to are ASCII.
- Document.FileName: the path is a Unix path held as a string. The panic of `to_str().expect(..)` on a path that is not UTF-8 is not modelled, and neither is the `unwrap` in the `ReadFileError` branch.
- Glossary.ConvertEntries: a `HashMap` argument iterates in an unspecified order; the model takes the items in the order given.

## Findings

| source | as written | input that shows it | evidently intended | confidence | as-written member | corrected member |
|---|---|---|---|---|---|---|
| src/endpoint/glossary.rs:273-291 | `retrieve_glossary_entries` parses the body as TSV without checking the status. The create (src/endpoint/glossary.rs:96-98), list (232-234), details (250-252) and language-pairs (304-306) requests return `extract_deepl_error` on a non-success status. | A reply with status 404 and body `{"message":"Glossary not found"}`. The body has no tab, so `pair.next().unwrap()` panics. | A non-success status becomes `Err(RequestFail("{status} {body}"))`, as in src/endpoint/glossary.rs:250-252. | medium, not executed | Glossary.BodyWithoutTabPanics | Glossary.RetrieveGlossaryEntriesChecked |

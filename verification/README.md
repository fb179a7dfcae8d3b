# Invoice OCR API — a Dafny model of the extractor, the text utilities and the upload gates

This project models the part of the invoice OCR service that can be stated
without the OCR engine or the web framework. It has three parts.

1. The invoice field extractor of the advanced service.
   - It turns an OCR transcript into a record with an invoice number, a date,
     a due date, a vendor, a total amount, an always-empty item list and the
     transcript itself.
   - Each field has an ordered table of case-insensitive regular
     expressions. The first pattern in table order that `re.search` finds
     anywhere decides the field, and the field is that match's group 1,
     cleaned up.
   - The patterns are data here (`Patterns`), read by a small backtracking
     matcher (`Regex`). The matcher follows Python's `re`:
     - the leftmost start position wins;
     - greedy quantifiers back off one character at a time;
     - alternatives, and the "present" branch of `?`, are tried in written
       order;
     - group 1 comes from the first successful path.
   - `RegexTheory` proves this matcher equivalent to a declarative reading
     of the pattern (`Accepts`). It also proves that the captured group is
     text the pattern's body reads.
   - The total is a whole number of cents.
2. The two text utilities of the basic service.
   - `clean_text`, the whitespace normaliser.
   - `validate_invoice_data`, the missing-field check.
3. The `/extract/` handler of both services, as a pure decision.
   - Authentication comes first (advanced service only), then the required
     file, then the extension allow-list built from the setting.
   - An accepted file is saved, processed and removed. The upload directory
     is a set of paths, and the processor is a function parameter that
     either returns a result or raises.

Worked examples are proved as lemmas and followed match by match:
- `Invoice No. 123`;
- `Total Amount: $1,234.56`;
- the order-beats-position samples;
- three vendor samples;
- the five-line sample invoice of the test suite.

The modules build on each other as follows:
- `Wrappers`, `Text` and `Numbers` hold the basic types and string
  functions.
- `Regex`, `RegexTheory`, `RegexSteps` and `Groups` hold the matcher.
- `Patterns`, `Shapes` and `OcrProcessor` hold the extractor.
- `Traces`, `TotalOrder` and the `*Samples` modules hold the examples.
- `Utils` models the text utilities and `UploadGate` the handlers.

Two behaviours of the code are worth knowing:
- A bare `Amount:` label matches the second total pattern,
  `amount\s*(?:due|total)?...`, so the sample invoice has a total of 500.00
  (`FixtureSample.FixtureTotal`).
- The vendor fallback reads only `lines[0]`, so a text that starts with a
  newline has no vendor (`VendorSamples.AcmeServicesOnSecondLine`).

## Model

| member | source | states |
|---|---|---|
| OcrProcessor.ExtractInvoiceData | app-advanced/app/ocr_processor.py:57-78 | `raw_text` is the input unchanged and `items` is empty; a returned invoice number is non-empty, both dates have the date shape, and the vendor has at most 50 characters |
| OcrProcessor.ExtractItems | app-advanced/app/ocr_processor.py:216-231 | line items are never extracted: the list is always empty |
| OcrProcessor.FirstHit | app-advanced/app/ocr_processor.py:96-99 | the deciding pattern is the first in table order that matches; every earlier pattern finds nothing anywhere in the text |
| OcrProcessor.FirstCapture | app-advanced/app/ocr_processor.py:96-101 | there is no capture exactly when no pattern of the table matches; otherwise the group is a slice of the text that the body of the first matching pattern reads |
| OcrProcessor.FirstCaptureStep | app-advanced/app/ocr_processor.py:96-99 | the loop returns the first pattern's group when that pattern matches, and otherwise the result of the remaining patterns |
| OcrProcessor.ExtractInvoiceNumber | app-advanced/app/ocr_processor.py:80-101 | no number exactly when neither pattern matches; a returned number is non-empty and holds only letters, digits and `-` |
| OcrProcessor.NumberGroup | app-advanced/app/ocr_processor.py:92-99 | the group of the first matching number pattern is a non-empty token that `strip` leaves unchanged |
| OcrProcessor.DateField | app-advanced/app/ocr_processor.py:120-125 | no date exactly when no pattern matches; a returned date has the date shape and is the first matching pattern's group itself, since stripping changes nothing |
| OcrProcessor.DateGroup | app-advanced/app/ocr_processor.py:115-117 | the group read by any date body is three digit groups split by `/` or `-`, 6 to 10 characters long |
| OcrProcessor.ExtractDate | app-advanced/app/ocr_processor.py:103-125 | no date exactly when none of the three date patterns matches; a returned date has the date shape |
| OcrProcessor.ExtractDueDate | app-advanced/app/ocr_processor.py:127-149 | no due date exactly when none of the three due-date patterns matches; a returned due date has the date shape |
| OcrProcessor.VendorName | app-advanced/app/ocr_processor.py:168-183 | when a vendor pattern matches, the result is the stripped group of the first matching pattern: present, with no surrounding whitespace, and made only of ASCII letters, digits, whitespace, `,` and `.`; when none matches, it is the stripped first line, or nothing when that line is blank |
| OcrProcessor.VendorGroup | app-advanced/app/ocr_processor.py:163-172 | what `strip` keeps of the first vendor match's group holds only letters, digits, whitespace, `,` and `.` |
| Shapes.NameBodyChars | app-advanced/app/ocr_processor.py:163-165 | `[A-Za-z0-9\s,\.]+` followed by an optional or required company suffix reads only letters, digits, whitespace, `,` and `.` |
| Shapes.SuffixChars | app-advanced/app/ocr_processor.py:163-165 | the suffix alternation (Inc, LLC, Ltd, Corp, Corporation, Company, Co) under `(?i)` reads only ASCII letters |
| OcrProcessor.ExtractVendor | app-advanced/app/ocr_processor.py:172-183 | a vendor is present exactly when the untruncated one is; it has at most 50 characters and is a prefix of the untruncated vendor, equal to it when that fits and exactly 50 characters long when it does not |
| OcrProcessor.ExtractTotalAmount | app-advanced/app/ocr_processor.py:185-214 | no total exactly when none of the five patterns matches; otherwise the first matching pattern's group has the amount shape and the total is its value in cents, commas ignored |
| OcrProcessor.TotalNeverRaises | app-advanced/app/ocr_processor.py:204-212 | the `ValueError` branch is never taken: every captured amount parses, so the loop returns the first match's value, at scale two |
| OcrProcessor.AmountCaptured | app-advanced/app/ocr_processor.py:205-210 | a group read by the amount body, with its commas removed, parses to its value in cents |
| OcrProcessor.TokenTrimmed | app-advanced/app/ocr_processor.py:99 | `strip` leaves a run of token characters unchanged |
| OcrProcessor.DateTrimmed | app-advanced/app/ocr_processor.py:123 | `strip` leaves a date unchanged |
| Groups.Capture | app-advanced/app/ocr_processor.py:97-99 | `group(1)` is absent exactly when `re.search` finds nothing; otherwise it is a stretch of the text that the pattern's body reads |
| Regex.Run | app-advanced/app/ocr_processor.py:97 | a match found from a position ends inside the text and keeps the group inside it |
| Regex.Greedy | app-advanced/app/ocr_processor.py:92 | a greedy repetition first takes the longest run of class characters its bound allows |
| RegexTheory.RunSound | app-advanced/app/ocr_processor.py:97 | whatever the backtracking matcher finds is a reading the pattern allows |
| RegexTheory.RunComplete | app-advanced/app/ocr_processor.py:97 | when the pattern allows any reading from a position, the backtracking matcher finds one |
| RegexTheory.RunIffAccepts | app-advanced/app/ocr_processor.py:97 | the matcher succeeds at a position exactly when some reading of the pattern starts there |
| RegexTheory.SearchIffAccepts | app-advanced/app/ocr_processor.py:97 | `re.search` finds a match exactly when some reading exists; the match is a reading, and no reading starts further left |
| RegexTheory.CaptureBefore | app-advanced/app/ocr_processor.py:99 | the group a successful match records is a stretch that the body between the group markers reads |
| Shapes.TokenBody | app-advanced/app/ocr_processor.py:92-93 | `[A-Z0-9\-]+` under IGNORECASE reads a non-empty run of letters, digits and `-` |
| Shapes.DateBody | app-advanced/app/ocr_processor.py:115-117 | both date bodies read three digit groups split by `/` or `-`, 6 to 10 characters in all |
| Shapes.AmountBodyShape | app-advanced/app/ocr_processor.py:197-201 | `[0-9,]+\.[0-9]{2}` reads digits and commas, a point and exactly two digits |
| Shapes.AmountValue | app-advanced/app/ocr_processor.py:208-210 | an amount with its commas removed parses to its digits read as hundredths |
| Numbers.ParseFloatPoint | app-advanced/app/ocr_processor.py:210 | `float` of digits, a point and digits is the digits read as one number, scaled by the fraction's length |
| Text.Strip | app-advanced/app/ocr_processor.py:172 | `str.strip` removes only whitespace, leaves both ends non-white, keeps trimmed text unchanged, and gives `""` exactly on blank text |
| Text.Take | app-advanced/app/ocr_processor.py:174-175 | `t[:n]` is the first `n` characters, or all of `t` when it is shorter |
| Text.Split | app-advanced/app/ocr_processor.py:179 | `str.split(c)` gives at least one piece, no piece holds the separator, and the first piece runs to the first separator |
| Text.SplitJoin | app-basic/app/utils.py:36-39 | joining the pieces of a split with the separator gives back the text |
| Text.Remove | app-advanced/app/ocr_processor.py:208 | `replace(',', '')` drops every comma and keeps the rest in order |
| TotalOrder.ThirdNeedsFirst | app-advanced/app/ocr_processor.py:197-199 | whenever the `(?:sub)?total` pattern matches, the first total pattern matches as well |
| TotalOrder.Total3NeverDecides | app-advanced/app/ocr_processor.py:196-206 | the third total pattern is never the one that decides the total |
| NumberSamples.InvoiceNoGivesNo | app-advanced/app/ocr_processor.py:92 | `Invoice No. 123` gives the number `No`: after the label `no`, the `.` cannot start a number, so the label is given back and `No` itself is read |
| NumberSamples.HashNumberGives | app-advanced/app/ocr_processor.py:92 | a text whose first line is `INVOICE #12345` gives the number `12345` |
| DateSamples.InvoiceDateBeatsDueDate | app-advanced/app/ocr_processor.py:114-123 | in `Due Date: 01/31/2023` followed by `Invoice Date: 01/01/2023`, the bare `date` pattern matches the first line, but the earlier `invoice date` pattern decides, giving `01/01/2023` |
| TotalSamples.TotalAmountGives | app-advanced/app/ocr_processor.py:197-210 | `Total Amount: $1,234.56` gives 123456 cents |
| TotalSamples.TotalBeatsAmountDue | app-advanced/app/ocr_processor.py:196-206 | in `Amount due: 10.00` followed by `Total: 20.00`, the `amount` pattern matches the first line, but the earlier `total` pattern decides, giving 2000 cents |
| VendorSamples.NoFromNoFirst | app-advanced/app/ocr_processor.py:163 | the first vendor pattern needs the word `from` somewhere in the text |
| VendorSamples.NoLabelNoSecond | app-advanced/app/ocr_processor.py:164 | the second vendor pattern needs `vendor`, `supplier` or `biller` somewhere in the text |
| VendorSamples.NoSuffixNoThird | app-advanced/app/ocr_processor.py:165 | the third vendor pattern needs a company suffix somewhere in the text |
| VendorSamples.NoPatternFallsBack | app-advanced/app/ocr_processor.py:168-183 | with none of those words in the text, the vendor is the stripped first line, or nothing when it is blank |
| VendorSamples.AcmeCorporation | app-advanced/app/ocr_processor.py:165-176 | the unlabelled `Acme Corporation` gives `Acme Corp`, because `Corp` comes before `Corporation` in the alternation |
| VendorSamples.AcmeServicesOnSecondLine | app-advanced/app/ocr_processor.py:178-183 | `\nAcme Services` gives no vendor: only the empty first line is looked at |
| VendorSamples.FromAlone | app-advanced/app/ocr_processor.py:163-176 | `From ` gives the empty vendor `""`, not none: the match is returned even though it strips to nothing |
| FixtureSample.FixtureRecord | app-advanced/tests/conftest.py:65-69 | the sample invoice's five lines joined by newlines give number `12345`, date `01/01/2023`, due date `01/31/2023`, vendor `Test Company Inc.`, total 50000 cents, no items and the text itself |
| FixtureSample.FixtureDate | app-advanced/app/ocr_processor.py:114-123 | the sample invoice gives the date `01/01/2023` |
| FixtureSample.FixtureDueDate | app-advanced/app/ocr_processor.py:138-147 | the sample invoice gives the due date `01/31/2023` |
| FixtureSample.FixtureVendor | app-advanced/app/ocr_processor.py:163-176 | the sample invoice gives the vendor `Test Company Inc.` |
| FixtureSample.FixtureTotal | app-advanced/app/ocr_processor.py:196-210 | the sample invoice, whose only amount line is the bare `Amount: $500.00`, gives 50000 cents |
| Utils.ReplaceRuns | app-basic/app/utils.py:30-33 | `re.sub(r'X+', c, t)`: every run character left in the result is `c`, a `c` that is itself a run character never has a run character beside it, text without runs is unchanged, and the result is no longer |
| Utils.ReplaceRunsSplit | app-basic/app/utils.py:30-33 | text split at a character outside the class is substituted piece by piece, that character kept in place |
| Utils.ReplaceWholeRun | app-basic/app/utils.py:30-33 | a non-empty run of class characters becomes the single replacement; with ReplaceRunsSplit this determines the substitution on every text |
| Utils.ReplaceRunsKeeps | app-basic/app/utils.py:30-33 | the characters outside the runs survive in order, and no others do when the replacement is itself a run character |
| Utils.SecondPassKeeps | app-basic/app/utils.py:30-36 | after the whitespace pass no newline is left, so the newline pass changes nothing and the split gives one line |
| Utils.CleanText | app-basic/app/utils.py:19-39 | the result is the text's whitespace-separated words joined by single spaces: no newline, no leading or trailing whitespace, never two whitespace characters in a row, and `""` exactly on blank text |
| Utils.TokensOfJoin | app-basic/app/utils.py:29-39 | splitting words joined by single spaces gives back the words |
| Utils.CleanTextIdempotent | app-basic/app/utils.py:19-39 | cleaning a cleaned text changes nothing |
| Utils.ValidateInvoiceData | app-basic/app/utils.py:41-63 | at most three errors, each one of the three fixed messages; each message is present exactly when its field is missing or falsy; the list is empty exactly when all three fields are truthy; messages keep the order number, date, total |
| Utils.ValidateReadsThreeKeys | app-basic/app/utils.py:51-63 | changing any key other than the three checked ones, such as `vendor` or `due_date`, does not change the errors |
| Utils.FalsyCountsAsMissing | app-basic/app/utils.py:54-61 | an empty invoice number, an empty date and a total of 0 are all reported missing, in order |
| UploadGate.LastIndex | app-advanced/app/main.py:77 | the last position of a character, and none exactly when it does not occur |
| UploadGate.BaseStart | app-advanced/app/main.py:77 | the file name part begins after the last `/` |
| UploadGate.SplitExt | app-advanced/app/main.py:77 | `os.path.splitext` puts the text back together; a non-empty suffix starts with its only dot, lies within the base name, and follows a non-dot character of the base name |
| UploadGate.NoExtensionIff | app-advanced/app/main.py:77 | the suffix is empty exactly when every dot of the base name has only dots before it in the base name |
| UploadGate.FileExt | app-advanced/app/main.py:77 | the compared extension is the suffix lower-cased character by character: same length, each character the ASCII lower case of the suffix character, and a non-empty one starts with its only dot |
| UploadGate.ExtensionOf | app-advanced/app/main.py:77 | a name, a dot and an extension without dots or slashes splits at that dot |
| UploadGate.JoinPathEnds | app-advanced/app/main.py:88 | `os.path.join` ends with the file name, and an absolute name replaces the directory |
| UploadGate.ValidExtensions | app-advanced/app/main.py:75-76 | one entry per comma-separated piece of the setting, or of `pdf,png,jpg,jpeg` when it is unset, each entry being a dot and the stripped piece |
| UploadGate.Extension | app-advanced/app/main.py:76 | an entry is a dot followed by the stripped piece, with its case kept |
| UploadGate.DefaultExtensions | app-advanced/app/main.py:75-76 | without the setting, the allow-list is `.pdf`, `.png`, `.jpg`, `.jpeg` |
| UploadGate.UpperCaseSettingAdmitsNothing | app-advanced/app/main.py:76-79 | entries keep their case while the compared extension is lower-cased, so a setting whose every entry has an upper-case letter admits no file |
| UploadGate.UpperCaseSetting | app-advanced/app/main.py:75-76 | the setting `PNG` gives the single entry `.PNG` |
| UploadGate.NoExtensionNeverAllowed | app-advanced/app/main.py:77-79 | a name without a suffix is refused by both services whatever the setting |
| UploadGate.Gate | app-advanced/app/main.py:79-114 | the file is refused exactly when its extension is not listed; a refused file gives 400 with the list in the detail and touches neither the store nor the processor; an accepted one is processed from the saved path, which is gone from the store afterwards, and the answer is 200 or 500 |
| UploadGate.AcceptedUploadAnswer | app-advanced/app/main.py:87-114 | an accepted file is saved at the joined path and processed from it; the answer echoes the file name with the processor's result, or is 500 with `Error processing invoice: ` and the message; the path is removed either way |
| UploadGate.AdvancedHandler | app-advanced/app/main.py:58-114 | without valid credentials the answer is 401 with the Basic challenge; with them and no file it is 422; nothing is saved or processed unless a file passes the gate |
| UploadGate.CredentialsFirst | app-advanced/app/main.py:59-61 | without valid credentials the outcome does not depend on the file, the setting or the processor |
| UploadGate.DefaultListRejects | app-advanced/app/main.py:79-85 | with the default list, an unlisted extension gives 400 with detail `Invalid file type. Supported types: .pdf, .png, .jpg, .jpeg` and leaves the store alone |
| UploadGate.DefaultListAccepts | app-advanced/app/main.py:87-97 | with the default list, a listed extension is processed from the joined upload path |
| UploadGate.TxtExtension | app-advanced/tests/test_api.py:21-40 | a file named with `.txt` has the extension `.txt` |
| UploadGate.UpperPngExtension | app-advanced/app/main.py:77 | a name ending in `.PNG` has the extension `.png`, lower-cased before the comparison |
| UploadGate.AdvancedDetail | app-advanced/app/main.py:80 | the default list joined with `, ` reads `.pdf, .png, .jpg, .jpeg` |
| UploadGate.BasicHandler | app-basic/app/main.py:40-80 | the basic service never answers 401; no file gives 422; nothing is saved or processed unless a file passes the gate |
| UploadGate.BasicListRejects | app-basic/app/main.py:52-59 | an extension outside `.png`, `.jpg`, `.jpeg` gives 400 with detail `Invalid file type. Supported types: .png, .jpg, .jpeg` and leaves the store alone |
| UploadGate.BasicRejectsPdf | app-basic/app/main.py:52-55 | a `.pdf` file is refused by the basic service |
| UploadGate.BasicDetail | app-basic/app/main.py:58 | the basic list joined with `, ` reads `.png, .jpg, .jpeg` |

## Left out

- `process_invoice` (Tesseract and PIL, plus its `.pdf` branch, which leaves `image` unbound and raises) is not part of this model. The handlers take the processor as a parameter that returns a result or raises, so a PDF that fails to process is the 500 path.
- Module set-up (environment and dotenv loading, the Tesseract path, directory creation, `ensure_dir_exists`) and logging are configuration and I/O.
- The password check behind `authenticate_user` is an opaque library call. The handler takes the credentials as already judged: none, wrong or valid.
- The framework's own behaviour is left out:
  - the wording of the 422 body;
  - the `Not authenticated` and `Invalid credentials` texts;
  - routing, CORS and static mounts.
- Failures while writing the upload are left out, and so are file names that escape the upload directory. The store is a set of paths and a save always succeeds.
- `os.path.splitext` is modelled for POSIX paths (`/` only).
- Unicode is left out. Text is ASCII plus `£` and `€`.
  - Whitespace (`\s`, `str.strip`, `str.split`) is space, `\t` to `\r` and `\x1c` to `\x1f`.
  - IGNORECASE folds ASCII letters only.
- `float` is not modelled. A total is an exact whole number of cents.
- OcrProcessor.Cents: a parsed number with more than two fractional digits is cut to cents. The extractor never produces one, because every amount it captures has exactly two (`OcrProcessor.TotalNeverRaises`).
- The sample invoice of the test suite is an image. Its OCR transcript is taken to be its five lines joined by newlines.
- OcrProcessor.ExtractInvoiceData: its contract gives the record's invariants, not each field's value. That each field is its own extractor's result is visible in the definition and is used, field by field, in `FixtureSample.FixtureRecord`.
- The Streamlit clients and the Pydantic response models are not part of this model.

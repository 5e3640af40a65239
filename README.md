# BOM cost report: a Dafny model

This project models three handlers of a small serverless service:

- Two generators turn an AWS Pricing Calculator bill of materials (BOM) into an Excel cost report. The report is stored in S3 and indexed in DynamoDB.
- A third handler lists a user's stored reports, each with a download link.

The modelled parts are:

- `exelGeneratedFunction/main.py`, `generate_excel`. This is the **strict** generator. A service without a name or a monthly cost makes the request fail. It writes the formatted "EST" sheet (header, data rows, heights, merged Total and Calculator rows, optional image), uploads the workbook and records its metadata.
- `exelGeneratedFunction/generateExelFromJsonBom.py`, `lambda_handler`. This is the **lenient** generator. Every absent field has a default. It checks the caller and the body (401, 400), writes the plain sheet with a yellow header, uploads, records the metadata, reads the object back and returns it. Any exception becomes a 500 response with its message.
- `listUserFile/list_files.py`, `lambda_handler`. It queries the caller's metadata items and adds a `presigned_url` to every item that has an `s3_key`, in place.

## Modelling decisions

- **Amounts are whole cents** (`nat`). Python formats a float with `f"${x:,.2f}"`; here that is `Currency.FormatGrouped`. The totals use `f"${x:.2f}"`, here `Currency.FormatPlain`. Stripping `$` and `,` is `Currency.Strip`. `float()` of the stripped text is `Currency.ParseCents`, which reads the `digits.dd` shape the formatter produces.
- **The totals re-parse the displays**, because the code does (main.py:65-66). The model proves that this re-parse gives exactly the numeric sum (`CostTable.TotalsAreSums`). The totals are formatted with `.2f`, which has **no** thousands separator, while the row displays use `,.2f`, which has one. `Currency.PlainMatchesGroupedBelowThousand` shows that the two formats differ from $1,000 upwards.
- **Imperative parts stay imperative:**
  - the loops over the services fill five column lists (`CostTable.CollectStrict`, `CostTable.CollectLenient`);
  - the data frame gains its trailer rows in place (`CostTable.DataFrame`, `CostTable.AppendTotals`);
  - the worksheet is a class whose calls update its cells, heights, merges and images (`Sheet.Worksheet`);
  - the list handler's loop updates an array of items in place (`ListFiles.EnrichInPlace`).

  Each is proved against a function of its inputs: `CostTable.LenientRows`, `CostTable.LenientTable`, `Sheet.EstCell`, `Sheet.BomCell` and `ListFiles.EnrichAll`.
- **S3 and DynamoDB** are `Storage.Aws`, an in-memory class with three parts: the objects by bucket and key, the items of each table, and the log of writes in the order they are made. Whether a call fails, and with which message, is an input (`Storage.Faults`). A missing table fails as DynamoDB reports it. The metadata table's primary key is taken to be `user_email` (partition key) with `file_id` (sort key), as the item's comments mark them (main.py:170-171). A put replaces the item with the same pair (`Storage.SameKey`). The comment's alternative, a timestamp sort key, is not modelled. `uuid4()`, `utcnow()`, `generate_presigned_url` and `traceback.format_exc()` are parameters.
- **Request decoding** (`json.loads`, base64) is taken as done. `Http.Event.body` is either the parsed `jsonData` value or the message of the exception decoding raised. main.py's uploaded files are the parsed document, or the parse error, and the image's file name.
- **main.py's uncaught exceptions**: a missing upload, a parse error or a missing required field make Flask answer 500 with its error page (`Http.ServerErrorPage`). Upload and `put_item` failures do the same.

## Model

| member | source | states |
|---|---|---|
| Currency.FormatGrouped | exelGeneratedFunction/main.py:51-52 | a `,.2f` display starts with `$`, has at least five characters and has its decimal point before the last two |
| Currency.FormatPlain | exelGeneratedFunction/main.py:65-66 | a `.2f` total has the same outer shape |
| Currency.ParseCents | exelGeneratedFunction/main.py:65 | a parse succeeds only on `digits.dd`, and then gives 100 times the whole part plus the two-digit fraction, which is below 100 |
| Currency.Remove | exelGeneratedFunction/main.py:65 | `str.replace(c, '')` leaves no `c` and only characters of the input |
| Currency.Strip | exelGeneratedFunction/main.py:65 | after removing `$` and `,` neither mark is left |
| Currency.Ungroup | exelGeneratedFunction/main.py:51 | removing the commas of a comma-grouped integer gives its plain decimal digits; no `$` appears |
| Currency.GroupedLength | exelGeneratedFunction/main.py:51 | grouping inserts one comma per full group of three digits after the first |
| Currency.GroupedCommas | exelGeneratedFunction/main.py:51-52 | a character of the grouped dollar digits is a comma exactly when it is a multiple of four places from the end, so every comma is followed by three digits (PEP 378) |
| Currency.StripGrouped | exelGeneratedFunction/main.py:51-52 | a stripped `,.2f` display is the dollar digits, `.`, and the two-digit cents |
| Currency.StripPlain | exelGeneratedFunction/main.py:65-66 | a stripped `.2f` display has the same shape |
| Currency.ParseDigitsPointPad | exelGeneratedFunction/main.py:65 | `float()` of `digits.dd` reads back the amount in cents |
| Currency.RoundTrip | exelGeneratedFunction/main.py:51-52 | for every amount, stripping and re-parsing either display recovers exactly that amount |
| Currency.PlainMatchesGroupedBelowThousand | exelGeneratedFunction/main.py:65-66 | a total never has a comma, and it reads the same as a row display exactly when below $1,000 |
| Currency.HundredDollarDisplays | exelGeneratedFunction/main.py:51-52 | $100.00 a month shows as `$100.00`; twelve months show as `$1,200.00` in a row and `$1200.00` as a total |
| CostTable.Summary | exelGeneratedFunction/main.py:58 | the summary of one property is exactly its `key: value` text; a longer list's summary starts with its first property's text |
| CostTable.JoinConcat | exelGeneratedFunction/main.py:58 | joining two non-empty lists of parts puts one separator between them |
| CostTable.SummaryEmpty | exelGeneratedFunction/main.py:58 | the config summary is empty exactly when the service has no properties |
| CostTable.SummaryConcat | exelGeneratedFunction/main.py:58 | the summary of two property lists is their summaries joined by `", "`, in order |
| CostTable.RowDisplays | exelGeneratedFunction/generateExelFromJsonBom.py:53-63 | a row's monthly display reads back as the monthly cost and its yearly display as twelve times it; absent region gives "N/A"; empty summary exactly when there are no properties |
| CostTable.RowFields | exelGeneratedFunction/generateExelFromJsonBom.py:53-63 | a row holds the `,.2f` displays of the monthly cost and of twelve times it, the region and the service name when present, and the summary of the properties |
| CostTable.LenientRow | exelGeneratedFunction/generateExelFromJsonBom.py:53-63 | absent region gives `"N/A"`, absent name gives `""`, absent properties give an empty summary |
| CostTable.LenientDefaults | exelGeneratedFunction/generateExelFromJsonBom.py:55-57 | an absent "Service Cost" or "monthly" gives `$0.00` monthly and yearly |
| CostTable.StrictRow | exelGeneratedFunction/main.py:49-52 | a row succeeds exactly when the service has a name, a "Service Cost" and its "monthly" |
| CostTable.StrictRows | exelGeneratedFunction/main.py:48-59 | all rows succeed exactly when every service does, and then they are the lenient rows |
| CostTable.FirstFailure | exelGeneratedFunction/main.py:48-52 | the error is that of the first service that fails |
| CostTable.ParsedTotal | exelGeneratedFunction/main.py:65-66 | the re-parsed total of an empty column is 0 and that of a single display is its value |
| CostTable.ParsedTotalBounds | exelGeneratedFunction/main.py:65-66 | the re-parsed total of a column is at least the value of each of its displays |
| CostTable.ParsedTotalSnoc | exelGeneratedFunction/main.py:65 | adding a parsable display adds its value to the re-parsed total |
| CostTable.TotalsAreSums | exelGeneratedFunction/main.py:65-66 | re-parsing the monthly column gives the sum of the monthly costs; the yearly column gives twelve times it |
| CostTable.WithTrailers | exelGeneratedFunction/main.py:68-71 | the frame keeps its rows and gains two: the Total row, blank except for the totals, then the blank Calculator row |
| CostTable.LenientTable | exelGeneratedFunction/generateExelFromJsonBom.py:52-71 | N services give N + 2 rows: service i at row i, then the Total row of the formatted sums, then the blank Calculator row |
| CostTable.StrictTable | exelGeneratedFunction/main.py:48-71 | the strict table exists exactly when every row does; it is then the lenient table; otherwise it fails with the first failure |
| CostTable.EmptyTable | exelGeneratedFunction/main.py:65-71 | no services give two rows with totals `$0.00` |
| CostTable.OneServiceExample | exelGeneratedFunction/main.py:51-66 | one $100.00 service gives displays `$100.00`/`$1,200.00` and totals `$100.00`/`$1200.00` |
| CostTable.CollectStrict | exelGeneratedFunction/main.py:48-59 | the loop fills aligned columns holding the rows exactly when every service has its fields; otherwise it fails with the first failing service's error |
| CostTable.CollectLenient | exelGeneratedFunction/generateExelFromJsonBom.py:52-63 | the loop fills aligned columns holding one lenient row per service, in order |
| CostTable.DataFrame.constructor | exelGeneratedFunction/main.py:62 | the frame's rows are the columns read across |
| CostTable.DataFrame.AppendRow | exelGeneratedFunction/main.py:70-71 | `df.loc[len(df)] = row` appends the row and changes nothing else |
| CostTable.AppendTotals | exelGeneratedFunction/main.py:65-71 | the frame gains the Total row of the re-parsed sums, then the Calculator row |
| Sheet.EstLayout | exelGeneratedFunction/main.py:99-127 | EST cells: N + 3 rows of five columns, yellow header, service i at row i + 1 in the wrap format, "Total" with both totals at N + 1, "Calculator" and blanks at N + 2 |
| Sheet.BomLayout | exelGeneratedFunction/generateExelFromJsonBom.py:75-89 | the lenient sheet: yellow header, unformatted service rows, the totals in columns 2 and 3 of row N + 1 with blanks beside them, a blank row N + 2 |
| Sheet.Worksheet.FromFrame | exelGeneratedFunction/main.py:76 | `to_excel` writes the column names in row 0 and frame row i in sheet row i + 1, nothing else |
| Sheet.Worksheet.Write | exelGeneratedFunction/main.py:100 | a write sets one cell and changes nothing else |
| Sheet.Worksheet.SetRow | exelGeneratedFunction/main.py:108 | `set_row` sets one row's height and changes nothing else |
| Sheet.Worksheet.MergeRange | exelGeneratedFunction/main.py:122 | a merge writes its text in the first cell of the range and a blank in the others, all in the given format, records the range and changes nothing else |
| Sheet.Worksheet.InsertImage | exelGeneratedFunction/main.py:133 | the image is anchored at the given row and column |
| Sheet.WriteHeader | exelGeneratedFunction/main.py:99-100 | row 0 holds the five column names in yellow |
| Sheet.WriteDataRows | exelGeneratedFunction/main.py:102-106 | frame row i is rewritten at sheet row i + 1 in the wrap format, all five columns |
| Sheet.SetHeights | exelGeneratedFunction/main.py:108-114 | heights: 20 at the header, 70 for rows 1..N, 20 at N + 1 and N + 2, none beyond |
| Sheet.WriteTrailers | exelGeneratedFunction/main.py:111-127 | Total merged over columns 0-1 at N + 1 with the totals beside it; Calculator merged over 0-1 and a blank merge over 2-3 at N + 2 |
| Sheet.RenderEst | exelGeneratedFunction/main.py:98-133 | the whole EST sheet cell by cell, its heights, its three merges, and the image at row N + 4, column 0, only when a named file was uploaded |
| Sheet.RenderBom | exelGeneratedFunction/generateExelFromJsonBom.py:75-89 | the frame as written with its header rewritten in yellow; no heights, merges or images |
| Storage.MetadataItem | exelGeneratedFunction/main.py:169-175 | the item has exactly `user_email`, `file_id`, `s3_key`, `s3_url` and `created_at`, with the key, the bucket URL and the `Z`-suffixed time |
| Storage.S3Key | exelGeneratedFunction/main.py:163 | a key is the owner's email, `/`, the file id, then `.xlsx`: prefix, middle and suffix are each stated |
| Storage.KeyInjective | exelGeneratedFunction/main.py:162-163 | when file ids contain no `/`, two keys are equal only for the same owner and file id |
| Storage.Query | listUserFile/list_files.py:25-28 | the query returns at most the table's items |
| Storage.QueryExact | listUserFile/list_files.py:25-28 | an item is in the answer exactly when it is in the table and filed under the caller |
| Storage.QueryConcat | listUserFile/list_files.py:25-28 | the query keeps table order |
| Storage.Without | exelGeneratedFunction/main.py:177 | removing the items with the new item's primary key keeps exactly the other-key items of the table |
| Storage.PutInto | exelGeneratedFunction/main.py:177 | after a put the table holds the item, keeps every item with another key, and holds nothing else |
| Storage.WithoutKeepsOthers | exelGeneratedFunction/main.py:177 | removing that key leaves every other owner's query unchanged |
| Storage.PutThenQuery | exelGeneratedFunction/main.py:177 | after `put_item` the owner's query contains the item and still lists the owner's items with other keys; every other owner's query is unchanged |
| Bom.Services | exelGeneratedFunction/main.py:37 | the services are the document's `Groups.Services` list when both keys are present, and no services otherwise |
| Http.Truthy | exelGeneratedFunction/generateExelFromJsonBom.py:37 | Python truthiness: an absent `jsonData` is false, a scalar is as truthy as its value, and an object is true exactly when it is not empty |
| Storage.Aws.constructor | exelGeneratedFunction/main.py:15-18 | the services start with the given objects and tables and no writes |
| Storage.Aws.UploadFileobj | exelGeneratedFunction/main.py:166 | an upload stores the workbook under the bucket and key and logs it, or fails and changes nothing |
| Storage.Aws.PutItem | exelGeneratedFunction/main.py:177 | a put replaces the item with the same primary key and logs it; a failure or a missing table changes nothing |
| Storage.Aws.GetObject | exelGeneratedFunction/generateExelFromJsonBom.py:110-111 | a read returns the stored object, or NoSuchKey, or the failure |
| Storage.Aws.QueryOwner | listUserFile/list_files.py:25-28 | the query returns the caller's items of the table, or the failure |
| GenerateExcel.CallerEmail | exelGeneratedFunction/main.py:23-26 | an email is found exactly when the event, its context, the authorizer and its "email" are all present, and it is that entry |
| GenerateExcel.BuildEstSheet | exelGeneratedFunction/main.py:61-133 | the frame with its trailers, rendered, is the EST sheet of the services cell by cell with its heights, merges and image |
| GenerateExcel.Store | exelGeneratedFunction/main.py:161-183 | the upload comes first; a failed upload writes nothing; on success the item is put, and the reply is the stored message with the object's URL; a failed put leaves the orphan object and answers 500 |
| GenerateExcel.Handle | exelGeneratedFunction/main.py:20-183 | no email gives 401 and no effect; a missing or unparsable file or a service without name or monthly cost gives 500 and no effect; otherwise the EST sheet of the services is uploaded under `email/uuid.xlsx`, and then the metadata is written, in that order |
| GenerateBom.Admit | exelGeneratedFunction/generateExelFromJsonBom.py:23-44 | a request proceeds exactly when the email is non-empty, the body parsed and `jsonData` is a non-empty object; 401 exactly when the authorizer is there but the email is missing or empty, with `User not authenticated`; 400 exactly for a falsy `jsonData`, with `No JSON data provided`; a missing `requestContext` or `authorizer`, a body that fails to decode and a truthy non-object `jsonData` each answer 500 with the exception's message |
| GenerateBom.BuildBomSheet | exelGeneratedFunction/generateExelFromJsonBom.py:45-89 | the lenient frame with its trailers, rendered, is the yellow-header sheet of the services cell by cell |
| GenerateBom.Download | exelGeneratedFunction/generateExelFromJsonBom.py:114-122 | status 200, base64 flag set, the xlsx content type, and `attachment; filename=<uuid>.xlsx` |
| GenerateBom.Store | exelGeneratedFunction/generateExelFromJsonBom.py:92-128 | upload, then put, then read back; each failure answers 500 with its message and stops; success returns the uploaded workbook itself |
| GenerateBom.Handle | exelGeneratedFunction/generateExelFromJsonBom.py:19-128 | a rejected request changes nothing; otherwise the sheet is uploaded under the caller's key; 200 exactly when the put and the read succeed, with the stored file as body; the log records the upload before the put |
| ListFiles.CallerEmail | listUserFile/list_files.py:16-22 | an email is found exactly when `authorizer.lambda.email` is present and non-empty, and it is that entry |
| ListFiles.Enriched | listUserFile/list_files.py:32-39 | an item with a non-empty `s3_key` gains `presigned_url` for that key, with a 3600-second request; every other attribute is kept; other items are unchanged |
| ListFiles.EnrichAll | listUserFile/list_files.py:31-39 | the list keeps its count and order, item by item enriched |
| ListFiles.EnrichInPlace | listUserFile/list_files.py:31-39 | the in-place loop leaves the array equal to the enriched list |
| ListFiles.EnrichedOwner | listUserFile/list_files.py:39 | adding the link does not change the owner |
| ListFiles.OnlyCallersFiles | listUserFile/list_files.py:24-39 | every listed file is the caller's, and every item of the caller is listed with its link |
| ListFiles.Handle | listUserFile/list_files.py:13-53 | no email gives 401; a failing query gives 500 with the message and trace; otherwise 200 with the caller's enriched items, each filed under the caller |

## Left out

- Floating point: amounts are non-negative whole cents. `float()` rounding, negative or fractional-cent amounts, and a non-numeric "monthly" (which raises in both generators) are not modelled.
- JSON values of the wrong type inside the document (a "Groups" that is not an object, a "Services" that is not a list) are not modelled. For `jsonData` itself, a truthy non-object gives the `AttributeError` 500.
- `json.loads` and base64 decoding are taken as done. Their failures appear only as the error message carried by `Http.Event.body`. Returning the file base64-encoded is the `isBase64Encoded` flag on the untouched content.
- xlsxwriter fonts, colours, borders, column widths and the bytes of the workbook are not modelled. A sheet is its cells with a style tag, its row heights, merges and images.
- The uploaded image is assumed to be saved (main.py:130-133) and embedded without error. In the source, an unwritable path, or a file xlsxwriter cannot read as an image when the workbook closes at the end of the `with` block (main.py:75-157), ends the view with a 500 before anything is uploaded. The model does not produce that 500.
- The "Questions and Answers" sheet (main.py:136-157) is not modelled.
- `main.py` decorates the view with `@app.route` without defining `app`. The model treats it as a Flask view.
- The two handlers that share a bucket name different tables: `generated_bom_files_metadata` (generator) and `generated_bom_file_metadata` (list). Each module keeps its own constant. The source comments mark both names as placeholders, so no link between the two handlers is modelled.
- DynamoDB query pagination is not modelled. The sort order within a partition is also not modelled: the model answers in table order.
- `generate_presigned_url` is a function of its request and never fails in the model.
- Sheet.Worksheet.MergeRange: requires a range of at least two cells, as xlsxwriter rejects a one-cell merge; every call in the source spans two columns.

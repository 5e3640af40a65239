/** exelGeneratedFunction/main.py: the Flask view that builds the cost table
    strictly, writes the EST sheet, uploads the workbook and records its
    metadata. An exception the view does not catch becomes a 500 page. */
module GenerateExcel {
  import opened Wrappers
  import opened Currency
  import opened Bom
  import opened CostTable
  import opened Sheet
  import opened Storage
  import opened Http

  const Bucket: string := "my-excel-files"
  const Table: string := "ExcelFilesMetadata"
  const StoredMessage: string := "Excel file generated and stored successfully"

  const ServerError: Response := Plain(500, ServerErrorPage)

  /** The Flask request: the API Gateway event in the WSGI environment, the
      uploaded "jsonFile" (parsed, or the message of the parse error) and
      the file name of the uploaded "imageFile". */
  datatype ExcelRequest = ExcelRequest(event: Option<Event>, jsonFile: Option<Result<BomDocument>>,
                                       imageFile: Option<string>)

  /** `request.environ['apigateway.event']["requestContext"]["authorizer"]["email"]`,
      or `None` when a step of it raises. Unlike the other handlers, an
      empty email is accepted. */
  function CallerEmail(req: ExcelRequest): (email: Option<string>)
    ensures email.Some? <==> req.event.Some? && req.event.value.requestContext.Some?
                              && req.event.value.requestContext.value.authorizer.Some?
                              && "email" in req.event.value.requestContext.value.authorizer.value.entries
    ensures email.Some? ==> email.value == req.event.value.requestContext.value.authorizer.value.entries["email"]
  {
    match req.event
    case None => None
    case Some(e) =>
      match e.requestContext
      case None => None
      case Some(ctx) =>
        match ctx.authorizer
        case None => None
        case Some(a) => if "email" in a.entries then Some(a.entries["email"]) else None
  }

  /** The services of the uploaded document, when it was uploaded and parsed. */
  function Uploaded(req: ExcelRequest): Option<seq<Service>> {
    match req.jsonFile
    case Some(Ok(doc)) => Some(Services(doc))
    case _ => None
  }

  /** The request gets as far as the upload: an email, a parsed document and
      every service with a name and a monthly cost. */
  predicate Builds(req: ExcelRequest) {
    CallerEmail(req).Some? && Uploaded(req).Some? && StrictRows(Uploaded(req).value).Ok?
  }

  function FileKey(req: ExcelRequest, fileId: string): string
    requires CallerEmail(req).Some?
  {
    S3Key(CallerEmail(req).value, fileId)
  }

  /** The EST sheet main.py writes for the services `ss`, cell by cell. */
  ghost predicate IsEstSheet(sheet: SheetData, ss: seq<Service>, image: Option<string>) {
    && (forall r: nat, c: nat :: CellAt(sheet.cells, r, c) ==
          EstCell(LenientTable(ss), FormatPlain(SumMonthly(ss)), FormatPlain(12 * SumMonthly(ss)), r, c))
    && (forall r: nat :: HeightAt(sheet.heights, r) == EstHeight(|ss|, r))
    && sheet.merges == EstMerges(|ss|) && sheet.images == EstImages(|ss|, image)
  }

  /** main.py:61-133: the data frame of the collected columns, its trailer
      rows, and the EST sheet written from it. */
  method BuildEstSheet(cols: Columns, ss: seq<Service>, image: Option<string>) returns (sheet: SheetData)
    requires cols.Aligned() && cols.Rows() == LenientRows(ss)
    ensures IsEstSheet(sheet, ss, image)
  {
    var df := new DataFrame(cols);
    TotalsAreSums(ss);
    var totalMonthly, totalYearly := AppendTotals(df);
    assert df.rows == LenientTable(ss);
    var ws := new Worksheet.FromFrame(df.rows);
    RenderEst(ws, df.rows, totalMonthly, totalYearly, image);
    sheet := ws.Snapshot();
  }

  /** main.py:161-183: the workbook uploaded under the caller's folder, then
      its metadata item written; a failing call ends the view with a 500. */
  method Store(aws: Aws, sheet: SheetData, email: string, fileId: string, now: string, faults: Faults)
    returns (resp: Response)
    modifies aws
    ensures faults.upload.Some? ==> resp == ServerError && unchanged(aws)
    ensures faults.upload.None? ==> aws.objects == old(aws.objects)[(Bucket, S3Key(email, fileId)) := sheet]
    ensures faults.upload.None? ==>
              var item := MetadataItem(Bucket, email, fileId, now);
              if faults.putItem.None? && Table in old(aws.tables) then
                && resp == Plain(200, StoredBody(StoredMessage, S3Url(Bucket, S3Key(email, fileId))))
                && aws.tables == old(aws.tables)[Table := PutInto(old(aws.tables)[Table], item)]
                && aws.log == old(aws.log) + [UploadCall(Bucket, S3Key(email, fileId)), PutItemCall(Table, item)]
              else
                && resp == ServerError
                && aws.tables == old(aws.tables)
                && aws.log == old(aws.log) + [UploadCall(Bucket, S3Key(email, fileId))]
  {
    var key := S3Key(email, fileId);
    var uploaded := aws.UploadFileobj(sheet, Bucket, key, faults.upload);
    if uploaded.Err? {
      return ServerError;
    }
    var item := MetadataItem(Bucket, email, fileId, now);
    var stored := aws.PutItem(Table, item, faults.putItem);
    if stored.Err? {
      return ServerError;
    }
    resp := Plain(200, StoredBody(StoredMessage, item["s3_url"]));
  }

  /** `generate_excel()`: `fileId` is the `uuid4()` and `now` the
      `utcnow().isoformat()` of the call. */
  method Handle(aws: Aws, req: ExcelRequest, fileId: string, now: string, faults: Faults) returns (resp: Response)
    modifies aws
    ensures CallerEmail(req).None? ==> resp == Unauthorized && unchanged(aws)
    ensures CallerEmail(req).Some? && !Builds(req) ==> resp == ServerError && unchanged(aws)
    ensures Builds(req) && faults.upload.Some? ==> resp == ServerError && unchanged(aws)
    ensures Builds(req) && faults.upload.None? ==>
              var key := (Bucket, FileKey(req, fileId));
              && key in aws.objects && IsEstSheet(aws.objects[key], Uploaded(req).value, req.imageFile)
              && aws.objects == old(aws.objects)[key := aws.objects[key]]
    ensures Builds(req) && faults.upload.None? ==>
              var item := MetadataItem(Bucket, CallerEmail(req).value, fileId, now);
              if faults.putItem.None? && Table in old(aws.tables) then
                && resp == Plain(200, StoredBody(StoredMessage, S3Url(Bucket, FileKey(req, fileId))))
                && aws.tables == old(aws.tables)[Table := PutInto(old(aws.tables)[Table], item)]
                && aws.log == old(aws.log) + [UploadCall(Bucket, FileKey(req, fileId)), PutItemCall(Table, item)]
              else
                && resp == ServerError
                && aws.tables == old(aws.tables)
                && aws.log == old(aws.log) + [UploadCall(Bucket, FileKey(req, fileId))]
  {
    var email := CallerEmail(req);
    if email.None? {
      return Unauthorized;
    }
    if req.jsonFile.None? || req.jsonFile.value.Err? {
      return ServerError;
    }
    var services := Services(req.jsonFile.value.value);
    var cols := CollectStrict(services);
    if cols.Err? {
      return ServerError;
    }
    var sheet := BuildEstSheet(cols.value, services, req.imageFile);
    resp := Store(aws, sheet, email.value, fileId, now, faults);
  }
}

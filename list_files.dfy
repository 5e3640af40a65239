/** listUserFile/list_files.py: the Lambda handler that lists the caller's
    stored workbooks, each with a fresh link to download it. */
module ListFiles {
  import opened Wrappers
  import opened Storage
  import opened Http

  const Bucket: string := "generated-bom-files"
  const Table: string := "generated_bom_file_metadata"
  const LinkField: string := "presigned_url"
  /** Lifetime of a download link, in seconds (one hour). */
  const LinkExpiry: nat := 3600

  /** The arguments of `s3_client.generate_presigned_url`; the URL it
      returns is given to the model as a function of them. */
  datatype PresignRequest = PresignRequest(operation: string, bucket: string, key: string, expiresIn: nat)

  /** `event.get("requestContext", {}).get("authorizer", {}).get("lambda", {}).get("email")`
      when it is truthy. */
  function CallerEmail(event: Event): (email: Option<string>)
    ensures email.Some? ==> email.value != ""
    ensures email.Some? <==> event.requestContext.Some? && event.requestContext.value.authorizer.Some?
                             && event.requestContext.value.authorizer.value.lambda.Some?
                             && "email" in event.requestContext.value.authorizer.value.lambda.value
                             && event.requestContext.value.authorizer.value.lambda.value["email"] != ""
    ensures email.Some? ==> email.value == event.requestContext.value.authorizer.value.lambda.value["email"]
  {
    match event.requestContext
    case None => None
    case Some(ctx) =>
      match ctx.authorizer
      case None => None
      case Some(a) =>
        match a.lambda
        case None => None
        case Some(entries) => if "email" in entries && entries["email"] != "" then Some(entries["email"]) else None
  }

  /** `item.get("s3_key")` is truthy. */
  predicate HasKey(item: Item) {
    "s3_key" in item && item["s3_key"] != ""
  }

  /** The link request for a stored workbook. */
  function LinkRequest(key: string): PresignRequest {
    PresignRequest("get_object", Bucket, key, LinkExpiry)
  }

  /** An item after the loop body has seen it: a download link for its key
      added, every other attribute kept. */
  function Enriched(item: Item, presign: PresignRequest -> string): (r: Item)
    ensures r.Keys == if HasKey(item) then item.Keys + {LinkField} else item.Keys
    ensures forall k | k in item && k != LinkField :: r[k] == item[k]
    ensures HasKey(item) ==> r[LinkField] == presign(LinkRequest(item["s3_key"]))
    ensures !HasKey(item) ==> r == item
  {
    if HasKey(item) then item[LinkField := presign(LinkRequest(item["s3_key"]))] else item
  }

  /** Every item enriched, in the same order. */
  function EnrichAll(items: seq<Item>, presign: PresignRequest -> string): (r: seq<Item>)
    ensures |r| == |items|
    ensures forall i | 0 <= i < |items| :: r[i] == Enriched(items[i], presign)
  {
    seq(|items|, i requires 0 <= i < |items| => Enriched(items[i], presign))
  }

  /** list_files.py:31-39: the loop adds the links to the items in place. */
  method EnrichInPlace(a: array<Item>, presign: PresignRequest -> string)
    modifies a
    ensures a[..] == EnrichAll(old(a[..]), presign)
  {
    var i := 0;
    while i < a.Length
      invariant 0 <= i <= a.Length
      invariant forall j | 0 <= j < i :: a[j] == Enriched(old(a[j]), presign)
      invariant forall j | i <= j < a.Length :: a[j] == old(a[j])
    {
      var item := a[i];
      if "s3_key" in item && item["s3_key"] != "" {
        a[i] := item[LinkField := presign(PresignRequest("get_object", Bucket, item["s3_key"], LinkExpiry))];
      }
      i := i + 1;
    }
  }

  /** Adding a link keeps the owner the item is filed under. */
  lemma EnrichedOwner(item: Item, presign: PresignRequest -> string)
    ensures Owner(Enriched(item, presign)) == Owner(item)
  {
    assert "user_email" != LinkField;
  }

  /** The files listed are exactly the caller's: each is one of the caller's
      items with its link, and each of the caller's items is listed. */
  lemma {:induction false} OnlyCallersFiles(items: seq<Item>, email: string, presign: PresignRequest -> string)
    ensures forall f | f in EnrichAll(Query(items, email), presign) :: Owner(f) == Some(email)
    ensures forall x | x in items && Owner(x) == Some(email) :: Enriched(x, presign) in EnrichAll(Query(items, email), presign)
  {
    var q := Query(items, email);
    var files := EnrichAll(q, presign);
    forall f | f in files
      ensures Owner(f) == Some(email)
    {
      var i :| 0 <= i < |files| && files[i] == f;
      QueryExact(items, email, q[i]);
      EnrichedOwner(q[i], presign);
    }
    forall x | x in items && Owner(x) == Some(email)
      ensures Enriched(x, presign) in files
    {
      QueryExact(items, email, x);
      var i :| 0 <= i < |q| && q[i] == x;
      assert files[i] == Enriched(x, presign);
    }
  }

  /** `lambda_handler(event, context)`: `presign` stands for
      `generate_presigned_url` and `trace` for the text of
      `traceback.format_exc()`. */
  method Handle(aws: Aws, event: Event, presign: PresignRequest -> string, trace: string, faults: Faults)
    returns (resp: Response)
    ensures CallerEmail(event).None? ==> resp == Unauthorized
    ensures CallerEmail(event).Some? && faults.query.Some? ==> resp == Plain(500, TraceBody(faults.query.value, trace))
    ensures CallerEmail(event).Some? && faults.query.None? && Table !in aws.tables ==>
              resp == Plain(500, TraceBody(MissingTable("Query"), trace))
    ensures CallerEmail(event).Some? && faults.query.None? && Table in aws.tables ==>
              resp == Plain(200, FilesBody(EnrichAll(Query(aws.tables[Table], CallerEmail(event).value), presign)))
    ensures resp.status == 200 ==> resp.body.FilesBody?
                                   && forall f | f in resp.body.files :: Owner(f) == CallerEmail(event)
  {
    var email := CallerEmail(event);
    if email.None? {
      return Unauthorized;
    }
    var response := aws.QueryOwner(Table, email.value, faults.query);
    if response.Err? {
      return Plain(500, TraceBody(response.error, trace));
    }
    var items := response.value;
    var a := new Item[|items|](i requires 0 <= i < |items| => items[i]);
    assert a[..] == items;
    EnrichInPlace(a, presign);
    OnlyCallersFiles(aws.tables[Table], email.value, presign);
    resp := Plain(200, FilesBody(a[..]));
  }
}

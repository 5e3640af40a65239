/** The storage the handlers use: S3 objects addressed by bucket and key,
    DynamoDB tables of metadata items, and the key, URL and item the
    generators build. The services are an in-memory model: what each call
    returns and what it changes, with the failure of a call as an input. */
module Storage {
  import opened Wrappers
  import opened Sheet

  /** A DynamoDB item: attribute names to (string) values. */
  type Item = map<string, string>

  /** `f"{user_email}/{file_uuid}.xlsx"`: the workbook sits in its owner's
      folder and has the `.xlsx` extension. */
  function S3Key(email: string, fileId: string): (key: string)
    ensures |key| == |email| + |fileId| + 6
    ensures key[..|email| + 1] == email + "/" && key[|key| - 5..] == ".xlsx"
    ensures key[|email| + 1..|key| - 5] == fileId
  {
    email + "/" + fileId + ".xlsx"
  }

  /** `f"https://{S3_BUCKET}.s3.amazonaws.com/{s3_key}"`. */
  function S3Url(bucket: string, key: string): string {
    "https://" + bucket + ".s3.amazonaws.com/" + key
  }

  /** The metadata item both generators store; `now` is the text of
      `datetime.utcnow().isoformat()`. */
  function MetadataItem(bucket: string, email: string, fileId: string, now: string): (item: Item)
    ensures item.Keys == {"user_email", "file_id", "s3_key", "s3_url", "created_at"}
    ensures item["user_email"] == email && item["file_id"] == fileId
    ensures item["s3_key"] == S3Key(email, fileId) && item["s3_url"] == S3Url(bucket, S3Key(email, fileId))
    ensures item["created_at"] == now + "Z"
  {
    var key := S3Key(email, fileId);
    map["user_email" := email, "file_id" := fileId, "s3_key" := key,
        "s3_url" := S3Url(bucket, key), "created_at" := now + "Z"]
  }

  /** The last `/` of a key separates the owner from the file id. */
  lemma SlashPosition(email: string, fileId: string, k: nat)
    requires '/' !in fileId && k < |S3Key(email, fileId)|
    requires S3Key(email, fileId)[k] == '/'
    ensures k <= |email|
  {
  }

  /** Since a UUID has no `/`, a key determines both its owner and its file
      id: two files get the same key only if they are the same file of the
      same user. */
  lemma KeyInjective(e1: string, id1: string, e2: string, id2: string)
    requires '/' !in id1 && '/' !in id2
    requires S3Key(e1, id1) == S3Key(e2, id2)
    ensures e1 == e2 && id1 == id2
  {
    var key := S3Key(e1, id1);
    assert key[|e1|] == '/' && key[|e2|] == '/';
    SlashPosition(e1, id1, |e2|);
    SlashPosition(e2, id2, |e1|);
    assert e1 == key[..|e1|] == e2;
    assert id1 == key[|e1| + 1..|key| - 5] == id2;
  }

  // ---------------------------------------------------------------------
  // Tables

  /** The owner an item is filed under, its partition key `user_email`. */
  function Owner(item: Item): Option<string> {
    if "user_email" in item then Some(item["user_email"]) else None
  }

  /** Two items with the same primary key, `user_email` and `file_id`. */
  predicate SameKey(a: Item, b: Item) {
    Owner(a) == Owner(b) && (("file_id" in a) <==> ("file_id" in b)) && ("file_id" in a ==> a["file_id"] == b["file_id"])
  }

  /** `Key("user_email").eq(email)`: the items of one owner, in table order. */
  function Query(items: seq<Item>, email: string): (r: seq<Item>)
    ensures |r| <= |items|
    decreases |items|
  {
    if items == [] then []
    else if Owner(items[0]) == Some(email) then [items[0]] + Query(items[1..], email)
    else Query(items[1..], email)
  }

  /** A query returns exactly the caller's items: every returned item is
      the caller's, and every item of the caller is returned. */
  lemma {:induction false} QueryExact(items: seq<Item>, email: string, x: Item)
    ensures x in Query(items, email) <==> x in items && Owner(x) == Some(email)
    decreases |items|
  {
    if items != [] {
      QueryExact(items[1..], email, x);
      assert items == [items[0]] + items[1..];
    }
  }

  /** Querying a table in two parts gives the two answers in order. */
  lemma {:induction false} QueryConcat(a: seq<Item>, b: seq<Item>, email: string)
    ensures Query(a + b, email) == Query(a, email) + Query(b, email)
    decreases |a|
  {
    if a == [] {
      assert a + b == b;
    } else {
      assert (a + b)[1..] == a[1..] + b;
      QueryConcat(a[1..], b, email);
    }
  }

  /** The items that do not share a key with `item`. */
  function Without(items: seq<Item>, item: Item): (r: seq<Item>)
    ensures forall x | x in r :: x in items && !SameKey(x, item)
    ensures forall x | x in items && !SameKey(x, item) :: x in r
    decreases |items|
  {
    if items == [] then []
    else if SameKey(items[0], item) then Without(items[1..], item)
    else [items[0]] + Without(items[1..], item)
  }

  /** `put_item`: the item replaces any item with the same primary key. */
  function PutInto(items: seq<Item>, item: Item): (r: seq<Item>)
    ensures item in r
    ensures forall x | x in items && !SameKey(x, item) :: x in r
    ensures forall x | x in r && x != item :: x in items && !SameKey(x, item)
  {
    Without(items, item) + [item]
  }

  lemma {:induction false} WithoutKeepsOthers(items: seq<Item>, item: Item, email: string)
    requires Owner(item) != Some(email)
    ensures Query(Without(items, item), email) == Query(items, email)
    decreases |items|
  {
    if items != [] {
      WithoutKeepsOthers(items[1..], item, email);
      if SameKey(items[0], item) {
        assert Owner(items[0]) != Some(email);
      } else {
        assert Without(items, item) == [items[0]] + Without(items[1..], item);
      }
    }
  }

  /** After a put, the owner's query contains the new item and still every
      earlier item with another key, and every other owner's query is
      unchanged. */
  lemma PutThenQuery(items: seq<Item>, item: Item, email: string)
    ensures Owner(item) == Some(email) ==> item in Query(PutInto(items, item), email)
    ensures forall x | x in Query(items, email) && !SameKey(x, item) :: x in Query(PutInto(items, item), email)
    ensures Owner(item) != Some(email) ==> Query(PutInto(items, item), email) == Query(items, email)
  {
    forall x | x in Query(items, email) && !SameKey(x, item)
      ensures x in Query(PutInto(items, item), email)
    {
      QueryExact(items, email, x);
      QueryExact(PutInto(items, item), email, x);
    }
    QueryConcat(Without(items, item), [item], email);
    if Owner(item) == Some(email) {
      assert Query([item], email) == [item];
    } else {
      assert Query([item], email) == [];
      WithoutKeepsOthers(items, item, email);
    }
  }

  // ---------------------------------------------------------------------
  // The services

  /** The writes the handlers make, in the order they make them. */
  datatype Call = UploadCall(bucket: string, key: string) | PutItemCall(table: string, item: Item)

  /** Whether each call fails, and with which message. */
  datatype Faults = Faults(upload: Option<string>, putItem: Option<string>,
                           getObject: Option<string>, query: Option<string>)

  const NoSuchKey: string :=
    "An error occurred (NoSuchKey) when calling the GetObject operation: The specified key does not exist."

  function MissingTable(operation: string): string {
    "An error occurred (ResourceNotFoundException) when calling the " + operation
      + " operation: Requested resource not found"
  }

  /** The S3 buckets and DynamoDB tables the handlers reach, and the log of
      the writes they have made. */
  class Aws {
    var objects: map<(string, string), SheetData>
    var tables: map<string, seq<Item>>
    var log: seq<Call>

    constructor (objects: map<(string, string), SheetData>, tables: map<string, seq<Item>>)
      ensures this.objects == objects && this.tables == tables && log == []
    {
      this.objects := objects;
      this.tables := tables;
      log := [];
    }

    /** `s3_client.upload_fileobj(output, bucket, key)`. */
    method UploadFileobj(data: SheetData, bucket: string, key: string, fault: Option<string>) returns (r: Result<()>)
      modifies this
      ensures fault.Some? ==> r == Err(fault.value) && unchanged(this)
      ensures fault.None? ==> r.Ok? && objects == old(objects)[(bucket, key) := data]
      ensures fault.None? ==> tables == old(tables) && log == old(log) + [UploadCall(bucket, key)]
    {
      if fault.Some? {
        return Err(fault.value);
      }
      objects := objects[(bucket, key) := data];
      log := log + [UploadCall(bucket, key)];
      r := Ok(());
    }

    /** `dynamodb.Table(table).put_item(Item=item)`. */
    method PutItem(table: string, item: Item, fault: Option<string>) returns (r: Result<()>)
      modifies this
      ensures fault.Some? ==> r == Err(fault.value) && unchanged(this)
      ensures fault.None? && table !in old(tables) ==> r == Err(MissingTable("PutItem")) && unchanged(this)
      ensures fault.None? && table in old(tables) ==>
                && r.Ok? && tables == old(tables)[table := PutInto(old(tables)[table], item)]
                && objects == old(objects) && log == old(log) + [PutItemCall(table, item)]
    {
      if fault.Some? {
        return Err(fault.value);
      }
      if table !in tables {
        return Err(MissingTable("PutItem"));
      }
      tables := tables[table := PutInto(tables[table], item)];
      log := log + [PutItemCall(table, item)];
      r := Ok(());
    }

    /** `s3_client.get_object(Bucket=bucket, Key=key)['Body'].read()`. */
    method GetObject(bucket: string, key: string, fault: Option<string>) returns (r: Result<SheetData>)
      ensures fault.Some? ==> r == Err(fault.value)
      ensures fault.None? && (bucket, key) !in objects ==> r == Err(NoSuchKey)
      ensures fault.None? && (bucket, key) in objects ==> r == Ok(objects[(bucket, key)])
    {
      if fault.Some? {
        return Err(fault.value);
      }
      if (bucket, key) !in objects {
        return Err(NoSuchKey);
      }
      r := Ok(objects[(bucket, key)]);
    }

    /** `dynamodb.Table(table).query(KeyConditionExpression=Key("user_email").eq(email))["Items"]`. */
    method QueryOwner(table: string, email: string, fault: Option<string>) returns (r: Result<seq<Item>>)
      ensures fault.Some? ==> r == Err(fault.value)
      ensures fault.None? && table !in tables ==> r == Err(MissingTable("Query"))
      ensures fault.None? && table in tables ==> r == Ok(Query(tables[table], email))
    {
      if fault.Some? {
        return Err(fault.value);
      }
      if table !in tables {
        return Err(MissingTable("Query"));
      }
      r := Ok(Query(tables[table], email));
    }
  }
}

/** The `upload` (main.go:101-139) and `remove` (main.go:141-155) actions, up to the one
    request each sends. File-system answers and the minted object name are parameters;
    a fatal record means no request is sent. */
module Commands {
  import opened Results
  import opened Decimal
  import opened S3Client

  const UploadPrompt := "Please specify a file to upload"
  const RemovePrompt := "Please specify an object to remove"
  const OctetStream := "application/octet-stream"

  /** The single call an action makes on the S3 client. */
  datatype Request =
    | PutObject(options: ClientOptions, bucket: string, key: string, length: Int64, contentType: string, source: string)
    | RemoveObject(options: ClientOptions, bucket: string, key: string)

  /** The positional-argument guard of main.go:102-104 and main.go:142-144. */
  function SingleArgument(args: seq<string>, prompt: string): (r: Result<string>)
    ensures r.Ok? <==> |args| == 1
    ensures r.Ok? ==> r.value == args[0]
    ensures r.Fatal? ==> r.message == prompt
  {
    if |args| != 1 then Fatal(prompt) else Ok(args[0])
  }

  /** `upload`: the argument guard, `os.Stat` (its size, or None when it fails), `os.Open`
      (whether it succeeds), the client options, then the PUT of the whole file under `id`. */
  function Upload(args: seq<string>, flags: ConnectionFlags, bucket: string, id: string,
                  stat: Option<Int64>, openOk: bool): (r: Result<Request>)
    ensures |args| != 1 ==> r == Fatal(UploadPrompt)
    ensures r.Ok? <==> |args| == 1 && stat.Some? && openOk && GetS3Client(flags).Ok?
    ensures |args| == 1 && stat.None? ==> r == Fatal("File '" + args[0] + "' does not exist")
    ensures |args| == 1 && stat.Some? && !openOk ==> r == Fatal("Failed to open file '" + args[0] + "'")
    ensures |args| == 1 && stat.Some? && openOk && GetS3Client(flags).Fatal? ==> r == Fatal(GetS3Client(flags).message)
    ensures r.Ok? ==> r.value.PutObject? && r.value.options == GetS3Client(flags).value
    ensures r.Ok? ==> r.value.bucket == bucket && r.value.key == id && r.value.source == args[0]
    ensures r.Ok? ==> r.value.length == stat.value && r.value.contentType == OctetStream
  {
    match SingleArgument(args, UploadPrompt)
    case Fatal(m) => Fatal(m)
    case Ok(path) =>
      if stat.None? then Fatal("File '" + path + "' does not exist")
      else if !openOk then Fatal("Failed to open file '" + path + "'")
      else match GetS3Client(flags)
        case Fatal(m) => Fatal(m)
        case Ok(options) => Ok(PutObject(options, bucket, id, stat.value, OctetStream, path))
  }

  /** `remove`: the argument guard, the client options, then the delete of the named object. */
  function Remove(args: seq<string>, flags: ConnectionFlags, bucket: string): (r: Result<Request>)
    ensures |args| != 1 ==> r == Fatal(RemovePrompt)
    ensures r.Ok? <==> |args| == 1 && GetS3Client(flags).Ok?
    ensures |args| == 1 && GetS3Client(flags).Fatal? ==> r == Fatal(GetS3Client(flags).message)
    ensures r.Ok? ==> r.value == RemoveObject(GetS3Client(flags).value, bucket, args[0])
  {
    match SingleArgument(args, RemovePrompt)
    case Fatal(m) => Fatal(m)
    case Ok(id) =>
      match GetS3Client(flags)
      case Fatal(m) => Fatal(m)
      case Ok(options) => Ok(RemoveObject(options, bucket, id))
  }

  /** The outcome of `remove` once the delete has answered (main.go:150-153): a failure is fatal
      and names the object; success is reported with an info record. */
  function RemoveReport(id: string, failed: bool): (r: Result<string>)
    ensures r.Fatal? <==> failed
    ensures r.Fatal? ==> r.message == "Failed to remove object '" + id + "'"
    ensures r.Ok? ==> r.value == "Removed object '" + id + "'"
  {
    if failed then Fatal("Failed to remove object '" + id + "'") else Ok("Removed object '" + id + "'")
  }

  /** A missing connection field stops either action before any request, whatever else holds. */
  lemma MissingFieldSendsNothing(args: seq<string>, flags: ConnectionFlags, bucket: string, id: string,
                                 stat: Option<Int64>, openOk: bool, f: Field)
    requires IsMissing(flags, f)
    ensures Upload(args, flags, bucket, id, stat, openOk).Fatal?
    ensures Remove(args, flags, bucket).Fatal?
  {
    AnyMissingFieldIsFatal(flags, f);
  }

  /** The argument guard is decided first: with a wrong argument count no other input matters. */
  lemma ArgumentGuardComesFirst(args: seq<string>, flags: ConnectionFlags, flags': ConnectionFlags,
                                bucket: string, id: string, stat: Option<Int64>, openOk: bool)
    requires |args| != 1
    ensures Upload(args, flags, bucket, id, stat, openOk) == Upload(args, flags', "", "", None, false)
    ensures Remove(args, flags, bucket) == Remove(args, flags', "")
  {
  }
}

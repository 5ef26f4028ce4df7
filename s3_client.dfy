/** Validation and endpoint composition of `getS3Client` (main.go:194-227). The client
    constructor itself is foreign; the model stops at the options it would be handed. */
module S3Client {
  import opened Results
  import opened Decimal

  /** The connection flags as read from the command line or environment (main.go:195-199).
      A port of 0 is how the flag library reports an unset port. */
  datatype ConnectionFlags = ConnectionFlags(
    endpoint: string, port: Int64, accessKey: string, secretKey: string, insecure: bool)

  /** What is passed to the client constructor: endpoint, static V4 credentials
      (with an empty session token) and the TLS switch. */
  datatype ClientOptions = ClientOptions(
    endpoint: string, accessKeyId: string, secretAccessKey: string, sessionToken: string, secure: bool)

  datatype Field = Endpoint | Port | AccessKey | SecretKey

  /** The order in which the required fields are checked. */
  const CheckOrder: seq<Field> := [Endpoint, Port, AccessKey, SecretKey]

  predicate IsMissing(c: ConnectionFlags, f: Field) {
    match f
    case Endpoint => c.endpoint == ""
    case Port => c.port == 0
    case AccessKey => c.accessKey == ""
    case SecretKey => c.secretKey == ""
  }

  /** The fatal message naming a missing field. */
  function Prompt(f: Field): string {
    match f
    case Endpoint => "Please specify an S3 endpoint"
    case Port => "Please specify an S3 port"
    case AccessKey => "Please specify an S3 access key"
    case SecretKey => "Please specify an S3 secret key"
  }

  /** The fields of `fields` that `c` leaves missing, in their order. */
  function MissingFields(c: ConnectionFlags, fields: seq<Field>): seq<Field> {
    if fields == [] then []
    else (if IsMissing(c, fields[0]) then [fields[0]] else []) + MissingFields(c, fields[1..])
  }

  /** MissingFields keeps exactly the missing fields of the list. */
  lemma {:induction false} MissingFieldsMembers(c: ConnectionFlags, fields: seq<Field>, f: Field)
    ensures f in MissingFields(c, fields) <==> f in fields && IsMissing(c, f)
  {
    if fields != [] {
      MissingFieldsMembers(c, fields[1..], f);
      assert fields == [fields[0]] + fields[1..];
    }
  }

  /** MissingFields over the check order, one field at a time. */
  lemma UnfoldCheckOrder(c: ConnectionFlags)
    ensures MissingFields(c, CheckOrder) ==
      (if IsMissing(c, Endpoint) then [Endpoint] else []) +
      (if IsMissing(c, Port) then [Port] else []) +
      (if IsMissing(c, AccessKey) then [AccessKey] else []) +
      (if IsMissing(c, SecretKey) then [SecretKey] else [])
  {
    assert [SecretKey][1..] == [];
    var last := MissingFields(c, [SecretKey]);
    assert last == (if IsMissing(c, SecretKey) then [SecretKey] else []) + MissingFields(c, []);
    assert last == if IsMissing(c, SecretKey) then [SecretKey] else [];
    assert [AccessKey, SecretKey][1..] == [SecretKey];
    var keys := MissingFields(c, [AccessKey, SecretKey]);
    assert keys == (if IsMissing(c, AccessKey) then [AccessKey] else []) + last;
    assert [Port, AccessKey, SecretKey][1..] == [AccessKey, SecretKey];
    var rest := MissingFields(c, [Port, AccessKey, SecretKey]);
    assert rest == (if IsMissing(c, Port) then [Port] else []) + keys;
    assert CheckOrder[1..] == [Port, AccessKey, SecretKey];
  }

  /** `fmt.Sprintf("%s:%d", host, port)` (main.go:216): host and port can be read back. */
  function ComposeEndpoint(host: string, port: int): (e: string)
    ensures SplitEndpoint(e) == Some((host, port))
  {
    EndpointRoundTrip(host, port);
    host + ":" + IntToString(port)
  }

  /** Position of the last occurrence of `c` in `s`. */
  function LastIndexOf(s: string, c: char): (r: Option<nat>)
    ensures r.Some? ==> r.value < |s| && s[r.value] == c && c !in s[r.value + 1..]
    ensures r.None? ==> c !in s
  {
    if s == [] then None
    else if s[|s| - 1] == c then Some(|s| - 1)
    else
      var r := LastIndexOf(s[..|s| - 1], c);
      assert s == s[..|s| - 1] + [s[|s| - 1]];
      r
  }

  /** Splits an endpoint at its last colon into host and decimal port. */
  function SplitEndpoint(e: string): Option<(string, int)> {
    match LastIndexOf(e, ':')
    case None => None
    case Some(k) =>
      match ParseInt(e[k + 1..])
      case None => None
      case Some(p) => Some((e[..k], p))
  }

  /** Host and port can be read back from `host:port`, whatever the host contains. */
  lemma EndpointRoundTrip(host: string, port: int)
    ensures SplitEndpoint(host + ":" + IntToString(port)) == Some((host, port))
  {
    var digits := IntToString(port);
    var e := host + ":" + digits;
    IntToStringHasNo(port, ':');
    assert e[|host|] == ':';
    var k := LastIndexOf(e, ':').value;
    assert e[k + 1..] == digits;
    assert e[..k] == host;
    IntToStringRoundTrip(port);
  }

  /** The checks of main.go:201-212 followed by the options of main.go:216-221. The process
      ends on the first missing field in the check order, naming it; otherwise the options
      carry the composed endpoint, the credentials and the negated insecure flag. */
  function GetS3Client(c: ConnectionFlags): (r: Result<ClientOptions>)
    ensures r.Ok? <==> MissingFields(c, CheckOrder) == []
    ensures r.Fatal? ==> r.message == Prompt(MissingFields(c, CheckOrder)[0])
    ensures r.Ok? ==> SplitEndpoint(r.value.endpoint) == Some((c.endpoint, c.port as int))
    ensures r.Ok? ==> r.value == ClientOptions(
      ComposeEndpoint(c.endpoint, c.port), c.accessKey, c.secretKey, "", !c.insecure)
  {
    UnfoldCheckOrder(c);
    if c.endpoint == "" then Fatal("Please specify an S3 endpoint")
    else if c.port == 0 then Fatal("Please specify an S3 port")
    else if c.accessKey == "" then Fatal("Please specify an S3 access key")
    else if c.secretKey == "" then Fatal("Please specify an S3 secret key")
    else
      EndpointRoundTrip(c.endpoint, c.port);
      Ok(ClientOptions(ComposeEndpoint(c.endpoint, c.port), c.accessKey, c.secretKey, "", !c.insecure))
  }

  /** Any one missing field is enough to stop the process, whatever the other fields hold. */
  lemma AnyMissingFieldIsFatal(c: ConnectionFlags, f: Field)
    requires IsMissing(c, f)
    ensures GetS3Client(c).Fatal?
  {
    MissingFieldsMembers(c, CheckOrder, f);
  }
}

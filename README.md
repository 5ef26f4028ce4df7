# s3-tester: a verified model of its decision logic

s3-tester is a small command-line probe for S3-compatible object storage. It has two
subcommands: `upload <path>` stores one local file under a freshly minted object name,
and `remove <object-name>` deletes a named object. Around those two requests the tool
makes a few decisions of its own, and this project models them in Dafny and proves
what they promise:

- the size formatter, which picks B, KiB, MiB, GiB or TiB with strict less-than
  thresholds at powers of 1024 and renders sizes under 1024 exactly (`SizeFormat`, with
  Go's `%d` rendering and a parser for it in `Decimal`);
- the process-wide log level: the name-to-level mapping of `applyLogLevel`, and the
  `initLogger` rule that very-verbose beats verbose (`Logging`, a `Logger` class whose
  `level` field the two methods update);
- the connection checks of `getS3Client`: endpoint, port, access key and secret key are
  checked in that order and the first one missing ends the process with a message naming
  it; otherwise the endpoint `host:port` and the TLS switch are handed to the client
  (`S3Client`);
- the `upload` and `remove` actions up to the one request each sends: the
  exactly-one-argument guard, then the file checks of `upload`, then the connection
  checks (`Commands`).

A fatal log record, which ends the process, is modelled as `Fatal(message)` of
`Results.Result`. Foreign answers are parameters. These are whether `os.Stat` and
`os.Open` succeed, the size `os.Stat` reports, the minted UUID, and whether the delete
failed.

Some behaviour of the code worth stating outright:
- `getHumanReadableSize` accepts any int64. A negative count falls into the byte branch
  and is rendered with a minus sign.
- `getHumanReadableSize` is also fed the throughput (main.go:137). The model covers only
  the formatter, not that value.
- The port is only checked against 0. Any other int value, negative or above 65535
  included, passes the check and is written into the endpoint.
- The level before `initLogger` runs is the logging library's default. The `Logger`
  constructor takes it as a parameter.

## Model

| member | source | states |
|---|---|---|
| Decimal.IntToString | main.go:231 | `%d` of an integer is canonical: digits only, no leading zero, a minus sign exactly when negative and then never before a zero |
| Decimal.CanonicalIntUnique | main.go:231 | a canonical string that reads as an integer is that integer's `%d` rendering, so the rendering is the only one |
| Decimal.IntToStringRoundTrip | main.go:231 | the `%d` rendering of every integer reads back as that integer |
| Decimal.ParseNatRoundTrip | main.go:231 | the decimal rendering of every natural number parses back to it |
| Decimal.NatToStringOfParse | main.go:231 | every canonical digit string (no leading zero) is the rendering of the number it denotes |
| SizeFormat.SelectUnit | main.go:230-240 | the chosen unit is the largest one whose scale the size reaches: it is at least that scale (except B), and it is below 1024 times that scale (except TiB) |
| SizeFormat.Scale | main.go:232-239 | the divisor of each unit is 1024 raised to the unit's rank |
| SizeFormat.SelectUnitUnique | main.go:229-240 | only one unit meets those two bounds, so they define the selection |
| SizeFormat.SelectUnitRanges | main.go:230-240 | in both directions: B below 1024, KiB in [1024, 1024^2), MiB in [1024^2, 1024^3), GiB in [1024^3, 1024^4), TiB from 1024^4 up with no upper bound |
| SizeFormat.SelectUnitMonotone | main.go:229-240 | a larger size never gets a smaller unit |
| SizeFormat.HumanReadableSize | main.go:229-241 | below 1024 exactly: the text ends in " B" and what precedes it is canonical and parses back to the size, which by CanonicalIntUnique makes it exactly `%d` of the size followed by " B"; otherwise the unit is SelectUnit's and the quotient times the unit's scale is exactly the size, with the quotient in [1, 1024) below TiB |
| SizeFormat.Boundaries | main.go:229-241 | 0 and 1023 give "0 B" and "1023 B"; 1024 is 1 KiB; 1048575 is still KiB; 1048576 is 1 MiB; 5 MiB is 5 MiB; 1024^4 - 1 is GiB; the largest int64 is TiB |
| Logging.ParseLevel | main.go:173-192 | a known name gives a level it is an alias of; every other string gives Info |
| Logging.AliasesDisjoint | main.go:174-191 | no name is an alias of two levels, so the mapping is a function of the alias table |
| Logging.ParseLevelIff | main.go:174-191 | in both directions: a name maps to a level exactly when it is one of its aliases, or it is unknown and the level is Info |
| Logging.ParseName | main.go:164 | the level name printed in the announcement maps back to the same level |
| Logging.Logger.ApplyLogLevel | main.go:173-192 | sets the global level to the mapped level of the name and records one application |
| Logging.Logger.InitLogger | main.go:157-166 | very-verbose sets Trace whatever verbose says; verbose alone sets Debug; with neither flag the level is unchanged and no level is applied; at most one application per call; the announcement names the resulting level |
| S3Client.MissingFieldsMembers | main.go:201-212 | the missing-field list holds exactly the listed fields that are empty, or 0 for the port |
| S3Client.UnfoldCheckOrder | main.go:201-212 | the missing fields come in the order endpoint, port, access key, secret key |
| S3Client.ComposeEndpoint | main.go:216 | the endpoint `host:port`, split at its last colon, gives back the host and the port |
| S3Client.EndpointRoundTrip | main.go:216 | splitting `host` + ":" + `%d` of the port at its last colon gives back the host and the port, whatever the host contains |
| S3Client.GetS3Client | main.go:195-221 | fatal exactly when a field is missing, with the message of the first missing field in check order; otherwise the endpoint reads back as host and port, the credentials are the given keys with an empty session token, and secure is the negation of insecure |
| S3Client.AnyMissingFieldIsFatal | main.go:201-212 | any one missing field is fatal, whatever the other fields hold |
| Commands.SingleArgument | main.go:102-105 | succeeds exactly when there is one positional argument, and returns it; otherwise fatal with the action's prompt |
| Commands.Upload | main.go:101-130 | a wrong argument count is fatal with "Please specify a file to upload"; then a failed stat, a failed open and a failed connection check are fatal, in that order; a PUT is sent exactly when all pass, and it carries the client options, the bucket, the minted id, the stat size, the octet-stream content type and the path |
| Commands.Remove | main.go:141-149 | a wrong argument count is fatal with "Please specify an object to remove"; a failed connection check is fatal; otherwise exactly one delete of the named object in the bucket is sent |
| Commands.RemoveReport | main.go:149-153 | a failed delete is fatal and names the object; otherwise the success record names it |
| Commands.MissingFieldSendsNothing | main.go:122-149 | with any connection field missing, neither action sends a request |
| Commands.ArgumentGuardComesFirst | main.go:101-105 | with a wrong argument count, the outcome of either action does not depend on any other input |

## Left out

- Reading flags and environment variables (main.go:21-95): this is the command-line library's wiring. The model starts from the values it resolved, so the rule that a command-line value beats the environment is not modelled.
- `os.Stat`, `os.Open` and the buffered reader (main.go:109-120, 130): file-system I/O. Their outcomes are parameters of `Commands.Upload`.
- UUID generation (main.go:106): randomness from a library. The id is a parameter, so the model says nothing about two uploads getting different names.
- `minio.New`, `PutObject` and `RemoveObject` (main.go:130, 149, 218-224): foreign client calls. The model stops at the `ClientOptions` and the `Request` these would be given. A client-construction error (main.go:222-224) is therefore not modelled. In the code, that fatal record is only built with `log.Fatal().Err(err)` and is never sent with `Msg`, `Msgf` or `Send`. The logging library writes a record, and exits for a fatal one, only when it is sent. So a construction error is dropped and `getS3Client` returns a nil client. The port check lets negative and out-of-range ports through, so such a port can reach this path.
- The progress bar and timing (main.go:127-131): terminal UI and the clock.
- The `%.2f` rendering for sizes of 1024 and more (main.go:233-239): floating-point formatting. `SizeFormat.HumanReadableSize` returns the exact quotient and the unit instead. It does not model that 1048575 bytes round to "1024.00 KiB".
- The throughput line (main.go:136-137): a floating-point division by an elapsed time that can be zero, followed by an implementation-defined cast.
- The non-fatal handling of a failed PUT (main.go:132-135): it only chooses which log lines follow the foreign call. `Commands.Upload` ends at the request.
- The console-writer setup and timestamp formats (main.go:168-171): logging-library configuration. The info records in between are not modelled either (main.go:115, 124, 214). Only the level announcement of `initLogger` and the remove report are.
- The error from the command-line library (main.go:96-98) is also only built with `log.Fatal().Err(err)` and never sent. So it is neither logged nor fatal. This is library behaviour outside the model.

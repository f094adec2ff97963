# swarm_provenance_mcp in Dafny

A model of the core of `swarm_provenance_mcp`. This is an MCP server that lets
an assistant buy and manage postage stamps on a Swarm gateway, upload and
download data, and build and check provenance records. The model covers three
parts of it.

- **The tool layer** (`server.py`). `call_tool` sends a tool name to one of
  seven handlers. Each handler asks the gateway for something and builds its
  reply text with `+=`, as the source does. Each one is a `method` proved
  equal to a reply function that states the reply line by line.
  `handle_list_stamps` keeps its loop over the stamp list. Modules `Server`
  and `ServerProperties` prove what the tool layer promises:
  - which outcomes are success replies and which are error results, and under
    which prefix;
  - what a missing argument and an unknown tool name give;
  - the purchase defaults;
  - the line structure of each reply;
  - the numbering of the stamp list;
  - when a download is echoed as text;
  - that `call_tool` never raises.
- **The gateway client** (`gateway_client.py`). `SwarmGatewayClient` is a
  class with the base URL and session headers as its fields. Each operation
  returns the request it sends: verb, URL, JSON body, timeout and headers.
  It also returns what it makes of the response: a parsed body, or a
  RequestException for a failed transport, a 4xx/5xx status or an
  unparseable body. The exchange with the network is a function parameter.
- **Provenance records** (`provenance_schemas.py`). The module covers
  - the two record builders,
  - the required-field lists of the two schemas,
  - `_basic_validate`, a method with its loop,
  - `validate_record`, which prefers the `jsonschema` package when it is
    installed.

  The proofs show that the basic check (and so `validate_record` without
  `jsonschema`) finds a record valid exactly when every required field is
  present; with `jsonschema` installed, validity is that package's verdict. They show that each missing field is reported exactly once, by
  name. They also show that both builders produce records with distinct keys
  that pass the basic check.

Python values are the `Json` datatype (`py_values.dfy`). A dict is a
sequence of key/value pairs in insertion order, as CPython keeps them. Its
`str()` rendering is what f-strings insert. The exceptions the code raises
and catches are the `Exc` datatype, and `Outcome` is "returned a value or
raised". `text_lines.dfy` holds `sep.join`, `str.split('\n')` and the lemmas
that connect them. `utf8.dfy` is Python's strict UTF-8 codec with round-trip
lemmas in both directions. `config.dfy` holds the default settings of
`config.py`.

The gateway client in the source covers only purchase, details, list and
extend. It does not cover upload, download or the health check, but
`server.py` calls all seven. So the handlers see the gateway as a record of
seven functions (`Server.Gateway`), each returning a parsed body or raising.

Two places where the model follows the code rather than its documentation:
- `raise_for_status` raises for a status from 400 to 599 only, not for every
  status outside 2xx. A 1xx or 3xx response with a JSON body is returned as
  that body.
- The upload, download and health replies separate their lines with the two
  characters backslash and `n`, because their f-strings write `\\n`. The
  other four replies use real newlines. `Server.BackslashN` is that separator, and
  `ServerProperties.UploadReplyOneLine` states that an upload reply is one
  physical line.

## Model

| member | source | states |
|---|---|---|
| Server.CallTool | swarm_provenance_mcp/server.py:153-191 | Sends each of the seven tool names to its handler method. An unknown name gives the error result "Unknown tool: name". An exception a handler lets escape becomes the error result "Error executing name: str(e)". The result is `CallToolReply`, the specification every dispatch lemma below is stated over. |
| Server.HandlePurchaseStamp | swarm_provenance_mcp/server.py:196-223 | The text built with `+=` is `PurchaseReply`: the newline-joined lines of `PurchaseLines` built from the configured defaults and the gateway's batchID and message. A RequestException is caught under "Failed to purchase stamp: ". |
| Server.HandleGetStampStatus | swarm_provenance_mcp/server.py:226-255 | The text built with `+=` is `StatusReply`: a header line and nine detail lines, each ending in a newline, with N/A for an absent key, and a label line follows when the label is truthy. A RequestException is caught under "Failed to get stamp status: ". |
| Server.HandleListStamps | swarm_provenance_mcp/server.py:258-289 | Computes `ListReply`: "No stamps found." for a zero or absent count, otherwise the count header followed by the loop's blocks. A RequestException is caught under "Failed to list stamps: ", and a non-dict answer or entry raises an AttributeError that escapes. |
| Server.AppendBlocks | swarm_provenance_mcp/server.py:269-277 | The loop, run from the header, computes `StampBlocks`: its invariant is that the text so far is the header followed by the blocks of the entries visited, numbered from 1, and the first entry that is not a dict raises the AttributeError of its `.get`. |
| Server.AppendBlock | swarm_provenance_mcp/server.py:270-277 | One iteration of the list loop appends the entry's block lines, each ending in a newline, and then one blank line. |
| Server.HandleExtendStamp | swarm_provenance_mcp/server.py:292-315 | The text built with `+=` is `ExtendReply`: the four newline-joined extension lines. A RequestException is caught under "Failed to extend stamp: ". |
| Server.HandleUploadData | swarm_provenance_mcp/server.py:318-350 | The text built with `+=` is `UploadReply`: the upload lines separated by a backslash and `n`, ending with the UTF-8 size. A ValueError is caught first, as a validation error, then a RequestException. |
| Server.HandleDownloadData | swarm_provenance_mcp/server.py:353-380 | The text built with `+=` is `DownloadReply`: the decoded text when the bytes are valid UTF-8, the binary-size lines otherwise. A RequestException is caught under "Failed to download data: ". |
| Server.HandleHealthCheck | swarm_provenance_mcp/server.py:383-410 | The text built with `+=` is `HealthReply`: status, gateway URL and response time. A number is formatted with `:.2f` and "ms". The gateway's response is appended when it is truthy. |
| ServerProperties.UnknownToolReported | swarm_provenance_mcp/server.py:171-180 | Any name outside the seven tools gives exactly `ToolResult("Unknown tool: " + name, isError)`. |
| ServerProperties.MissingArgumentReported | swarm_provenance_mcp/server.py:181-191 | The first required argument that is missing (the subscripts at lines 229, 295-296, 321-322 and 356) raises a KeyError that no handler catches. `call_tool` reports it as "Error executing name: 'key'". |
| ServerProperties.HandlerExceptionReported | swarm_provenance_mcp/server.py:181-191 | An exception a handler meets becomes an error result either way. A RequestException gets the handler's own prefix. Any other exception gets `call_tool`'s "Error executing" report. So `call_tool` never raises. |
| ServerProperties.PurchaseDefaults | swarm_provenance_mcp/server.py:199-201 | An absent amount or depth falls back to the configured default, which is 2000000000 wei and depth 17 with the default settings. A present one is used as given. |
| ServerProperties.PurchaseOutcome | swarm_provenance_mcp/server.py:203-223 | Success exactly when the gateway returns a dict holding both batchID and message. An error result only ever comes from a RequestException of the call, reported under the purchase prefix. A dict without batchID raises KeyError('batchID'), which escapes. |
| ServerProperties.PurchaseShape | swarm_provenance_mcp/server.py:205-211 | Five lines, or six exactly when the label is truthy. The success line, the batch ID line and the label line sit where the handler writes them, and the message line is last. |
| ServerProperties.PurchaseTextSplits | swarm_provenance_mcp/server.py:205-211 | Splitting the purchase reply at its newlines gives back exactly its lines, as long as no shown value holds a newline itself. |
| ServerProperties.StatusOutcome | swarm_provenance_mcp/server.py:229-255 | Success exactly when the gateway returns a dict. An error result only ever comes from a RequestException under the status prefix. A non-dict answer raises the AttributeError of its missing `get`. |
| ServerProperties.StatusShape | swarm_provenance_mcp/server.py:232-243 | Ten lines, or eleven exactly when the label is truthy. The first line names the stamp and the eleventh shows the label. |
| ServerProperties.StatusDetailLines | swarm_provenance_mcp/server.py:232-243 | Each of the nine detail lines shows its own field when present and N/A when that field alone is missing, whatever the other fields hold, with " seconds" after the TTL; the label line is there exactly when a truthy label is. |
| ServerProperties.StatusMissingDetails | swarm_provenance_mcp/server.py:233-243 | Details the gateway leaves out are all shown as N/A, with "seconds" after the TTL, and no label line appears. |
| ServerProperties.Numbered | swarm_provenance_mcp/server.py:269 | `enumerate(stamps, 1)`: one block per entry, the i-th numbered i + 1. |
| ServerProperties.StampBlocksOfDicts | swarm_provenance_mcp/server.py:269-277 | When every entry is a dict, the loop appends each entry's block in list order, numbered from 1. |
| ServerProperties.StampBlocksStopAt | swarm_provenance_mcp/server.py:269-277 | The first entry that is not a dict stops the listing with the AttributeError of its `.get`. |
| ServerProperties.StampBlocksRaiseAttributeError | swarm_provenance_mcp/server.py:269-277 | The only exception the loop raises is an AttributeError. |
| ServerProperties.ListOutcome | swarm_provenance_mcp/server.py:261-289 | Success exactly when the gateway returns a dict whose count is zero or absent, or whose stamps iterate to dicts only. An error result only ever comes from a RequestException of the call, under the list prefix. A non-dict answer raises the AttributeError of its missing `get`. |
| ServerProperties.ListNoStamps | swarm_provenance_mcp/server.py:262-266 | A count of zero, or no count at all, gives exactly "No stamps found.", whatever the stamps entry holds. |
| ServerProperties.ListText | swarm_provenance_mcp/server.py:262-277 | Otherwise the reply announces the gateway's count, not the number of entries. After that come the blocks of all the entries, in order, numbered from 1. |
| ServerProperties.ListEntryNotDict | swarm_provenance_mcp/server.py:268-277 | With a nonzero count, an entry that is not a dict makes the whole listing raise that entry's AttributeError. |
| ServerProperties.ExtendOutcome | swarm_provenance_mcp/server.py:295-315 | Success exactly when the gateway returns a dict holding batchID and message. An error result only ever comes from a RequestException, under the extension prefix. |
| ServerProperties.ExtendShape | swarm_provenance_mcp/server.py:300-303 | Four lines: the success line, the batch ID, the amount added in wei, and the message. |
| ServerProperties.UploadContentType | swarm_provenance_mcp/server.py:323 | The content type sent is the one given, or "application/json" when none is given. |
| ServerProperties.UploadOutcome | swarm_provenance_mcp/server.py:321-335 | Success exactly when the gateway returns a dict with a reference and the data is a str (one without lone surrogates; see "Left out"). Data that is not a str is still uploaded, and then raises the AttributeError of its missing `encode`. |
| ServerProperties.UploadFailureReported | swarm_provenance_mcp/server.py:337-350 | A ValueError, including a JSON decoding failure, is reported as "Upload validation error: ". Any other RequestException is reported as "Failed to upload data: ". No other exception gives an error result, for data without lone surrogates (see "Left out"). |
| ServerProperties.UploadSize | swarm_provenance_mcp/server.py:331 | The size reported is the UTF-8 byte length of the data: between one and four bytes per character, and exactly one per character for ASCII text. |
| ServerProperties.UploadReplyOneLine | swarm_provenance_mcp/server.py:327-331 | The upload reply holds no newline: its lines are separated by a backslash and `n`. |
| ServerProperties.DownloadOutcome | swarm_provenance_mcp/server.py:356-380 | Success whenever the gateway returns bytes. An error result only ever comes from a RequestException, under the download prefix. |
| ServerProperties.DownloadEchoesText | swarm_provenance_mcp/server.py:361-363 | The UTF-8 encoding of any text is echoed back as exactly that text, after the reference line and two separators. |
| ServerProperties.DownloadBinaryIffUndecodable | swarm_provenance_mcp/server.py:361-368 | The reply is the binary size report exactly when the bytes are not valid UTF-8. |
| ServerProperties.HealthOutcome | swarm_provenance_mcp/server.py:386-410 | Success exactly when the gateway returns a dict. An error result only ever comes from a RequestException, under "Health check failed: ". A non-dict answer raises the AttributeError of its missing `get`. |
| ServerProperties.HealthOfEmptyAnswer | swarm_provenance_mcp/server.py:388-395 | An empty answer gives status "unknown", gateway URL N/A and response time N/A, each followed by the backslash-n separator. |
| ServerProperties.HealthDetailLines | swarm_provenance_mcp/server.py:388-395 | The status line shows the status or "unknown", the URL line the URL or N/A, each independently of the other fields; a numeric response time is formatted to two places with "ms", any other value is shown as is, and a missing one as N/A. |
| ServerProperties.HealthGatewayResponse | swarm_provenance_mcp/server.py:397-398 | The gateway's own response line is appended exactly when that response is truthy. |
| GatewayClient.SwarmGatewayClient.constructor | swarm_provenance_mcp/gateway_client.py:14-25 | The base URL is the override when truthy, else the configured URL, with every trailing slash removed. The session keeps its default headers and sets Content-Type to JSON and User-Agent to name/version. |
| GatewayClient.SwarmGatewayClient.PurchaseStamp | swarm_provenance_mcp/gateway_client.py:27-56 | POST to base URL + /api/v1/stamps with timeout 30. The body holds exactly amount and depth, plus the label exactly when it is truthy; the label defaults to None. The result is the response's parsed body or a RequestException. |
| GatewayClient.SwarmGatewayClient.GetStampDetails | swarm_provenance_mcp/gateway_client.py:58-73 | GET base URL + /api/v1/stamps/{id} with no body and timeout 30. The result is the parsed body or a RequestException. |
| GatewayClient.SwarmGatewayClient.ListStamps | swarm_provenance_mcp/gateway_client.py:75-87 | GET base URL + /api/v1/stamps with no body and timeout 30. The result is the parsed body or a RequestException. |
| GatewayClient.SwarmGatewayClient.ExtendStamp | swarm_provenance_mcp/gateway_client.py:89-107 | PATCH base URL + /api/v1/stamps/{id}/extend with a body holding exactly the amount, and timeout 30. The result is the parsed body or a RequestException. |
| GatewayClient.Finish | swarm_provenance_mcp/gateway_client.py:55-56 | `raise_for_status()` then `.json()`. A body comes back, unchanged, exactly when a response arrived with a status outside 400..599 and a JSON body. Everything raised is a RequestException, and an error status raises the HTTPError message. |
| GatewayClient.HttpErrorMessage | swarm_provenance_mcp/gateway_client.py:55 | `raise_for_status` raises exactly for statuses 400..599, with the "Client Error" or "Server Error" message. |
| GatewayClient.RStripTrailing | swarm_provenance_mcp/gateway_client.py:20 | `rstrip('/')` removes any run of trailing slashes and nothing else. |
| ProvenanceSchemas.CreateDataRecord | swarm_provenance_mcp/provenance_schemas.py:100-146 | The keys are the five DaTA fields in order, plus metadata exactly when a purpose or tags are given. The hash is "sha256:" over the UTF-8 bytes of the str data, or over its sorted JSON dump otherwise. The creator dict has the given type and name. No key occurs twice, and the record passes the basic "data" check. |
| ProvenanceSchemas.CreateSimpleRecord | swarm_provenance_mcp/provenance_schemas.py:149-190 | The keys are title, creator, created_at and data, then each truthy optional field in argument order, with the values given. No key occurs twice, and the record passes the basic "simple" check. |
| ProvenanceSchemas.MetadataShape | swarm_provenance_mcp/provenance_schemas.py:139-144 | The metadata dict holds purpose exactly when one is given, then tags exactly when they are given, and nothing else. |
| ProvenanceSchemas.SimpleOptionalKeys | swarm_provenance_mcp/provenance_schemas.py:180-188 | The optional part of a simple record holds exactly the truthy optional fields' keys, in argument order. |
| ProvenanceSchemas.SimpleRecordFacts | swarm_provenance_mcp/provenance_schemas.py:173-188 | The fixed part followed by the optional part has every key and value `create_simple_record` promises, and it passes the basic check. |
| ProvenanceSchemas.DataRecordFacts | swarm_provenance_mcp/provenance_schemas.py:126-144 | The fixed part followed by the optional metadata entry has every key and value `create_data_record` promises, and it passes the basic check. |
| ProvenanceSchemas.RequiredPresent | swarm_provenance_mcp/provenance_schemas.py:228-239 | A record holding every required field of a known schema type passes the basic check with no errors. |
| ProvenanceSchemas.BasicValidate | swarm_provenance_mcp/provenance_schemas.py:224-239 | The loop over the required list computes `BasicVerdict`: an unknown schema type gives (False, ["Unknown schema type"]), and otherwise there is one "Missing required field" message per absent field, in list order, and the record is valid iff there are none. |
| ProvenanceSchemas.ValidIffAllPresent | swarm_provenance_mcp/provenance_schemas.py:224-239 | A record is valid iff its error list is empty, and iff the schema type is known and every required field is present. Both directions are proved. |
| ProvenanceSchemas.MissingErrorsCount | swarm_provenance_mcp/provenance_schemas.py:235-237 | The message for field f appears exactly once when f is required and absent, and not at all otherwise. |
| ProvenanceSchemas.BasicVerdictReportsEachAbsentField | swarm_provenance_mcp/provenance_schemas.py:228-239 | For a known schema type, each absent required field is reported exactly once. Every message reported names an absent required field. |
| ProvenanceSchemas.ValidateRecordVerdict | swarm_provenance_mcp/provenance_schemas.py:193-221 | A record is reported valid exactly when no error is reported, and only for a known schema type. Without jsonschema the verdict is the basic check's, so valid means every required field is present. With it, an unknown type is refused before jsonschema is asked, and otherwise the record is valid exactly when jsonschema accepts it against its type's schema, with the rejection message as the one error. |
| ProvenanceSchemas.UnknownSchemaTypeRefused | swarm_provenance_mcp/provenance_schemas.py:193-221 | A schema type other than "simple" and "data" is refused with the single message "Unknown schema type", whether or not jsonschema is installed. |
| Utf8.DecodeEncode | swarm_provenance_mcp/server.py:361-363 | Decoding the UTF-8 encoding of any text gives that text back. |
| Utf8.EncodeDecode | swarm_provenance_mcp/server.py:361-368 | Bytes that decode are exactly the encoding of what they decode to. So the text branch of a download is taken exactly for well-formed UTF-8. |
| Utf8.EncodeAscii | swarm_provenance_mcp/server.py:331 | ASCII text encodes to one byte per character, each byte its code point. |
| TextLines.SplitJoin | swarm_provenance_mcp/server.py:205-211 | Splitting newline-joined lines that hold no newline of their own gives back exactly those lines. |

## Left out

- The MCP transport and lifecycle (`create_server`, `main`, the stdio server, initialization options) and the static tool descriptions of `list_tools`. They are protocol plumbing and literal data, with no logic to prove.
- Logging in every handler and in `call_tool`. It has no effect on results.
- HTTP itself: sessions, sockets, retries, and `close()` (gateway_client.py:110-112). The exchange is a function parameter from request to transport result.
- The upload, download and health methods of the gateway client are not part of this model because they are not in the client source the server imports. The handlers see them as abstract functions of `Server.Gateway`.
- The `jsonschema` package. `validate_record` is modelled with the package as a parameter (`JsonSchemaLib`): not installed, or a function giving an error message or acceptance. The JSON Schema dictionaries themselves are not modelled.
- SHA-256, `json.dumps(..., sort_keys=True)`, `datetime.utcnow().isoformat()` and `format(x, ".2f")` are parameters (`ProvenanceSchemas.Runtime`, `Server.Env.fixed2`). Their values are not computed.
- Floating point: a float is carried as its `str()` text (`Json.JFloat`).
- Quote: `repr` of a str is modelled as the text in single quotes. Python's escaping of quotes, backslashes and control characters, and its switch to double quotes, are not modelled.
- Loading settings from the environment and `.env` (config.py). Only the settings' values are used, and `Config.Defaults` holds the defaults.
- Header names are compared exactly. The case-insensitive header dictionary of requests is not modelled.
- HandleUploadData: a str is a sequence of Unicode scalar values, so a str holding a lone surrogate (such as "\ud800") is not modelled. In Python its `encode('utf-8')` at server.py:331 raises UnicodeEncodeError after the upload, and the handler reports it as "Upload validation error: ...".
- UploadOutcome: success is stated for str data, which in this model never holds a lone surrogate; the validation-error result that such a str gets after a successful upload is not stated.
- UploadFailureReported: the UnicodeEncodeError of a lone-surrogate str, which the handler reports as a validation error although the gateway call succeeded, is not stated.
- CreateDataRecord: the UnicodeEncodeError that `data_str.encode()` at provenance_schemas.py:124 raises for a str with a lone surrogate is not modelled; the builder always returns a record.
- Python exceptions other than those in `PyValues.Exc`: for example MemoryError, or an error raised inside `str()` of a value. The asyncio scheduling of the handlers is not modelled either.
- The 4096-byte upload ceiling, stamp-identifier normalisation and range checks on amount and depth are not in the handler or client code modelled here. They would belong to the gateway client's missing upload method or to the gateway, so they are not part of this model.
- The `ProvenanceGuidance` text and examples (provenance_schemas.py:242-330) and the JSON Schema dictionaries are constant data.

/** The MCP tool layer: `call_tool` dispatches a tool name to one of seven
    handlers; each handler asks the gateway for something and turns the
    outcome into the text of a tool result, or into an error result under
    its own prefix. Exceptions a handler does not catch become an
    "Error executing" result in `call_tool`, which itself never raises.

    Each handler is a method that grows its reply with `+=`, as the source
    does, and is proved equal to a reply function stated line by line; the
    dispatcher and the lemmas are stated over the reply functions. */
module Server {
  import opened Wrappers
  import opened PyValues
  import opened TextLines
  import Utf8
  import Config

  /** A CallToolResult holding one text content. */
  datatype ToolResult = ToolResult(text: string, isError: bool)

  /** The gateway calls the handlers make, each returning the parsed body
      (or the raw bytes, for a download) or raising. */
  datatype Gateway = Gateway(
    purchaseStamp: (Json, Json, Json) -> Outcome<Json>,
    getStampDetails: Json -> Outcome<Json>,
    listStamps: () -> Outcome<Json>,
    extendStamp: (Json, Json) -> Outcome<Json>,
    uploadData: (Json, Json, Json) -> Outcome<Json>,
    downloadData: Json -> Outcome<seq<Utf8.Byte>>,
    healthCheck: () -> Outcome<Json>)

  /** What the handlers read besides their arguments: the settings, the
      gateway, and Python's `format(x, ".2f")` of a number. */
  datatype Env = Env(settings: Config.Settings, gateway: Gateway, fixed2: Json -> string)

  const NA := JStr("N/A")

  /** The two characters backslash and `n`, which is what the upload,
      download and health replies put between their lines. */
  const BackslashN := "\\n"

  const PurchaseFailed := "Failed to purchase stamp: "
  const StatusFailed := "Failed to get stamp status: "
  const ListFailed := "Failed to list stamps: "
  const ExtendFailed := "Failed to extend stamp: "
  const UploadInvalid := "Upload validation error: "
  const UploadFailed := "Failed to upload data: "
  const DownloadFailed := "Failed to download data: "
  const HealthFailed := "Health check failed: "

  /** A handler's `except RequestException as e:` clause: such an exception
      becomes an error result under the handler's prefix; any other one
      propagates. */
  function Caught(prefix: string, e: Exc): Outcome<ToolResult>
  {
    if IsRequestException(e) then Ok(ToolResult(prefix + ExcStr(e), true)) else Raised(e)
  }

  /** The upload handler's two clauses: ValueError first, then
      RequestException. */
  function UploadCaught(e: Exc): Outcome<ToolResult>
  {
    if IsValueError(e) then Ok(ToolResult(UploadInvalid + ExcStr(e), true))
    else Caught(UploadFailed, e)
  }

  // ---------------------------------------------------------------- purchase

  function PurchaseAmount(args: Dict, settings: Config.Settings): Json
  {
    GetOr(args, "amount", JInt(settings.defaultStampAmount))
  }

  function PurchaseDepth(args: Dict, settings: Config.Settings): Json
  {
    GetOr(args, "depth", JInt(settings.defaultStampDepth))
  }

  /** The purchase reply's lines before the message line, one line per
      `+=` of the handler. */
  function PurchaseHead(batchId: Json, amount: Json, depth: Json, stampLabel: Json): seq<string>
  {
    var lines :=
      ["Successfully purchased stamp!"]
      + ["Batch ID: " + Show(batchId)]
      + ["Amount: " + Show(amount) + " wei"]
      + ["Depth: " + Show(depth)];
    if Truthy(stampLabel) then lines + ["Label: " + Show(stampLabel)] else lines
  }

  function PurchaseLines(batchId: Json, amount: Json, depth: Json, stampLabel: Json, message: Json): seq<string>
  {
    PurchaseHead(batchId, amount, depth, stampLabel) + ["Message: " + Show(message)]
  }

  function PurchaseReply(args: Dict, env: Env): Outcome<ToolResult>
  {
    var amount := PurchaseAmount(args, env.settings);
    var depth := PurchaseDepth(args, env.settings);
    var stampLabel := GetOr(args, "label", JNull);
    match env.gateway.purchaseStamp(amount, depth, stampLabel)
    case Raised(e) => Caught(PurchaseFailed, e)
    case Ok(result) =>
      match Subscript(result, "batchID")
      case Raised(e) => Caught(PurchaseFailed, e)
      case Ok(batchId) =>
        match Subscript(result, "message")
        case Raised(e) => Caught(PurchaseFailed, e)
        case Ok(message) =>
          Ok(ToolResult(Join(PurchaseLines(batchId, amount, depth, stampLabel, message), "\n"), false))
  }

  /** handle_purchase_stamp. */
  method HandlePurchaseStamp(args: Dict, env: Env) returns (o: Outcome<ToolResult>)
    ensures o == PurchaseReply(args, env)
  {
    var amount := GetOr(args, "amount", JInt(env.settings.defaultStampAmount));
    var depth := GetOr(args, "depth", JInt(env.settings.defaultStampDepth));
    var stampLabel := GetOr(args, "label", JNull);
    var call := env.gateway.purchaseStamp(amount, depth, stampLabel);
    if call.Raised? {
      return Caught(PurchaseFailed, call.exc);
    }
    var result := call.value;
    var line := "Successfully purchased stamp!";
    var text := line + "\n";
    ghost var lines := [line];
    assert text == Terminated(lines, "\n");
    var batchId := Subscript(result, "batchID");
    if batchId.Raised? {
      return Caught(PurchaseFailed, batchId.exc);
    }
    line := "Batch ID: " + Show(batchId.value);
    text := text + (line + "\n");
    TerminatedAppend(lines, line, "\n");
    lines := lines + [line];
    line := "Amount: " + Show(amount) + " wei";
    text := text + (line + "\n");
    TerminatedAppend(lines, line, "\n");
    lines := lines + [line];
    line := "Depth: " + Show(depth);
    text := text + (line + "\n");
    TerminatedAppend(lines, line, "\n");
    lines := lines + [line];
    if Truthy(stampLabel) {
      line := "Label: " + Show(stampLabel);
      text := text + (line + "\n");
      TerminatedAppend(lines, line, "\n");
      lines := lines + [line];
    }
    var message := Subscript(result, "message");
    if message.Raised? {
      return Caught(PurchaseFailed, message.exc);
    }
    line := "Message: " + Show(message.value);
    TerminatedThenLast(lines, line, "\n");
    text := text + line;
    o := Ok(ToolResult(text, false));
  }

  // ------------------------------------------------------------ stamp status

  function StatusLines(stampId: Json, r: Dict): seq<string>
  {
    var lines :=
      ["Stamp Details for " + Show(stampId) + ":"]
      + ["Amount: " + Show(GetOr(r, "amount", NA))]
      + ["Depth: " + Show(GetOr(r, "depth", NA))]
      + ["Bucket Depth: " + Show(GetOr(r, "bucketDepth", NA))]
      + ["Block Number: " + Show(GetOr(r, "blockNumber", NA))]
      + ["Batch TTL: " + Show(GetOr(r, "batchTTL", NA)) + " seconds"]
      + ["Expected Expiration: " + Show(GetOr(r, "expectedExpiration", NA))]
      + ["Usable: " + Show(GetOr(r, "usable", NA))]
      + ["Utilization: " + Show(GetOr(r, "utilization", NA))]
      + ["Immutable: " + Show(GetOr(r, "immutableFlag", NA))];
    if Truthy(GetOr(r, "label", JNull)) then lines + ["Label: " + Show(GetOr(r, "label", JNull))] else lines
  }

  function StatusReply(args: Dict, env: Env): Outcome<ToolResult>
  {
    match Subscript(JObj(args), "stamp_id")
    case Raised(e) => Caught(StatusFailed, e)
    case Ok(stampId) =>
      match env.gateway.getStampDetails(stampId)
      case Raised(e) => Caught(StatusFailed, e)
      case Ok(result) =>
        if !result.JObj? then Caught(StatusFailed, NoAttribute(result, "get"))
        else Ok(ToolResult(Terminated(StatusLines(stampId, result.fields), "\n"), false))
  }

  /** handle_get_stamp_status. */
  method HandleGetStampStatus(args: Dict, env: Env) returns (o: Outcome<ToolResult>)
    ensures o == StatusReply(args, env)
  {
    var stampId := Subscript(JObj(args), "stamp_id");
    if stampId.Raised? {
      return Caught(StatusFailed, stampId.exc);
    }
    var call := env.gateway.getStampDetails(stampId.value);
    if call.Raised? {
      return Caught(StatusFailed, call.exc);
    }
    if !call.value.JObj? {
      return Caught(StatusFailed, NoAttribute(call.value, "get"));
    }
    var result := call.value.fields;
    var line := "Stamp Details for " + Show(stampId.value) + ":";
    var text := line + "\n";
    ghost var lines := [line];
    assert text == Terminated(lines, "\n");
    line := "Amount: " + Show(GetOr(result, "amount", NA));
    text := text + (line + "\n");
    TerminatedAppend(lines, line, "\n");
    lines := lines + [line];
    line := "Depth: " + Show(GetOr(result, "depth", NA));
    text := text + (line + "\n");
    TerminatedAppend(lines, line, "\n");
    lines := lines + [line];
    line := "Bucket Depth: " + Show(GetOr(result, "bucketDepth", NA));
    text := text + (line + "\n");
    TerminatedAppend(lines, line, "\n");
    lines := lines + [line];
    line := "Block Number: " + Show(GetOr(result, "blockNumber", NA));
    text := text + (line + "\n");
    TerminatedAppend(lines, line, "\n");
    lines := lines + [line];
    line := "Batch TTL: " + Show(GetOr(result, "batchTTL", NA)) + " seconds";
    text := text + (line + "\n");
    TerminatedAppend(lines, line, "\n");
    lines := lines + [line];
    line := "Expected Expiration: " + Show(GetOr(result, "expectedExpiration", NA));
    text := text + (line + "\n");
    TerminatedAppend(lines, line, "\n");
    lines := lines + [line];
    line := "Usable: " + Show(GetOr(result, "usable", NA));
    text := text + (line + "\n");
    TerminatedAppend(lines, line, "\n");
    lines := lines + [line];
    line := "Utilization: " + Show(GetOr(result, "utilization", NA));
    text := text + (line + "\n");
    TerminatedAppend(lines, line, "\n");
    lines := lines + [line];
    line := "Immutable: " + Show(GetOr(result, "immutableFlag", NA));
    text := text + (line + "\n");
    TerminatedAppend(lines, line, "\n");
    lines := lines + [line];
    if Truthy(GetOr(result, "label", JNull)) {
      line := "Label: " + Show(GetOr(result, "label", JNull));
      text := text + (line + "\n");
      TerminatedAppend(lines, line, "\n");
      lines := lines + [line];
    }
    o := Ok(ToolResult(text, false));
  }

  // ------------------------------------------------------------- list stamps

  function BlockLines(n: nat, stamp: Dict): seq<string>
  {
    var lines :=
      [NatToString(n) + ". Batch ID: " + Show(GetOr(stamp, "batchID", NA))]
      + ["   Amount: " + Show(GetOr(stamp, "amount", NA))]
      + ["   Depth: " + Show(GetOr(stamp, "depth", NA))]
      + ["   Expiration: " + Show(GetOr(stamp, "expectedExpiration", NA))]
      + ["   Usable: " + Show(GetOr(stamp, "usable", NA))];
    if Truthy(GetOr(stamp, "label", JNull)) then lines + ["   Label: " + Show(GetOr(stamp, "label", JNull))] else lines
  }

  /** The block of the n-th stamp: its lines, then an empty line. */
  function StampBlock(n: nat, stamp: Dict): string
  {
    Terminated(BlockLines(n, stamp), "\n") + "\n"
  }

  /** acc followed by the blocks of the listed stamps, numbered from 1 in
      list order and added as the loop adds them; the first entry that is
      not a dict raises at its `.get`. */
  function StampBlocks(acc: string, items: seq<Json>): Outcome<string>
    decreases |items|
  {
    if |items| == 0 then Ok(acc)
    else
      match StampBlocks(acc, items[..|items| - 1])
      case Raised(e) => Raised(e)
      case Ok(t) =>
        var last := items[|items| - 1];
        if last.JObj? then Ok(AppendLines(t, BlockLines(|items|, last.fields), "\n") + "\n")
        else Raised(NoAttribute(last, "get"))
  }

  function ListHeader(total: Json): string
  {
    "Found " + Show(total) + " stamp(s):\n\n"
  }

  function ListReply(env: Env): Outcome<ToolResult>
  {
    match env.gateway.listStamps()
    case Raised(e) => Caught(ListFailed, e)
    case Ok(result) =>
      if !result.JObj? then Caught(ListFailed, NoAttribute(result, "get"))
      else
        var stamps := GetOr(result.fields, "stamps", JList([]));
        var total := GetOr(result.fields, "total_count", JInt(0));
        if EqualsZero(total) then Ok(ToolResult("No stamps found.", false))
        else
          match Iterate(stamps)
          case Raised(e) => Caught(ListFailed, e)
          case Ok(items) =>
            match StampBlocks(ListHeader(total), items)
            case Raised(e) => Caught(ListFailed, e)
            case Ok(text) => Ok(ToolResult(text, false))
  }

  /** Once some prefix of the entries raises, the whole list raises the
      same exception. */
  lemma {:induction false} RaisedPrefixPersists(acc: string, items: seq<Json>, n: nat)
    requires n <= |items|
    requires StampBlocks(acc, items[..n]).Raised?
    ensures StampBlocks(acc, items) == StampBlocks(acc, items[..n])
    decreases |items|
  {
    if n < |items| {
      var init := items[..|items| - 1];
      assert init[..n] == items[..n];
      RaisedPrefixPersists(acc, init, n);
    } else {
      assert items[..n] == items;
    }
  }

  lemma PrefixStep(items: seq<Json>, i: nat)
    requires i < |items|
    ensures items[..i + 1][..i] == items[..i]
    ensures items[..i + 1][i] == items[i]
  {
  }

  lemma WholePrefix(items: seq<Json>)
    ensures items[..|items|] == items
  {
  }

  /** handle_list_stamps; its arguments are not read. */
  method HandleListStamps(args: Dict, env: Env) returns (o: Outcome<ToolResult>)
    ensures o == ListReply(env)
  {
    var call := env.gateway.listStamps();
    if call.Raised? {
      return Caught(ListFailed, call.exc);
    }
    if !call.value.JObj? {
      return Caught(ListFailed, NoAttribute(call.value, "get"));
    }
    var result := call.value.fields;
    var stamps := GetOr(result, "stamps", JList([]));
    var total := GetOr(result, "total_count", JInt(0));
    if EqualsZero(total) {
      return Ok(ToolResult("No stamps found.", false));
    }
    var iteration := Iterate(stamps);
    if iteration.Raised? {
      return Caught(ListFailed, iteration.exc);
    }
    var blocks := AppendBlocks("Found " + Show(total) + " stamp(s):\n\n", iteration.value);
    if blocks.Raised? {
      return Caught(ListFailed, blocks.exc);
    }
    o := Ok(ToolResult(blocks.value, false));
  }

  /** The `for i, stamp in enumerate(stamps, 1)` loop of handle_list_stamps,
      run on a text that already holds the header. */
  method AppendBlocks(header: string, items: seq<Json>) returns (r: Outcome<string>)
    ensures r == StampBlocks(header, items)
  {
    var text := header;
    var i := 0;
    while i < |items|
      invariant 0 <= i <= |items|
      invariant StampBlocks(header, items[..i]) == Ok(text)
    {
      var stamp := items[i];
      PrefixStep(items, i);
      if !stamp.JObj? {
        RaisedPrefixPersists(header, items, i + 1);
        return Raised(NoAttribute(stamp, "get"));
      }
      text := AppendBlock(text, i + 1, stamp.fields);
      i := i + 1;
    }
    WholePrefix(items);
    r := Ok(text);
  }

  /** One pass of handle_list_stamps' loop over a dict entry: the entry's
      lines, numbered n, then an empty line. */
  method AppendBlock(text: string, n: nat, stamp: Dict) returns (text': string)
    ensures text' == AppendLines(text, BlockLines(n, stamp), "\n") + "\n"
  {
    text' := text;
    ghost var lines: seq<string> := [];
    var line := NatToString(n) + ". Batch ID: " + Show(GetOr(stamp, "batchID", NA));
    text' := text' + (line + "\n");
    AppendLinesPush(text, lines, line, "\n");
    lines := lines + [line];
    line := "   Amount: " + Show(GetOr(stamp, "amount", NA));
    text' := text' + (line + "\n");
    AppendLinesPush(text, lines, line, "\n");
    lines := lines + [line];
    line := "   Depth: " + Show(GetOr(stamp, "depth", NA));
    text' := text' + (line + "\n");
    AppendLinesPush(text, lines, line, "\n");
    lines := lines + [line];
    line := "   Expiration: " + Show(GetOr(stamp, "expectedExpiration", NA));
    text' := text' + (line + "\n");
    AppendLinesPush(text, lines, line, "\n");
    lines := lines + [line];
    line := "   Usable: " + Show(GetOr(stamp, "usable", NA));
    text' := text' + (line + "\n");
    AppendLinesPush(text, lines, line, "\n");
    lines := lines + [line];
    if Truthy(GetOr(stamp, "label", JNull)) {
      line := "   Label: " + Show(GetOr(stamp, "label", JNull));
      text' := text' + (line + "\n");
      AppendLinesPush(text, lines, line, "\n");
      lines := lines + [line];
    }
    text' := text' + "\n";
  }

  // ------------------------------------------------------------ extend stamp

  /** The extension reply's lines before the message line. */
  function ExtendHead(batchId: Json, amount: Json): seq<string>
  {
    ["Successfully extended stamp!"]
    + ["Batch ID: " + Show(batchId)]
    + ["Additional Amount: " + Show(amount) + " wei"]
  }

  function ExtendLines(batchId: Json, amount: Json, message: Json): seq<string>
  {
    ExtendHead(batchId, amount) + ["Message: " + Show(message)]
  }

  function ExtendReply(args: Dict, env: Env): Outcome<ToolResult>
  {
    match Subscript(JObj(args), "stamp_id")
    case Raised(e) => Caught(ExtendFailed, e)
    case Ok(stampId) =>
      match Subscript(JObj(args), "amount")
      case Raised(e) => Caught(ExtendFailed, e)
      case Ok(amount) =>
        match env.gateway.extendStamp(stampId, amount)
        case Raised(e) => Caught(ExtendFailed, e)
        case Ok(result) =>
          match Subscript(result, "batchID")
          case Raised(e) => Caught(ExtendFailed, e)
          case Ok(batchId) =>
            match Subscript(result, "message")
            case Raised(e) => Caught(ExtendFailed, e)
            case Ok(message) => Ok(ToolResult(Join(ExtendLines(batchId, amount, message), "\n"), false))
  }

  /** handle_extend_stamp. */
  method HandleExtendStamp(args: Dict, env: Env) returns (o: Outcome<ToolResult>)
    ensures o == ExtendReply(args, env)
  {
    var stampId := Subscript(JObj(args), "stamp_id");
    if stampId.Raised? {
      return Caught(ExtendFailed, stampId.exc);
    }
    var amount := Subscript(JObj(args), "amount");
    if amount.Raised? {
      return Caught(ExtendFailed, amount.exc);
    }
    var call := env.gateway.extendStamp(stampId.value, amount.value);
    if call.Raised? {
      return Caught(ExtendFailed, call.exc);
    }
    var result := call.value;
    var line := "Successfully extended stamp!";
    var text := line + "\n";
    ghost var lines := [line];
    assert text == Terminated(lines, "\n");
    var batchId := Subscript(result, "batchID");
    if batchId.Raised? {
      return Caught(ExtendFailed, batchId.exc);
    }
    line := "Batch ID: " + Show(batchId.value);
    text := text + (line + "\n");
    TerminatedAppend(lines, line, "\n");
    lines := lines + [line];
    line := "Additional Amount: " + Show(amount.value) + " wei";
    text := text + (line + "\n");
    TerminatedAppend(lines, line, "\n");
    lines := lines + [line];
    var message := Subscript(result, "message");
    if message.Raised? {
      return Caught(ExtendFailed, message.exc);
    }
    line := "Message: " + Show(message.value);
    TerminatedThenLast(lines, line, "\n");
    text := text + line;
    o := Ok(ToolResult(text, false));
  }

  // ------------------------------------------------------------- upload data

  const DefaultContentType := "application/json"

  /** `data.encode('utf-8')`: only a str has an encode method. A str here
      holds no lone surrogate, so its encoding never fails. */
  function Encoded(data: Json): Outcome<seq<Utf8.Byte>>
  {
    if data.JStr? then Ok(Utf8.Encode(data.s)) else Raised(NoAttribute(data, "encode"))
  }

  /** The upload reply's lines before the size line. */
  function UploadHead(reference: Json, stampId: Json, contentType: Json): seq<string>
  {
    ["Successfully uploaded data!"]
    + ["Reference: " + Show(reference)]
    + ["Stamp ID: " + Show(stampId)]
    + ["Content Type: " + Show(contentType)]
  }

  function UploadLines(reference: Json, stampId: Json, contentType: Json, size: nat): seq<string>
  {
    UploadHead(reference, stampId, contentType) + ["Size: " + NatToString(size) + " bytes"]
  }

  function UploadReply(args: Dict, env: Env): Outcome<ToolResult>
  {
    match Subscript(JObj(args), "data")
    case Raised(e) => UploadCaught(e)
    case Ok(data) =>
      match Subscript(JObj(args), "stamp_id")
      case Raised(e) => UploadCaught(e)
      case Ok(stampId) =>
        var contentType := GetOr(args, "content_type", JStr(DefaultContentType));
        match env.gateway.uploadData(data, stampId, contentType)
        case Raised(e) => UploadCaught(e)
        case Ok(result) =>
          match Subscript(result, "reference")
          case Raised(e) => UploadCaught(e)
          case Ok(reference) =>
            match Encoded(data)
            case Raised(e) => UploadCaught(e)
            case Ok(bytes) => Ok(ToolResult(Join(UploadLines(reference, stampId, contentType, |bytes|), BackslashN), false))
  }

  /** handle_upload_data. */
  method HandleUploadData(args: Dict, env: Env) returns (o: Outcome<ToolResult>)
    ensures o == UploadReply(args, env)
  {
    var data := Subscript(JObj(args), "data");
    if data.Raised? {
      return UploadCaught(data.exc);
    }
    var stampId := Subscript(JObj(args), "stamp_id");
    if stampId.Raised? {
      return UploadCaught(stampId.exc);
    }
    var contentType := GetOr(args, "content_type", JStr(DefaultContentType));
    var call := env.gateway.uploadData(data.value, stampId.value, contentType);
    if call.Raised? {
      return UploadCaught(call.exc);
    }
    var result := call.value;
    var line := "Successfully uploaded data!";
    var text := line + BackslashN;
    ghost var lines := [line];
    assert text == Terminated(lines, BackslashN);
    var reference := Subscript(result, "reference");
    if reference.Raised? {
      return UploadCaught(reference.exc);
    }
    line := "Reference: " + Show(reference.value);
    text := text + (line + BackslashN);
    TerminatedAppend(lines, line, BackslashN);
    lines := lines + [line];
    line := "Stamp ID: " + Show(stampId.value);
    text := text + (line + BackslashN);
    TerminatedAppend(lines, line, BackslashN);
    lines := lines + [line];
    line := "Content Type: " + Show(contentType);
    text := text + (line + BackslashN);
    TerminatedAppend(lines, line, BackslashN);
    lines := lines + [line];
    var bytes := Encoded(data.value);
    if bytes.Raised? {
      return UploadCaught(bytes.exc);
    }
    line := "Size: " + NatToString(|bytes.value|) + " bytes";
    TerminatedThenLast(lines, line, BackslashN);
    text := text + line;
    o := Ok(ToolResult(text, false));
  }

  // ----------------------------------------------------------- download data

  function BinaryLines(reference: Json, size: nat): seq<string>
  {
    ["Successfully downloaded binary data from " + Show(reference)]
    + ["Size: " + NatToString(size) + " bytes"]
    + ["Note: Binary data cannot be displayed as text"]
  }

  /** The reply to downloaded bytes: the text itself when they are valid
      UTF-8, otherwise only their size. */
  function DownloadText(reference: Json, bytes: seq<Utf8.Byte>): string
  {
    match Utf8.Decode(bytes)
    case Some(s) => "Successfully downloaded data from " + Show(reference) + ":" + BackslashN + BackslashN + s
    case None => Join(BinaryLines(reference, |bytes|), BackslashN)
  }

  function DownloadReply(args: Dict, env: Env): Outcome<ToolResult>
  {
    match Subscript(JObj(args), "reference")
    case Raised(e) => Caught(DownloadFailed, e)
    case Ok(reference) =>
      match env.gateway.downloadData(reference)
      case Raised(e) => Caught(DownloadFailed, e)
      case Ok(bytes) => Ok(ToolResult(DownloadText(reference, bytes), false))
  }

  /** handle_download_data. */
  method HandleDownloadData(args: Dict, env: Env) returns (o: Outcome<ToolResult>)
    ensures o == DownloadReply(args, env)
  {
    var reference := Subscript(JObj(args), "reference");
    if reference.Raised? {
      return Caught(DownloadFailed, reference.exc);
    }
    var call := env.gateway.downloadData(reference.value);
    if call.Raised? {
      return Caught(DownloadFailed, call.exc);
    }
    var bytes := call.value;
    var text: string;
    var decoded := Utf8.Decode(bytes);
    if decoded.Some? {
      text := "Successfully downloaded data from " + Show(reference.value) + ":" + BackslashN + BackslashN + decoded.value;
    } else {
      var line := "Successfully downloaded binary data from " + Show(reference.value);
      text := line + BackslashN;
      ghost var lines := [line];
      assert text == Terminated(lines, BackslashN);
      line := "Size: " + NatToString(|bytes|) + " bytes";
      text := text + (line + BackslashN);
      TerminatedAppend(lines, line, BackslashN);
      lines := lines + [line];
      line := "Note: Binary data cannot be displayed as text";
      TerminatedThenLast(lines, line, BackslashN);
      text := text + line;
    }
    o := Ok(ToolResult(text, false));
  }

  // ------------------------------------------------------------ health check

  /** `isinstance(x, (int, float))`; a bool is an int in Python. */
  predicate IsNumber(j: Json) { j.JInt? || j.JFloat? || j.JBool? }

  function ResponseTimeLine(rt: Json, fixed2: Json -> string): string
  {
    if IsNumber(rt) then "Response Time: " + fixed2(rt) + "ms" else "Response Time: " + Show(rt)
  }

  function HealthLines(r: Dict, fixed2: Json -> string): seq<string>
  {
    ["Health Check Results:"]
    + ["Status: " + Show(GetOr(r, "status", JStr("unknown")))]
    + ["Gateway URL: " + Show(GetOr(r, "gateway_url", NA))]
    + [ResponseTimeLine(GetOr(r, "response_time_ms", NA), fixed2)]
  }

  /** The health reply: four terminated lines, then the gateway's own
      response when it is truthy. */
  function HealthText(r: Dict, fixed2: Json -> string): string
  {
    var text := Terminated(HealthLines(r, fixed2), BackslashN);
    if Truthy(GetOr(r, "gateway_response", JNull)) then text + ("Gateway Response: " + Show(GetOr(r, "gateway_response", JNull)))
    else text
  }

  function HealthReply(env: Env): Outcome<ToolResult>
  {
    match env.gateway.healthCheck()
    case Raised(e) => Caught(HealthFailed, e)
    case Ok(result) =>
      if !result.JObj? then Caught(HealthFailed, NoAttribute(result, "get"))
      else Ok(ToolResult(HealthText(result.fields, env.fixed2), false))
  }

  /** handle_health_check; its arguments are not read. */
  method HandleHealthCheck(args: Dict, env: Env) returns (o: Outcome<ToolResult>)
    ensures o == HealthReply(env)
  {
    var call := env.gateway.healthCheck();
    if call.Raised? {
      return Caught(HealthFailed, call.exc);
    }
    if !call.value.JObj? {
      return Caught(HealthFailed, NoAttribute(call.value, "get"));
    }
    var result := call.value.fields;
    var line := "Health Check Results:";
    var text := line + BackslashN;
    ghost var lines := [line];
    assert text == Terminated(lines, BackslashN);
    line := "Status: " + Show(GetOr(result, "status", JStr("unknown")));
    text := text + (line + BackslashN);
    TerminatedAppend(lines, line, BackslashN);
    lines := lines + [line];
    line := "Gateway URL: " + Show(GetOr(result, "gateway_url", NA));
    text := text + (line + BackslashN);
    TerminatedAppend(lines, line, BackslashN);
    lines := lines + [line];
    var responseTime := GetOr(result, "response_time_ms", NA);
    if IsNumber(responseTime) {
      line := "Response Time: " + env.fixed2(responseTime) + "ms";
    } else {
      line := "Response Time: " + Show(responseTime);
    }
    text := text + (line + BackslashN);
    TerminatedAppend(lines, line, BackslashN);
    lines := lines + [line];
    if Truthy(GetOr(result, "gateway_response", JNull)) {
      text := text + ("Gateway Response: " + Show(GetOr(result, "gateway_response", JNull)));
    }
    o := Ok(ToolResult(text, false));
  }

  // ------------------------------------------------------------- dispatch

  const ToolNames: seq<string> :=
    ["purchase_stamp", "get_stamp_status", "list_stamps", "extend_stamp",
     "upload_data", "download_data", "health_check"]

  /** The handler a tool name selects, or the unknown-tool result. */
  function Dispatch(name: string, args: Dict, env: Env): Outcome<ToolResult>
  {
    if name == "purchase_stamp" then PurchaseReply(args, env)
    else if name == "get_stamp_status" then StatusReply(args, env)
    else if name == "list_stamps" then ListReply(env)
    else if name == "extend_stamp" then ExtendReply(args, env)
    else if name == "upload_data" then UploadReply(args, env)
    else if name == "download_data" then DownloadReply(args, env)
    else if name == "health_check" then HealthReply(env)
    else Ok(ToolResult("Unknown tool: " + name, true))
  }

  /** call_tool: the selected handler's result, with any exception it lets
      escape turned into an error result; it never raises. */
  function CallToolReply(name: string, args: Dict, env: Env): ToolResult
  {
    match Dispatch(name, args, env)
    case Ok(result) => result
    case Raised(e) => ToolResult("Error executing " + name + ": " + ExcStr(e), true)
  }

  /** call_tool, running the handler methods. */
  method CallTool(name: string, args: Dict, env: Env) returns (r: ToolResult)
    ensures r == CallToolReply(name, args, env)
  {
    var o: Outcome<ToolResult>;
    if name == "purchase_stamp" {
      o := HandlePurchaseStamp(args, env);
    } else if name == "get_stamp_status" {
      o := HandleGetStampStatus(args, env);
    } else if name == "list_stamps" {
      o := HandleListStamps(args, env);
    } else if name == "extend_stamp" {
      o := HandleExtendStamp(args, env);
    } else if name == "upload_data" {
      o := HandleUploadData(args, env);
    } else if name == "download_data" {
      o := HandleDownloadData(args, env);
    } else if name == "health_check" {
      o := HandleHealthCheck(args, env);
    } else {
      return ToolResult("Unknown tool: " + name, true);
    }
    match o
    case Ok(result) => r := result;
    case Raised(e) => r := ToolResult("Error executing " + name + ": " + ExcStr(e), true);
  }
}

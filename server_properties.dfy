/** What the tool layer promises, stated over the reply functions the
    handlers are proved to compute: which results are errors and under
    which prefix, what a missing argument or an unknown name gives, the
    defaults a purchase falls back to, the line structure of each reply,
    the numbering of the stamp list, and when a download is echoed as text. */
module ServerProperties {
  import opened Wrappers
  import opened PyValues
  import opened TextLines
  import Utf8
  import Config
  import opened Server

  // ------------------------------------------------------- dispatch, errors

  /** The arguments a handler subscripts without a default, in the order it
      reads them. */
  function RequiredArguments(name: string): seq<string>
  {
    if name == "get_stamp_status" then ["stamp_id"]
    else if name == "extend_stamp" then ["stamp_id", "amount"]
    else if name == "upload_data" then ["data", "stamp_id"]
    else if name == "download_data" then ["reference"]
    else []
  }

  /** The first required argument that is missing raises a KeyError no
      handler catches, so call_tool reports it with the key's repr. */
  lemma MissingArgumentReported(name: string, args: Dict, env: Env, k: nat)
    requires k < |RequiredArguments(name)|
    requires forall j :: 0 <= j < k ==> Has(args, RequiredArguments(name)[j])
    requires !Has(args, RequiredArguments(name)[k])
    ensures CallToolReply(name, args, env)
            == ToolResult("Error executing " + name + ": " + Quote(RequiredArguments(name)[k]), true)
  {
    var key := RequiredArguments(name)[k];
    assert Subscript(JObj(args), key) == Raised(KeyError(key));
    if k == 1 {
      assert Has(args, RequiredArguments(name)[0]);
    }
    assert Dispatch(name, args, env) == Raised(KeyError(key));
  }

  /** Any name other than the seven tools is answered with an error result
      naming it. */
  lemma UnknownToolReported(name: string, args: Dict, env: Env)
    requires name !in ToolNames
    ensures CallToolReply(name, args, env) == ToolResult("Unknown tool: " + name, true)
  {
  }

  /** What call_tool makes of an exception from a handler's gateway call:
      the handler's own prefix for a RequestException, which it catches,
      and call_tool's generic report for anything else. */
  function Reported(name: string, prefix: string, e: Exc): ToolResult
  {
    if IsRequestException(e) then ToolResult(prefix + ExcStr(e), true)
    else ToolResult("Error executing " + name + ": " + ExcStr(e), true)
  }

  /** An exception met by a handler's `try` becomes an error result either
      way: under the handler's prefix when the handler catches it, under
      call_tool's report when it escapes. */
  lemma HandlerExceptionReported(name: string, args: Dict, env: Env, prefix: string, e: Exc)
    requires Dispatch(name, args, env) == Caught(prefix, e)
    ensures CallToolReply(name, args, env) == Reported(name, prefix, e)
  {
  }

  // ---------------------------------------------------------------- purchase

  /** An absent amount or depth falls back to the configured default (two
      billion wei and depth 17 unless configured otherwise), and an absent
      label is None. */
  lemma PurchaseDefaults(args: Dict, settings: Config.Settings)
    ensures PurchaseAmount(args, settings)
            == if Has(args, "amount") then Get(args, "amount").value else JInt(settings.defaultStampAmount)
    ensures PurchaseDepth(args, settings)
            == if Has(args, "depth") then Get(args, "depth").value else JInt(settings.defaultStampDepth)
    ensures !Has(args, "amount") ==> PurchaseAmount(args, Config.Defaults) == JInt(2000000000)
    ensures !Has(args, "depth") ==> PurchaseDepth(args, Config.Defaults) == JInt(17)
  {
    GetOrSpec(args, "amount", JInt(settings.defaultStampAmount));
    GetOrSpec(args, "depth", JInt(settings.defaultStampDepth));
    GetOrSpec(args, "amount", JInt(Config.Defaults.defaultStampAmount));
    GetOrSpec(args, "depth", JInt(Config.Defaults.defaultStampDepth));
  }

  /** A purchase succeeds exactly when the gateway answers with a dict that
      holds a batchID and a message, and only a failed gateway call is
      caught, under the purchase prefix; a missing batchID is a KeyError
      that escapes to call_tool. */
  lemma PurchaseOutcome(args: Dict, env: Env)
    ensures var call := env.gateway.purchaseStamp(PurchaseAmount(args, env.settings), PurchaseDepth(args, env.settings),
                                                  GetOr(args, "label", JNull));
            var o := PurchaseReply(args, env);
            && ((o.Ok? && !o.value.isError) <==>
                (call.Ok? && call.value.JObj? && Has(call.value.fields, "batchID") && Has(call.value.fields, "message")))
            && (o.Ok? && o.value.isError ==> call.Raised? && IsRequestException(call.exc))
            && (call.Raised? ==> o == Caught(PurchaseFailed, call.exc))
            && (call.Ok? && call.value.JObj? && !Has(call.value.fields, "batchID") ==> o == Raised(KeyError("batchID")))
  {
  }

  /** Five lines, and a sixth for the label, just before the message,
      exactly when the label is truthy. */
  lemma PurchaseShape(batchId: Json, amount: Json, depth: Json, stampLabel: Json, message: Json)
    ensures var lines := PurchaseLines(batchId, amount, depth, stampLabel, message);
            && |lines| == (if Truthy(stampLabel) then 6 else 5)
            && lines[0] == "Successfully purchased stamp!"
            && lines[1] == "Batch ID: " + Show(batchId)
            && (Truthy(stampLabel) ==> lines[4] == "Label: " + Show(stampLabel))
            && lines[|lines| - 1] == "Message: " + Show(message)
  {
  }

  /** Splitting the purchase reply at its newlines gives back its lines when
      no shown value holds a newline of its own. */
  lemma PurchaseTextSplits(batchId: Json, amount: Json, depth: Json, stampLabel: Json, message: Json)
    requires NoNewline(Show(batchId)) && NoNewline(Show(amount)) && NoNewline(Show(depth))
    requires NoNewline(Show(stampLabel)) && NoNewline(Show(message))
    ensures SplitLines(Join(PurchaseLines(batchId, amount, depth, stampLabel, message), "\n"))
            == PurchaseLines(batchId, amount, depth, stampLabel, message)
  {
    PurchaseLinesOneEach(batchId, amount, depth, stampLabel, message);
    SplitJoin(PurchaseLines(batchId, amount, depth, stampLabel, message));
  }

  lemma PurchaseLinesOneEach(batchId: Json, amount: Json, depth: Json, stampLabel: Json, message: Json)
    requires NoNewline(Show(batchId)) && NoNewline(Show(amount)) && NoNewline(Show(depth))
    requires NoNewline(Show(stampLabel)) && NoNewline(Show(message))
    ensures AllNoNewline(PurchaseLines(batchId, amount, depth, stampLabel, message))
  {
    var fixed := PurchaseHead(batchId, amount, depth, JNull);
    PurchaseFixedLinesOneEach(batchId, amount, depth);
    var head := PurchaseHead(batchId, amount, depth, stampLabel);
    if Truthy(stampLabel) {
      assert head == fixed + ["Label: " + Show(stampLabel)];
      AllNoNewlineConcat(fixed, ["Label: " + Show(stampLabel)]);
    } else {
      assert head == fixed;
    }
    AllNoNewlineConcat(head, ["Message: " + Show(message)]);
  }

  lemma PurchaseFixedLinesOneEach(batchId: Json, amount: Json, depth: Json)
    requires NoNewline(Show(batchId)) && NoNewline(Show(amount)) && NoNewline(Show(depth))
    ensures AllNoNewline(PurchaseHead(batchId, amount, depth, JNull))
  {
    var first := ["Successfully purchased stamp!"] + ["Batch ID: " + Show(batchId)];
    AllNoNewlineConcat(["Successfully purchased stamp!"], ["Batch ID: " + Show(batchId)]);
    var second := ["Amount: " + Show(amount) + " wei"] + ["Depth: " + Show(depth)];
    AllNoNewlineConcat(["Amount: " + Show(amount) + " wei"], ["Depth: " + Show(depth)]);
    AllNoNewlineConcat(first, second);
  }

  // ------------------------------------------------------------ stamp status

  /** The keys of the stamp details the status reply reads. */
  const StatusKeys: seq<string> :=
    ["amount", "depth", "bucketDepth", "blockNumber", "batchTTL", "expectedExpiration",
     "usable", "utilization", "immutableFlag", "label"]

  /** The status of a stamp succeeds exactly when the gateway answers with a
      dict; a failed call is caught under the status prefix, and any other
      answer has no `get` and escapes. */
  lemma StatusOutcome(args: Dict, env: Env)
    requires Has(args, "stamp_id")
    ensures var call := env.gateway.getStampDetails(Get(args, "stamp_id").value);
            var o := StatusReply(args, env);
            && ((o.Ok? && !o.value.isError) <==> (call.Ok? && call.value.JObj?))
            && (o.Ok? && o.value.isError ==> call.Raised? && IsRequestException(call.exc))
            && (call.Raised? ==> o == Caught(StatusFailed, call.exc))
            && (call.Ok? && !call.value.JObj? ==> o == Raised(NoAttribute(call.value, "get")))
  {
  }

  /** Ten lines, and an eleventh for the label exactly when it is truthy;
      the reply is those lines, each ending in a newline. */
  lemma StatusShape(stampId: Json, r: Dict)
    ensures var lines := StatusLines(stampId, r);
            var stampLabel := GetOr(r, "label", JNull);
            && |lines| == (if Truthy(stampLabel) then 11 else 10)
            && lines[0] == "Stamp Details for " + Show(stampId) + ":"
            && (Truthy(stampLabel) ==> lines[10] == "Label: " + Show(stampLabel))
  {
  }

  /** Details the gateway leaves out are shown as N/A, and no label line
      appears. */
  lemma StatusMissingDetails(stampId: Json, r: Dict)
    requires forall i :: 0 <= i < |r| ==> r[i].0 !in StatusKeys
    ensures StatusLines(stampId, r)
            == ["Stamp Details for " + Show(stampId) + ":"]
               + ["Amount: N/A"] + ["Depth: N/A"] + ["Bucket Depth: N/A"] + ["Block Number: N/A"]
               + ["Batch TTL: N/A seconds"] + ["Expected Expiration: N/A"] + ["Usable: N/A"]
               + ["Utilization: N/A"] + ["Immutable: N/A"]
  {
    assert StatusLines(stampId, r) == StatusLines(stampId, []) by {
      forall k | k in StatusKeys
        ensures GetOr(r, k, NA) == NA && GetOr(r, k, JNull) == JNull
      {
        GetOrSpec(r, k, NA);
        GetOrSpec(r, k, JNull);
      }
    }
    StatusOfEmptyAnswer(stampId);
  }

  lemma StatusOfEmptyAnswer(stampId: Json)
    ensures StatusLines(stampId, [])
            == ["Stamp Details for " + Show(stampId) + ":"]
               + ["Amount: N/A"] + ["Depth: N/A"] + ["Bucket Depth: N/A"] + ["Block Number: N/A"]
               + ["Batch TTL: N/A seconds"] + ["Expected Expiration: N/A"] + ["Usable: N/A"]
               + ["Utilization: N/A"] + ["Immutable: N/A"]
  {
    NotAvailableLines();
  }

  /** What `{d.get(k, default)}` shows: the stored value when k is present,
      the default's text otherwise. */
  function ShownOr(d: Dict, k: string, absent: string): string
  {
    if Has(d, k) then Show(Get(d, k).value) else absent
  }

  /** `{d.get(k, 'N/A')}` shows ShownOr(d, k, "N/A"). */
  lemma ShownOrNA(d: Dict, k: string)
    ensures Show(GetOr(d, k, NA)) == ShownOr(d, k, "N/A")
  {
    GetOrSpec(d, k, NA);
  }

  /** Each detail line shows its own field, or N/A when that field alone is
      missing, whatever the other fields hold; the TTL is in seconds, and
      the label line is there exactly when a truthy label is. */
  lemma StatusDetailLines(stampId: Json, r: Dict)
    ensures StatusLines(stampId, r)
            == ["Stamp Details for " + Show(stampId) + ":"]
               + ["Amount: " + ShownOr(r, "amount", "N/A")]
               + ["Depth: " + ShownOr(r, "depth", "N/A")]
               + ["Bucket Depth: " + ShownOr(r, "bucketDepth", "N/A")]
               + ["Block Number: " + ShownOr(r, "blockNumber", "N/A")]
               + ["Batch TTL: " + ShownOr(r, "batchTTL", "N/A") + " seconds"]
               + ["Expected Expiration: " + ShownOr(r, "expectedExpiration", "N/A")]
               + ["Usable: " + ShownOr(r, "usable", "N/A")]
               + ["Utilization: " + ShownOr(r, "utilization", "N/A")]
               + ["Immutable: " + ShownOr(r, "immutableFlag", "N/A")]
               + (if Has(r, "label") && Truthy(Get(r, "label").value) then ["Label: " + Show(Get(r, "label").value)] else [])
  {
    ShownOrNA(r, "amount");
    ShownOrNA(r, "depth");
    ShownOrNA(r, "bucketDepth");
    ShownOrNA(r, "blockNumber");
    ShownOrNA(r, "batchTTL");
    ShownOrNA(r, "expectedExpiration");
    ShownOrNA(r, "usable");
    ShownOrNA(r, "utilization");
    ShownOrNA(r, "immutableFlag");
    GetOrSpec(r, "label", JNull);
  }

  // ------------------------------------------------------------- list stamps

  /** block applied to each dict entry and its position counted from 1. */
  function Numbered(items: seq<Json>, block: (nat, Dict) -> string): (blocks: seq<string>)
    requires forall i :: 0 <= i < |items| ==> items[i].JObj?
    ensures |blocks| == |items|
    ensures forall i :: 0 <= i < |items| ==> blocks[i] == block(i + 1, items[i].fields)
    decreases |items|
  {
    if |items| == 0 then []
    else Numbered(items[..|items| - 1], block) + [block(|items|, items[|items| - 1].fields)]
  }

  /** When every entry is a dict, the loop adds one block per entry,
      numbered from 1 in list order. */
  lemma {:induction false} StampBlocksOfDicts(acc: string, items: seq<Json>)
    requires forall i :: 0 <= i < |items| ==> items[i].JObj?
    ensures StampBlocks(acc, items) == Ok(acc + Concat(Numbered(items, StampBlock)))
    decreases |items|
  {
    if |items| == 0 {
      assert acc + Concat([]) == acc;
    } else {
      var init := items[..|items| - 1];
      var last := items[|items| - 1];
      StampBlocksOfDicts(acc, init);
      var before := Concat(Numbered(init, StampBlock));
      var lines := BlockLines(|items|, last.fields);
      AppendLinesIsTerminated(acc + before, lines, "\n");
      ConcatPush(Numbered(init, StampBlock), StampBlock(|items|, last.fields));
      AppendAssoc(acc, before, Terminated(lines, "\n"), "\n");
    }
  }

  /** The first entry that is not a dict stops the listing with the
      AttributeError of its `.get`. */
  lemma StampBlocksStopAt(acc: string, items: seq<Json>, k: nat)
    requires k < |items| && !items[k].JObj?
    requires forall i :: 0 <= i < k ==> items[i].JObj?
    ensures StampBlocks(acc, items) == Raised(NoAttribute(items[k], "get"))
  {
    var prefix := items[..k + 1];
    assert prefix[..k] == items[..k];
    StampBlocksOfDicts(acc, items[..k]);
    RaisedPrefixPersists(acc, items, k + 1);
  }

  /** What the loop raises is always an AttributeError. */
  lemma {:induction false} StampBlocksRaiseAttributeError(acc: string, items: seq<Json>)
    ensures StampBlocks(acc, items).Raised? ==> StampBlocks(acc, items).exc.AttributeError?
    decreases |items|
  {
    if |items| > 0 {
      StampBlocksRaiseAttributeError(acc, items[..|items| - 1]);
    }
  }

  /** Listing the stamps succeeds exactly when the gateway answers with a
      dict whose count is zero, or whose stamps are a list (or other
      iterable) of dicts; only a failed call is caught under the list prefix. */
  lemma ListOutcome(env: Env)
    ensures var call := env.gateway.listStamps();
            var o := ListReply(env);
            && ((o.Ok? && !o.value.isError) <==>
                (call.Ok? && call.value.JObj? &&
                 var it := Iterate(GetOr(call.value.fields, "stamps", JList([])));
                 (EqualsZero(GetOr(call.value.fields, "total_count", JInt(0)))
                  || (it.Ok? && forall i :: 0 <= i < |it.value| ==> it.value[i].JObj?))))
            && (o.Ok? && o.value.isError ==> call.Raised? && IsRequestException(call.exc))
            && (call.Raised? ==> o == Caught(ListFailed, call.exc))
            && (call.Ok? && !call.value.JObj? ==> o == Raised(NoAttribute(call.value, "get")))
  {
    var call := env.gateway.listStamps();
    if call.Ok? && call.value.JObj? {
      var fields := call.value.fields;
      var total := GetOr(fields, "total_count", JInt(0));
      match Iterate(GetOr(fields, "stamps", JList([])))
      case Raised(e) =>
      case Ok(items) =>
        StampBlocksRaiseAttributeError(ListHeader(total), items);
        var k := FirstNonDict(items);
        if k < |items| {
          StampBlocksStopAt(ListHeader(total), items, k);
        } else {
          StampBlocksOfDicts(ListHeader(total), items);
        }
    }
  }

  /** The position of the first entry that is not a dict, or |items| when
      every entry is one. */
  function FirstNonDict(items: seq<Json>): (k: nat)
    ensures k <= |items|
    ensures forall i :: 0 <= i < k ==> items[i].JObj?
    ensures k < |items| ==> !items[k].JObj?
  {
    if |items| == 0 || !items[0].JObj? then 0 else 1 + FirstNonDict(items[1..])
  }

  /** A count of zero, or no count at all, gives exactly "No stamps found.",
      whatever the stamps entry holds. */
  lemma ListNoStamps(env: Env, fields: Dict)
    requires env.gateway.listStamps() == Ok(JObj(fields))
    requires !Has(fields, "total_count") || EqualsZero(Get(fields, "total_count").value)
    ensures ListReply(env) == Ok(ToolResult("No stamps found.", false))
  {
    GetOrSpec(fields, "total_count", JInt(0));
  }

  /** Otherwise the reply announces the gateway's count, not the number of
      entries, and then gives each entry's block in order. */
  lemma ListText(env: Env, fields: Dict, items: seq<Json>)
    requires env.gateway.listStamps() == Ok(JObj(fields))
    requires Has(fields, "total_count") && !EqualsZero(Get(fields, "total_count").value)
    requires Iterate(GetOr(fields, "stamps", JList([]))) == Ok(items)
    requires forall i :: 0 <= i < |items| ==> items[i].JObj?
    ensures ListReply(env)
            == Ok(ToolResult("Found " + Show(Get(fields, "total_count").value) + " stamp(s):\n\n"
                             + Concat(Numbered(items, StampBlock)), false))
  {
    GetOrSpec(fields, "total_count", JInt(0));
    StampBlocksOfDicts(ListHeader(Get(fields, "total_count").value), items);
  }

  /** An entry that is not a dict makes the listing raise, and call_tool
      reports it. */
  lemma ListEntryNotDict(env: Env, fields: Dict, items: seq<Json>, k: nat)
    requires env.gateway.listStamps() == Ok(JObj(fields))
    requires !EqualsZero(GetOr(fields, "total_count", JInt(0)))
    requires Iterate(GetOr(fields, "stamps", JList([]))) == Ok(items)
    requires k < |items| && !items[k].JObj?
    requires forall i :: 0 <= i < k ==> items[i].JObj?
    ensures ListReply(env) == Raised(NoAttribute(items[k], "get"))
  {
    StampBlocksStopAt(ListHeader(GetOr(fields, "total_count", JInt(0))), items, k);
  }

  // ------------------------------------------------------------ extend stamp

  /** An extension succeeds exactly when the gateway answers with a dict
      holding a batchID and a message; only a failed call is caught, under
      the extension prefix. */
  lemma ExtendOutcome(args: Dict, env: Env)
    requires Has(args, "stamp_id") && Has(args, "amount")
    ensures var call := env.gateway.extendStamp(Get(args, "stamp_id").value, Get(args, "amount").value);
            var o := ExtendReply(args, env);
            && ((o.Ok? && !o.value.isError) <==>
                (call.Ok? && call.value.JObj? && Has(call.value.fields, "batchID") && Has(call.value.fields, "message")))
            && (o.Ok? && o.value.isError ==> call.Raised? && IsRequestException(call.exc))
            && (call.Raised? ==> o == Caught(ExtendFailed, call.exc))
  {
  }

  /** Four lines: the success line, the batch ID, the amount added and the
      message. */
  lemma ExtendShape(batchId: Json, amount: Json, message: Json)
    ensures var lines := ExtendLines(batchId, amount, message);
            && |lines| == 4
            && lines[1] == "Batch ID: " + Show(batchId)
            && lines[2] == "Additional Amount: " + Show(amount) + " wei"
            && lines[3] == "Message: " + Show(message)
  {
  }

  // ------------------------------------------------------------- upload data

  /** The upload is sent the content type given, or JSON when none is. */
  lemma UploadContentType(args: Dict)
    ensures var contentType := GetOr(args, "content_type", JStr(DefaultContentType));
            && (Has(args, "content_type") ==> contentType == Get(args, "content_type").value)
            && (!Has(args, "content_type") ==> contentType == JStr("application/json"))
  {
    GetOrSpec(args, "content_type", JStr(DefaultContentType));
  }

  /** An upload succeeds exactly when the gateway answers with a dict
      holding a reference and the data is a str; data that is not a str has
      no `encode`, which escapes, though only after the upload. */
  lemma UploadOutcome(args: Dict, env: Env)
    requires Has(args, "data") && Has(args, "stamp_id")
    ensures var data := Get(args, "data").value;
            var contentType := GetOr(args, "content_type", JStr(DefaultContentType));
            var call := env.gateway.uploadData(data, Get(args, "stamp_id").value, contentType);
            var o := UploadReply(args, env);
            && ((o.Ok? && !o.value.isError) <==>
                (call.Ok? && call.value.JObj? && Has(call.value.fields, "reference") && data.JStr?))
            && (call.Ok? && call.value.JObj? && Has(call.value.fields, "reference") && !data.JStr? ==>
                  o == Raised(NoAttribute(data, "encode")))
  {
  }

  /** A failed upload is caught by its first matching clause: a JSON
      decoding failure counts as a ValueError and is reported as a
      validation error, any other RequestException as a failed upload. */
  lemma UploadFailureReported(args: Dict, env: Env)
    requires Has(args, "data") && Has(args, "stamp_id")
    ensures var contentType := GetOr(args, "content_type", JStr(DefaultContentType));
            var call := env.gateway.uploadData(Get(args, "data").value, Get(args, "stamp_id").value, contentType);
            var o := UploadReply(args, env);
            && (o.Ok? && o.value.isError ==> call.Raised? && (IsValueError(call.exc) || IsRequestException(call.exc)))
            && (call.Raised? && IsValueError(call.exc) ==> o == Ok(ToolResult(UploadInvalid + ExcStr(call.exc), true)))
            && (call.Raised? && call.exc.RequestError? ==> o == Ok(ToolResult(UploadFailed + ExcStr(call.exc), true)))
  {
  }

  /** The size reported for str data is its UTF-8 length: between one and
      four bytes per character, and one per character for ASCII text. */
  lemma UploadSize(args: Dict, env: Env, s: string)
    requires Get(args, "data") == Some(JStr(s)) && Has(args, "stamp_id")
    ensures var stampId := Get(args, "stamp_id").value;
            var contentType := GetOr(args, "content_type", JStr(DefaultContentType));
            var call := env.gateway.uploadData(JStr(s), stampId, contentType);
            call.Ok? && call.value.JObj? && Has(call.value.fields, "reference") ==>
              var size := |Utf8.Encode(s)|;
              && UploadReply(args, env)
                 == Ok(ToolResult(Join(UploadLines(Get(call.value.fields, "reference").value, stampId, contentType, size), BackslashN), false))
              && |s| <= size <= 4 * |s|
              && ((forall i :: 0 <= i < |s| ==> s[i] < 128 as char) ==> size == |s|)
  {
    if forall i :: 0 <= i < |s| ==> s[i] < 128 as char {
      Utf8.EncodeAscii(s);
    }
  }

  /** The upload reply is a single physical line: its lines are separated by
      a backslash and an `n`, not by newlines. */
  lemma UploadReplyOneLine(reference: Json, stampId: Json, contentType: Json, size: nat)
    requires NoNewline(Show(reference)) && NoNewline(Show(stampId)) && NoNewline(Show(contentType))
    ensures NoNewline(Join(UploadLines(reference, stampId, contentType, size), BackslashN))
  {
    var lines := UploadLines(reference, stampId, contentType, size);
    assert NoNewline(NatToString(size));
    assert forall i :: 0 <= i < |lines| ==> NoNewline(lines[i]);
    JoinNoNewline(lines, BackslashN);
  }

  // ----------------------------------------------------------- download data

  /** A download succeeds whenever the gateway returns bytes; only a failed
      call is caught, under the download prefix. */
  lemma DownloadOutcome(args: Dict, env: Env)
    requires Has(args, "reference")
    ensures var call := env.gateway.downloadData(Get(args, "reference").value);
            var o := DownloadReply(args, env);
            && ((o.Ok? && !o.value.isError) <==> call.Ok?)
            && (o.Ok? && o.value.isError ==> call.Raised? && IsRequestException(call.exc))
            && (call.Raised? ==> o == Caught(DownloadFailed, call.exc))
  {
  }

  /** The UTF-8 encoding of a text is echoed back as that text. */
  lemma DownloadEchoesText(reference: Json, s: string)
    ensures DownloadText(reference, Utf8.Encode(s))
            == "Successfully downloaded data from " + Show(reference) + ":" + BackslashN + BackslashN + s
  {
    Utf8.DecodeEncode(s);
  }

  /** Bytes are reported as binary, by size only, exactly when they are not
      valid UTF-8. */
  lemma DownloadBinaryIffUndecodable(reference: Json, bytes: seq<Utf8.Byte>)
    ensures (DownloadText(reference, bytes) == Join(BinaryLines(reference, |bytes|), BackslashN))
            <==> Utf8.Decode(bytes).None?
  {
    var decoded := Utf8.Decode(bytes);
    if decoded.Some? {
      var lines := BinaryLines(reference, |bytes|);
      var shown := Show(reference);
      assert lines[0] == "Successfully downloaded binary data from " + shown;
      assert Join(lines, BackslashN) == lines[0] + BackslashN + Join(lines[1..], BackslashN);
      assert DownloadText(reference, bytes) == "Successfully downloaded data from " + shown + ":" + BackslashN + BackslashN + decoded.value;
      TwoRepliesDiffer(shown, Join(lines[1..], BackslashN), decoded.value);
    }
  }

  /** The text reply and the binary reply already differ at their 25th
      character. */
  lemma TwoRepliesDiffer(shown: string, binaryRest: string, text: string)
    ensures "Successfully downloaded binary data from " + shown + BackslashN + binaryRest
            != "Successfully downloaded data from " + shown + ":" + BackslashN + BackslashN + text
  {
    assert ("Successfully downloaded binary data from " + shown + BackslashN + binaryRest)[24] == 'b';
    assert ("Successfully downloaded data from " + shown + ":" + BackslashN + BackslashN + text)[24] == 'd';
  }

  // ------------------------------------------------------------ health check

  /** A health check succeeds exactly when the gateway answers with a dict;
      only a failed call is caught, under the health prefix. */
  lemma HealthOutcome(env: Env)
    ensures var call := env.gateway.healthCheck();
            var o := HealthReply(env);
            && ((o.Ok? && !o.value.isError) <==> (call.Ok? && call.value.JObj?))
            && (o.Ok? && o.value.isError ==> call.Raised? && IsRequestException(call.exc))
            && (call.Raised? ==> o == Caught(HealthFailed, call.exc))
            && (call.Ok? && !call.value.JObj? ==> o == Raised(NoAttribute(call.value, "get")))
  {
  }

  /** An empty answer gives status unknown and N/A for the rest, with no
      gateway response: the reply is these four lines, each followed by a
      backslash and an `n`. */
  lemma HealthOfEmptyAnswer(fixed2: Json -> string)
    ensures HealthLines([], fixed2)
            == ["Health Check Results:"] + ["Status: unknown"] + ["Gateway URL: N/A"] + ["Response Time: N/A"]
    ensures HealthText([], fixed2) == Terminated(HealthLines([], fixed2), BackslashN)
  {
    NotAvailableLines();
  }

  /** Each health line shows its own field, or its default when that field
      alone is missing: "unknown" for the status, N/A otherwise; a numeric
      response time is formatted to two places and followed by "ms". */
  lemma HealthDetailLines(r: Dict, fixed2: Json -> string)
    ensures var lines := HealthLines(r, fixed2);
            && lines[1] == "Status: " + ShownOr(r, "status", "unknown")
            && lines[2] == "Gateway URL: " + ShownOr(r, "gateway_url", "N/A")
            && lines[3] == if Has(r, "response_time_ms") && IsNumber(Get(r, "response_time_ms").value)
                           then "Response Time: " + fixed2(Get(r, "response_time_ms").value) + "ms"
                           else "Response Time: " + ShownOr(r, "response_time_ms", "N/A")
  {
    GetOrSpec(r, "status", JStr("unknown"));
    GetOrSpec(r, "gateway_url", NA);
    GetOrSpec(r, "response_time_ms", NA);
    NotAvailableLines();
  }

  /** The gateway's own response is appended exactly when it is truthy. */
  lemma HealthGatewayResponse(r: Dict, fixed2: Json -> string)
    ensures var head := Terminated(HealthLines(r, fixed2), BackslashN);
            var response := GetOr(r, "gateway_response", JNull);
            && (HealthText(r, fixed2) == head <==> !Truthy(response))
            && (Truthy(response) ==> HealthText(r, fixed2) == head + ("Gateway Response: " + Show(response)))
  {
  }

  lemma NotAvailableLines()
    ensures Show(NA) == "N/A"
    ensures "Amount: " + "N/A" == "Amount: N/A"
    ensures "Depth: " + "N/A" == "Depth: N/A"
    ensures "Bucket Depth: " + "N/A" == "Bucket Depth: N/A"
    ensures "Block Number: " + "N/A" == "Block Number: N/A"
    ensures "Batch TTL: " + "N/A" + " seconds" == "Batch TTL: N/A seconds"
    ensures "Expected Expiration: " + "N/A" == "Expected Expiration: N/A"
    ensures "Usable: " + "N/A" == "Usable: N/A"
    ensures "Utilization: " + "N/A" == "Utilization: N/A"
    ensures "Immutable: " + "N/A" == "Immutable: N/A"
    ensures Show(JStr("unknown")) == "unknown"
    ensures "Status: " + "unknown" == "Status: unknown"
    ensures "Gateway URL: " + "N/A" == "Gateway URL: N/A"
    ensures "Response Time: " + "N/A" == "Response Time: N/A"
  {
  }
}

/** Provenance records: the two builders (a DaTA-standard record with a
    content hash and nested creator, and a simple titled record), the
    required-field lists of the two schemas, and validation (the basic
    required-field check and the dispatch that prefers the jsonschema
    package when it is installed). */
module ProvenanceSchemas {
  import opened Wrappers
  import opened PyValues
  import Utf8

  /** What the Python runtime supplies that the model leaves opaque:
      hex SHA-256 of bytes, `json.dumps(x, sort_keys=True)`, and
      `datetime.utcnow().isoformat()` at the moment of the call. */
  datatype Runtime = Runtime(
    sha256Hex: seq<Utf8.Byte> -> string,
    dumpsSorted: Json -> string,
    utcNowIso: string)

  const DefaultStandard := "DaTA v1.0.0"
  const DefaultCreatorType := "ai_agent"

  /** The required lists of SIMPLE_SCHEMA and DATA_SCHEMA. */
  const SimpleRequired: seq<string> := ["title", "creator", "data"]
  const DataRequired: seq<string> := ["provenance_standard", "content_hash", "timestamp", "creator", "data"]

  const UnknownSchemaType := "Unknown schema type"

  /** An optional str argument is used only when truthy (neither None nor ""). */
  predicate Given(s: Option<string>) { s.Some? && s.value != "" }

  /** An optional tag list is used only when truthy (neither None nor []). */
  predicate GivenTags(t: Option<seq<string>>) { t.Some? && t.value != [] }

  /** A list of str as a Python value. */
  function StrList(xs: seq<string>): Json
  {
    JList(seq(|xs|, i requires 0 <= i < |xs| => JStr(xs[i])))
  }

  /** The metadata value of a data record: `purpose` iff it was given, then
      `tags` iff they were given, and nothing else. */
  predicate IsMetadata(v: Json, purpose: Option<string>, tags: Option<seq<string>>)
  {
    && v.JObj?
    && Keys(v.fields) == (if Given(purpose) then ["purpose"] else []) + (if GivenTags(tags) then ["tags"] else [])
    && (Given(purpose) ==> Get(v.fields, "purpose") == Some(JStr(purpose.value)))
    && (GivenTags(tags) ==> Get(v.fields, "tags") == Some(StrList(tags.value)))
  }

  /** ProvenanceBuilder.create_data_record. Every insertion below is of a
      key the dict does not hold yet, which on an insertion-ordered dict
      appends the pair. */
  method CreateDataRecord(rt: Runtime, data: Json, creatorName: string,
                          creatorType: string := DefaultCreatorType,
                          purpose: Option<string> := None,
                          tags: Option<seq<string>> := None,
                          standard: string := DefaultStandard)
    returns (record: Dict)
    ensures Keys(record) == DataRequired + (if Given(purpose) || GivenTags(tags) then ["metadata"] else [])
    ensures Get(record, "provenance_standard") == Some(JStr(standard))
    ensures data.JStr? ==> Get(record, "content_hash") == Some(JStr("sha256:" + rt.sha256Hex(Utf8.Encode(data.s))))
    ensures !data.JStr? ==> Get(record, "content_hash") == Some(JStr("sha256:" + rt.sha256Hex(Utf8.Encode(rt.dumpsSorted(data)))))
    ensures Get(record, "timestamp") == Some(JStr(rt.utcNowIso + "Z"))
    ensures Get(record, "creator") == Some(JObj([("agent_type", JStr(creatorType)), ("agent_id", JStr(creatorName)), ("name", JStr(creatorName))]))
    ensures Get(record, "data") == Some(data)
    ensures Has(record, "metadata") ==> IsMetadata(Get(record, "metadata").value, purpose, tags)
    ensures BasicVerdict(record, "data") == (true, [])
    ensures UniqueKeys(record)
  {
    var dataStr := if !data.JStr? then rt.dumpsSorted(data) else data.s;
    var contentHash := "sha256:" + rt.sha256Hex(Utf8.Encode(dataStr));
    record := [
      ("provenance_standard", JStr(standard)),
      ("content_hash", JStr(contentHash)),
      ("timestamp", JStr(rt.utcNowIso + "Z")),
      ("creator", JObj([("agent_type", JStr(creatorType)), ("agent_id", JStr(creatorName)), ("name", JStr(creatorName))])),
      ("data", data)
    ];
    ghost var base, extra := record, [];
    // Python inserts an empty dict under "metadata" and then fills that same
    // object; inserting it once filled gives the same record.
    if Given(purpose) || GivenTags(tags) {
      var metadata: Dict := [];
      if Given(purpose) {
        metadata := metadata + [("purpose", JStr(purpose.value))];
      }
      assert metadata == OptionalStr("purpose", purpose);
      if GivenTags(tags) {
        metadata := metadata + [("tags", StrList(tags.value))];
      }
      assert metadata == MetadataOf(purpose, tags);
      record := record + [("metadata", JObj(metadata))];
      extra := [("metadata", JObj(metadata))];
    }
    assert record == base + extra;
    DataRecordFacts(base, extra, standard, contentHash, rt.utcNowIso + "Z", creatorType, creatorName, data, purpose, tags);
    DataKeysDistinct(Given(purpose) || GivenTags(tags));
    UniqueKeysOfKeys(record);
  }

  /** ProvenanceBuilder.create_simple_record. Every insertion below is of a
      key the dict does not hold yet, which on an insertion-ordered dict
      appends the pair. */
  method CreateSimpleRecord(rt: Runtime, title: string, data: Json, creator: string,
                            description: Option<string> := None,
                            purpose: Option<string> := None,
                            source: Option<string> := None,
                            tags: Option<seq<string>> := None)
    returns (record: Dict)
    ensures Keys(record) == SimpleBaseKeys
                            + (if Given(description) then ["description"] else [])
                            + (if Given(purpose) then ["purpose"] else [])
                            + (if Given(source) then ["source"] else [])
                            + (if GivenTags(tags) then ["tags"] else [])
    ensures Get(record, "title") == Some(JStr(title))
    ensures Get(record, "creator") == Some(JStr(creator))
    ensures Get(record, "created_at") == Some(JStr(rt.utcNowIso + "Z"))
    ensures Get(record, "data") == Some(data)
    ensures Given(description) ==> Get(record, "description") == Some(JStr(description.value))
    ensures Given(purpose) ==> Get(record, "purpose") == Some(JStr(purpose.value))
    ensures Given(source) ==> Get(record, "source") == Some(JStr(source.value))
    ensures GivenTags(tags) ==> Get(record, "tags") == Some(StrList(tags.value))
    ensures BasicVerdict(record, "simple") == (true, [])
    ensures UniqueKeys(record)
  {
    record := [
      ("title", JStr(title)),
      ("creator", JStr(creator)),
      ("created_at", JStr(rt.utcNowIso + "Z")),
      ("data", data)
    ];
    ghost var base := record;
    ghost var d, p, src, t := OptionalStr("description", description), OptionalStr("purpose", purpose),
                              OptionalStr("source", source), OptionalTags(tags);
    if Given(description) {
      record := record + [("description", JStr(description.value))];
    }
    assert record == base + d;
    if Given(purpose) {
      record := record + [("purpose", JStr(purpose.value))];
    }
    assert record == base + d + p;
    if Given(source) {
      record := record + [("source", JStr(source.value))];
    }
    assert record == base + d + p + src;
    if GivenTags(tags) {
      record := record + [("tags", StrList(tags.value))];
    }
    assert record == base + d + p + src + t;
    ghost var rest := SimpleOptional(description, purpose, source, tags);
    JoinPieces(base, d, p, src, t);
    SimpleRecordFacts(base, rest, title, creator, rt.utcNowIso + "Z", data, description, purpose, source, tags);
    SimpleKeysDistinct(description, purpose, source, tags);
    UniqueKeysOfKeys(record);
  }

  const SimpleBaseKeys: seq<string> := ["title", "creator", "created_at", "data"]

  /** The pair (k, v) when the optional str v is given, else nothing. */
  function OptionalStr(k: string, v: Option<string>): Dict
  {
    if Given(v) then [(k, JStr(v.value))] else []
  }

  function OptionalTags(tags: Option<seq<string>>): Dict
  {
    if GivenTags(tags) then [("tags", StrList(tags.value))] else []
  }

  /** The optional part of a simple record: each given field, in argument order. */
  function SimpleOptional(description: Option<string>, purpose: Option<string>,
                          source: Option<string>, tags: Option<seq<string>>): Dict
  {
    OptionalStr("description", description)
    + (OptionalStr("purpose", purpose) + (OptionalStr("source", source) + OptionalTags(tags)))
  }

  /** The optional part of a simple record holds exactly the given fields'
      keys, in argument order. */
  lemma SimpleOptionalKeys(description: Option<string>, purpose: Option<string>,
                           source: Option<string>, tags: Option<seq<string>>)
    ensures Keys(SimpleOptional(description, purpose, source, tags)) ==
              (if Given(description) then ["description"] else [])
              + (if Given(purpose) then ["purpose"] else [])
              + (if Given(source) then ["source"] else [])
              + (if GivenTags(tags) then ["tags"] else [])
  {
    var d, p, s, t := OptionalStr("description", description), OptionalStr("purpose", purpose), OptionalStr("source", source), OptionalTags(tags);
    KeysConcat(d, p + (s + t));
    KeysConcat(p, s + t);
    KeysConcat(s, t);
  }

  /** What create_simple_record returns, stated of its fixed part followed by
      its optional part. */
  lemma SimpleRecordFacts(base: Dict, rest: Dict, title: string, creator: string, createdAt: string, data: Json,
                          description: Option<string>, purpose: Option<string>,
                          source: Option<string>, tags: Option<seq<string>>)
    requires base == [("title", JStr(title)), ("creator", JStr(creator)), ("created_at", JStr(createdAt)), ("data", data)]
    requires rest == SimpleOptional(description, purpose, source, tags)
    ensures Keys(base + rest) == SimpleBaseKeys
                                 + (if Given(description) then ["description"] else [])
                                 + (if Given(purpose) then ["purpose"] else [])
                                 + (if Given(source) then ["source"] else [])
                                 + (if GivenTags(tags) then ["tags"] else [])
    ensures Get(base + rest, "title") == Some(JStr(title))
    ensures Get(base + rest, "creator") == Some(JStr(creator))
    ensures Get(base + rest, "created_at") == Some(JStr(createdAt))
    ensures Get(base + rest, "data") == Some(data)
    ensures Given(description) ==> Get(base + rest, "description") == Some(JStr(description.value))
    ensures Given(purpose) ==> Get(base + rest, "purpose") == Some(JStr(purpose.value))
    ensures Given(source) ==> Get(base + rest, "source") == Some(JStr(source.value))
    ensures GivenTags(tags) ==> Get(base + rest, "tags") == Some(StrList(tags.value))
    ensures BasicVerdict(base + rest, "simple") == (true, [])
  {
    SimpleRecordKeys(base, rest, description, purpose, source, tags);
    SimpleBaseLookups(base, rest, title, creator, createdAt, data);
    SimpleOptionalInRecord(base, rest, description, purpose, source, tags);
    RequiredPresent(base + rest, "simple");
  }

  /** A record holding every required field of its schema type passes the
      basic validation. */
  lemma RequiredPresent(record: Dict, schemaType: string)
    requires schemaType == "simple" || schemaType == "data"
    requires Get(record, "creator").Some? && Get(record, "data").Some?
    requires schemaType == "simple" ==> Get(record, "title").Some?
    requires schemaType == "data" ==> Get(record, "provenance_standard").Some? && Get(record, "content_hash").Some? && Get(record, "timestamp").Some?
    ensures BasicVerdict(record, schemaType) == (true, [])
  {
    AllPresentNoErrors(RequiredFields(schemaType).value, record);
  }

  lemma SimpleBaseLookups(base: Dict, rest: Dict, title: string, creator: string, createdAt: string, data: Json)
    requires base == [("title", JStr(title)), ("creator", JStr(creator)), ("created_at", JStr(createdAt)), ("data", data)]
    ensures Get(base + rest, "title") == Some(JStr(title))
    ensures Get(base + rest, "creator") == Some(JStr(creator))
    ensures Get(base + rest, "created_at") == Some(JStr(createdAt))
    ensures Get(base + rest, "data") == Some(data)
  {
    IndexOfIs(base + rest, "title", 0);
    IndexOfIs(base + rest, "creator", 1);
    IndexOfIs(base + rest, "created_at", 2);
    IndexOfIs(base + rest, "data", 3);
  }

  lemma SimpleOptionalInRecord(base: Dict, rest: Dict, description: Option<string>, purpose: Option<string>,
                               source: Option<string>, tags: Option<seq<string>>)
    requires Keys(base) == SimpleBaseKeys
    requires rest == SimpleOptional(description, purpose, source, tags)
    ensures Given(description) ==> Get(base + rest, "description") == Some(JStr(description.value))
    ensures Given(purpose) ==> Get(base + rest, "purpose") == Some(JStr(purpose.value))
    ensures Given(source) ==> Get(base + rest, "source") == Some(JStr(source.value))
    ensures GivenTags(tags) ==> Get(base + rest, "tags") == Some(StrList(tags.value))
  {
    OptionalKeysFresh();
    if Given(description) {
      DescriptionLookup(description, purpose, source, tags);
      SkipPiece(base, rest, "description");
    }
    if Given(purpose) {
      PurposeLookup(description, purpose, source, tags);
      SkipPiece(base, rest, "purpose");
    }
    if Given(source) {
      SourceLookup(description, purpose, source, tags);
      SkipPiece(base, rest, "source");
    }
    if GivenTags(tags) {
      TagsLookup(description, purpose, source, tags);
      SkipPiece(base, rest, "tags");
    }
  }

  /** Five dict pieces appended left to right are the first followed by the
      rest appended from the right, as SimpleOptional groups them. */
  lemma JoinPieces(a: Dict, b: Dict, c: Dict, d: Dict, e: Dict)
    ensures a + b + c + d + e == a + (b + (c + (d + e)))
  {
  }

  /** The keys the builders add under conditions are none of the keys they
      always set. */
  lemma OptionalKeysFresh()
    ensures "description" !in SimpleBaseKeys && "purpose" !in SimpleBaseKeys
    ensures "source" !in SimpleBaseKeys && "tags" !in SimpleBaseKeys
    ensures "metadata" !in DataRequired
  {
  }

  /** The metadata dict of a data record: `purpose` if given, then `tags`
      if given. */
  function MetadataOf(purpose: Option<string>, tags: Option<seq<string>>): Dict
  {
    OptionalStr("purpose", purpose) + OptionalTags(tags)
  }

  lemma MetadataShape(purpose: Option<string>, tags: Option<seq<string>>)
    ensures IsMetadata(JObj(MetadataOf(purpose, tags)), purpose, tags)
  {
    var p, t := OptionalStr("purpose", purpose), OptionalTags(tags);
    KeysConcat(p, t);
    if Given(purpose) {
      FirstOfPiece("purpose", purpose, t);
    }
    if GivenTags(tags) {
      SkipPiece(p, t, "tags");
      IndexOfIs(t, "tags", 0);
    }
  }

  /** What create_data_record returns, stated of its fixed part followed by
      the optional metadata entry. */
  lemma DataRecordFacts(base: Dict, extra: Dict, standard: string, contentHash: string, timestamp: string,
                        creatorType: string, creatorName: string, data: Json,
                        purpose: Option<string>, tags: Option<seq<string>>)
    requires base == [
      ("provenance_standard", JStr(standard)),
      ("content_hash", JStr(contentHash)),
      ("timestamp", JStr(timestamp)),
      ("creator", JObj([("agent_type", JStr(creatorType)), ("agent_id", JStr(creatorName)), ("name", JStr(creatorName))])),
      ("data", data)
    ]
    requires extra == if Given(purpose) || GivenTags(tags) then [("metadata", JObj(MetadataOf(purpose, tags)))] else []
    ensures Keys(base + extra) == DataRequired + (if Given(purpose) || GivenTags(tags) then ["metadata"] else [])
    ensures Get(base + extra, "provenance_standard") == Some(JStr(standard))
    ensures Get(base + extra, "content_hash") == Some(JStr(contentHash))
    ensures Get(base + extra, "timestamp") == Some(JStr(timestamp))
    ensures Get(base + extra, "creator") == Some(base[3].1)
    ensures Get(base + extra, "data") == Some(data)
    ensures Has(base + extra, "metadata") ==> IsMetadata(Get(base + extra, "metadata").value, purpose, tags)
    ensures BasicVerdict(base + extra, "data") == (true, [])
  {
    DataRecordKeys(base, extra, purpose, tags);
    DataBaseLookups(base, extra);
    if Given(purpose) || GivenTags(tags) {
      DataMetadataLookup(base, purpose, tags);
      MetadataShape(purpose, tags);
    } else {
      OptionalKeysFresh();
    }
    RequiredPresent(base + extra, "data");
  }

  lemma DataRecordKeys(base: Dict, extra: Dict, purpose: Option<string>, tags: Option<seq<string>>)
    requires |base| == 5
    requires base[0].0 == "provenance_standard" && base[1].0 == "content_hash" && base[2].0 == "timestamp"
    requires base[3].0 == "creator" && base[4].0 == "data"
    requires extra == if Given(purpose) || GivenTags(tags) then [("metadata", JObj(MetadataOf(purpose, tags)))] else []
    ensures Keys(base + extra) == DataRequired + (if Given(purpose) || GivenTags(tags) then ["metadata"] else [])
  {
    DataBaseKeys(base);
    KeysConcat(base, extra);
  }

  lemma DataBaseLookups(base: Dict, extra: Dict)
    requires |base| == 5
    requires base[0].0 == "provenance_standard" && base[1].0 == "content_hash" && base[2].0 == "timestamp"
    requires base[3].0 == "creator" && base[4].0 == "data"
    ensures Get(base + extra, "provenance_standard") == Some(base[0].1)
    ensures Get(base + extra, "content_hash") == Some(base[1].1)
    ensures Get(base + extra, "timestamp") == Some(base[2].1)
    ensures Get(base + extra, "creator") == Some(base[3].1)
    ensures Get(base + extra, "data") == Some(base[4].1)
  {
    IndexOfIs(base + extra, "provenance_standard", 0);
    IndexOfIs(base + extra, "content_hash", 1);
    IndexOfIs(base + extra, "timestamp", 2);
    IndexOfIs(base + extra, "creator", 3);
    IndexOfIs(base + extra, "data", 4);
  }

  lemma DataMetadataLookup(base: Dict, purpose: Option<string>, tags: Option<seq<string>>)
    requires |base| == 5
    requires base[0].0 == "provenance_standard" && base[1].0 == "content_hash" && base[2].0 == "timestamp"
    requires base[3].0 == "creator" && base[4].0 == "data"
    requires Given(purpose) || GivenTags(tags)
    ensures Get(base + [("metadata", JObj(MetadataOf(purpose, tags)))], "metadata") == Some(JObj(MetadataOf(purpose, tags)))
  {
    IndexOfIs(base + [("metadata", JObj(MetadataOf(purpose, tags)))], "metadata", 5);
  }

  lemma DataBaseKeys(base: Dict)
    requires |base| == 5
    requires base[0].0 == "provenance_standard" && base[1].0 == "content_hash" && base[2].0 == "timestamp"
    requires base[3].0 == "creator" && base[4].0 == "data"
    ensures Keys(base) == DataRequired
  {
    var k := Keys(base);
    assert k[0] == DataRequired[0] && k[1] == DataRequired[1] && k[2] == DataRequired[2];
    assert k[3] == DataRequired[3] && k[4] == DataRequired[4];
  }

  /** The keys of a four-entry dict, entry by entry. */
  lemma KeysOfFour(d: Dict, ks: seq<string>)
    requires |d| == 4 && |ks| == 4
    requires d[0].0 == ks[0] && d[1].0 == ks[1] && d[2].0 == ks[2] && d[3].0 == ks[3]
    ensures Keys(d) == ks
  {
    var k := Keys(d);
    assert k[0] == ks[0] && k[1] == ks[1] && k[2] == ks[2] && k[3] == ks[3];
  }

  lemma SimpleRecordKeys(base: Dict, rest: Dict, description: Option<string>, purpose: Option<string>,
                         source: Option<string>, tags: Option<seq<string>>)
    requires |base| == 4 && base[0].0 == "title" && base[1].0 == "creator" && base[2].0 == "created_at" && base[3].0 == "data"
    requires rest == SimpleOptional(description, purpose, source, tags)
    ensures Keys(base) == SimpleBaseKeys
    ensures Keys(base + rest) == SimpleBaseKeys
                                 + (if Given(description) then ["description"] else [])
                                 + (if Given(purpose) then ["purpose"] else [])
                                 + (if Given(source) then ["source"] else [])
                                 + (if GivenTags(tags) then ["tags"] else [])
  {
    KeysOfFour(base, SimpleBaseKeys);
    SimpleOptionalKeys(description, purpose, source, tags);
    KeysConcat(base, rest);
  }

  /** Adding a key that is not there yet keeps a key list free of repeats. */
  lemma DistinctPush(ks: seq<string>, add: bool, k: string)
    requires Distinct(ks) && k !in ks
    ensures Distinct(ks + (if add then [k] else []))
  {
    if add {
      var ks' := ks + [k];
      forall i, j | 0 <= i < j < |ks'|
        ensures ks'[i] != ks'[j]
      {
        if j == |ks| {
          assert ks'[i] == ks[i];
        }
      }
    } else {
      assert ks + [] == ks;
    }
  }

  /** The keys a simple record can have occur at most once each. */
  lemma SimpleKeysDistinct(description: Option<string>, purpose: Option<string>,
                           source: Option<string>, tags: Option<seq<string>>)
    ensures Distinct(SimpleBaseKeys
                     + (if Given(description) then ["description"] else [])
                     + (if Given(purpose) then ["purpose"] else [])
                     + (if Given(source) then ["source"] else [])
                     + (if GivenTags(tags) then ["tags"] else []))
  {
    var k0 := SimpleBaseKeys;
    var k1 := k0 + (if Given(description) then ["description"] else []);
    var k2 := k1 + (if Given(purpose) then ["purpose"] else []);
    var k3 := k2 + (if Given(source) then ["source"] else []);
    DistinctPush(k0, Given(description), "description");
    DistinctPush(k1, Given(purpose), "purpose");
    DistinctPush(k2, Given(source), "source");
    DistinctPush(k3, GivenTags(tags), "tags");
  }

  /** The keys a data record can have occur at most once each. */
  lemma DataKeysDistinct(add: bool)
    ensures Distinct(DataRequired + (if add then ["metadata"] else []))
  {
    DistinctPush(DataRequired, add, "metadata");
  }

  /** Looking k up past a piece that cannot hold it. */
  lemma SkipPiece(a: Dict, b: Dict, k: string)
    requires k !in Keys(a)
    ensures Get(a + b, k) == Get(b, k)
  {
    GetConcat(a, b, k);
  }

  lemma FirstOfPiece(k: string, v: Option<string>, rest: Dict)
    requires Given(v)
    ensures Get(OptionalStr(k, v) + rest, k) == Some(JStr(v.value))
  {
    IndexOfIs(OptionalStr(k, v) + rest, k, 0);
  }

  lemma DescriptionLookup(description: Option<string>, purpose: Option<string>,
                           source: Option<string>, tags: Option<seq<string>>)
    requires Given(description)
    ensures Get(SimpleOptional(description, purpose, source, tags), "description") == Some(JStr(description.value))
  {
    FirstOfPiece("description", description, OptionalStr("purpose", purpose) + (OptionalStr("source", source) + OptionalTags(tags)));
  }

  lemma PurposeLookup(description: Option<string>, purpose: Option<string>,
                       source: Option<string>, tags: Option<seq<string>>)
    requires Given(purpose)
    ensures Get(SimpleOptional(description, purpose, source, tags), "purpose") == Some(JStr(purpose.value))
  {
    var rest := OptionalStr("source", source) + OptionalTags(tags);
    SkipPiece(OptionalStr("description", description), OptionalStr("purpose", purpose) + rest, "purpose");
    FirstOfPiece("purpose", purpose, rest);
  }

  lemma SourceLookup(description: Option<string>, purpose: Option<string>,
                     source: Option<string>, tags: Option<seq<string>>)
    requires Given(source)
    ensures Get(SimpleOptional(description, purpose, source, tags), "source") == Some(JStr(source.value))
  {
    var rest := OptionalStr("source", source) + OptionalTags(tags);
    SkipPiece(OptionalStr("description", description), OptionalStr("purpose", purpose) + rest, "source");
    SkipPiece(OptionalStr("purpose", purpose), rest, "source");
    FirstOfPiece("source", source, OptionalTags(tags));
  }

  lemma TagsLookup(description: Option<string>, purpose: Option<string>,
                   source: Option<string>, tags: Option<seq<string>>)
    requires GivenTags(tags)
    ensures Get(SimpleOptional(description, purpose, source, tags), "tags") == Some(StrList(tags.value))
  {
    var t := OptionalTags(tags);
    var rest := OptionalStr("source", source) + t;
    SkipPiece(OptionalStr("description", description), OptionalStr("purpose", purpose) + rest, "tags");
    SkipPiece(OptionalStr("purpose", purpose), rest, "tags");
    SkipPiece(OptionalStr("source", source), t, "tags");
    IndexOfIs(t, "tags", 0);
  }
  /** The required fields of a schema type, or None for an unknown type. */
  function RequiredFields(schemaType: string): Option<seq<string>>
  {
    if schemaType == "simple" then Some(SimpleRequired)
    else if schemaType == "data" then Some(DataRequired)
    else None
  }

  function MissingMessage(field: string): string
  {
    "Missing required field: " + field
  }

  /** The error list of the basic check: one message per field of `fields`
      that `record` lacks, in the order of `fields`. */
  function MissingErrors(fields: seq<string>, record: Dict): seq<string>
  {
    if |fields| == 0 then []
    else
      var last := fields[|fields| - 1];
      MissingErrors(fields[..|fields| - 1], record) + (if Has(record, last) then [] else [MissingMessage(last)])
  }

  /** What ProvenanceBuilder._basic_validate returns. */
  function BasicVerdict(record: Dict, schemaType: string): (bool, seq<string>)
  {
    match RequiredFields(schemaType)
    case None => (false, [UnknownSchemaType])
    case Some(fields) =>
      var errors := MissingErrors(fields, record);
      (|errors| == 0, errors)
  }

  /** ProvenanceBuilder._basic_validate: walks the required list and appends
      a message for every absent field. */
  method BasicValidate(record: Dict, schemaType: string) returns (valid: bool, errors: seq<string>)
    ensures (valid, errors) == BasicVerdict(record, schemaType)
  {
    var required := RequiredFields(schemaType);
    if required.None? {
      return false, [UnknownSchemaType];
    }
    var fields := required.value;
    errors := [];
    for i := 0 to |fields|
      invariant errors == MissingErrors(fields[..i], record)
    {
      assert fields[..i + 1][..i] == fields[..i];
      if !Has(record, fields[i]) {
        errors := errors + [MissingMessage(fields[i])];
      }
    }
    assert fields[..|fields|] == fields;
    valid := |errors| == 0;
  }

  /** The schema jsonschema is asked to check against. */
  datatype SchemaKind = SimpleSchema | DataSchema

  /** Whether `import jsonschema` succeeds and, if so, what
      `jsonschema.validate(record, schema)` does: None when it accepts the
      record, Some(str(e)) when it raises. */
  datatype JsonSchemaLib =
    | NotInstalled
    | Installed(validate: (Dict, SchemaKind) -> Option<string>)

  /** ProvenanceBuilder.validate_record. */
  function ValidateRecord(lib: JsonSchemaLib, record: Dict, schemaType: string := "simple"): (bool, seq<string>)
  {
    match lib
    case NotInstalled => BasicVerdict(record, schemaType)
    case Installed(validate) =>
      if schemaType != "simple" && schemaType != "data" then (false, [UnknownSchemaType])
      else
        match validate(record, if schemaType == "simple" then SimpleSchema else DataSchema)
        case None => (true, [])
        case Some(message) => (false, [message])
  }

  // ---- Properties of validation ----

  lemma {:induction false} AllPresentNoErrors(fields: seq<string>, record: Dict)
    requires forall f :: f in fields ==> Has(record, f)
    ensures MissingErrors(fields, record) == []
  {
    if |fields| > 0 {
      AllPresentNoErrors(fields[..|fields| - 1], record);
    }
  }

  lemma {:induction false} NoErrorsAllPresent(fields: seq<string>, record: Dict)
    requires MissingErrors(fields, record) == []
    ensures forall f :: f in fields ==> Has(record, f)
  {
    if |fields| > 0 {
      var init := fields[..|fields| - 1];
      NoErrorsAllPresent(init, record);
      assert fields == init + [fields[|fields| - 1]];
    }
  }

  /** The basic check accepts a record exactly when the schema type is known
      and every required field is present; it is valid exactly when its
      error list is empty. */
  lemma ValidIffAllPresent(record: Dict, schemaType: string)
    ensures BasicVerdict(record, schemaType).0 <==> BasicVerdict(record, schemaType).1 == []
    ensures BasicVerdict(record, schemaType).0 <==>
              RequiredFields(schemaType).Some? && forall f :: f in RequiredFields(schemaType).value ==> Has(record, f)
  {
    if RequiredFields(schemaType).Some? {
      var fields := RequiredFields(schemaType).value;
      if MissingErrors(fields, record) == [] {
        NoErrorsAllPresent(fields, record);
      } else if forall f :: f in fields ==> Has(record, f) {
        AllPresentNoErrors(fields, record);
      }
    }
  }

  lemma MissingMessageInjective(f: string, g: string)
    requires MissingMessage(f) == MissingMessage(g)
    ensures f == g
  {
    var p := "Missing required field: ";
    assert f == MissingMessage(f)[|p|..];
    assert g == MissingMessage(g)[|p|..];
  }

  /** With distinct required fields, the error list holds the message for f
      exactly once when f is required and absent, and not at all otherwise. */
  lemma {:induction false} MissingErrorsCount(fields: seq<string>, record: Dict, f: string)
    requires forall i, j :: 0 <= i < j < |fields| ==> fields[i] != fields[j]
    ensures multiset(MissingErrors(fields, record))[MissingMessage(f)]
            == if f in fields && !Has(record, f) then 1 else 0
  {
    if |fields| > 0 {
      var init := fields[..|fields| - 1];
      var last := fields[|fields| - 1];
      MissingErrorsCount(init, record, f);
      assert fields == init + [last];
      if !Has(record, last) && MissingMessage(last) == MissingMessage(f) {
        MissingMessageInjective(last, f);
        assert last !in init;
      }
    }
  }

  /** Each required field absent from a record is reported exactly once, by
      name, and nothing else is reported. */
  lemma BasicVerdictReportsEachAbsentField(record: Dict, schemaType: string, f: string)
    requires RequiredFields(schemaType).Some?
    ensures multiset(BasicVerdict(record, schemaType).1)[MissingMessage(f)]
            == if f in RequiredFields(schemaType).value && !Has(record, f) then 1 else 0
    ensures forall e :: e in BasicVerdict(record, schemaType).1 ==>
              exists g :: g in RequiredFields(schemaType).value && !Has(record, g) && e == MissingMessage(g)
  {
    var fields := RequiredFields(schemaType).value;
    MissingErrorsCount(fields, record, f);
    MissingErrorsFromAbsent(fields, record);
  }

  lemma {:induction false} MissingErrorsFromAbsent(fields: seq<string>, record: Dict)
    ensures forall e :: e in MissingErrors(fields, record) ==>
              exists g :: g in fields && !Has(record, g) && e == MissingMessage(g)
  {
    if |fields| > 0 {
      var init := fields[..|fields| - 1];
      MissingErrorsFromAbsent(init, record);
      assert fields == init + [fields[|fields| - 1]];
    }
  }

  /** validate_record reports a record valid exactly when it reports no
      error, and only for a known schema type. Without jsonschema that is the
      basic check, so valid means every required field is present; with it,
      valid means jsonschema accepts the record against the schema of its
      type, and a rejection's message is the one error reported. */
  lemma ValidateRecordVerdict(lib: JsonSchemaLib, record: Dict, schemaType: string)
    ensures var v := ValidateRecord(lib, record, schemaType);
            && (v.0 <==> v.1 == [])
            && (v.0 ==> RequiredFields(schemaType).Some?)
            && (lib.NotInstalled? ==> v == BasicVerdict(record, schemaType))
            && (lib.NotInstalled? ==>
                  (v.0 <==> RequiredFields(schemaType).Some? && forall f :: f in RequiredFields(schemaType).value ==> Has(record, f)))
            && (lib.Installed? && RequiredFields(schemaType).Some? ==>
                  var verdict := lib.validate(record, if schemaType == "simple" then SimpleSchema else DataSchema);
                  (v.0 <==> verdict.None?) && (verdict.Some? ==> v.1 == [verdict.value]))
  {
    ValidIffAllPresent(record, schemaType);
  }

  /** Any schema type other than "simple" and "data" is refused with the same
      single message, whether or not jsonschema is installed. */
  lemma UnknownSchemaTypeRefused(lib: JsonSchemaLib, record: Dict, schemaType: string)
    requires schemaType != "simple" && schemaType != "data"
    ensures ValidateRecord(lib, record, schemaType) == (false, [UnknownSchemaType])
    ensures BasicVerdict(record, schemaType) == (false, [UnknownSchemaType])
  {
  }
}

/** A distinct bucket as the bytes it is stored as: its fields in the envelope's header, its
    members or the library's sketch as the payload. */
module SketchFile {
  import opened Wrappers
  import opened Bytes
  import opened Envelope
  import HD = HybridDistinct

  /** The sketch library's own form of a sketch. */
  datatype Library = Library(version: string, write: set<HD.Digest> -> seq<byte>,
      read: seq<byte> -> Option<set<HD.Digest>>)

  datatype Bucket = Bucket(
    identity: HD.Identity, start: string, end: string, threshold: nat, bytes: nat, sketch: HD.Sketch,
        reason: Option<string>)

  /** What the header says about the estimate; nobody reads it back. */
  datatype Estimates = Estimates(estimate: Value, lower: Value, upper: Value)

  datatype FileError =
    | BadEnvelope(error: EnvelopeError)
    | BadField
    | BadLimits
    | KeyDiffers
    | BadPayload(raised: HD.Raised)

  datatype Opened = Loaded(bucket: Bucket) | Refused(why: FileError)

  /** What the constructor accepts. */
  predicate Valid(b: Bucket) {
    && b.threshold >= 1 && b.bytes >= HD.ENTRY_BYTES
    && 4 <= b.identity.lgK <= 21 && b.identity.target in {"HLL_4", "HLL_6", "HLL_8"}
  }

  function ModeText(mode: HD.Mode): string {
    match mode
    case EXACT => "EXACT"
    case HLL => "HLL"
    case UNAVAILABLE => "UNAVAILABLE"
  }

  function ModeOf(text: string): Option<HD.Mode> {
    if text == "EXACT" then Some(HD.EXACT)
    else if text == "HLL" then Some(HD.HLL)
    else if text == "UNAVAILABLE" then Some(HD.UNAVAILABLE)
    else None
  }

  function ReasonValue(reason: Option<string>): Value {
    if reason.Some? then Text(reason.value) else Null
  }

  function ParametersOf(b: Bucket): map<Name, Value> {
    map[ExactThreshold := Number(b.threshold), ExactBytesLimit := Number(b.bytes),
        HllLgK := Number(b.identity.lgK), HllTargetType := Text(b.identity.target)]
  }

  function MetadataOf(b: Bucket, version: string, e: Estimates): Metadata {
    map[MetricName := Text(b.identity.metric), Scope := Text(b.identity.scope),
        BucketStart := Text(b.start), BucketEnd := Text(b.end),
        ModeName := Text(ModeText(b.sketch.mode)),
        SketchKind := Text(if b.sketch.mode == HD.HLL then "hll" else "exact_set"),
        Parameters := Object(ParametersOf(b)),
        KeyVersion := Number(b.identity.keyVersion), KeyId := Text(b.identity.keyId),
        LibraryName := Text("apache-datasketches"), LibraryVersion := Text(version),
        ItemUpdates := Number(b.sketch.updates),
        Estimate := e.estimate, LowerBound := e.lower, UpperBound := e.upper,
        DegradedReason := ReasonValue(b.reason)]
  }

  /** The payload; `list` is the sorted list of the members. */
  function PayloadOf(lib: Library, b: Bucket, list: seq<HD.Digest>): seq<byte> {
    if b.sketch.mode == HD.HLL then lib.write(b.sketch.members) else Join(HD.Encoded(list))
  }

  function Serialize(c: Codec, lib: Library, b: Bucket, list: seq<HD.Digest>, e: Estimates): Result<seq<byte>> {
    Pack(c, MetadataOf(b, lib.version, e), PayloadOf(lib, b, list))
  }

  function TextAt(m: map<Name, Value>, name: Name): Option<string> {
    if name in m && m[name].Text? then Some(m[name].s) else None
  }

  function NumberAt(m: map<Name, Value>, name: Name): Option<nat> {
    if name in m && m[name].Number? && m[name].n >= 0 then Some(m[name].n) else None
  }

  /** The fields of a header, with an empty sketch. */
  function FieldsOf(m: Metadata): Option<Bucket> {
    var q := if Parameters in m && m[Parameters].Object? then m[Parameters].fields else map[];
    var metric, scope, start, end := TextAt(m, MetricName), TextAt(m, Scope), TextAt(m, BucketStart),
        TextAt(m, BucketEnd);
    var keyVersion, keyId := NumberAt(m, KeyVersion), TextAt(m, KeyId);
    var threshold, bytes := NumberAt(q, ExactThreshold), NumberAt(q, ExactBytesLimit);
    var lgK, target := NumberAt(q, HllLgK), TextAt(q, HllTargetType);
    if metric.None? || scope.None? || start.None? || end.None? || keyVersion.None? || keyId.None?
       || threshold.None? || bytes.None? || lgK.None? || target.None? then None
    else
      Some(Bucket(HD.Identity(metric.value, scope.value, keyVersion.value, keyId.value, lgK.value, target.value),
                  start.value, end.value, threshold.value, bytes.value, HD.Empty, TextAt(m, DegradedReason)))
  }

  /** A missing or null count is zero. */
  function UpdatesOf(m: Metadata): Option<nat> {
    if ItemUpdates !in m || m[ItemUpdates] == Null then Some(0) else NumberAt(m, ItemUpdates)
  }

  function StoredOf(lib: Option<Library>, mode: HD.Mode, blob: seq<byte>, updates: nat): HD.Stored {
    if mode == HD.HLL && lib.Some? && lib.value.read(blob).Some?
    then HD.Stored(mode, HD.LibraryBlob(lib.value.read(blob).value), updates)
    else HD.Stored(mode, HD.MemberBytes(blob), updates)
  }

  /** deserialize, with the key and the library of the reader. */
  function Deserialize(c: Codec, lib: Option<Library>, keyId: string, estimate: set<HD.Digest> -> real,
      data: seq<byte>): Opened {
    var unpacked := Unpack(c, data);
    if unpacked.Err? then Refused(BadEnvelope(unpacked.error))
    else
      var m, blob := unpacked.value.0, unpacked.value.1;
      var fields, modeText, updates := FieldsOf(m), TextAt(m, ModeName), UpdatesOf(m);
      if fields.None? then Refused(BadField)
      else if !Valid(fields.value) then Refused(BadLimits)
      else if fields.value.identity.keyId != keyId then Refused(KeyDiffers)
      else if modeText.None? || ModeOf(modeText.value).None? || updates.None? then Refused(BadField)
      else
        var l := HD.Settings(fields.value.threshold, fields.value.bytes, lib.Some?, estimate);
        var o := HD.Deserialized(l, StoredOf(lib, ModeOf(modeText.value).value, blob, updates.value));
        if o.raised != HD.Nothing then Refused(BadPayload(o.raised)) else Loaded(fields.value.(sketch := o.sketch))
  }

  // ------------------------------------------------------------------ round trip

  lemma TextFields(c: Codec, b: Bucket, version: string, e: Estimates, blob: seq<byte>)
    ensures var m := Header(c, MetadataOf(b, version, e), blob);
            && TextAt(m, MetricName) == Some(b.identity.metric) && TextAt(m, Scope) == Some(b.identity.scope)
            && TextAt(m, BucketStart) == Some(b.start) && TextAt(m, BucketEnd) == Some(b.end)
            && TextAt(m, KeyId) == Some(b.identity.keyId) && TextAt(m, DegradedReason) == b.reason
            && TextAt(m, ModeName) == Some(ModeText(b.sketch.mode))
  {
    hide ModeText, ParametersOf;
  }

  lemma OtherFields(c: Codec, b: Bucket, version: string, e: Estimates, blob: seq<byte>)
    ensures var m := Header(c, MetadataOf(b, version, e), blob);
            && NumberAt(m, KeyVersion) == Some(b.identity.keyVersion)
            && UpdatesOf(m) == Some(b.sketch.updates)
            && Parameters in m && m[Parameters] == Object(ParametersOf(b))
  {
    hide ModeText, ParametersOf;
  }

  lemma ParameterFields(b: Bucket)
    ensures var q := ParametersOf(b);
            && NumberAt(q, ExactThreshold) == Some(b.threshold) && NumberAt(q, ExactBytesLimit) == Some(b.bytes)
            && NumberAt(q, HllLgK) == Some(b.identity.lgK) && TextAt(q, HllTargetType) == Some(b.identity.target)
  {
  }

  lemma ModeRoundTrip(mode: HD.Mode)
    ensures ModeOf(ModeText(mode)) == Some(mode)
  {
  }

  lemma FieldsRoundTrip(c: Codec, b: Bucket, version: string, e: Estimates, blob: seq<byte>)
    ensures var m := Header(c, MetadataOf(b, version, e), blob);
            && FieldsOf(m) == Some(b.(sketch := HD.Empty))
            && TextAt(m, ModeName) == Some(ModeText(b.sketch.mode))
            && UpdatesOf(m) == Some(b.sketch.updates)
  {
    hide TextAt, NumberAt, UpdatesOf, MetadataOf, Header, ParametersOf, ModeText;
    TextFields(c, b, version, e, blob);
    OtherFields(c, b, version, e, blob);
    ParameterFields(b);
  }

  /** The reader's library understands what the writer's wrote. */
  predicate Understands(reader: Library, writer: Library, members: set<HD.Digest>) {
    reader.read(writer.write(members)) == Some(members)
  }

  lemma PayloadRoundTrip(l: HD.Settings, reader: Option<Library>, writer: Library, b: Bucket, list: seq<HD.Digest>)
    requires HD.Ascending(list, b.sketch.members) && l.library == reader.Some?
    requires b.sketch.mode == HD.HLL && reader.Some? ==> Understands(reader.value, writer, b.sketch.members)
    ensures HD.Deserialized(l, StoredOf(reader, b.sketch.mode, PayloadOf(writer, b, list), b.sketch.updates))
            == if b.sketch.mode == HD.HLL && !l.library then HD.Outcome(HD.Empty, HD.LibraryMissing)
               else if b.sketch.mode == HD.HLL || HD.WithinGuard(l, |b.sketch.members|)
                   then HD.Outcome(b.sketch, HD.Nothing)
               else HD.Outcome(HD.Empty, HD.OverBound)
  {
    HD.BucketRoundTrip(l, b.sketch, list);
    hide HD.Encoded, HD.MembersIn, Join, HD.WithinGuard, HD.Ascending;
  }

  /** A bucket, written to bytes and read back with its own key, is the same in every field,
      member and count; unless its header is over the limit, or it is an HLL sketch and the
      library is gone, or its set is over the guard. */
  lemma FileRoundTrip(c: Codec, reader: Option<Library>, writer: Library, estimate: set<HD.Digest> -> real,
                      b: Bucket, list: seq<HD.Digest>, e: Estimates)
    requires Valid(b) && HD.Ascending(list, b.sketch.members)
    requires b.sketch.mode == HD.HLL && reader.Some? ==> Understands(reader.value, writer, b.sketch.members)
    requires RoundTrips(c, Header(c, MetadataOf(b, writer.version, e), PayloadOf(writer, b, list)))
    ensures var data := Serialize(c, writer, b, list, e);
            var l := HD.Settings(b.threshold, b.bytes, reader.Some?, estimate);
            if data.Err? then data == Err(TooLarge)
            else
              Deserialize(c, reader, b.identity.keyId, estimate, data.value)
              == if b.sketch.mode == HD.HLL && reader.None? then Refused(BadPayload(HD.LibraryMissing))
                 else if b.sketch.mode == HD.HLL || HD.WithinGuard(l, |b.sketch.members|) then Loaded(b)
                 else Refused(BadPayload(HD.OverBound))
  {
    hide HD.Deserialized, StoredOf, PayloadOf, MetadataOf, FieldsOf, TextAt, UpdatesOf, ModeText, ModeOf, Pack,
        Unpack, Header,
         RoundTrips, HD.Ascending, HD.WithinGuard, Understands, Valid;
    var blob := PayloadOf(writer, b, list);
    var m := MetadataOf(b, writer.version, e);
    PackUnpack(c, m, blob);
    FieldsRoundTrip(c, b, writer.version, e, blob);
    ModeRoundTrip(b.sketch.mode);
    ValidFields(b);
    PayloadRoundTrip(HD.Settings(b.threshold, b.bytes, reader.Some?, estimate), reader, writer, b, list);
  }

  lemma ValidFields(b: Bucket)
    ensures Valid(b.(sketch := HD.Empty)) == Valid(b)
  {
  }

  /** Every bucket that can come about with the library, and every EXACT one at all, is read
      back whole. */
  lemma ReachableRoundTrip(c: Codec, reader: Option<Library>, writer: Library, l: HD.Settings, build: HD.Build,
                           b: Bucket, list: seq<HD.Digest>, e: Estimates)
    requires Valid(b) && l.threshold == b.threshold && l.bytes == b.bytes && HD.Value(l, build) == Some(b.sketch)
    requires HD.Ascending(list, b.sketch.members)
    requires b.sketch.mode == HD.EXACT
             || (l.library && reader.Some? && Understands(reader.value, writer, b.sketch.members))
    requires RoundTrips(c, Header(c, MetadataOf(b, writer.version, e), PayloadOf(writer, b, list)))
    ensures var data := Serialize(c, writer, b, list, e);
            data.Ok? ==> Deserialize(c, reader, b.identity.keyId, l.estimate, data.value) == Loaded(b)
  {
    FileRoundTrip(c, reader, writer, l.estimate, b, list, e);
    assert l.Valid();
    if b.sketch.mode == HD.EXACT { HD.ExactWithinGuard(l, build); } else { HD.BuildIsCanonical(l, build); }
    hide Deserialize, Serialize, HD.Value, HD.Ascending, MetadataOf, PayloadOf, Header;
  }
}

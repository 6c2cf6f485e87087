/** The checksum envelope every persisted sketch is wrapped in: magic, four-byte
    big-endian header length, JSON header, payload. */
module Envelope {
  import opened Wrappers
  import opened Bytes

  /** A JSON value; a number that is no integer is kept as its text. */
  datatype Value =
    | Null
    | Truth(b: bool)
    | Number(n: int)
    | Decimal(text: string)
    | Text(s: string)
    | List(items: seq<Value>)
    | Object(fields: map<Name, Value>)

  /** The member names of the headers, and any other. */
  datatype Name =
    | SerializationVersion | Checksum
    | MetricName | Scope | BucketStart | BucketEnd | ModeName | SketchKind | Parameters | KeyVersion | KeyId
    | LibraryName | LibraryVersion | ItemUpdates | Estimate | LowerBound | UpperBound | DegradedReason
    | ExactThreshold | ExactBytesLimit | HllLgK | HllTargetType
    | Other(name: string)

  type Metadata = map<Name, Value>

  /** The JSON text codec and the payload digest, as uninterpreted functions. */
  datatype Codec = Codec(encode: Metadata -> seq<byte>, decode: seq<byte> -> Option<Metadata>,
      digest: seq<byte> -> string)

  /** The codec reads back what it wrote. */
  predicate RoundTrips(c: Codec, m: Metadata) {
    c.decode(c.encode(m)) == Some(m)
  }

  const MAGIC: seq<byte> := [72, 65, 76, 83, 75, 48, 49, 0]
  const SERIALIZATION_VERSION := 1
  const HEADER_LIMIT: nat := 1_000_000

  datatype EnvelopeError = TooLarge | BadMagic | BadLength | BadMetadata | BadVersion | BadChecksum

  datatype Result<+T> = Ok(value: T) | Err(error: EnvelopeError)

  function Header(c: Codec, metadata: Metadata, blob: seq<byte>): Metadata {
    metadata[SerializationVersion := Number(SERIALIZATION_VERSION)][Checksum := Text(c.digest(blob))]
  }

  function Pack(c: Codec, metadata: Metadata, blob: seq<byte>): Result<seq<byte>> {
    var encoded := c.encode(Header(c, metadata, blob));
    if |encoded| > HEADER_LIMIT then Err(TooLarge)
    else
      LimitFits(|encoded|);
      Ok(MAGIC + BigEndian(|encoded|, 4) + encoded + blob)
  }

  lemma LimitFits(n: nat)
    requires n <= HEADER_LIMIT
    ensures n < Pow256(4)
  {
    assert Pow256(1) == 256 && Pow256(2) == 65_536 && Pow256(3) == 16_777_216 && Pow256(4) == 4_294_967_296;
  }

  function Unpack(c: Codec, data: seq<byte>): Result<(Metadata, seq<byte>)> {
    if !(MAGIC <= data) || |data| < |MAGIC| + 4 then Err(BadMagic)
    else
      var length := FromBigEndian(data[|MAGIC|..|MAGIC| + 4]);
      var start := |MAGIC| + 4;
      if length > HEADER_LIMIT || start + length > |data| then Err(BadLength)
      else
        var decoded := c.decode(data[start..start + length]);
        if decoded.None? then Err(BadMetadata)
        else
          var metadata, blob := decoded.value, data[start + length..];
          if !(SerializationVersion in metadata) || metadata[SerializationVersion] != Number(SERIALIZATION_VERSION)
              then Err(BadVersion)
          else if !(Checksum in metadata) || metadata[Checksum] != Text(c.digest(blob)) then Err(BadChecksum)
          else Ok((metadata, blob))
  }

  lemma Parts<T>(a: seq<T>, b: seq<T>, c: seq<T>, d: seq<T>)
    ensures var s := a + b + c + d;
            && |s| == |a| + |b| + |c| + |d| && a <= s
            && s[|a|..|a| + |b|] == b
            && s[|a| + |b|..|a| + |b| + |c|] == c
            && s[|a| + |b| + |c|..] == d
  {
  }

  lemma Pieces<T>(s: seq<T>, i: nat, j: nat, k: nat)
    requires i <= j <= k <= |s|
    ensures s == s[..i] + s[i..j] + s[j..k] + s[k..]
  {
  }

  /** Where an accepted envelope's header and payload are. */
  lemma Layout(encoded: seq<byte>, blob: seq<byte>, data: seq<byte>)
    requires |encoded| < Pow256(4) && data == MAGIC + BigEndian(|encoded|, 4) + encoded + blob
    ensures var start := |MAGIC| + 4;
            && MAGIC <= data && |data| == start + |encoded| + |blob|
            && FromBigEndian(data[|MAGIC|..start]) == |encoded|
            && data[start..start + |encoded|] == encoded && data[start + |encoded|..] == blob
  {
    BigEndianRoundTrip(|encoded|, 4);
    hide BigEndian, FromBigEndian, Pow256;
    Parts(MAGIC, BigEndian(|encoded|, 4), encoded, blob);
  }

  /** Unpacking what was packed gives the metadata, with version and checksum, and the
      payload; packing fails exactly when the header is over the limit. */
  lemma PackUnpack(c: Codec, metadata: Metadata, blob: seq<byte>)
    requires RoundTrips(c, Header(c, metadata, blob))
    ensures var packed := Pack(c, metadata, blob);
            if |c.encode(Header(c, metadata, blob))| <= HEADER_LIMIT
            then packed.Ok? && Unpack(c, packed.value) == Ok((Header(c, metadata, blob), blob))
            else packed == Err(TooLarge)
  {
    var header := Header(c, metadata, blob);
    var encoded := c.encode(header);
    if |encoded| <= HEADER_LIMIT {
      LimitFits(|encoded|);
      assert c.decode(encoded) == Some(header);
      Layout(encoded, blob, Pack(c, metadata, blob).value);
      hide Pow256, BigEndian, FromBigEndian;
    }
  }

  lemma AcceptedParts(c: Codec, data: seq<byte>, metadata: Metadata, blob: seq<byte>)
    requires Unpack(c, data) == Ok((metadata, blob))
    ensures |data| >= |MAGIC| + 4 && data[..|MAGIC|] == MAGIC
    ensures var start := |MAGIC| + 4;
            var length := FromBigEndian(data[|MAGIC|..start]);
            && length <= HEADER_LIMIT && start + length <= |data|
            && c.decode(data[start..start + length]) == Some(metadata) && blob == data[start + length..]
  {
    hide FromBigEndian;
  }

  lemma LengthBytes(b: seq<byte>)
    requires |b| == 4
    ensures FromBigEndian(b) < Pow256(4) && BigEndian(FromBigEndian(b), 4) == b
  {
    FromBigEndianRoundTrip(b);
  }

  /** Only such envelopes are accepted: the layout is that of pack, the header decodes to
      the metadata returned, and carries the version and the payload's checksum. */
  lemma UnpackAcceptsOnlyPacked(c: Codec, data: seq<byte>, metadata: Metadata, blob: seq<byte>)
      returns (encoded: seq<byte>)
    requires Unpack(c, data) == Ok((metadata, blob))
    ensures |encoded| <= HEADER_LIMIT && |encoded| < Pow256(4)
    ensures data == MAGIC + BigEndian(|encoded|, 4) + encoded + blob
    ensures c.decode(encoded) == Some(metadata) && Header(c, metadata, blob) == metadata
  {
    HeaderOfAccepted(c, data, metadata, blob);
    AcceptedParts(c, data, metadata, blob);
    hide *;
    var start := |MAGIC| + 4;
    var bytes := data[|MAGIC|..start];
    LengthBytes(bytes);
    var length := FromBigEndian(bytes);
    encoded := data[start..start + length];
    Pieces(data, |MAGIC|, start, start + length);
  }

  lemma HeaderOfAccepted(c: Codec, data: seq<byte>, metadata: Metadata, blob: seq<byte>)
    requires Unpack(c, data) == Ok((metadata, blob))
    ensures Header(c, metadata, blob) == metadata
  {
    hide FromBigEndian;
  }

  /** Behind a packed header another payload, longer or shorter, passes if and only if it
      has the same digest. */
  lemma PayloadIsBound(c: Codec, metadata: Metadata, blob: seq<byte>, other: seq<byte>)
    requires RoundTrips(c, Header(c, metadata, blob))
    requires |c.encode(Header(c, metadata, blob))| <= HEADER_LIMIT
    ensures |c.encode(Header(c, metadata, blob))| < Pow256(4)
    ensures var head := MAGIC + BigEndian(|c.encode(Header(c, metadata, blob))|, 4)
            + c.encode(Header(c, metadata, blob));
            && Pack(c, metadata, blob) == Ok(head + blob)
            && Unpack(c, head + other)
               == if c.digest(other) == c.digest(blob) then Ok((Header(c, metadata, blob), other)) else Err(BadChecksum)
  {
    var header := Header(c, metadata, blob);
    var encoded := c.encode(header);
    LimitFits(|encoded|);
    Layout(encoded, other, MAGIC + BigEndian(|encoded|, 4) + encoded + other);
    hide Pow256, BigEndian, FromBigEndian;
  }
}

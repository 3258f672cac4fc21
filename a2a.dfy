/** `A2AEnvelope`: a five-field message envelope and its A2A dictionary form. */
module A2A {
  import opened Json
  import opened Effects

  const DefaultProtocol: string := "a2a/1.0"
  const DefaultLayer: string := "amorce/3.0"
  const Algorithm: string := "ed25519"
  const MetadataVersion: string := "1.0"

  /** The dataclass, with its two defaulted fields. Its fields are annotated `str` (all but
      `message`), but nothing checks that, and `from_dict` stores whatever the dictionary
      holds. */
  datatype Envelope = Envelope(
    senderId: Json,
    message: Json,
    signature: Json,
    protocolVersion: Json := Str(DefaultProtocol),
    securityLayer: Json := Str(DefaultLayer))

  /** `to_dict`; `now` is the text of `datetime.utcnow().isoformat()`. */
  function ToDict(e: Envelope, now: string): Json
  {
    Obj(map[
      "protocol" := e.protocolVersion,
      "security" := Obj(map[
        "layer" := e.securityLayer,
        "sender_id" := e.senderId,
        "signature" := e.signature,
        "algorithm" := Str(Algorithm)]),
      "payload" := Obj(map["message" := e.message]),
      "metadata" := Obj(map["timestamp" := Str(now + "Z"), "version" := Str(MetadataVersion)])])
  }

  /** `from_dict`, reading the keyword arguments in the order Python evaluates them. */
  function FromDict(data: Json): Result<Envelope>
  {
    var security :- Index(data, "security");
    var senderId :- Index(security, "sender_id");
    var payload :- Index(data, "payload");
    var message :- Index(payload, "message");
    var signature :- Index(security, "signature");
    var protocol :- Get(data, "protocol", Str(DefaultProtocol));
    var layer :- Get(security, "layer", Str(DefaultLayer));
    Ok(Envelope(senderId, message, signature, protocol, layer))
  }

  /** Decoding the encoded form gives back all five fields, whatever the timestamp. */
  lemma RoundTrip(e: Envelope, now: string)
    ensures FromDict(ToDict(e, now)) == Ok(e)
  {
  }

  /** Where `to_dict` puts each field, and the tags it always writes. */
  lemma ToDictLayout(e: Envelope, now: string)
    ensures var d := ToDict(e, now);
      Index(d, "protocol") == Ok(e.protocolVersion)
      && Index(d, "security").Ok? && Index(d, "payload").Ok? && Index(d, "metadata").Ok?
      && Index(Index(d, "security").value, "layer") == Ok(e.securityLayer)
      && Index(Index(d, "security").value, "sender_id") == Ok(e.senderId)
      && Index(Index(d, "security").value, "signature") == Ok(e.signature)
      && Index(Index(d, "security").value, "algorithm") == Ok(Str("ed25519"))
      && Index(Index(d, "payload").value, "message") == Ok(e.message)
      && Index(Index(d, "metadata").value, "version") == Ok(Str("1.0"))
      && Index(Index(d, "metadata").value, "timestamp") == Ok(Str(now + "Z"))
      && d.fields.Keys == {"protocol", "security", "payload", "metadata"}
  {
  }

  /** The dictionaries `from_dict` accepts: the three required keys are present. */
  ghost predicate Decodable(data: Json)
  {
    && data.Obj? && "security" in data.fields && "payload" in data.fields
    && data.fields["security"].Obj?
    && "sender_id" in data.fields["security"].fields && "signature" in data.fields["security"].fields
    && data.fields["payload"].Obj? && "message" in data.fields["payload"].fields
  }

  /** Decoding succeeds exactly on those dictionaries; the missing version and layer
      fall back to "a2a/1.0" and "amorce/3.0", and every other field is read as is. */
  lemma DecodeAcceptsExactly(data: Json)
    ensures FromDict(data).Ok? <==> Decodable(data)
    ensures FromDict(data).Ok? ==>
      var e := FromDict(data).value;
      var security := data.fields["security"].fields;
      && e.senderId == security["sender_id"]
      && e.signature == security["signature"]
      && e.message == data.fields["payload"].fields["message"]
      && e.protocolVersion == (if "protocol" in data.fields then data.fields["protocol"] else Str("a2a/1.0"))
      && e.securityLayer == (if "layer" in security then security["layer"] else Str("amorce/3.0"))
  {
  }

  /** A missing required key raises KeyError naming the first one Python looks up. */
  lemma DecodeMissingKey(data: Json)
    requires data.Obj?
    ensures "security" !in data.fields ==> FromDict(data) == Err(KeyError("security"))
    ensures "security" in data.fields && data.fields["security"].Obj? ==>
      var security := data.fields["security"].fields;
      && ("sender_id" !in security ==> FromDict(data) == Err(KeyError("sender_id")))
      && ("sender_id" in security && "payload" !in data.fields ==> FromDict(data) == Err(KeyError("payload")))
      && (("sender_id" in security && "payload" in data.fields && data.fields["payload"].Obj?
           && "message" !in data.fields["payload"].fields) ==> FromDict(data) == Err(KeyError("message")))
      && (("sender_id" in security && "payload" in data.fields && data.fields["payload"].Obj?
           && "message" in data.fields["payload"].fields && "signature" !in security)
          ==> FromDict(data) == Err(KeyError("signature")))
  {
  }

  /** The envelope of the package's own test: default protocol, sender and message are
      where the test looks for them. */
  lemma DefaultEnvelopeEncoding(now: string)
    ensures var d := ToDict(Envelope(Str("test_crew"), Str("Test message"), Str("fake_sig")), now);
      && Index(d, "protocol") == Ok(Str("a2a/1.0"))
      && Index(d, "security").Ok? && Index(Index(d, "security").value, "sender_id") == Ok(Str("test_crew"))
      && Index(d, "payload").Ok? && Index(Index(d, "payload").value, "message") == Ok(Str("Test message"))
  {
    ToDictLayout(Envelope(Str("test_crew"), Str("Test message"), Str("fake_sig")), now);
  }
}

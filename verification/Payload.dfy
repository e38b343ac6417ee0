/** The payload codec: ToPayload and ReadPayload (json.go) over the compression and
    crypto dispatchers. gzip, zstd, AES-GCM and JSON marshalling are library code;
    they are functions of a Library that satisfies the stated laws. AES-GCM framing
    follows section 5.2 of RFC 5116: a 12-octet nonce and a 16-octet tag. */
module Payload {
  import opened Sequences

  type Bytes = seq<bv8>

  const NONCE_SIZE: nat := 12
  const TAG_SIZE: nat := 16

  datatype Error =
    | MarshalFailed
    | CompressFailed
    | DecompressFailed
    | EmptyDataOrKey
    | BadKeyLength
    | NoRandomness
    | TooShortOrNoKey
    | AuthenticationFailed

  datatype Result<+T> = Ok(value: T) | Err(error: Error)

  datatype Algorithm = Gzip | Zstd

  datatype CompressionConfig = CompressionConfig(enabled: bool, kind: string)

  datatype EncryptionConfig = EncryptionConfig(enabled: bool, kind: string, hashkey: Bytes)

  /** What the caller hands to ToPayload: bytes as they are, or a value to marshal. */
  datatype Input<V> = Raw(data: Bytes) | Value(value: V)

  /** The library codecs. `seal` yields ciphertext and tag without the nonce. A
      compressor that fails may have written something; a decompressor that fails may
      have read part of its input. */
  datatype Library<!V> = Library(
    marshal: V -> Option<Bytes>,
    compress: (Algorithm, Bytes) -> Option<Bytes>,
    written: (Algorithm, Bytes) -> Bytes,
    decompress: (Algorithm, Bytes) -> Option<Bytes>,
    unread: (Algorithm, Bytes) -> nat,
    seal: (Bytes, Bytes, Bytes) -> Bytes,
    open: (Bytes, Bytes, Bytes) -> Option<Bytes>)

  /** Each codec is inverted by its partner, and sealing adds one tag. */
  ghost predicate Laws<V>(lib: Library<V>)
  {
    && (forall a: Algorithm, x: Bytes :: lib.compress(a, x).Some? ==> lib.decompress(a, lib.compress(a, x).value) == Some(x))
    && (forall k: Bytes, n: Bytes, x: Bytes :: |lib.seal(k, n, x)| == |x| + TAG_SIZE)
    && (forall k: Bytes, n: Bytes, x: Bytes :: lib.open(k, n, lib.seal(k, n, x)) == Some(x))
  }

  /** aes.NewCipher accepts exactly these keys. */
  predicate ValidKey(key: Bytes) { |key| == 16 || |key| == 24 || |key| == 32 }

  /** Any type string but "zstd" means gzip. */
  function AlgorithmOf(kind: string): Algorithm { if kind == "zstd" then Zstd else Gzip }

  predicate Compresses(conf: Option<CompressionConfig>) { conf.Some? && conf.value.enabled }

  predicate Encrypts(conf: Option<EncryptionConfig>) { conf.Some? && conf.value.enabled }

  // ---------- Framing ----------

  /** nonce ++ ciphertext ++ tag. */
  function EncryptWithAes<V>(lib: Library<V>, data: Bytes, key: Bytes, nonce: Option<Bytes>): Result<Bytes>
    requires nonce.Some? ==> |nonce.value| == NONCE_SIZE
  {
    if data == [] || key == [] then Err(EmptyDataOrKey)
    else if !ValidKey(key) then Err(BadKeyLength)
    else if nonce.None? then Err(NoRandomness)
    else Ok(nonce.value + lib.seal(key, nonce.value, data))
  }

  function DecryptWithAes<V>(lib: Library<V>, framed: Bytes, key: Bytes): Result<Bytes>
  {
    if framed == [] || key == [] || |framed| <= NONCE_SIZE then Err(TooShortOrNoKey)
    else if !ValidKey(key) then Err(BadKeyLength)
    else
      match lib.open(key, framed[..NONCE_SIZE], framed[NONCE_SIZE..])
      case Some(data) => Ok(data)
      case None => Err(AuthenticationFailed)
  }

  /** Encryption succeeds exactly on non-empty data with a 16, 24 or 32 byte key
      and a nonce; its output is 12 + n + 16 bytes and decrypts to the data. */
  lemma EncryptionRoundTrip<V>(lib: Library<V>, data: Bytes, key: Bytes, nonce: Option<Bytes>)
    requires Laws(lib) && (nonce.Some? ==> |nonce.value| == NONCE_SIZE)
    ensures EncryptWithAes(lib, data, key, nonce).Ok? <==> data != [] && ValidKey(key) && nonce.Some?
    ensures EncryptWithAes(lib, data, key, nonce).Ok? ==>
      var framed := EncryptWithAes(lib, data, key, nonce).value;
      |framed| == NONCE_SIZE + |data| + TAG_SIZE && DecryptWithAes(lib, framed, key) == Ok(data)
  {
    if EncryptWithAes(lib, data, key, nonce).Ok? {
      var sealed := lib.seal(key, nonce.value, data);
      var framed := nonce.value + sealed;
      assert framed[..NONCE_SIZE] == nonce.value && framed[NONCE_SIZE..] == sealed;
    }
  }

  /** The cipher is authentic: it opens nothing but what was sealed with that key and
      nonce. */
  ghost predicate Authentic<V>(lib: Library<V>)
  {
    forall k: Bytes, n: Bytes, x: Bytes :: lib.open(k, n, x).Some? ==> x == lib.seal(k, n, lib.open(k, n, x).value)
  }

  /** The bytes are a nonce and a sealing of some data under the key. */
  ghost predicate SealedUnder<V>(lib: Library<V>, framed: Bytes, key: Bytes)
  {
    |framed| > NONCE_SIZE && exists data: Bytes :: framed[NONCE_SIZE..] == lib.seal(key, framed[..NONCE_SIZE], data)
  }

  /** Decryption accepts exactly what was sealed under its key: any other bytes of
      sufficient length are refused as not authentic; and whatever it accepts is what
      encryption writes for its answer. */
  lemma DecryptsExactlyWhatWasSealed<V>(lib: Library<V>, framed: Bytes, key: Bytes)
    requires Laws(lib) && Authentic(lib)
    ensures DecryptWithAes(lib, framed, key).Ok? <==> ValidKey(key) && SealedUnder(lib, framed, key)
    ensures ValidKey(key) && |framed| > NONCE_SIZE && !SealedUnder(lib, framed, key) ==>
      DecryptWithAes(lib, framed, key) == Err(AuthenticationFailed)
    ensures DecryptWithAes(lib, framed, key).Ok? && DecryptWithAes(lib, framed, key).value != [] ==>
      EncryptWithAes(lib, DecryptWithAes(lib, framed, key).value, key, Some(framed[..NONCE_SIZE])) == Ok(framed)
  {
    if |framed| > NONCE_SIZE {
      var nonce, sealed := framed[..NONCE_SIZE], framed[NONCE_SIZE..];
      assert framed == nonce + sealed;
      if SealedUnder(lib, framed, key) {
        var data: Bytes :| sealed == lib.seal(key, nonce, data);
        assert lib.open(key, nonce, lib.seal(key, nonce, data)) == Some(data);
      }
    }
  }

  // ---------- The specification of the two entry points ----------

  function Marshalled<V>(lib: Library<V>, input: Input<V>): Result<Bytes>
  {
    match input
    case Raw(data) => Ok(data)
    case Value(v) => (match lib.marshal(v) case Some(data) => Ok(data) case None => Err(MarshalFailed))
  }

  function CompressStage<V>(lib: Library<V>, data: Bytes, conf: Option<CompressionConfig>): Result<Bytes>
  {
    if !Compresses(conf) then Ok(data)
    else
      match lib.compress(AlgorithmOf(conf.value.kind), data)
      case Some(packed) => Ok(packed)
      case None => Err(CompressFailed)
  }

  function EncryptStage<V>(lib: Library<V>, data: Bytes, conf: Option<EncryptionConfig>, nonce: Option<Bytes>): Result<Bytes>
    requires nonce.Some? ==> |nonce.value| == NONCE_SIZE
  {
    if !Encrypts(conf) then Ok(data) else EncryptWithAes(lib, data, conf.value.hashkey, nonce)
  }

  function DecryptStage<V>(lib: Library<V>, data: Bytes, conf: Option<EncryptionConfig>): Result<Bytes>
  {
    if !Encrypts(conf) then Ok(data) else DecryptWithAes(lib, data, conf.value.hashkey)
  }

  function DecompressStage<V>(lib: Library<V>, data: Bytes, conf: Option<CompressionConfig>): Result<Bytes>
  {
    if !Compresses(conf) then Ok(data)
    else
      match lib.decompress(AlgorithmOf(conf.value.kind), data)
      case Some(plain) => Ok(plain)
      case None => Err(DecompressFailed)
  }

  function Payload<V>(lib: Library<V>, input: Input<V>, cConf: Option<CompressionConfig>,
                      eConf: Option<EncryptionConfig>, nonce: Option<Bytes>): Result<Bytes>
    requires nonce.Some? ==> |nonce.value| == NONCE_SIZE
  {
    var data := Marshalled(lib, input);
    if data.Err? then data else
    var packed := CompressStage(lib, data.value, cConf);
    if packed.Err? then packed else EncryptStage(lib, packed.value, eConf, nonce)
  }

  function Restored<V>(lib: Library<V>, data: Bytes, cConf: Option<CompressionConfig>, eConf: Option<EncryptionConfig>): Result<Bytes>
  {
    var packed := DecryptStage(lib, data, eConf);
    if packed.Err? then packed else DecompressStage(lib, packed.value, cConf)
  }

  /** Configurations that a reader may use for what a writer wrote: the type
      strings may differ as long as they select the same compression, and the
      encryption type is free. */
  predicate Compatible(c: Option<CompressionConfig>, e: Option<EncryptionConfig>,
                       c': Option<CompressionConfig>, e': Option<EncryptionConfig>)
  {
    && Compresses(c) == Compresses(c') && (Compresses(c) ==> AlgorithmOf(c.value.kind) == AlgorithmOf(c'.value.kind))
    && Encrypts(e) == Encrypts(e') && (Encrypts(e) ==> e.value.hashkey == e'.value.hashkey)
  }

  /** Payload round trip: for every input, every combination of enabled stages and
      every type string, a payload that was produced is read back to the marshalled
      input, with the same configurations or compatible ones. */
  lemma PayloadRoundTrip<V>(lib: Library<V>, input: Input<V>, c: Option<CompressionConfig>, e: Option<EncryptionConfig>,
                            c': Option<CompressionConfig>, e': Option<EncryptionConfig>, nonce: Option<Bytes>)
    requires Laws(lib) && (nonce.Some? ==> |nonce.value| == NONCE_SIZE) && Compatible(c, e, c', e')
    requires Payload(lib, input, c, e, nonce).Ok?
    ensures Restored(lib, Payload(lib, input, c, e, nonce).value, c', e') == Marshalled(lib, input)
  {
    var data := Marshalled(lib, input).value;
    var packed := CompressStage(lib, data, c).value;
    if Encrypts(e) {
      EncryptionRoundTrip(lib, packed, e.value.hashkey, nonce);
    }
  }

  /** When ToPayload succeeds, and how long its output then is. */
  lemma PayloadSuccess<V>(lib: Library<V>, input: Input<V>, c: Option<CompressionConfig>, e: Option<EncryptionConfig>,
                          nonce: Option<Bytes>)
    requires Laws(lib) && (nonce.Some? ==> |nonce.value| == NONCE_SIZE)
    ensures var data := Marshalled(lib, input);
      Payload(lib, input, c, e, nonce).Ok? <==>
        && data.Ok? && CompressStage(lib, data.value, c).Ok?
        && (Encrypts(e) ==>
              CompressStage(lib, data.value, c).value != [] && ValidKey(e.value.hashkey) && nonce.Some?)
    ensures Payload(lib, input, c, e, nonce).Ok? && Encrypts(e) ==>
      var n := |CompressStage(lib, Marshalled(lib, input).value, c).value|;
      n > 0 && |Payload(lib, input, c, e, nonce).value| == 12 + n + 16
  {
    var data := Marshalled(lib, input);
    if data.Ok? && CompressStage(lib, data.value, c).Ok? && Encrypts(e) {
      EncryptionRoundTrip(lib, CompressStage(lib, data.value, c).value, e.value.hashkey, nonce);
    }
  }

  // ---------- The same, said of the library alone ----------

  /** What the input is marshalled to. */
  ghost predicate Gives<V>(lib: Library<V>, input: Input<V>, data: Bytes)
  {
    match input
    case Raw(bytes) => data == bytes
    case Value(v) => lib.marshal(v) == Some(data)
  }

  ghost predicate Packs<V>(lib: Library<V>, data: Bytes, conf: Option<CompressionConfig>, packed: Bytes)
  {
    match conf
    case Some(CompressionConfig(true, kind)) => lib.compress(if kind == "zstd" then Zstd else Gzip, data) == Some(packed)
    case _ => packed == data
  }

  ghost predicate Unpacks<V>(lib: Library<V>, packed: Bytes, conf: Option<CompressionConfig>, data: Bytes)
  {
    match conf
    case Some(CompressionConfig(true, kind)) => lib.decompress(if kind == "zstd" then Zstd else Gzip, packed) == Some(data)
    case _ => data == packed
  }

  ghost predicate Seals<V>(lib: Library<V>, packed: Bytes, conf: Option<EncryptionConfig>, nonce: Option<Bytes>, framed: Bytes)
  {
    match conf
    case Some(EncryptionConfig(true, _, key)) =>
      packed != [] && |key| in {16, 24, 32} && nonce.Some? && framed == nonce.value + lib.seal(key, nonce.value, packed)
    case _ => framed == packed
  }

  ghost predicate Opens<V>(lib: Library<V>, framed: Bytes, conf: Option<EncryptionConfig>, packed: Bytes)
  {
    match conf
    case Some(EncryptionConfig(true, _, key)) =>
      |key| in {16, 24, 32} && |framed| > 12 && lib.open(key, framed[..12], framed[12..]) == Some(packed)
    case _ => packed == framed
  }

  /** The bytes are long enough and the key fits, but the cipher does not open them. */
  ghost predicate Unauthentic<V>(lib: Library<V>, framed: Bytes, conf: Option<EncryptionConfig>)
  {
    match conf
    case Some(EncryptionConfig(true, _, key)) =>
      |key| in {16, 24, 32} && |framed| > 12 && lib.open(key, framed[..12], framed[12..]).None?
    case _ => false
  }

  /** What is written: the sealing of the compression of the marshalled input, each
      stage exactly if it is enabled and zstd exactly if it is asked for by name; and
      which stage is to blame when nothing is. */
  lemma PayloadExactly<V>(lib: Library<V>, input: Input<V>, c: Option<CompressionConfig>, e: Option<EncryptionConfig>,
                          nonce: Option<Bytes>, payload: Bytes)
    requires nonce.Some? ==> |nonce.value| == NONCE_SIZE
    ensures Payload(lib, input, c, e, nonce) == Ok(payload) <==>
      exists data, packed :: Gives(lib, input, data) && Packs(lib, data, c, packed) && Seals(lib, packed, e, nonce, payload)
    ensures Payload(lib, input, c, e, nonce) == Err(MarshalFailed) <==> forall data :: !Gives(lib, input, data)
    ensures Payload(lib, input, c, e, nonce) == Err(CompressFailed) <==>
      exists data :: Gives(lib, input, data) && forall packed :: !Packs(lib, data, c, packed)
    ensures Payload(lib, input, c, e, nonce) == Err(NoRandomness) <==>
      exists data, packed :: Gives(lib, input, data) && Packs(lib, data, c, packed)
        && packed != [] && e.Some? && e.value.enabled && |e.value.hashkey| in {16, 24, 32} && nonce.None?
    ensures Payload(lib, input, c, e, nonce) == Err(EmptyDataOrKey) <==>
      exists data, packed :: Gives(lib, input, data) && Packs(lib, data, c, packed)
        && e.Some? && e.value.enabled && (packed == [] || e.value.hashkey == [])
  {
    var data := Marshalled(lib, input);
    if data.Ok? {
      assert Gives(lib, input, data.value);
      var packed := CompressStage(lib, data.value, c);
      if packed.Ok? {
        assert Packs(lib, data.value, c, packed.value);
      }
    }
  }

  /** What is read: the decompression of what the cipher opens; and which stage is to
      blame when nothing is. A payload the cipher does not open is never accepted. */
  lemma RestoredExactly<V>(lib: Library<V>, payload: Bytes, c: Option<CompressionConfig>, e: Option<EncryptionConfig>,
                           data: Bytes)
    ensures Restored(lib, payload, c, e) == Ok(data) <==>
      exists packed :: Opens(lib, payload, e, packed) && Unpacks(lib, packed, c, data)
    ensures Restored(lib, payload, c, e) == Err(AuthenticationFailed) <==> Unauthentic(lib, payload, e)
    ensures Restored(lib, payload, c, e) == Err(TooShortOrNoKey) <==>
      e.Some? && e.value.enabled && (|payload| <= 12 || e.value.hashkey == [])
    ensures Restored(lib, payload, c, e) == Err(BadKeyLength) <==>
      e.Some? && e.value.enabled && |payload| > 12 && |e.value.hashkey| !in {0, 16, 24, 32}
    ensures Restored(lib, payload, c, e) == Err(DecompressFailed) <==>
      exists packed :: Opens(lib, payload, e, packed) && forall plain :: !Unpacks(lib, packed, c, plain)
  {
    var packed := DecryptStage(lib, payload, e);
    if packed.Ok? {
      assert Opens(lib, payload, e, packed.value);
      var plain := DecompressStage(lib, packed.value, c);
      if plain.Ok? {
        assert Unpacks(lib, packed.value, c, plain.value);
      }
    }
  }

  // ---------- The code over a mutable buffer ----------

  class Buffer {
    var data: Bytes

    constructor (data: Bytes)
      ensures this.data == data
    {
      this.data := data;
    }
  }

  /** compression.Compress writes behind whatever the buffer holds. */
  method Compress<V>(lib: Library<V>, kind: string, data: Bytes, buffer: Buffer) returns (err: Option<Error>)
    modifies buffer
    ensures err.None? <==> lib.compress(AlgorithmOf(kind), data).Some?
    ensures err.None? ==> buffer.data == old(buffer.data) + lib.compress(AlgorithmOf(kind), data).value
    ensures err.Some? ==> err.value == CompressFailed && old(buffer.data) <= buffer.data
  {
    var packed := if kind == "zstd" then lib.compress(Zstd, data) else lib.compress(Gzip, data);
    if packed.None? {
      buffer.data := buffer.data + lib.written(AlgorithmOf(kind), data);
      return Some(CompressFailed);
    }
    buffer.data := buffer.data + packed.value;
    return None;
  }

  /** What is left of a buffer of which some bytes have been read. */
  ghost predicate LeftOf(rest: Bytes, data: Bytes) { |rest| <= |data| && rest == data[|data| - |rest|..] }

  /** compression.Decompress reads from the buffer itself and replaces it at the end:
      after a failure the buffer has lost what the reader consumed. */
  method Decompress<V>(lib: Library<V>, kind: string, buffer: Buffer) returns (err: Option<Error>)
    modifies buffer
    ensures err.None? <==> lib.decompress(AlgorithmOf(kind), old(buffer.data)).Some?
    ensures err.None? ==> buffer.data == lib.decompress(AlgorithmOf(kind), old(buffer.data)).value
    ensures err.Some? ==> err.value == DecompressFailed && LeftOf(buffer.data, old(buffer.data))
  {
    var plain := if kind == "zstd" then lib.decompress(Zstd, buffer.data) else lib.decompress(Gzip, buffer.data);
    if plain.None? {
      var unread := lib.unread(AlgorithmOf(kind), buffer.data);
      buffer.data := buffer.data[if unread <= |buffer.data| then |buffer.data| - unread else 0..];
      return Some(DecompressFailed);
    }
    buffer.data := plain.value;
    return None;
  }

  /** crypto.Encrypt replaces the buffer, whatever it held. */
  method Encrypt<V>(lib: Library<V>, key: Bytes, data: Bytes, nonce: Option<Bytes>, buffer: Buffer) returns (err: Option<Error>)
    requires nonce.Some? ==> |nonce.value| == NONCE_SIZE
    modifies buffer
    ensures match EncryptWithAes(lib, data, key, nonce)
      case Ok(framed) => err.None? && buffer.data == framed
      case Err(e) => err == Some(e) && buffer.data == old(buffer.data)
  {
    var framed := EncryptWithAes(lib, data, key, nonce);
    if framed.Err? { return Some(framed.error); }
    buffer.data := framed.value;
    return None;
  }

  method Decrypt<V>(lib: Library<V>, key: Bytes, buffer: Buffer) returns (err: Option<Error>)
    modifies buffer
    ensures match DecryptWithAes(lib, old(buffer.data), key)
      case Ok(data) => err.None? && buffer.data == data
      case Err(e) => err == Some(e) && buffer.data == old(buffer.data)
  {
    var data := DecryptWithAes(lib, buffer.data, key);
    if data.Err? { return Some(data.error); }
    buffer.data := data.value;
    return None;
  }

  /** Stage by stage over one shared buffer: the compressed bytes that the buffer
      still holds do not leak into the encrypted payload. */
  method ToPayload<V>(lib: Library<V>, input: Input<V>, cConf: Option<CompressionConfig>,
                      eConf: Option<EncryptionConfig>, nonce: Option<Bytes>) returns (result: Result<Bytes>)
    requires nonce.Some? ==> |nonce.value| == NONCE_SIZE
    ensures result == Payload(lib, input, cConf, eConf, nonce)
  {
    var data: Bytes;
    match input {
      case Raw(bytes) => data := bytes;
      case Value(v) =>
        var marshalled := lib.marshal(v);
        if marshalled.None? { return Err(MarshalFailed); }
        data := marshalled.value;
    }
    var buffer := new Buffer([]);
    if cConf.Some? && cConf.value.enabled {
      var err := Compress(lib, cConf.value.kind, data, buffer);
      if err.Some? { return Err(err.value); }
      assert buffer.data == lib.compress(AlgorithmOf(cConf.value.kind), data).value;
      data := buffer.data;
    }
    if eConf.Some? && eConf.value.enabled {
      var err := Encrypt(lib, eConf.value.hashkey, data, nonce, buffer);
      if err.Some? { return Err(err.value); }
      data := buffer.data;
    }
    return Ok(data);
  }

  /** Restores the buffer in place. If decryption fails the buffer is untouched; if
      decompression fails what it has not read of the decrypted bytes is left. */
  method ReadPayload<V>(lib: Library<V>, buffer: Buffer, cConf: Option<CompressionConfig>,
                        eConf: Option<EncryptionConfig>) returns (err: Option<Error>)
    modifies buffer
    ensures match Restored(lib, old(buffer.data), cConf, eConf)
      case Ok(data) => err.None? && buffer.data == data
      case Err(e) => err == Some(e)
    ensures err.Some? ==>
      match DecryptStage(lib, old(buffer.data), eConf)
      case Ok(data) => LeftOf(buffer.data, data)
      case Err(_) => buffer.data == old(buffer.data)
    ensures err.None? ==>
      exists packed :: Opens(lib, old(buffer.data), eConf, packed) && Unpacks(lib, packed, cConf, buffer.data)
    ensures Unauthentic(lib, old(buffer.data), eConf) ==> err == Some(AuthenticationFailed) && buffer.data == old(buffer.data)
    ensures forall packed ::
      Opens(lib, old(buffer.data), eConf, packed) && (forall plain :: !Unpacks(lib, packed, cConf, plain)) ==>
      err == Some(DecompressFailed) && LeftOf(buffer.data, packed)
  {
    ghost var payload := buffer.data;
    if eConf.Some? && eConf.value.enabled {
      err := Decrypt(lib, eConf.value.hashkey, buffer);
      if err.Some? { return; }
    }
    if cConf.Some? && cConf.value.enabled {
      err := Decompress(lib, cConf.value.kind, buffer);
      if err.Some? { return; }
    }
    RestoredExactly(lib, payload, cConf, eConf, buffer.data);
    return None;
  }

  /** Writing and reading back through the code itself. */
  method WriteThenRead<V>(lib: Library<V>, input: Input<V>, c: Option<CompressionConfig>, e: Option<EncryptionConfig>,
                          nonce: Option<Bytes>) returns (written: Result<Bytes>, read: Result<Bytes>)
    requires nonce.Some? ==> |nonce.value| == NONCE_SIZE
    ensures Laws(lib) && written.Ok? ==> read == Marshalled(lib, input)
  {
    written := ToPayload(lib, input, c, e, nonce);
    if written.Err? { return written, written; }
    var buffer := new Buffer(written.value);
    var err := ReadPayload(lib, buffer, c, e);
    read := if err.Some? then Err(err.value) else Ok(buffer.data);
    if Laws(lib) {
      PayloadRoundTrip(lib, input, c, e, c, e, nonce);
    }
  }
}

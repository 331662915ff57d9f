/**
 * The cache's configuration and its signed serialisation. Pickling and the
 * keyed MAC are passed in as a `Codec`: `dumps` may fail (an unpicklable
 * object), `loads` may reject bytes, and `hmac` stands for HMAC (section 2 of
 * RFC 2104) with SHA-256, whose tags are 32 bytes long.
 */
module Signing {

  import opened Common
  import opened Sentinels

  datatype Codec = Codec(
    dumps: PyValue -> Option<Bytes>,
    loads: Bytes -> Option<PyValue>,
    hmac: (string, Bytes) -> Bytes)

  /** What the cache relies on: unpickling undoes pickling, and tags are 32 bytes. */
  ghost predicate CodecOk(c: Codec)
  {
    && (forall v :: c.dumps(v).Some? ==> c.loads(c.dumps(v).value) == Some(v))
    && (forall k, d :: |c.hmac(k, d)| == TagLength)
  }

  const TagLength: nat := 32

  datatype CacheConfig = CacheConfig(
    pref: string,
    defaultTtl: int,
    negativeTtl: int,
    secureSerialization: bool,
    secretKey: string)

  /** The configuration defaults: prefix "modx:", one hour, one minute, no signing. */
  function DefaultConfig(secretKey: string): CacheConfig
  {
    CacheConfig("modx:", 3600, 60, false, secretKey)
  }

  /** Signing is on only when it is requested and the secret is non-empty. */
  predicate SigningOn(cfg: CacheConfig)
  {
    cfg.secureSerialization && cfg.secretKey != []
  }

  /** `serl`: the pickled bytes, preceded by their tag when signing is on; None is the ValueError. */
  function Serl(cfg: CacheConfig, c: Codec, v: PyValue): Option<Bytes>
  {
    match c.dumps(v)
    case None => None
    case Some(data) =>
      if SigningOn(cfg) then Some(c.hmac(cfg.secretKey, data) + data) else Some(data)
  }

  /** `deserl`: verify and strip the tag when signing is on, then unpickle; None is the ValueError. */
  function Deserl(cfg: CacheConfig, c: Codec, data: Bytes): Option<PyValue>
  {
    if SigningOn(cfg) then
      if |data| < TagLength then None
      else if data[..TagLength] != c.hmac(cfg.secretKey, data[TagLength..]) then None
      else c.loads(data[TagLength..])
    else c.loads(data)
  }

  /** What is stored: the tag of the pickle followed by the pickle, or the pickle alone. */
  lemma SerlLayout(cfg: CacheConfig, c: Codec, v: PyValue)
    requires CodecOk(c)
    requires Serl(cfg, c, v).Some?
    ensures var b := Serl(cfg, c, v).value;
      if SigningOn(cfg) then
        |b| == TagLength + |c.dumps(v).value| && b[..TagLength] == c.hmac(cfg.secretKey, c.dumps(v).value)
        && b[TagLength..] == c.dumps(v).value
      else b == c.dumps(v).value
  {
  }

  /** Reading back what was written, under one configuration, gives the value written. */
  lemma SerlDeserlRoundTrip(cfg: CacheConfig, c: Codec, v: PyValue)
    requires CodecOk(c)
    requires Serl(cfg, c, v).Some?
    ensures Deserl(cfg, c, Serl(cfg, c, v).value) == Some(v)
  {
    var data := c.dumps(v).value;
    if SigningOn(cfg) {
      var b := c.hmac(cfg.secretKey, data) + data;
      assert b[..TagLength] == c.hmac(cfg.secretKey, data);
      assert b[TagLength..] == data;
    }
  }

  /** With signing on, only data carrying the right tag of its own payload is ever accepted. */
  lemma DeserlAcceptsOnlyTagged(cfg: CacheConfig, c: Codec, data: Bytes)
    requires SigningOn(cfg)
    requires Deserl(cfg, c, data).Some?
    ensures |data| >= TagLength
    ensures data[..TagLength] == c.hmac(cfg.secretKey, data[TagLength..])
    ensures c.loads(data[TagLength..]) == Deserl(cfg, c, data)
  {
  }

  /** With signing on, anything shorter than a tag is rejected. */
  lemma DeserlRejectsShort(cfg: CacheConfig, c: Codec, data: Bytes)
    requires SigningOn(cfg) && |data| < TagLength
    ensures Deserl(cfg, c, data).None?
  {
  }

  /** Changing any byte of the tag of a signed payload makes it undecodable. */
  lemma TamperedTagRejected(cfg: CacheConfig, c: Codec, v: PyValue, i: nat, x: byte)
    requires CodecOk(c) && SigningOn(cfg)
    requires Serl(cfg, c, v).Some?
    requires i < TagLength && Serl(cfg, c, v).value[i] != x
    ensures Deserl(cfg, c, Serl(cfg, c, v).value[i := x]).None?
  {
    var data := c.dumps(v).value;
    var b := c.hmac(cfg.secretKey, data) + data;
    var t := b[i := x];
    assert t[TagLength..] == data;
    assert t[..TagLength][i] != c.hmac(cfg.secretKey, data)[i];
  }

  /** The negative-cache marker survives the round trip as a CacheMiss. */
  lemma CacheMissRoundTrip(cfg: CacheConfig, c: Codec)
    requires CodecOk(c) && Serl(cfg, c, PyCacheMiss).Some?
    ensures Deserl(cfg, c, Serl(cfg, c, PyCacheMiss).value) == Some(PyCacheMiss)
  {
    SerlDeserlRoundTrip(cfg, c, PyCacheMiss);
  }
}

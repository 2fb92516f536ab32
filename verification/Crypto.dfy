/** Envelopes, key contexts and keyed digests (crypto.py).

    The primitives are symbolic: an AES-GCM box (section 7 of NIST SP 800-38D) is a value that
    remembers its subkey and its associated data, so it opens under exactly those; an HMAC
    (section 2 of RFC 2104) and an HKDF output (section 2 of RFC 5869) are values built from
    their inputs. Key identifiers are *truncated* hashes, so two master keys may share one. */
module Crypto {
  import opened Basics
  import Json

  /** A master key: its non-secret identifier (16 hex characters of its SHA-256), everything the
      identifier does not determine, and its length in bytes. */
  datatype MasterKey = MasterKey(id16: string, rest: string, size: nat)

  datatype Subkey = Hkdf(master: MasterKey, info: string)

  const ENVELOPE_VERSION := 1
  const ALGORITHM := "AES-256-GCM"
  const MIN_KEY_BYTES := 32
  const INFO_ENC := "memorymesh:content-enc:v1"
  const INFO_CONTENT_HMAC := "memorymesh:content-hmac:v1"
  const INFO_TERM_HMAC := "memorymesh:term-hmac:v1"

  /** Stored text. Most glyphs are characters; the JSON text of an envelope, and any other JSON
      document, is one glyph, so a user may well write a text that is an envelope. */
  datatype Glyph =
    | Ch(c: char)
    | Doc(json: Json.Json)
    | Env(version: int, alg: string, kid: string, body: Body)

  datatype Body =
    | BadBase64
    | BadTag
    | Gcm(key: Subkey, nonce: nat, aad: string, plain: seq<Glyph>)

  type Text = seq<Glyph>

  datatype CryptoError = Malformed | UnsupportedVersion | WrongKey | Tamper | InvalidKey

  datatype Context = Context(master: MasterKey, dbIdentity: string)

  /** The columns whose values are sealed. */
  datatype Site = MessageContent | MessageMetadata | EmbeddingJson | SummaryText | AgentValue

  /** One nonce for every field of one operation; each field is sealed at most once in it. */
  type Nonces = (Site, nat) -> nat

  function TableName(site: Site): string {
    match site
    case MessageContent => "memory_messages"
    case MessageMetadata => "memory_messages"
    case EmbeddingJson => "memory_embeddings"
    case SummaryText => "memory_summaries"
    case AgentValue => "agent_state"
  }

  function ColumnName(site: Site): string {
    match site
    case MessageContent => "content"
    case MessageMetadata => "metadata_json"
    case EmbeddingJson => "embedding_json"
    case SummaryText => "summary"
    case AgentValue => "value"
  }

  predicate UsableKey(master: MasterKey, dbIdentity: string) {
    master.size >= MIN_KEY_BYTES && dbIdentity != ""
  }

  function MakeContext(master: MasterKey, dbIdentity: string): Result<Context, CryptoError> {
    if UsableKey(master, dbIdentity) then Ok(Context(master, dbIdentity)) else Err(InvalidKey)
  }

  function Aad(dbIdentity: string, site: Site, row: nat): string {
    dbIdentity + ['|'] + (TableName(site) + ['|'] + (ColumnName(site) + ['|'] + Decimal(row)))
  }

  function PortableAad(purpose: string, identity: string): string {
    "memorymesh-portable" + ['|'] + ("v1" + ['|'] + (purpose + ['|'] + identity))
  }

  function EncryptRaw(ctx: Context, plain: Text, aad: string, nonce: nat): Text {
    [Env(ENVELOPE_VERSION, ALGORITHM, ctx.master.id16, Gcm(Hkdf(ctx.master, INFO_ENC), nonce, aad, plain))]
  }

  function DecryptRaw(ctx: Context, envelope: Text, aad: string): Result<Text, CryptoError> {
    if !IsEnvelope(envelope) then Err(Malformed)
    else
      var e := envelope[0];
      if e.version != ENVELOPE_VERSION then Err(UnsupportedVersion)
      else if e.alg != ALGORITHM then Err(Malformed)
      else if e.kid != ctx.master.id16 then Err(WrongKey)
      else match e.body
        case BadBase64 => Err(Malformed)
        case BadTag => Err(Tamper)
        case Gcm(key, _, boundAad, plain) =>
          if key == Hkdf(ctx.master, INFO_ENC) && boundAad == aad then Ok(plain) else Err(Tamper)
  }

  function EncryptField(ctx: Context, plain: Text, site: Site, row: nat, nonce: nat): Text {
    EncryptRaw(ctx, plain, Aad(ctx.dbIdentity, site, row), nonce)
  }

  function DecryptField(ctx: Context, envelope: Text, site: Site, row: nat): Result<Text, CryptoError> {
    DecryptRaw(ctx, envelope, Aad(ctx.dbIdentity, site, row))
  }

  function EncryptPortable(ctx: Context, plain: Text, purpose: string, identity: string, nonce: nat): Text {
    EncryptRaw(ctx, plain, PortableAad(purpose, identity), nonce)
  }

  function DecryptPortable(ctx: Context, envelope: Text, purpose: string, identity: string): Result<Text, CryptoError> {
    DecryptRaw(ctx, envelope, PortableAad(purpose, identity))
  }

  predicate IsEnvelope(t: Text) {
    |t| == 1 && t[0].Env?
  }

  /** The row's namespace: the columns that identify a conversation and a speaker. */
  datatype Namespace = Namespace(project: string, provider: string, conversation: string, role: string)

  datatype Digest = Hmac(key: Subkey, message: Text)

  /** A stored search term: a plain word, or its keyed digest. */
  datatype Token = Word(word: string) | Keyed(digest: Digest)

  function Lift(s: string): Text {
    seq(|s|, i requires 0 <= i < |s| => Ch(s[i]))
  }

  function FingerprintMessage(ns: Namespace, content: Text): Text {
    Lift(ns.project + "|" + ns.provider + "|" + ns.conversation + "|" + ns.role + "|") + content
  }

  function Fingerprint(ctx: Context, ns: Namespace, content: Text): Digest {
    Hmac(Hkdf(ctx.master, INFO_CONTENT_HMAC), FingerprintMessage(ns, content))
  }

  function KeyedToken(ctx: Context, word: string): Token {
    Keyed(Hmac(Hkdf(ctx.master, INFO_TERM_HMAC), Lift(word)))
  }

  lemma LiftInjective(a: string, b: string)
    requires Lift(a) == Lift(b)
    ensures a == b
  {
    forall i | 0 <= i < |a|
      ensures a[i] == b[i]
    {
      assert Lift(a)[i] == Ch(a[i]) && Lift(b)[i] == Ch(b[i]);
    }
  }

  lemma KeyedTokenInjective(ctx: Context, a: string, b: string)
    requires KeyedToken(ctx, a) == KeyedToken(ctx, b)
    ensures a == b
  {
    LiftInjective(a, b);
  }

  lemma NoBarInNames(site: Site)
    ensures '|' !in TableName(site) && '|' !in ColumnName(site)
  {
  }

  /** The associated data names one field of one database: nothing is lost in the '|' joins as
      long as database identities (hex strings) hold no '|'. */
  lemma AadInjective(db: string, site: Site, row: nat, db': string, site': Site, row': nat)
    requires '|' !in db && '|' !in db'
    requires Aad(db, site, row) == Aad(db', site', row')
    ensures db == db' && site == site' && row == row'
  {
    NoBarInNames(site);
    NoBarInNames(site');
    var r1, r1' := ColumnName(site) + ['|'] + Decimal(row), ColumnName(site') + ['|'] + Decimal(row');
    var r2, r2' := TableName(site) + ['|'] + r1, TableName(site') + ['|'] + r1';
    DelimitedInjective(db, db', '|', r2, r2');
    DelimitedInjective(TableName(site), TableName(site'), '|', r1, r1');
    DelimitedInjective(ColumnName(site), ColumnName(site'), '|', Decimal(row), Decimal(row'));
    DecimalInjective(row, row');
    SiteNamesDistinct(site, site');
  }

  lemma SiteNamesDistinct(a: Site, b: Site)
    requires TableName(a) == TableName(b) && ColumnName(a) == ColumnName(b)
    ensures a == b
  {
  }

  /** A sealed field opens exactly under the same master key at the same database, table, column
      and row, and then yields what was sealed. */
  lemma FieldBinding(ctx: Context, plain: Text, site: Site, row: nat, nonce: nat,
                     ctx': Context, site': Site, row': nat)
    requires '|' !in ctx.dbIdentity && '|' !in ctx'.dbIdentity
    ensures var r := DecryptField(ctx', EncryptField(ctx, plain, site, row, nonce), site', row');
            if ctx == ctx' && site == site' && row == row'
            then r == Ok(plain)
            else r == Err(if ctx.master.id16 == ctx'.master.id16 then Tamper else WrongKey)
  {
    if Aad(ctx.dbIdentity, site, row) == Aad(ctx'.dbIdentity, site', row') {
      AadInjective(ctx.dbIdentity, site, row, ctx'.dbIdentity, site', row');
    }
  }

  /** What opens is exactly what was sealed: under this key, for this place, in this version and algorithm. */
  lemma OpensExactly(ctx: Context, t: Text, aad: string)
    ensures DecryptRaw(ctx, t, aad).Ok? <==> exists nonce, plain :: t == EncryptRaw(ctx, plain, aad, nonce)
    ensures forall nonce, plain :: t == EncryptRaw(ctx, plain, aad, nonce) ==>
              t[0].version == 1 && t[0].alg == "AES-256-GCM" && DecryptRaw(ctx, t, aad) == Ok(plain)
  {
    if DecryptRaw(ctx, t, aad).Ok? {
      var box := t[0].body;
      assert t == EncryptRaw(ctx, box.plain, aad, box.nonce);
    }
  }

  /** Sealing, fingerprints and search tokens never share a subkey, whatever the master keys; each of them tells master
      keys apart, and a usable master key has at least 32 bytes. */
  lemma KeysAreSeparate(a: Context, b: Context, plain: Text, aad: string, nonce: nat, ns: Namespace, content: Text, word: string)
    ensures var box, mark, token := EncryptRaw(a, plain, aad, nonce)[0].body.key, Fingerprint(a, ns, content).key, KeyedToken(a, word).digest.key;
            var box', mark', token' := EncryptRaw(b, plain, aad, nonce)[0].body.key, Fingerprint(b, ns, content).key, KeyedToken(b, word).digest.key;
            && box != mark' && box != token' && mark != box' && mark != token' && token != box' && token != mark'
            && (box == box' <==> a.master == b.master) && (mark == mark' <==> a.master == b.master) && (token == token' <==> a.master == b.master)
    ensures MakeContext(a.master, a.dbIdentity).Ok? <==> a.master.size >= 32 && a.dbIdentity != ""
  {
    assert |INFO_ENC| == 25 && |INFO_CONTENT_HMAC| == 26 && |INFO_TERM_HMAC| == 23;
  }

  /** A bundle seal travels between databases that share the key, and can never be mistaken for
      a field seal of a database whose identity is not the literal portable prefix. */
  lemma PortableBinding(ctx: Context, plain: Text, purpose: string, identity: string, nonce: nat,
                        ctx': Context, site: Site, row: nat)
    requires '|' !in ctx'.dbIdentity
    ensures ctx.master == ctx'.master ==>
              DecryptPortable(ctx', EncryptPortable(ctx, plain, purpose, identity, nonce), purpose, identity) == Ok(plain)
    ensures DecryptField(ctx', EncryptPortable(ctx, plain, purpose, identity, nonce), site, row).Err?
  {
    if Aad(ctx'.dbIdentity, site, row) == PortableAad(purpose, identity) {
      NoBarInNames(site);
      var r1, r1' := ColumnName(site) + ['|'] + Decimal(row), purpose + ['|'] + identity;
      DelimitedInjective(ctx'.dbIdentity, "memorymesh-portable", '|', TableName(site) + ['|'] + r1, "v1" + ['|'] + r1');
      assert |TableName(site)| > |"v1"|;
      DelimitedInjective(TableName(site), "v1", '|', r1, r1');
    }
  }

  /** The '|' joins of a fingerprint are ambiguous between namespaces... */
  lemma FingerprintAmbiguous(ctx: Context)
    ensures var a, b := Namespace("p|q", "r", "c", "user"), Namespace("p", "q|r", "c", "user");
            a != b && Fingerprint(ctx, a, []) == Fingerprint(ctx, b, [])
  {
  }

  /** ...but exact within one namespace, which is how every lookup uses them. */
  lemma FingerprintExact(ctx: Context, ns: Namespace, a: Text, b: Text)
    ensures Fingerprint(ctx, ns, a) == Fingerprint(ctx, ns, b) <==> a == b
  {
    var p := Lift(ns.project + "|" + ns.provider + "|" + ns.conversation + "|" + ns.role + "|");
    if Fingerprint(ctx, ns, a) == Fingerprint(ctx, ns, b) {
      PrefixCancel(p, a, b);
    }
  }
}

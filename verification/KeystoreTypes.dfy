/** Values shared by the components of the keystore model. */
module KeystoreTypes {

  datatype Option<+T> = None | Some(value: T)

  datatype Result<+T> = Ok(value: T) | Err(error: Error)

  /** The error classes the database distinguishes. */
  datatype Error =
    | KeyNotFound
    | InvalidArgument
    | OutOfKeys
    | InvalidKeyBlob
    | PermissionDenied
    | SystemError

  newtype byte = x: int | 0 <= x < 256
  type Bytes = seq<byte>

  datatype KeyType = Client | Super | Attestation

  datatype Domain = APP | GRANT | SELINUX | BLOB | KEY_ID

  datatype LifeCycle = Existing | Live | Unreferenced

  datatype SubComponent = KeyBlob | Cert | CertChain

  datatype KeyTag =
    | CreationDate
    | AttestationExpirationDate
    | AttestationMacedPublicKey
    | AttestationRawPubKey
    | Sec1PublicKey

  datatype BlobTag = EncryptedBy | Salt | Iv | AeadTag | KmUuid | PublicKey | MaxBootLevel

  /** The content of a column whose type depends on the row's tag. */
  datatype Value = IntValue(i: int) | BytesValue(b: Bytes) | NullValue

  type KeyMeta = map<KeyTag, Value>
  type BlobMeta = map<BlobTag, Value>

  /** Key parameters are stored by tag; only two tags matter to the database. */
  datatype ParamTag = UsageCountLimit | MaxBootLevelLimit | OtherTag(n: int)

  datatype KeyParam = KeyParam(tag: ParamTag, data: Value, securityLevel: int)

  datatype KeyDescriptor = KeyDescriptor(domain: Domain, nspace: int, alias: Option<string>, blob: Option<Bytes>)

  type AccessVector = int

  /** The entry stored under a key, or the given value when there is none. */
  function GetOr<K, V>(m: map<K, V>, k: K, default: V): V {
    if k in m then m[k] else default
  }
}

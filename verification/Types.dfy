/** Values shared by the server and the client: identifiers, sealed tiers, errors and results. */
module Types {

  datatype Option<+T> = None | Some(value: T)

  type UserId = string
  type VaultId = string
  type SecretId = string
  type Key = nat

  /** The label that keeps a blob of one tier out of the slot of another. */
  datatype Tier = RowTier | IndexTier | PayloadTier

  /** The associated data of one tier; module AadFormat shows that its printed form is injective. */
  datatype Aad = Aad(vault: VaultId, secret: SecretId, version: int, tier: Tier)

  /** An ideal AEAD ciphertext: it carries what it was sealed from. Empty stands for nil and for zero bytes. */
  datatype Blob = Empty | Sealed(key: Key, nonce: nat, aad: Aad, text: string)

  datatype Tiers = Tiers(row: Blob, index: Blob, payload: Blob)

  /** The JSON texts of the three tiers. */
  datatype Content = Content(row: string, index: string, payload: string)

  /** The random nonces drawn for one encryption of the three tiers. */
  datatype Nonces = Nonces(row: nat, index: nat, payload: nat)

  /** The full server copy of a secret that accompanies a version conflict. */
  datatype ServerSecret = ServerSecret(id: SecretId, kind: int, version: int, tiers: Tiers)

  datatype Error =
    | Unavailable
    | InvalidCredentials
    | NotFound
    | Internal
    | InvalidArgument
    | Conflict(server: ServerSecret)
    | VaultLocked
    | EmptyVaultId
    | EmptySecretId
    | IndexTooLarge
    | DecryptFailed
    | SecretNotCached
    | OtpCodeRejected
    | EntryNotFound
    | NothingStaged
    | StagingFailed

  datatype Result<+T> = Ok(value: T) | Err(error: Error)

  /** What an operation without a value returns when it succeeds. */
  datatype Unit = Unit
}

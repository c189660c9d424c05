/** Sealing and opening of the three tiers of a secret (tiers.go, aad.go). */
module Sealing {
  import opened Types

  const MAX_ENC_INDEX_SIZE := 8 * 1024

  /** What an absent tier unmarshals to, and marshals back from. */
  const NULL_JSON := "null"

  /** Opening succeeds only under the key and the associated data of the sealing. */
  function Open(key: Key, aad: Aad, blob: Blob): Result<string> {
    if blob.Sealed? && blob.key == key && blob.aad == aad then Ok(blob.text) else Err(DecryptFailed)
  }

  function EncryptTiers(key: Key, vault: VaultId, id: SecretId, version: int, content: Content, n: Nonces)
    : Result<Tiers>
  {
    if |content.index| > MAX_ENC_INDEX_SIZE then Err(IndexTooLarge)
    else Ok(SealTiers(key, vault, id, version, content, n))
  }

  function SealTiers(key: Key, vault: VaultId, id: SecretId, version: int, content: Content, n: Nonces): Tiers {
    Tiers(
      Sealed(key, n.row, Aad(vault, id, version, RowTier), content.row),
      Sealed(key, n.index, Aad(vault, id, version, IndexTier), content.index),
      Sealed(key, n.payload, Aad(vault, id, version, PayloadTier), content.payload))
  }

  /** An empty blob is skipped, which leaves the zero value of its tier. */
  function OpenOrNull(key: Key, aad: Aad, blob: Blob): Result<string> {
    if blob.Empty? then Ok(NULL_JSON) else Open(key, aad, blob)
  }

  /** The text that a blob stands for; an absent one is null. */
  function Plain(blob: Blob): string {
    if blob.Empty? then NULL_JSON else blob.text
  }

  function PlainTexts(tiers: Tiers): Content {
    Content(Plain(tiers.row), Plain(tiers.index), Plain(tiers.payload))
  }

  function DecryptTiers(key: Key, vault: VaultId, id: SecretId, version: int, tiers: Tiers): Result<Content> {
    var row := OpenOrNull(key, Aad(vault, id, version, RowTier), tiers.row);
    var index := OpenOrNull(key, Aad(vault, id, version, IndexTier), tiers.index);
    var payload := OpenOrNull(key, Aad(vault, id, version, PayloadTier), tiers.payload);
    if row.Ok? && index.Ok? && payload.Ok? then Ok(Content(row.value, index.value, payload.value))
    else Err(DecryptFailed)
  }

  /**
   * What all honest devices agree on: the vault and the kind that a secret identifier was drawn for, and the key of
   * each vault.
   * It is a parameter of the invariants, not state of the system.
   */
  datatype Directory = Directory(home: SecretId -> VaultId, kind: SecretId -> int, key: VaultId -> Key)

  /** blob was sealed for exactly this secret, version and tier, under the key of the secret's vault. */
  ghost predicate Fits(d: Directory, id: SecretId, version: int, tier: Tier, blob: Blob) {
    && blob.Sealed?
    && blob.key == d.key(d.home(id))
    && blob.aad == Aad(d.home(id), id, version, tier)
    && (tier.IndexTier? ==> |blob.text| <= MAX_ENC_INDEX_SIZE)
  }

  ghost predicate SealedUnder(d: Directory, id: SecretId, version: int, tiers: Tiers) {
    && Fits(d, id, version, RowTier, tiers.row)
    && Fits(d, id, version, IndexTier, tiers.index)
    && Fits(d, id, version, PayloadTier, tiers.payload)
  }

  function Texts(tiers: Tiers): Content
    requires tiers.row.Sealed? && tiers.index.Sealed? && tiers.payload.Sealed?
  {
    Content(tiers.row.text, tiers.index.text, tiers.payload.text)
  }

  /** A secret opens under a version exactly when its tiers were sealed under that version. */
  lemma OpensExactlyUnderItsVersion(d: Directory, id: SecretId, sealedAt: int, openedAt: int, tiers: Tiers)
    requires SealedUnder(d, id, sealedAt, tiers)
    ensures DecryptTiers(d.key(d.home(id)), d.home(id), id, openedAt, tiers)
         == if openedAt == sealedAt then Ok(Texts(tiers)) else Err(DecryptFailed)
  {
    if openedAt != sealedAt {
      assert Aad(d.home(id), id, openedAt, RowTier) != tiers.row.aad;
    }
  }

  /** Re-sealing under another version keeps the plaintext of every tier and refuses nothing that fitted before. */
  lemma ResealKeepsTexts(d: Directory, id: SecretId, version: int, tiers: Tiers, newVersion: int, n: Nonces)
    requires SealedUnder(d, id, version, tiers)
    ensures var key := d.key(d.home(id));
            var plain := DecryptTiers(key, d.home(id), id, version, tiers);
            && plain == Ok(Texts(tiers))
            && var again := EncryptTiers(key, d.home(id), id, newVersion, plain.value, n);
               && again.Ok?
               && SealedUnder(d, id, newVersion, again.value)
               && Texts(again.value) == Texts(tiers)
  {
    OpensExactlyUnderItsVersion(d, id, version, version, tiers);
  }
}

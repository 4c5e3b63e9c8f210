/** The `space =` formulas of the four `init` accounts, the number of bytes
    that Borsh serialization of each account record actually needs, and how
    the two compare. */
module Space {
  import opened Accounts

  // Sizes of the Borsh encodings of the field types.
  const DISCRIMINATOR: nat := 8
  const PUBKEY: nat := 32
  const STRING_PREFIX: nat := 4
  const U64_BYTES: nat := 8
  const I64_BYTES: nat := 8
  const ENUM_TAG: nat := 1

  /** Allocation for a patient account, as written in `InitializePatient`. */
  function PatientSpace(did: Text): nat {
    8 + 32 + 4 + |did| + 64
  }

  /** Allocation for a provider account, as written in `InitializeProvider`. */
  function ProviderSpace(did: Text, name: Text): nat {
    8 + 32 + 4 + |did| + 4 + |name| + 64
  }

  /** Allocation for a health-data account, as written in `SubmitHealthData`. */
  function HealthDataSpace(dataHash: Text, encryptedData: Text): nat {
    8 + 32 + 4 + |dataHash| + 4 + |encryptedData| + 8 + 64
  }

  /** Allocation for a claim account, as written in `CreateClaim`. */
  function ClaimSpace(claimId: Text): nat {
    8 + 4 + |claimId| + 32 + 32 + 4 + 64 + 8 + 1 + 1 + 8 + 64
  }

  function StringSize(s: Text): nat {
    STRING_PREFIX + |s|
  }

  /** Bytes the discriminator and the Borsh encoding of each record occupy. */
  function PatientSize(p: PatientAccount): nat {
    DISCRIMINATOR + PUBKEY + StringSize(p.did)
  }

  function ProviderSize(p: ProviderAccount): nat {
    DISCRIMINATOR + PUBKEY + StringSize(p.did) + StringSize(p.name)
  }

  function HealthDataSize(h: HealthDataAccount): nat {
    DISCRIMINATOR + PUBKEY + StringSize(h.dataHash) + StringSize(h.encryptedData) + I64_BYTES
  }

  function ClaimSize(c: ClaimAccount): nat {
    DISCRIMINATOR + StringSize(c.claimId) + PUBKEY + PUBKEY + StringSize(c.healthDataHash)
      + U64_BYTES + ENUM_TAG + I64_BYTES
  }

  /** The claim formula reserves 4 + 64 bytes for the health-data hash and two
      spare bytes and 64 spare bytes at the end: room for a hash of this many bytes. */
  const MAX_CLAIM_HASH_LEN: nat := 129

  /** A claim record fits the account `create_claim` allocated for it. */
  predicate ClaimFits(c: ClaimAccount) {
    ClaimSize(c) <= ClaimSpace(c.claimId)
  }

  /** The four formulas in closed form. */
  lemma ClosedForms(did: Text, name: Text, dataHash: Text, encryptedData: Text, claimId: Text)
    ensures PatientSpace(did) == 108 + |did|
    ensures ProviderSpace(did, name) == 112 + |did| + |name|
    ensures HealthDataSpace(dataHash, encryptedData) == 120 + |dataHash| + |encryptedData|
    ensures ClaimSpace(claimId) == 226 + |claimId|
  {
  }

  /** Each allocation grows strictly with each string it depends on. */
  lemma StrictlyIncreasing(a: Text, b: Text, other: Text)
    requires |a| < |b|
    ensures PatientSpace(a) < PatientSpace(b)
    ensures ProviderSpace(a, other) < ProviderSpace(b, other)
    ensures ProviderSpace(other, a) < ProviderSpace(other, b)
    ensures HealthDataSpace(a, other) < HealthDataSpace(b, other)
    ensures HealthDataSpace(other, a) < HealthDataSpace(other, b)
    ensures ClaimSpace(a) < ClaimSpace(b)
  {
  }

  /** Patient, provider and health-data records always fit, with exactly 64
      bytes to spare. */
  lemma FixedSlack(p: PatientAccount, q: ProviderAccount, h: HealthDataAccount)
    ensures PatientSpace(p.did) == PatientSize(p) + 64
    ensures ProviderSpace(q.did, q.name) == ProviderSize(q) + 64
    ensures HealthDataSpace(h.dataHash, h.encryptedData) == HealthDataSize(h) + 64
  {
  }

  /** A claim fits exactly when its health-data hash is at most 129 bytes;
      the claim identifier cancels out. */
  lemma ClaimFitsIff(c: ClaimAccount)
    ensures ClaimFits(c) <==> |c.healthDataHash| <= MAX_CLAIM_HASH_LEN
    ensures ClaimSpace(c.claimId) - ClaimSize(c) == MAX_CLAIM_HASH_LEN - |c.healthDataHash|
  {
  }
}

/** The program's accounts as a registry: one map per account kind, keyed by
    the value its PDA seed is derived from, and the lamport balance of every
    public key. */
module Registry {
  import opened Accounts
  import Space
  import Lamports

  datatype State = State(
    patients: map<Pubkey, PatientAccount>,         // seeds ["patient", authority]
    providers: map<Pubkey, ProviderAccount>,       // seeds ["provider", authority]
    healthData: map<Text, HealthDataAccount>,      // seeds ["health_data", data_hash]
    claims: map<Text, ClaimAccount>,               // seeds ["claim", claim_id]
    lamports: Lamports.Balances)

  /** A chain with the given balances on which none of the program's accounts exists yet. */
  function Genesis(lamports: Lamports.Balances): State {
    State(map[], map[], map[], map[], lamports)
  }

  /** What every reachable state satisfies: each account sits at the address its
      own seed field derives, and each claim fits the space allocated for it. */
  ghost predicate Valid(s: State) {
    && (forall k | k in s.patients :: s.patients[k].authority == k)
    && (forall k | k in s.providers :: s.providers[k].authority == k)
    && (forall h | h in s.healthData :: s.healthData[h].dataHash == h)
    && (forall id | id in s.claims :: s.claims[id].claimId == id && Space.ClaimFits(s.claims[id]))
  }

  /** `after` is `before` with a new entry `v` at the previously unused key `k`. */
  ghost predicate Inserted<K, V>(before: map<K, V>, after: map<K, V>, k: K, v: V) {
    && k !in before
    && after.Keys == before.Keys + {k}
    && after[k] == v
    && (forall j | j in before :: after[j] == before[j])
  }

  /** `after` is `before` with the entry at the existing key `k` replaced by `v`. */
  ghost predicate Replaced<K, V>(before: map<K, V>, after: map<K, V>, k: K, v: V) {
    && k in before
    && after.Keys == before.Keys
    && after[k] == v
    && (forall j | j in before && j != k :: after[j] == before[j])
  }
}

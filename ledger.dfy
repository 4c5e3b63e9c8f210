/** The program's instruction dispatch, and the chain as a sequence of
    transactions, each holding one instruction of the program and each applied
    atomically: a failed instruction leaves the state as it was. The lemmas
    here state what holds of every such sequence. */
module Ledger {
  import opened Accounts
  import opened Registry
  import Instructions
  import Lamports
  import Space

  /** One call into the program: the instruction with its signer and account
      keys, its arguments and, where the handler reads the clock, the time. */
  datatype Instruction =
    | InitializePatient(authority: Pubkey, did: Text)
    | InitializeProvider(authority: Pubkey, did: Text, name: Text)
    | SubmitHealthData(owner: Pubkey, dataHash: Text, encryptedData: Text, now: I64)
    | CreateClaim(patient: Pubkey, provider: Pubkey, claimId: Text, amount: U64, healthDataHash: Text, now: I64)
    | VerifyClaim(signer: Pubkey, claimId: Text, status: ClaimStatus)
    | ProcessPayment(signer: Pubkey, patient: Pubkey, claimId: Text)

  /** Two claim records that agree on every field but the status. */
  ghost predicate SameTerms(a: ClaimAccount, b: ClaimAccount) {
    a.(status := b.status) == b
  }

  /** `t` still holds every account of `s`: patient, provider and health-data
      accounts unchanged, claims unchanged apart from their status. */
  ghost predicate Extends(s: State, t: State) {
    && (forall k | k in s.patients :: k in t.patients && t.patients[k] == s.patients[k])
    && (forall k | k in s.providers :: k in t.providers && t.providers[k] == s.providers[k])
    && (forall h | h in s.healthData :: h in t.healthData && t.healthData[h] == s.healthData[h])
    && (forall id | id in s.claims :: id in t.claims && SameTerms(s.claims[id], t.claims[id]))
  }

  /** The program entry point: run the handler the instruction names. */
  function Apply(s: State, ix: Instruction): (r: Result<State>)
    ensures r.Ok? ==> Extends(s, r.value)
    ensures r.Ok? ==> Lamports.Total(r.value.lamports) == Lamports.Total(s.lamports)
    ensures r.Ok? && !ix.ProcessPayment? ==> r.value.lamports == s.lamports
    ensures Valid(s) && r.Ok? ==> Valid(r.value)
  {
    match ix
    case InitializePatient(authority, did) =>
      Instructions.InitializePatient(s, authority, did)
    case InitializeProvider(authority, did, name) =>
      Instructions.InitializeProvider(s, authority, did, name)
    case SubmitHealthData(owner, dataHash, encryptedData, now) =>
      Instructions.SubmitHealthData(s, owner, dataHash, encryptedData, now)
    case CreateClaim(patient, provider, claimId, amount, healthDataHash, now) =>
      var r := Instructions.CreateClaim(s, patient, provider, claimId, amount, healthDataHash, now);
      if r.Ok? then
        Space.ClaimFitsIff(r.value.claims[claimId]);
        r
      else r
    case VerifyClaim(signer, claimId, status) =>
      Instructions.VerifyClaim(s, signer, claimId, status)
    case ProcessPayment(signer, patient, claimId) =>
      Instructions.ProcessPayment(s, signer, patient, claimId)
  }

  /** One transaction: the new state, or the old one if the instruction failed. */
  function Next(s: State, ix: Instruction): State {
    match Apply(s, ix)
    case Ok(t) => t
    case Err(_) => s
  }

  /** A sequence of transactions, in order. */
  function Run(s: State, txs: seq<Instruction>): State
    decreases |txs|
  {
    if txs == [] then s else Run(Next(s, txs[0]), txs[1..])
  }

  /** No account is ever closed, and no account field other than a claim's
      status ever changes. */
  lemma {:induction false} RunExtends(s: State, txs: seq<Instruction>)
    ensures Extends(s, Run(s, txs))
    decreases |txs|
  {
    if txs != [] {
      var t := Next(s, txs[0]);
      RunExtends(t, txs[1..]);
    }
  }

  /** Lamports are neither created nor destroyed by the program. */
  lemma {:induction false} RunConservesLamports(s: State, txs: seq<Instruction>)
    ensures Lamports.Total(Run(s, txs).lamports) == Lamports.Total(s.lamports)
    decreases |txs|
  {
    if txs != [] {
      RunConservesLamports(Next(s, txs[0]), txs[1..]);
    }
  }

  /** Every account stays at the address of its own seed, and every claim fits
      its allocation. */
  lemma {:induction false} RunPreservesValid(s: State, txs: seq<Instruction>)
    requires Valid(s)
    ensures Valid(Run(s, txs))
    decreases |txs|
  {
    if txs != [] {
      RunPreservesValid(Next(s, txs[0]), txs[1..]);
    }
  }

  /** From the genesis state, whatever transactions run, the accounts are
      consistent and the total supply of lamports is what it was. */
  lemma Reachable(lamports: Lamports.Balances, txs: seq<Instruction>)
    ensures Valid(Run(Genesis(lamports), txs))
    ensures Lamports.Total(Run(Genesis(lamports), txs).lamports) == Lamports.Total(lamports)
  {
    RunPreservesValid(Genesis(lamports), txs);
    RunConservesLamports(Genesis(lamports), txs);
  }

  /** Both instructions `init` the account at the same PDA. */
  predicate SameSeed(a: Instruction, b: Instruction) {
    || (a.InitializePatient? && b.InitializePatient? && a.authority == b.authority)
    || (a.InitializeProvider? && b.InitializeProvider? && a.authority == b.authority)
    || (a.SubmitHealthData? && b.SubmitHealthData? && a.dataHash == b.dataHash)
    || (a.CreateClaim? && b.CreateClaim? && a.claimId == b.claimId)
  }

  /** Once a seeded account exists, a second `init` at its address fails with
      "already in use" and the transaction leaves every account as it was. */
  lemma SecondInitFails(s: State, first: Instruction, second: Instruction)
    requires SameSeed(first, second)
    requires Apply(s, first).Ok?
    ensures Apply(Apply(s, first).value, second) == Err(AccountAlreadyInUse)
    ensures Next(Apply(s, first).value, second) == Apply(s, first).value
  {
  }

  /** Only `verify_claim`, signed by the claim's provider and asking for
      `Verified`, can make a claim verified. */
  lemma OnlyVerifyClaimVerifies(s: State, ix: Instruction, id: Text)
    requires id in s.claims && s.claims[id].status != Verified
    requires Apply(s, ix).Ok?
    requires id in Apply(s, ix).value.claims && Apply(s, ix).value.claims[id].status == Verified
    ensures ix == VerifyClaim(s.claims[id].provider, id, Verified)
  {
  }

  /** A claim that is not verified (in particular, a claim already paid) stays
      unpayable through any sequence of transactions in which its own provider
      does not call `verify_claim` to set it back to `Verified`. Such calls
      signed by anyone else fail and do not matter. */
  lemma {:induction false} NoPaymentWithoutReverify(s: State, txs: seq<Instruction>, id: Text)
    requires id in s.claims && s.claims[id].status != Verified
    requires forall i | 0 <= i < |txs| :: txs[i] != VerifyClaim(s.claims[id].provider, id, Verified)
    ensures id in Run(s, txs).claims && Run(s, txs).claims[id].status != Verified
    ensures Run(s, txs).claims[id].provider == s.claims[id].provider
    ensures forall signer, patient :: Instructions.ProcessPayment(Run(s, txs), signer, patient, id).Err?
    decreases |txs|
  {
    if txs != [] {
      var t := Next(s, txs[0]);
      if Apply(s, txs[0]).Ok? {
        assert id in t.claims;
        if t.claims[id].status == Verified {
          OnlyVerifyClaimVerifies(s, txs[0], id);
          assert false;
        }
      }
      assert t.claims[id].provider == s.claims[id].provider;
      forall i | 0 <= i < |txs[1..]| ensures txs[1..][i] != VerifyClaim(t.claims[id].provider, id, Verified) {
        assert txs[1..][i] == txs[i + 1];
      }
      NoPaymentWithoutReverify(t, txs[1..], id);
    }
  }

  /** Paying a claim twice in a row fails: the first payment left it `Paid`. */
  lemma DoublePaymentFails(s: State, signer: Pubkey, patient: Pubkey, id: Text)
    requires Instructions.ProcessPayment(s, signer, patient, id).Ok?
    ensures Instructions.ProcessPayment(Instructions.ProcessPayment(s, signer, patient, id).value, signer, patient, id)
            == Err(Custom(ClaimNotVerified))
  {
  }

  /** As written, `verify_claim` may take a paid claim back to `Verified`, after
      which the provider can pay it a second time. */
  lemma ReverifyAllowsSecondPayment(s: State, signer: Pubkey, patient: Pubkey, id: Text)
    requires Instructions.ProcessPayment(s, signer, patient, id).Ok?
    requires id in s.claims
    requires s.claims[id].amount <= Lamports.Balance(s.lamports, signer) - s.claims[id].amount
    requires signer != patient
    requires Lamports.Balance(s.lamports, patient) + 2 * s.claims[id].amount <= U64_MAX
    ensures
      var paid := Instructions.ProcessPayment(s, signer, patient, id).value;
      && Instructions.VerifyClaim(paid, signer, id, Verified).Ok?
      && Instructions.ProcessPayment(Instructions.VerifyClaim(paid, signer, id, Verified).value, signer, patient, id).Ok?
  {
  }
}

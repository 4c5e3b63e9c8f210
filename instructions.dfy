/** The six instruction handlers of the program, each as the state it leaves
    behind or the error it ends with. The runtime discards every change of an
    instruction that fails, so an error carries no state.

    Signer and unchecked-account keys are parameters, and so is the clock's
    unix timestamp (`now`). */
module Instructions {
  import opened Accounts
  import opened Registry
  import Space
  import Lamports

  /** `initialize_patient`: `init` of the account seeded by the signing authority. */
  function InitializePatient(s: State, authority: Pubkey, did: Text): (r: Result<State>)
    ensures r.Err? <==> authority in s.patients
    ensures r.Err? ==> r.error == AccountAlreadyInUse
    ensures r.Ok? ==> Inserted(s.patients, r.value.patients, authority, PatientAccount(authority, did))
    ensures r.Ok? ==> r.value == s.(patients := r.value.patients)
  {
    if authority in s.patients then Err(AccountAlreadyInUse)
    else Ok(s.(patients := s.patients[authority := PatientAccount(authority, did)]))
  }

  /** `initialize_provider`: `init` of the account seeded by the signing authority. */
  function InitializeProvider(s: State, authority: Pubkey, did: Text, name: Text): (r: Result<State>)
    ensures r.Err? <==> authority in s.providers
    ensures r.Err? ==> r.error == AccountAlreadyInUse
    ensures r.Ok? ==> Inserted(s.providers, r.value.providers, authority, ProviderAccount(authority, did, name))
    ensures r.Ok? ==> r.value == s.(providers := r.value.providers)
  {
    if authority in s.providers then Err(AccountAlreadyInUse)
    else Ok(s.(providers := s.providers[authority := ProviderAccount(authority, did, name)]))
  }

  /** `submit_health_data`: `init` of the account seeded by `data_hash`, whoever signs. */
  function SubmitHealthData(s: State, owner: Pubkey, dataHash: Text, encryptedData: Text, now: I64): (r: Result<State>)
    ensures r.Err? <==> dataHash in s.healthData
    ensures r.Err? ==> r.error == AccountAlreadyInUse
    ensures r.Ok? ==>
      Inserted(s.healthData, r.value.healthData, dataHash, HealthDataAccount(owner, dataHash, encryptedData, now))
    ensures r.Ok? ==> r.value == s.(healthData := r.value.healthData)
  {
    if dataHash in s.healthData then Err(AccountAlreadyInUse)
    else Ok(s.(healthData := s.healthData[dataHash := HealthDataAccount(owner, dataHash, encryptedData, now)]))
  }

  /** `create_claim`: `init` of the account seeded by `claim_id`, paid for by the
      signing patient; the provider is any key. The new record is serialized
      into the allocated space when the instruction exits. */
  function CreateClaim(s: State, patient: Pubkey, provider: Pubkey, claimId: Text, amount: U64,
                       healthDataHash: Text, now: I64): (r: Result<State>)
    ensures r.Ok? <==> claimId !in s.claims && |healthDataHash| <= Space.MAX_CLAIM_HASH_LEN
    ensures r.Err? ==>
      r.error == (if claimId in s.claims then AccountAlreadyInUse else AccountDidNotSerialize)
    ensures r.Ok? ==>
      Inserted(s.claims, r.value.claims, claimId,
               ClaimAccount(claimId, patient, provider, healthDataHash, amount, Pending, now))
    ensures r.Ok? ==> r.value == s.(claims := r.value.claims)
  {
    if claimId in s.claims then Err(AccountAlreadyInUse)
    else
      var claim := ClaimAccount(claimId, patient, provider, healthDataHash, amount, Pending, now);
      Space.ClaimFitsIff(claim);
      if !Space.ClaimFits(claim) then Err(AccountDidNotSerialize)
      else Ok(s.(claims := s.claims[claimId := claim]))
  }

  /** `verify_claim`: the claim's own provider sets its status to any value,
      whatever the status was. */
  function VerifyClaim(s: State, signer: Pubkey, claimId: Text, status: ClaimStatus): (r: Result<State>)
    ensures r.Ok? <==> claimId in s.claims && s.claims[claimId].provider == signer
    ensures r.Err? ==>
      r.error == (if claimId !in s.claims then AccountNotInitialized else Custom(Unauthorized))
    ensures r.Ok? ==> Replaced(s.claims, r.value.claims, claimId, s.claims[claimId].(status := status))
    ensures r.Ok? ==> r.value == s.(claims := r.value.claims)
  {
    if claimId !in s.claims then Err(AccountNotInitialized)
    else
      var claim := s.claims[claimId];
      if claim.provider != signer then Err(Custom(Unauthorized))
      else Ok(s.(claims := s.claims[claimId := claim.(status := status)]))
  }

  /** Whether the three checks of `process_payment` pass, in the order the
      handler makes them, and which error the first failing one raises. */
  function PaymentCheck(c: ClaimAccount, signer: Pubkey, patient: Pubkey): (r: Result<()>)
    ensures r.Ok? <==> c.provider == signer && c.patient == patient && c.status == Verified
    ensures c.provider != signer ==> r == Err(Custom(Unauthorized))
    ensures c.provider == signer && c.patient != patient ==> r == Err(Custom(InvalidPatient))
    ensures c.provider == signer && c.patient == patient && c.status != Verified ==>
      r == Err(Custom(ClaimNotVerified))
  {
    if c.provider != signer then Err(Custom(Unauthorized))
    else if c.patient != patient then Err(Custom(InvalidPatient))
    else if c.status != Verified then Err(Custom(ClaimNotVerified))
    else Ok(())
  }

  /** `process_payment`: after the checks, the signing provider pays the claim
      amount to the patient through the system program, then the claim is
      marked paid. */
  function ProcessPayment(s: State, signer: Pubkey, patient: Pubkey, claimId: Text): (r: Result<State>)
    ensures claimId !in s.claims ==> r == Err(AccountNotInitialized)
    ensures claimId in s.claims && PaymentCheck(s.claims[claimId], signer, patient).Err? ==>
      r == Err(PaymentCheck(s.claims[claimId], signer, patient).error)
    ensures && claimId in s.claims
            && PaymentCheck(s.claims[claimId], signer, patient).Ok?
            && Lamports.Transfer(s.lamports, signer, patient, s.claims[claimId].amount).Err? ==>
      r == Err(Lamports.Transfer(s.lamports, signer, patient, s.claims[claimId].amount).error)
    ensures r.Ok? <==>
      && claimId in s.claims
      && PaymentCheck(s.claims[claimId], signer, patient).Ok?
      && Lamports.Transfer(s.lamports, signer, patient, s.claims[claimId].amount).Ok?
    ensures r.Ok? ==> Replaced(s.claims, r.value.claims, claimId, s.claims[claimId].(status := Paid))
    ensures r.Ok? ==> Lamports.Total(r.value.lamports) == Lamports.Total(s.lamports)
    ensures r.Ok? && signer != patient ==>
      && Lamports.Balance(r.value.lamports, signer) == Lamports.Balance(s.lamports, signer) - s.claims[claimId].amount
      && Lamports.Balance(r.value.lamports, patient) == Lamports.Balance(s.lamports, patient) + s.claims[claimId].amount
    ensures r.Ok? && signer == patient ==>
      Lamports.Balance(r.value.lamports, signer) == Lamports.Balance(s.lamports, signer)
    ensures r.Ok? ==>
      forall k | k != signer && k != patient ::
        Lamports.Balance(r.value.lamports, k) == Lamports.Balance(s.lamports, k)
    ensures r.Ok? ==> r.value == s.(claims := r.value.claims, lamports := r.value.lamports)
  {
    if claimId !in s.claims then Err(AccountNotInitialized)
    else
      var claim := s.claims[claimId];
      match PaymentCheck(claim, signer, patient)
      case Err(e) => Err(e)
      case Ok(_) =>
        match Lamports.Transfer(s.lamports, signer, patient, claim.amount)
        case Err(e) => Err(e)
        case Ok(lamports) =>
          Ok(s.(claims := s.claims[claimId := claim.(status := Paid)], lamports := lamports))
  }

  /** How a method that performs an instruction in place relates to the
      instruction's function: on success the new state is the function's,
      on error nothing has changed. */
  ghost predicate Committed(step: Result<State>, before: State, after: State, r: Result<()>) {
    match step
    case Ok(t) => r == Ok(()) && after == t
    case Err(e) => r == Err(e) && after == before
  }
}

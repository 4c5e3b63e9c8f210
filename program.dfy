/** The deployed program with its accounts, as an object whose instruction
    methods update the account maps and balances in place. Each method is
    proved to do what the instruction's function in `Instructions` says, so
    every lemma about those functions holds of the methods too. */
module PrimalHealth {
  import opened Accounts
  import opened Registry
  import Instructions
  import Lamports
  import Space

  class Program {
    var patients: map<Pubkey, PatientAccount>
    var providers: map<Pubkey, ProviderAccount>
    var healthData: map<Text, HealthDataAccount>
    var claims: map<Text, ClaimAccount>
    var lamports: Lamports.Balances

    /** The accounts and balances as a value. */
    function Snapshot(): State
      reads this
    {
      State(patients, providers, healthData, claims, lamports)
    }

    ghost predicate Valid()
      reads this
    {
      Registry.Valid(Snapshot())
    }

    /** A freshly deployed program: no accounts yet, the given balances. */
    constructor (balances: Lamports.Balances)
      ensures Valid()
      ensures Snapshot() == Genesis(balances)
    {
      patients, providers, healthData, claims := map[], map[], map[], map[];
      lamports := balances;
    }

    method InitializePatient(authority: Pubkey, did: Text) returns (r: Result<()>)
      requires Valid()
      modifies this
      ensures Valid()
      ensures Instructions.Committed(
                Instructions.InitializePatient(old(Snapshot()), authority, did), old(Snapshot()), Snapshot(), r)
    {
      if authority in patients {
        return Err(AccountAlreadyInUse);
      }
      patients := patients[authority := PatientAccount(authority, did)];
      r := Ok(());
    }

    method InitializeProvider(authority: Pubkey, did: Text, name: Text) returns (r: Result<()>)
      requires Valid()
      modifies this
      ensures Valid()
      ensures Instructions.Committed(
                Instructions.InitializeProvider(old(Snapshot()), authority, did, name), old(Snapshot()), Snapshot(), r)
    {
      if authority in providers {
        return Err(AccountAlreadyInUse);
      }
      providers := providers[authority := ProviderAccount(authority, did, name)];
      r := Ok(());
    }

    method SubmitHealthData(owner: Pubkey, dataHash: Text, encryptedData: Text, now: I64) returns (r: Result<()>)
      requires Valid()
      modifies this
      ensures Valid()
      ensures Instructions.Committed(
                Instructions.SubmitHealthData(old(Snapshot()), owner, dataHash, encryptedData, now),
                old(Snapshot()), Snapshot(), r)
    {
      if dataHash in healthData {
        return Err(AccountAlreadyInUse);
      }
      healthData := healthData[dataHash := HealthDataAccount(owner, dataHash, encryptedData, now)];
      r := Ok(());
    }

    method CreateClaim(patient: Pubkey, provider: Pubkey, claimId: Text, amount: U64,
                       healthDataHash: Text, now: I64) returns (r: Result<()>)
      requires Valid()
      modifies this
      ensures Valid()
      ensures Instructions.Committed(
                Instructions.CreateClaim(old(Snapshot()), patient, provider, claimId, amount, healthDataHash, now),
                old(Snapshot()), Snapshot(), r)
    {
      if claimId in claims {
        return Err(AccountAlreadyInUse);
      }
      var claim := ClaimAccount(claimId, patient, provider, healthDataHash, amount, Pending, now);
      if !Space.ClaimFits(claim) {
        return Err(AccountDidNotSerialize);
      }
      claims := claims[claimId := claim];
      r := Ok(());
    }

    method VerifyClaim(signer: Pubkey, claimId: Text, status: ClaimStatus) returns (r: Result<()>)
      requires Valid()
      modifies this
      ensures Valid()
      ensures Instructions.Committed(
                Instructions.VerifyClaim(old(Snapshot()), signer, claimId, status), old(Snapshot()), Snapshot(), r)
    {
      if claimId !in claims {
        return Err(AccountNotInitialized);
      }
      var claim := claims[claimId];
      if claim.provider != signer {
        return Err(Custom(Unauthorized));
      }
      claims := claims[claimId := claim.(status := status)];
      r := Ok(());
    }

    method ProcessPayment(signer: Pubkey, patient: Pubkey, claimId: Text) returns (r: Result<()>)
      requires Valid()
      modifies this
      ensures Valid()
      ensures Instructions.Committed(
                Instructions.ProcessPayment(old(Snapshot()), signer, patient, claimId), old(Snapshot()), Snapshot(), r)
    {
      if claimId !in claims {
        return Err(AccountNotInitialized);
      }
      var claim := claims[claimId];
      if claim.provider != signer {
        return Err(Custom(Unauthorized));
      }
      if claim.patient != patient {
        return Err(Custom(InvalidPatient));
      }
      if claim.status != Verified {
        return Err(Custom(ClaimNotVerified));
      }
      var transferred := Lamports.Transfer(lamports, signer, patient, claim.amount);
      if transferred.Err? {
        return Err(transferred.error);
      }
      lamports := transferred.value;
      claims := claims[claimId := claim.(status := Paid)];
      r := Ok(());
    }
  }
}

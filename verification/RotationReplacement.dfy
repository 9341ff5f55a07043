/**
 How a failed replacement of the User credential unwinds: through the Keychain replacer, the bundle
 encoder, the principal verifier and the persister into the catch block of the reauthorization
 coordinator, which decides whether the journal's reservation is taken back.
 */
module RotationReplacement {
  /** Where persistWithResult stands. In `Writing` the Keychain command has been started. */
  datatype Stage = Checking | Verifying | Encoding | Replacing | Writing

  datatype PersistenceCode =
    | RequestInvalid
    | IdentityMismatch
    | AuthorizationNeeded
    | VerificationUnavailable
    | PersistenceUnavailable
    | PersistenceUncertain

  datatype VerificationCode =
    | VerificationRequestInvalid
    | ClientInvalid
    | ResponseInvalid
    | PrincipalMismatch
    | Unreachable
    | RenewalNeeded
    | RetryLater

  /** What can be thrown, by class and code. `Aborted` is the reason of the abort signal. */
  datatype Thrown =
    | Aborted
    | EncoderFailed
    | KeychainFailed(writeUncertain: bool)
    | PersistenceFailed(code: PersistenceCode)
    | VerificationFailed(verification: VerificationCode)
    | ReauthorizationFailed
    | RotationFailed
    | OtherFailure

  /** Whether the signal is aborted when each of the three catch blocks asks. */
  datatype Aborts = Aborts(inner: bool, outer: bool, last: bool)

  /** A signal that is aborted stays aborted. */
  predicate Monotone(a: Aborts)
  {
    (a.inner ==> a.outer) && (a.outer ==> a.last)
  }

  /** What the operation of each stage can throw; the command runner can throw anything. */
  predicate Raises(stage: Stage, e: Thrown, a: Aborts)
  {
    && (e.Aborted? ==> a.inner)
    && match stage
       case Checking => e.Aborted? || e == PersistenceFailed(RequestInvalid)
       case Verifying => e.Aborted? || e.VerificationFailed? || e.OtherFailure?
       case Encoding => e.Aborted? || e.EncoderFailed? || e.OtherFailure?
       case Replacing => e.Aborted? || e == KeychainFailed(false) || e.OtherFailure?
       case Writing => true
  }

  /** The replacer reports every failure after the start of the command as an uncertain write. */
  function Replacer(e: Thrown, started: bool): Thrown
  {
    if started then KeychainFailed(true) else e
  }

  function MapPersistence(e: Thrown): Thrown
  {
    match e
    case EncoderFailed => PersistenceFailed(RequestInvalid)
    case KeychainFailed(writeUncertain) =>
      PersistenceFailed(if writeUncertain then PersistenceUncertain else PersistenceUnavailable)
    case _ => PersistenceFailed(PersistenceUnavailable)
  }

  function MapVerification(code: VerificationCode): Thrown
  {
    match code
    case PrincipalMismatch => PersistenceFailed(IdentityMismatch)
    case RenewalNeeded => PersistenceFailed(AuthorizationNeeded)
    case ResponseInvalid => PersistenceFailed(VerificationUnavailable)
    case Unreachable => PersistenceFailed(VerificationUnavailable)
    case RetryLater => PersistenceFailed(VerificationUnavailable)
    case _ => PersistenceFailed(RequestInvalid)
  }

  /** The catch block around the encoder and the replacer. */
  function InnerCatch(e: Thrown, aborted: bool): Thrown
  {
    if e.EncoderFailed? || e.KeychainFailed? then MapPersistence(e)
    else if aborted then Aborted
    else MapPersistence(e)
  }

  /** The catch block around the verifier, whose callback holds the encoder and the replacer. */
  function OuterCatch(e: Thrown, aborted: bool): Thrown
  {
    if e.PersistenceFailed? then e
    else if e.VerificationFailed? then MapVerification(e.verification)
    else if aborted then Aborted
    else PersistenceFailed(VerificationUnavailable)
  }

  /** What persistWithResult throws when the operation of a stage throws. The verifier and the encoder pass it on. */
  function Unwound(stage: Stage, e: Thrown, a: Aborts): Thrown
  {
    match stage
    case Checking => e
    case Verifying => OuterCatch(e, a.outer)
    case Encoding => OuterCatch(InnerCatch(e, a.inner), a.outer)
    case Replacing => OuterCatch(InnerCatch(Replacer(e, false), a.inner), a.outer)
    case Writing => OuterCatch(InnerCatch(Replacer(e, true), a.inner), a.outer)
  }

  /** What the catch block of replace does about the reservation before it throws. */
  datatype Disposition = Restore | Leave

  function Caught(e: Thrown, persisted: bool, aborted: bool, reserved: bool): Disposition
  {
    if persisted then Leave
    else if e.ReauthorizationFailed? then (if reserved then Restore else Leave)
    else if e.PersistenceFailed? then
      (if e.code != PersistenceUncertain && reserved then Restore else Leave)
    else if e.RotationFailed? then Leave
    else if aborted then (if reserved then Restore else Leave)
    else Leave
  }

  /** What becomes of the reservation when the operation of a stage throws. */
  function Outcome(stage: Stage, e: Thrown, a: Aborts): Disposition
  {
    Caught(Unwound(stage, e, a), false, a.last, true)
  }

  /**
   Through all four layers: whatever is thrown where and whenever the signal is aborted, the reservation is
   left in place exactly when the Keychain command had been started.
   */
  lemma LeftIffStarted(stage: Stage, e: Thrown, a: Aborts)
    requires Raises(stage, e, a) && Monotone(a)
    ensures Outcome(stage, e, a) == Leave <==> stage.Writing?
  {
    if stage.Verifying? && e.VerificationFailed? {
      assert MapVerification(e.verification).code != PersistenceUncertain;
    }
  }
}

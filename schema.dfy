/**
 * The enumerated schema of the certificate front end: the three-valued check
 * outcome, the closed sets of checks and details in their declaration order,
 * and the static name and description tables indexed by that order.
 */
module CertificateSchema {

  /** `Certificate::CheckValues`. */
  datatype CheckValue = Failed | Passed | Unsupported

  /** `Certificate::Checks`, in declaration order; the `COUNT__` sentinel is not a value. */
  datatype Check =
    | HasPrivateKey
    | Expired
    | StrongSigning
    | NotSelfSigned
    | KeyMatch
    | PrivateKeyStoragePermission
    | PublicKeyStoragePermission
    | PrivateKeyDirectoryPermissions
    | PublicKeyDirectoryPermissions
    | PrivateKeyStorageLocation
    | PublicKeyStorageLocation
    | PrivateKeySelinuxAttributes
    | PublicKeySelinuxAttributes
    | Exist
    | Valid
    | ValidAuthority
    | KnownAuthority
    | NotRevoked
    | AuthorityMatch
    | ExpectedOwner
    | Activated

  /** `Certificate::Details`, in declaration order; the `COUNT__` sentinel is not a value. */
  datatype Detail =
    | ExpirationDate
    | ActivationDate
    | RequirePrivateKeyPassword
    | PublicSignature
    | VersionNumber
    | SerialNumber
    | Issuer
    | SubjectKeyAlgorithm
    | Cn
    | N
    | O
    | SignatureAlgorithm
    | Md5Fingerprint
    | Sha1Fingerprint
    | PublicKeyId
    | IssuerDn
    | NextExpectedUpdateDate
    | OutgoingServer

  /** The value of `Checks::COUNT__`. */
  const CHECKS_COUNT: nat := 21
  /** The value of `Details::COUNT__`. */
  const DETAILS_COUNT: nat := 18

  /** Every check, listed at its ordinal. */
  const ALL_CHECKS: seq<Check> := [
    HasPrivateKey, Expired, StrongSigning, NotSelfSigned, KeyMatch,
    PrivateKeyStoragePermission, PublicKeyStoragePermission,
    PrivateKeyDirectoryPermissions, PublicKeyDirectoryPermissions,
    PrivateKeyStorageLocation, PublicKeyStorageLocation,
    PrivateKeySelinuxAttributes, PublicKeySelinuxAttributes,
    Exist, Valid, ValidAuthority, KnownAuthority, NotRevoked,
    AuthorityMatch, ExpectedOwner, Activated]

  /** Every detail, listed at its ordinal. */
  const ALL_DETAILS: seq<Detail> := [
    ExpirationDate, ActivationDate, RequirePrivateKeyPassword, PublicSignature,
    VersionNumber, SerialNumber, Issuer, SubjectKeyAlgorithm, Cn, N, O,
    SignatureAlgorithm, Md5Fingerprint, Sha1Fingerprint, PublicKeyId, IssuerDn,
    NextExpectedUpdateDate, OutgoingServer]

  /** The position of a check in `Certificate::Checks`, which indexes the check tables. */
  function CheckOrdinal(c: Check): (i: nat)
    ensures i < CHECKS_COUNT && i < |ALL_CHECKS| && ALL_CHECKS[i] == c
  {
    match c
    case HasPrivateKey => 0
    case Expired => 1
    case StrongSigning => 2
    case NotSelfSigned => 3
    case KeyMatch => 4
    case PrivateKeyStoragePermission => 5
    case PublicKeyStoragePermission => 6
    case PrivateKeyDirectoryPermissions => 7
    case PublicKeyDirectoryPermissions => 8
    case PrivateKeyStorageLocation => 9
    case PublicKeyStorageLocation => 10
    case PrivateKeySelinuxAttributes => 11
    case PublicKeySelinuxAttributes => 12
    case Exist => 13
    case Valid => 14
    case ValidAuthority => 15
    case KnownAuthority => 16
    case NotRevoked => 17
    case AuthorityMatch => 18
    case ExpectedOwner => 19
    case Activated => 20
  }

  /** The position of a detail in `Certificate::Details`, which indexes the detail tables. */
  function DetailOrdinal(d: Detail): (i: nat)
    ensures i < DETAILS_COUNT && i < |ALL_DETAILS| && ALL_DETAILS[i] == d
  {
    match d
    case ExpirationDate => 0
    case ActivationDate => 1
    case RequirePrivateKeyPassword => 2
    case PublicSignature => 3
    case VersionNumber => 4
    case SerialNumber => 5
    case Issuer => 6
    case SubjectKeyAlgorithm => 7
    case Cn => 8
    case N => 9
    case O => 10
    case SignatureAlgorithm => 11
    case Md5Fingerprint => 12
    case Sha1Fingerprint => 13
    case PublicKeyId => 14
    case IssuerDn => 15
    case NextExpectedUpdateDate => 16
    case OutgoingServer => 17
  }

  /** The ordinals number the checks one to one: every ordinal below the count names exactly one check. */
  lemma CheckOrdinalBijective()
    ensures |ALL_CHECKS| == CHECKS_COUNT
    ensures forall i :: 0 <= i < CHECKS_COUNT ==> CheckOrdinal(ALL_CHECKS[i]) == i
    ensures forall c1: Check, c2: Check :: CheckOrdinal(c1) == CheckOrdinal(c2) ==> c1 == c2
  {
  }

  /** The ordinals number the details one to one. */
  lemma DetailOrdinalBijective()
    ensures |ALL_DETAILS| == DETAILS_COUNT
    ensures forall i :: 0 <= i < DETAILS_COUNT ==> DetailOrdinal(ALL_DETAILS[i]) == i
    ensures forall d1: Detail, d2: Detail :: DetailOrdinal(d1) == DetailOrdinal(d2) ==> d1 == d2
  {
  }

  // ---------------------------------------------------------------- tables

  /** `m_slChecksName`. */
  const CHECK_NAMES: seq<string> := [
    "Has a private key",
    "Is not expired",
    "Has strong signing",
    "Is not self signed",
    "Have a matching key pair",
    "Has the right private key file permissions",
    "Has the right public key file permissions",
    "Has the right private key directory permissions",
    "Has the right public key directory permissions",
    "Has the right private key directory location",
    "Has the right public key directory location",
    "Has the right private key SELinux attributes",
    "Has the right public key SELinux attributes",
    "The certificate file exist and is readable",
    "The file is a valid certificate",
    "The certificate has a valid authority",
    "The certificate has a known authority",
    "The certificate is not revoked",
    "The certificate authority match",
    "The certificate has the expected owner",
    "The certificate is within its active period"]

  /** `m_slChecksDescription`: every entry is still the placeholder. */
  const CHECK_DESCRIPTIONS: seq<string> := [
    "TODO", "TODO", "TODO", "TODO", "TODO", "TODO", "TODO",
    "TODO", "TODO", "TODO", "TODO", "TODO", "TODO", "TODO",
    "TODO", "TODO", "TODO", "TODO", "TODO", "TODO", "TODO"]

  /** `m_slDetailssName`. */
  const DETAIL_NAMES: seq<string> := [
    "Expiration date",
    "Activation date",
    "Require a private key password",
    "Public signature",
    "Version",
    "Serial number",
    "Issuer",
    "Subject key algorithm",
    "Common name (CN)",
    "Name (N)",
    "Organization (O)",
    "Signature algorithm",
    "Md5 fingerprint",
    "Sha1 fingerprint",
    "Public key id",
    "Issuer domain name",
    "Next expected update",
    "Outgoing server"]

  /** `m_slDetailssDescription`: every entry is still the placeholder. */
  const DETAIL_DESCRIPTIONS: seq<string> := [
    "TODO", "TODO", "TODO", "TODO", "TODO", "TODO",
    "TODO", "TODO", "TODO", "TODO", "TODO", "TODO",
    "TODO", "TODO", "TODO", "TODO", "TODO", "TODO"]

  /** Each table has exactly one entry per enumerator. */
  lemma TablesMatchEnumerators()
    ensures |CHECK_NAMES| == |CHECK_DESCRIPTIONS| == CHECKS_COUNT
    ensures |DETAIL_NAMES| == |DETAIL_DESCRIPTIONS| == DETAILS_COUNT
  {
  }

  /** `Certificate::getName(Checks)`: the entry of the name table at the check's ordinal. */
  function GetCheckName(c: Check): (name: string)
    ensures name != [] && name in CHECK_NAMES
  {
    CHECK_NAMES[CheckOrdinal(c)]
  }

  /** `Certificate::getName(Details)`. */
  function GetDetailName(d: Detail): (name: string)
    ensures name != [] && name in DETAIL_NAMES
  {
    DETAIL_NAMES[DetailOrdinal(d)]
  }

  /** `Certificate::getDescription(Checks)`. */
  function GetCheckDescription(c: Check): (description: string)
    ensures description == "TODO"
  {
    CHECK_DESCRIPTIONS[CheckOrdinal(c)]
  }

  /** `Certificate::getDescription(Details)`. */
  function GetDetailDescription(d: Detail): (description: string)
    ensures description == "TODO"
  {
    DETAIL_DESCRIPTIONS[DetailOrdinal(d)]
  }

  /** The lookups are pure index lookups: the enumerator at ordinal `i` reads entry `i` of each table. */
  lemma CheckTablesIndexedByOrdinal()
    ensures forall i :: 0 <= i < CHECKS_COUNT ==>
      GetCheckName(ALL_CHECKS[i]) == CHECK_NAMES[i] && GetCheckDescription(ALL_CHECKS[i]) == CHECK_DESCRIPTIONS[i]
  {
    CheckOrdinalBijective();
  }

  /** The enumerator at ordinal `i` reads entry `i` of each detail table. */
  lemma DetailTablesIndexedByOrdinal()
    ensures forall i :: 0 <= i < DETAILS_COUNT ==>
      GetDetailName(ALL_DETAILS[i]) == DETAIL_NAMES[i] && GetDetailDescription(ALL_DETAILS[i]) == DETAIL_DESCRIPTIONS[i]
  {
    DetailOrdinalBijective();
  }

  /** No two checks share a display name, so a name identifies its check. */
  lemma CheckNamesDistinct(c1: Check, c2: Check)
    ensures GetCheckName(c1) == GetCheckName(c2) ==> c1 == c2
  {
    assert forall i, j :: 0 <= i < j < |CHECK_NAMES| ==> CHECK_NAMES[i] != CHECK_NAMES[j];
    CheckOrdinalBijective();
  }

  /** No two details share a display name. */
  lemma DetailNamesDistinct(d1: Detail, d2: Detail)
    ensures GetDetailName(d1) == GetDetailName(d2) ==> d1 == d2
  {
    assert forall i, j :: 0 <= i < j < |DETAIL_NAMES| ==> DETAIL_NAMES[i] != DETAIL_NAMES[j];
    DetailOrdinalBijective();
  }
}

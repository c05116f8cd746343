/**
 * The daemon's protocol constants (`DRing::Certificate::...` in the daemon's
 * `security_const.h`): the key under which each check and each detail comes
 * back in a result map, and the two outcome tokens.  The header itself is not
 * part of this model; each constant is spelled as its identifier, and the
 * proofs rely only on the keys being pairwise distinct, no check key being
 * the empty string, the two tokens differing, and neither token being the
 * empty string.
 */
module SecurityConst {
  import opened CertificateSchema

  /** `CheckValuesNames::PASSED`. */
  const PASSED: string := "PASSED"
  /** `CheckValuesNames::FAILED`. */
  const FAILED: string := "FAILED"

  /** The `ChecksNames` key that `ChecksCache` reads for each check. */
  function CheckKey(c: Check): (k: string)
    ensures k != ""
  {
    match c
    case HasPrivateKey => "HAS_PRIVATE_KEY"
    case Expired => "EXPIRED"
    case StrongSigning => "STRONG_SIGNING"
    case NotSelfSigned => "NOT_SELF_SIGNED"
    case KeyMatch => "KEY_MATCH"
    case PrivateKeyStoragePermission => "PRIVATE_KEY_STORAGE_PERMISSION"
    case PublicKeyStoragePermission => "PUBLIC_KEY_STORAGE_PERMISSION"
    case PrivateKeyDirectoryPermissions => "PRIVATE_KEY_DIRECTORY_PERMISSIONS"
    case PublicKeyDirectoryPermissions => "PUBLIC_KEY_DIRECTORY_PERMISSIONS"
    case PrivateKeyStorageLocation => "PRIVATE_KEY_STORAGE_LOCATION"
    case PublicKeyStorageLocation => "PUBLIC_KEY_STORAGE_LOCATION"
    case PrivateKeySelinuxAttributes => "PRIVATE_KEY_SELINUX_ATTRIBUTES"
    case PublicKeySelinuxAttributes => "PUBLIC_KEY_SELINUX_ATTRIBUTES"
    case Exist => "EXIST"
    case Valid => "VALID"
    case ValidAuthority => "VALID_AUTHORITY"
    case KnownAuthority => "KNOWN_AUTHORITY"
    case NotRevoked => "NOT_REVOKED"
    case AuthorityMatch => "AUTHORITY_MISMATCH"
    case ExpectedOwner => "UNEXPECTED_OWNER"
    case Activated => "NOT_ACTIVATED"
  }

  /**
   * The `DetailsNames` key of each detail.  `RequirePrivateKeyPassword` has a
   * key, but `DetailsCache` never reads it.
   */
  function DetailKey(d: Detail): (k: string)
  {
    match d
    case ExpirationDate => "EXPIRATION_DATE"
    case ActivationDate => "ACTIVATION_DATE"
    case RequirePrivateKeyPassword => "REQUIRE_PRIVATE_KEY_PASSWORD"
    case PublicSignature => "PUBLIC_SIGNATURE"
    case VersionNumber => "VERSION_NUMBER"
    case SerialNumber => "SERIAL_NUMBER"
    case Issuer => "ISSUER"
    case SubjectKeyAlgorithm => "SUBJECT_KEY_ALGORITHM"
    case Cn => "CN"
    case N => "N"
    case O => "O"
    case SignatureAlgorithm => "SIGNATURE_ALGORITHM"
    case Md5Fingerprint => "MD5_FINGERPRINT"
    case Sha1Fingerprint => "SHA1_FINGERPRINT"
    case PublicKeyId => "PUBLIC_KEY_ID"
    case IssuerDn => "ISSUER_DN"
    case NextExpectedUpdateDate => "NEXT_EXPECTED_UPDATE_DATE"
    case OutgoingServer => "OUTGOING_SERVER"
  }

  /** Distinct checks are reported under distinct keys. */
  lemma CheckKeyInjective(c1: Check, c2: Check)
    ensures CheckKey(c1) == CheckKey(c2) ==> c1 == c2
  {
  }

  /** Distinct details are reported under distinct keys. */
  lemma DetailKeyInjective(d1: Detail, d2: Detail)
    ensures DetailKey(d1) == DetailKey(d2) ==> d1 == d2
  {
  }
}

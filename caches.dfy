/**
 * The two immutable cache records and the mapping from a daemon result map to
 * each of them (`ChecksCache`, `DetailsCache` and `CertificatePrivate::toBool`),
 * with the selectors that the dispatch functions route through.
 */
module Caches {
  import opened Wrappers
  import opened Qt
  import opened CertificateSchema
  import opened SecurityConst

  /** `CertificatePrivate::toBool`: the three-valued reading of a daemon outcome token. */
  function ToBool(token: string): (v: CheckValue)
    ensures v == Passed <==> token == PASSED
    ensures v == Failed <==> token == FAILED
    ensures v == Unsupported <==> token != PASSED && token != FAILED
  {
    if token == PASSED then Passed
    else if token == FAILED then Failed
    else Unsupported
  }

  // ---------------------------------------------------------------- checks

  /** `ChecksCache`: one outcome per check, named as the C++ members are. */
  datatype ChecksCache = ChecksCache(
    hasPrivateKey: CheckValue,
    isExpired: CheckValue,
    hasStrongSigning: CheckValue,
    isSelfSigned: CheckValue,
    privateKeyMatch: CheckValue,
    arePrivateKeyStoragePermissionOk: CheckValue,
    arePublicKeyStoragePermissionOk: CheckValue,
    arePrivateKeyDirectoryPermissionsOk: CheckValue,
    arePublicKeyDirectoryPermissionsOk: CheckValue,
    arePrivateKeyStorageLocationOk: CheckValue,
    arePublicKeyStorageLocationOk: CheckValue,
    arePrivateKeySelinuxAttributesOk: CheckValue,
    arePublicKeySelinuxAttributesOk: CheckValue,
    exist: CheckValue,
    isValid: CheckValue,
    validAuthority: CheckValue,
    hasKnownAuthority: CheckValue,
    isNotRevoked: CheckValue,
    authorityMismatch: CheckValue,
    unexpectedOwner: CheckValue,
    notActivated: CheckValue)

  /** The member of a `ChecksCache` that holds the outcome of check `c`. */
  function CheckOf(cache: ChecksCache, c: Check): CheckValue
  {
    match c
    case HasPrivateKey => cache.hasPrivateKey
    case Expired => cache.isExpired
    case StrongSigning => cache.hasStrongSigning
    case NotSelfSigned => cache.isSelfSigned
    case KeyMatch => cache.privateKeyMatch
    case PrivateKeyStoragePermission => cache.arePrivateKeyStoragePermissionOk
    case PublicKeyStoragePermission => cache.arePublicKeyStoragePermissionOk
    case PrivateKeyDirectoryPermissions => cache.arePrivateKeyDirectoryPermissionsOk
    case PublicKeyDirectoryPermissions => cache.arePublicKeyDirectoryPermissionsOk
    case PrivateKeyStorageLocation => cache.arePrivateKeyStorageLocationOk
    case PublicKeyStorageLocation => cache.arePublicKeyStorageLocationOk
    case PrivateKeySelinuxAttributes => cache.arePrivateKeySelinuxAttributesOk
    case PublicKeySelinuxAttributes => cache.arePublicKeySelinuxAttributesOk
    case Exist => cache.exist
    case Valid => cache.isValid
    case ValidAuthority => cache.validAuthority
    case KnownAuthority => cache.hasKnownAuthority
    case NotRevoked => cache.isNotRevoked
    case AuthorityMatch => cache.authorityMismatch
    case ExpectedOwner => cache.unexpectedOwner
    case Activated => cache.notActivated
  }

  /**
   * The `ChecksCache` constructor, member by member. An answer without any
   * entry leaves every check `Unsupported`; `ChecksCacheReadsOwnKey` states
   * the general case.
   */
  function BuildChecksCache(checks: StringMap): (cache: ChecksCache)
    ensures checks == map[] ==> forall c :: CheckOf(cache, c) == Unsupported
  {
    ChecksCache(
      ToBool(Lookup(checks, CheckKey(HasPrivateKey))),
      ToBool(Lookup(checks, CheckKey(Expired))),
      ToBool(Lookup(checks, CheckKey(StrongSigning))),
      ToBool(Lookup(checks, CheckKey(NotSelfSigned))),
      ToBool(Lookup(checks, CheckKey(KeyMatch))),
      ToBool(Lookup(checks, CheckKey(PrivateKeyStoragePermission))),
      ToBool(Lookup(checks, CheckKey(PublicKeyStoragePermission))),
      ToBool(Lookup(checks, CheckKey(PrivateKeyDirectoryPermissions))),
      ToBool(Lookup(checks, CheckKey(PublicKeyDirectoryPermissions))),
      ToBool(Lookup(checks, CheckKey(PrivateKeyStorageLocation))),
      ToBool(Lookup(checks, CheckKey(PublicKeyStorageLocation))),
      ToBool(Lookup(checks, CheckKey(PrivateKeySelinuxAttributes))),
      ToBool(Lookup(checks, CheckKey(PublicKeySelinuxAttributes))),
      ToBool(Lookup(checks, CheckKey(Exist))),
      ToBool(Lookup(checks, CheckKey(Valid))),
      ToBool(Lookup(checks, CheckKey(ValidAuthority))),
      ToBool(Lookup(checks, CheckKey(KnownAuthority))),
      ToBool(Lookup(checks, CheckKey(NotRevoked))),
      ToBool(Lookup(checks, CheckKey(AuthorityMatch))),
      ToBool(Lookup(checks, CheckKey(ExpectedOwner))),
      ToBool(Lookup(checks, CheckKey(Activated))))
  }

  /** Every check of a built `ChecksCache` is `toBool` of the token under that check's own key. */
  lemma ChecksCacheReadsOwnKey(checks: StringMap, c: Check)
    ensures CheckOf(BuildChecksCache(checks), c) == ToBool(Lookup(checks, CheckKey(c)))
  {
  }

  /**
   * `CheckOf` gives each check its own member: two caches that agree on every
   * check are the same cache, so the 21 checks cover the whole record.
   */
  lemma ChecksCacheDeterminedByChecks(a: ChecksCache, b: ChecksCache)
    requires forall c :: CheckOf(a, c) == CheckOf(b, c)
    ensures a == b
  {
    assert CheckOf(a, HasPrivateKey) == CheckOf(b, HasPrivateKey);
    assert CheckOf(a, Expired) == CheckOf(b, Expired);
    assert CheckOf(a, StrongSigning) == CheckOf(b, StrongSigning);
    assert CheckOf(a, NotSelfSigned) == CheckOf(b, NotSelfSigned);
    assert CheckOf(a, KeyMatch) == CheckOf(b, KeyMatch);
    assert CheckOf(a, PrivateKeyStoragePermission) == CheckOf(b, PrivateKeyStoragePermission);
    assert CheckOf(a, PublicKeyStoragePermission) == CheckOf(b, PublicKeyStoragePermission);
    assert CheckOf(a, PrivateKeyDirectoryPermissions) == CheckOf(b, PrivateKeyDirectoryPermissions);
    assert CheckOf(a, PublicKeyDirectoryPermissions) == CheckOf(b, PublicKeyDirectoryPermissions);
    assert CheckOf(a, PrivateKeyStorageLocation) == CheckOf(b, PrivateKeyStorageLocation);
    assert CheckOf(a, PublicKeyStorageLocation) == CheckOf(b, PublicKeyStorageLocation);
    assert CheckOf(a, PrivateKeySelinuxAttributes) == CheckOf(b, PrivateKeySelinuxAttributes);
    assert CheckOf(a, PublicKeySelinuxAttributes) == CheckOf(b, PublicKeySelinuxAttributes);
    assert CheckOf(a, Exist) == CheckOf(b, Exist);
    assert CheckOf(a, Valid) == CheckOf(b, Valid);
    assert CheckOf(a, ValidAuthority) == CheckOf(b, ValidAuthority);
    assert CheckOf(a, KnownAuthority) == CheckOf(b, KnownAuthority);
    assert CheckOf(a, NotRevoked) == CheckOf(b, NotRevoked);
    assert CheckOf(a, AuthorityMatch) == CheckOf(b, AuthorityMatch);
    assert CheckOf(a, ExpectedOwner) == CheckOf(b, ExpectedOwner);
    assert CheckOf(a, Activated) == CheckOf(b, Activated);
  }

  /** A check's outcome depends on its own key only: two maps that agree there give the same outcome. */
  lemma CheckDependsOnlyOnItsKey(m1: StringMap, m2: StringMap, c: Check)
    requires Lookup(m1, CheckKey(c)) == Lookup(m2, CheckKey(c))
    ensures CheckOf(BuildChecksCache(m1), c) == CheckOf(BuildChecksCache(m2), c)
  {
    ChecksCacheReadsOwnKey(m1, c);
    ChecksCacheReadsOwnKey(m2, c);
  }

  /** Overwriting one check's entry changes that check to the new token's reading and no other check. */
  lemma UpdatingOneCheck(m: StringMap, c: Check, token: string)
    ensures CheckOf(BuildChecksCache(m[CheckKey(c) := token]), c) == ToBool(token)
    ensures forall c' :: c' != c ==>
      CheckOf(BuildChecksCache(m[CheckKey(c) := token]), c') == CheckOf(BuildChecksCache(m), c')
  {
    var updated := m[CheckKey(c) := token];
    ChecksCacheReadsOwnKey(updated, c);
    forall c' | c' != c
      ensures CheckOf(BuildChecksCache(updated), c') == CheckOf(BuildChecksCache(m), c')
    {
      CheckKeyInjective(c, c');
      LookupOtherKey(m, CheckKey(c), CheckKey(c'), token);
      CheckDependsOnlyOnItsKey(updated, m, c');
    }
  }

  /** Deleting one check's entry makes that check `Unsupported` and changes no other check. */
  lemma RemovingOneCheck(m: StringMap, c: Check)
    ensures CheckOf(BuildChecksCache(m - {CheckKey(c)}), c) == Unsupported
    ensures forall c' :: c' != c ==>
      CheckOf(BuildChecksCache(m - {CheckKey(c)}), c') == CheckOf(BuildChecksCache(m), c')
  {
    var removed := m - {CheckKey(c)};
    ChecksCacheReadsOwnKey(removed, c);
    forall c' | c' != c
      ensures CheckOf(BuildChecksCache(removed), c') == CheckOf(BuildChecksCache(m), c')
    {
      CheckKeyInjective(c, c');
      LookupOtherKey(m, CheckKey(c), CheckKey(c'), "");
      CheckDependsOnlyOnItsKey(removed, m, c');
    }
  }

  /** A map that reports every check as passed yields a cache in which every check is `Passed`. */
  lemma AllPassedTokensGiveAllPassed(m: StringMap)
    requires forall c :: Lookup(m, CheckKey(c)) == PASSED
    ensures forall c :: CheckOf(BuildChecksCache(m), c) == Passed
  {
  }

  // ---------------------------------------------------------------- details

  /** The type a detail is stored at: the C++ member types `QDateTime`, `bool`, `QByteArray`, `int`, `QString`. */
  datatype DetailKind = DateKind | BoolKind | BytesKind | IntKind | StringKind

  /** The closed sum that replaces the `QVariant` returned by `detailResult`. */
  datatype DetailValue =
    | DDate(date: Option<DateTime>)
    | DBool(flag: bool)
    | DBytes(bytes: seq<Byte>)
    | DInt(number: int)
    | DString(text: string)

  function KindOf(v: DetailValue): DetailKind
  {
    match v
    case DDate(_) => DateKind
    case DBool(_) => BoolKind
    case DBytes(_) => BytesKind
    case DInt(_) => IntKind
    case DString(_) => StringKind
  }

  /** The declared type of each detail's member of `DetailsCache`. */
  function DetailKindOf(d: Detail): DetailKind
  {
    match d
    case ExpirationDate | ActivationDate | NextExpectedUpdateDate => DateKind
    case RequirePrivateKeyPassword => BoolKind
    case VersionNumber => IntKind
    case Issuer | Cn | N | O | OutgoingServer => StringKind
    case PublicSignature | SerialNumber | SubjectKeyAlgorithm | SignatureAlgorithm
       | Md5Fingerprint | Sha1Fingerprint | PublicKeyId | IssuerDn => BytesKind
  }

  /** `DetailsCache`: one member per detail, named as the C++ members are. */
  datatype DetailsCache = DetailsCache(
    expirationDate: Option<DateTime>,
    activationDate: Option<DateTime>,
    requirePrivateKeyPassword: bool,
    publicSignature: seq<Byte>,
    versionNumber: int,
    serialNumber: seq<Byte>,
    issuer: string,
    subjectKeyAlgorithm: seq<Byte>,
    cn: string,
    n: string,
    o: string,
    signatureAlgorithm: seq<Byte>,
    md5Fingerprint: seq<Byte>,
    sha1Fingerprint: seq<Byte>,
    publicKeyId: seq<Byte>,
    issuerDn: seq<Byte>,
    nextExpectedUpdateDate: Option<DateTime>,
    outgoingServer: string)

  /** The member of a `DetailsCache` that holds detail `d`, under the tag for its type. */
  function DetailOf(cache: DetailsCache, d: Detail): (v: DetailValue)
    ensures KindOf(v) == DetailKindOf(d)
  {
    match d
    case ExpirationDate => DDate(cache.expirationDate)
    case ActivationDate => DDate(cache.activationDate)
    case RequirePrivateKeyPassword => DBool(cache.requirePrivateKeyPassword)
    case PublicSignature => DBytes(cache.publicSignature)
    case VersionNumber => DInt(cache.versionNumber)
    case SerialNumber => DBytes(cache.serialNumber)
    case Issuer => DString(cache.issuer)
    case SubjectKeyAlgorithm => DBytes(cache.subjectKeyAlgorithm)
    case Cn => DString(cache.cn)
    case N => DString(cache.n)
    case O => DString(cache.o)
    case SignatureAlgorithm => DBytes(cache.signatureAlgorithm)
    case Md5Fingerprint => DBytes(cache.md5Fingerprint)
    case Sha1Fingerprint => DBytes(cache.sha1Fingerprint)
    case PublicKeyId => DBytes(cache.publicKeyId)
    case IssuerDn => DBytes(cache.issuerDn)
    case NextExpectedUpdateDate => DDate(cache.nextExpectedUpdateDate)
    case OutgoingServer => DString(cache.outgoingServer)
  }

  /** The format string `DetailsCache` hands to `QDateTime::fromString`. */
  const DATE_FORMAT: string := "yyyy-mm-dd"

  /**
   * The conversion `DetailsCache` applies to a detail of a given type: a date
   * parse, a byte copy, an integer parse defaulting to 0, or the text itself.
   * No detail of type `bool` is read from the map.
   */
  function DecodeDetail(kind: DetailKind, raw: string, parseDate: DateParser): (v: DetailValue)
    requires kind != BoolKind
    ensures KindOf(v) == kind
  {
    match kind
    case DateKind => DDate(parseDate(raw, DATE_FORMAT))
    case BytesKind => DBytes(ToAscii(raw))
    case IntKind => DInt(ToInt(raw))
    case StringKind => DString(raw)
  }

  /** The `DetailsCache` constructor, member by member; it never fails and never sets the password flag. */
  function BuildDetailsCache(details: StringMap, parseDate: DateParser): (cache: DetailsCache)
    ensures !cache.requirePrivateKeyPassword
  {
    DetailsCache(
      parseDate(Lookup(details, DetailKey(ExpirationDate)), DATE_FORMAT),
      parseDate(Lookup(details, DetailKey(ActivationDate)), DATE_FORMAT),
      false,
      ToAscii(Lookup(details, DetailKey(PublicSignature))),
      ToInt(Lookup(details, DetailKey(VersionNumber))),
      ToAscii(Lookup(details, DetailKey(SerialNumber))),
      Lookup(details, DetailKey(Issuer)),
      ToAscii(Lookup(details, DetailKey(SubjectKeyAlgorithm))),
      Lookup(details, DetailKey(Cn)),
      Lookup(details, DetailKey(N)),
      Lookup(details, DetailKey(O)),
      ToAscii(Lookup(details, DetailKey(SignatureAlgorithm))),
      ToAscii(Lookup(details, DetailKey(Md5Fingerprint))),
      ToAscii(Lookup(details, DetailKey(Sha1Fingerprint))),
      ToAscii(Lookup(details, DetailKey(PublicKeyId))),
      ToAscii(Lookup(details, DetailKey(IssuerDn))),
      parseDate(Lookup(details, DetailKey(NextExpectedUpdateDate)), DATE_FORMAT),
      Lookup(details, DetailKey(OutgoingServer)))
  }

  /** Every detail read from the map is the conversion for its type of the text under its own key. */
  lemma DetailsCacheReadsOwnKey(details: StringMap, parseDate: DateParser, d: Detail)
    requires d != RequirePrivateKeyPassword
    ensures DetailOf(BuildDetailsCache(details, parseDate), d)
         == DecodeDetail(DetailKindOf(d), Lookup(details, DetailKey(d)), parseDate)
  {
  }

  /** The text details are the map's values unchanged, or "" when their key is missing. */
  lemma TextDetailsPassThrough(details: StringMap, parseDate: DateParser, d: Detail)
    requires DetailKindOf(d) == StringKind
    ensures DetailOf(BuildDetailsCache(details, parseDate), d)
         == DString(if DetailKey(d) in details then details[DetailKey(d)] else "")
  {
  }

  /** The version number is the integer parse of its entry, and 0 when that entry is not a decimal `int`. */
  lemma VersionNumberParse(details: StringMap, parseDate: DateParser)
    ensures BuildDetailsCache(details, parseDate).versionNumber == ToInt(Lookup(details, DetailKey(VersionNumber)))
    ensures DetailKey(VersionNumber) !in details ==> BuildDetailsCache(details, parseDate).versionNumber == 0
    ensures forall v :: INT_MIN <= v <= INT_MAX ==>
      BuildDetailsCache(details[DetailKey(VersionNumber) := Number(v)], parseDate).versionNumber == v
  {
    forall v | INT_MIN <= v <= INT_MAX
      ensures BuildDetailsCache(details[DetailKey(VersionNumber) := Number(v)], parseDate).versionNumber == v
    {
      ToIntNumber(v);
    }
  }

  /** A byte detail whose entry is Latin-1 text holds exactly that text's codes. */
  lemma ByteDetailsKeepLatin1Text(details: StringMap, parseDate: DateParser, d: Detail)
    requires DetailKindOf(d) == BytesKind
    requires IsLatin1(Lookup(details, DetailKey(d)))
    ensures DetailOf(BuildDetailsCache(details, parseDate), d).DBytes?
    ensures FromLatin1(DetailOf(BuildDetailsCache(details, parseDate), d).bytes) == Lookup(details, DetailKey(d))
  {
    ToAsciiRoundTrip(Lookup(details, DetailKey(d)));
  }

  /** A missing key degrades its detail to the zero value of its type, never to a failure. */
  lemma MissingDetailDegrades(details: StringMap, parseDate: DateParser, d: Detail)
    requires DetailKey(d) !in details
    ensures DetailOf(BuildDetailsCache(details, parseDate), d) == match DetailKindOf(d)
      case DateKind => DDate(parseDate("", DATE_FORMAT))
      case BoolKind => DBool(false)
      case BytesKind => DBytes([])
      case IntKind => DInt(0)
      case StringKind => DString("")
  {
    ToIntWithoutDigits("");
  }

  /** A detail depends on its own key only: two maps that agree there give the same detail. */
  lemma DetailDependsOnlyOnItsKey(m1: StringMap, m2: StringMap, parseDate: DateParser, d: Detail)
    requires Lookup(m1, DetailKey(d)) == Lookup(m2, DetailKey(d))
    ensures DetailOf(BuildDetailsCache(m1, parseDate), d) == DetailOf(BuildDetailsCache(m2, parseDate), d)
  {
  }

  /** Overwriting one detail's entry changes no other detail. */
  lemma UpdatingOneDetail(m: StringMap, parseDate: DateParser, d: Detail, text: string)
    ensures forall d' :: d' != d ==>
      DetailOf(BuildDetailsCache(m[DetailKey(d) := text], parseDate), d')
      == DetailOf(BuildDetailsCache(m, parseDate), d')
  {
    forall d' | d' != d
      ensures DetailOf(BuildDetailsCache(m[DetailKey(d) := text], parseDate), d')
           == DetailOf(BuildDetailsCache(m, parseDate), d')
    {
      DetailKeyInjective(d, d');
      DetailDependsOnlyOnItsKey(m[DetailKey(d) := text], m, parseDate, d');
    }
  }
}

/**
 * The `Certificate` facade and its private part: two nullable cache slots,
 * filled at most once each by one daemon call, and the accessors and dispatch
 * functions that read them.
 */
module Certificates {
  import opened Wrappers
  import opened Qt
  import opened CertificateSchema
  import opened SecurityConst
  import opened Caches

  /**
   * The two calls into the daemon's configuration manager, as functions of
   * their arguments.  The inter-process transport is not part of this model.
   */
  datatype Daemon = Daemon(
    getCertificateDetails: string -> StringMap,
    validateCertificate: (string, string, string) -> StringMap)

  /** `Certificate::Type`, whose enumerators are declared in certificate.h; only its ordinal is kept. */
  datatype CertificateType = CertificateType(ordinal: int)

  /** `static_cast<Certificate::CheckValues>(bool)`, reading FAILED and PASSED as the first two enumerators. */
  function CheckValueOfBool(b: bool): (v: CheckValue)
    ensures v == Passed <==> b
    ensures v == Failed <==> !b
  {
    if b then Passed else Failed
  }

  /**
   * The value `checkResult` gives check `c` when the daemon's checks answer is
   * `checks`: the check's own reading, except that `ACTIVATED` passes through
   * `isActivated`'s `bool` and so is never `Unsupported`.
   */
  function CheckResultFor(checks: StringMap, c: Check): (r: CheckValue)
    ensures !c.Activated? ==> r == ToBool(Lookup(checks, CheckKey(c)))
    ensures c.Activated? ==> r != Unsupported && (r == Passed <==> Lookup(checks, CheckKey(c)) == PASSED)
  {
    var v := ToBool(Lookup(checks, CheckKey(c)));
    if c.Activated? then CheckValueOfBool(v == Passed) else v
  }

  class Certificate {
    /** `m_Path`. */
    var path: Url
    /** `m_Type`. */
    const certificateType: CertificateType
    /** The daemon singleton and Qt's date parser this certificate talks to. */
    const daemon: Daemon
    const parseDate: DateParser

    /** `m_pDetailsCache` and `m_pCheckCache`: `None` is the null pointer. */
    var detailsCache: Option<DetailsCache>
    var checksCache: Option<ChecksCache>

    /** How many times each daemon call has been made, and the path each loaded tier was fetched for. */
    ghost var detailsCalls: nat
    ghost var checksCalls: nat
    ghost var detailsSource: Url
    ghost var checksSource: Url

    /**
     * The object invariant: a tier has been fetched exactly once if its slot
     * is set and never otherwise, and a set slot holds the record built from
     * the daemon's answer for the path it was fetched for.
     */
    ghost predicate Consistent()
      reads this
    {
      && detailsCalls == (if detailsCache.Some? then 1 else 0)
      && checksCalls == (if checksCache.Some? then 1 else 0)
      && (detailsCache.Some? ==>
            detailsCache.value == BuildDetailsCache(daemon.getCertificateDetails(UrlToString(detailsSource)), parseDate))
      && (checksCache.Some? ==>
            checksCache.value == BuildChecksCache(daemon.validateCertificate("", UrlToString(checksSource), "")))
    }

    /**
     * What the invariant promises about fetching: each tier has been fetched
     * at most once, and exactly when its slot is set.
     */
    lemma AtMostOneFetchPerTier()
      requires Consistent()
      ensures detailsCalls <= 1 && checksCalls <= 1
      ensures detailsCalls == 0 <==> detailsCache.None?
      ensures checksCalls == 0 <==> checksCache.None?
    {
    }

    /**
     * The details tier after an operation that needs it: it is set; if it was
     * already set, it and the call count are as they were; otherwise it was
     * fetched, with one call, for the current path.
     */
    twostate predicate DetailsTierLoaded()
      reads this
    {
      && Consistent()
      && detailsCache.Some?
      && (old(detailsCache).Some? ==>
            detailsCache == old(detailsCache) && detailsCalls == old(detailsCalls) && detailsSource == old(detailsSource))
      && (old(detailsCache).None? ==> detailsCalls == old(detailsCalls) + 1 && detailsSource == path)
    }

    /** The checks tier after an operation that needs it, in the same terms. */
    twostate predicate ChecksTierLoaded()
      reads this
    {
      && Consistent()
      && checksCache.Some?
      && (old(checksCache).Some? ==>
            checksCache == old(checksCache) && checksCalls == old(checksCalls) && checksSource == old(checksSource))
      && (old(checksCache).None? ==> checksCalls == old(checksCalls) + 1 && checksSource == path)
    }

    /** The constructor stores the path component of the URL and the type; the private key is unused and both tiers start empty. */
    constructor (url: Url, certificateType: CertificateType, privateKey: Url, daemon: Daemon, parseDate: DateParser)
      ensures Consistent()
      ensures path == PathOnly(url) && this.certificateType == certificateType
      ensures this.daemon == daemon && this.parseDate == parseDate
      ensures detailsCache == None && checksCache == None
    {
      this.path := PathOnly(url);
      this.certificateType := certificateType;
      this.daemon := daemon;
      this.parseDate := parseDate;
      detailsCache := None;
      checksCache := None;
      detailsCalls := 0;
      checksCalls := 0;
      detailsSource := path;
      checksSource := path;
    }

    /** `loadDetails`: fetch and build the details tier only when its slot is empty; the checks tier is not touched. */
    method LoadDetails()
      requires Consistent()
      modifies this`detailsCache, this`detailsCalls, this`detailsSource
      ensures DetailsTierLoaded()
    {
      if detailsCache.None? {
        var details := daemon.getCertificateDetails(UrlToString(path));
        detailsCache := Some(BuildDetailsCache(details, parseDate));
        detailsCalls := detailsCalls + 1;
        detailsSource := path;
      }
    }

    /** `loadChecks`: fetch and build the checks tier only when its slot is empty; the details tier is not touched. */
    method LoadChecks()
      requires Consistent()
      modifies this`checksCache, this`checksCalls, this`checksSource
      ensures ChecksTierLoaded()
    {
      if checksCache.None? {
        var checks := daemon.validateCertificate("", UrlToString(path), "");
        checksCache := Some(BuildChecksCache(checks));
        checksCalls := checksCalls + 1;
        checksSource := path;
      }
    }

    // ------------------------------------------------------------ check accessors

    /** `hasPrivateKey`. */
    method HasPrivateKey() returns (r: CheckValue)
      requires Consistent()
      modifies this`checksCache, this`checksCalls, this`checksSource
      ensures ChecksTierLoaded() && r == checksCache.value.hasPrivateKey
    {
      LoadChecks();
      r := checksCache.value.hasPrivateKey;
    }

    /** `isNotExpired`. */
    method IsNotExpired() returns (r: CheckValue)
      requires Consistent()
      modifies this`checksCache, this`checksCalls, this`checksSource
      ensures ChecksTierLoaded() && r == checksCache.value.isExpired
    {
      LoadChecks();
      r := checksCache.value.isExpired;
    }

    /** `hasStrongSigning`. */
    method HasStrongSigning() returns (r: CheckValue)
      requires Consistent()
      modifies this`checksCache, this`checksCalls, this`checksSource
      ensures ChecksTierLoaded() && r == checksCache.value.hasStrongSigning
    {
      LoadChecks();
      r := checksCache.value.hasStrongSigning;
    }

    /** `isNotSelfSigned`. */
    method IsNotSelfSigned() returns (r: CheckValue)
      requires Consistent()
      modifies this`checksCache, this`checksCalls, this`checksSource
      ensures ChecksTierLoaded() && r == checksCache.value.isSelfSigned
    {
      LoadChecks();
      r := checksCache.value.isSelfSigned;
    }

    /** `privateKeyMatch`. */
    method PrivateKeyMatch() returns (r: CheckValue)
      requires Consistent()
      modifies this`checksCache, this`checksCalls, this`checksSource
      ensures ChecksTierLoaded() && r == checksCache.value.privateKeyMatch
    {
      LoadChecks();
      r := checksCache.value.privateKeyMatch;
    }

    /** `arePrivateKeyStoragePermissionOk`. */
    method ArePrivateKeyStoragePermissionOk() returns (r: CheckValue)
      requires Consistent()
      modifies this`checksCache, this`checksCalls, this`checksSource
      ensures ChecksTierLoaded() && r == checksCache.value.arePrivateKeyStoragePermissionOk
    {
      LoadChecks();
      r := checksCache.value.arePrivateKeyStoragePermissionOk;
    }

    /** `arePublicKeyStoragePermissionOk`. */
    method ArePublicKeyStoragePermissionOk() returns (r: CheckValue)
      requires Consistent()
      modifies this`checksCache, this`checksCalls, this`checksSource
      ensures ChecksTierLoaded() && r == checksCache.value.arePublicKeyStoragePermissionOk
    {
      LoadChecks();
      r := checksCache.value.arePublicKeyStoragePermissionOk;
    }

    /** `arePrivateKeyDirectoryPermissionsOk`. */
    method ArePrivateKeyDirectoryPermissionsOk() returns (r: CheckValue)
      requires Consistent()
      modifies this`checksCache, this`checksCalls, this`checksSource
      ensures ChecksTierLoaded() && r == checksCache.value.arePrivateKeyDirectoryPermissionsOk
    {
      LoadChecks();
      r := checksCache.value.arePrivateKeyDirectoryPermissionsOk;
    }

    /** `arePublicKeyDirectoryPermissionsOk`. */
    method ArePublicKeyDirectoryPermissionsOk() returns (r: CheckValue)
      requires Consistent()
      modifies this`checksCache, this`checksCalls, this`checksSource
      ensures ChecksTierLoaded() && r == checksCache.value.arePublicKeyDirectoryPermissionsOk
    {
      LoadChecks();
      r := checksCache.value.arePublicKeyDirectoryPermissionsOk;
    }

    /** `arePrivateKeyStorageLocationOk`. */
    method ArePrivateKeyStorageLocationOk() returns (r: CheckValue)
      requires Consistent()
      modifies this`checksCache, this`checksCalls, this`checksSource
      ensures ChecksTierLoaded() && r == checksCache.value.arePrivateKeyStorageLocationOk
    {
      LoadChecks();
      r := checksCache.value.arePrivateKeyStorageLocationOk;
    }

    /** `arePublicKeyStorageLocationOk`. */
    method ArePublicKeyStorageLocationOk() returns (r: CheckValue)
      requires Consistent()
      modifies this`checksCache, this`checksCalls, this`checksSource
      ensures ChecksTierLoaded() && r == checksCache.value.arePublicKeyStorageLocationOk
    {
      LoadChecks();
      r := checksCache.value.arePublicKeyStorageLocationOk;
    }

    /** `arePrivateKeySelinuxAttributesOk`. */
    method ArePrivateKeySelinuxAttributesOk() returns (r: CheckValue)
      requires Consistent()
      modifies this`checksCache, this`checksCalls, this`checksSource
      ensures ChecksTierLoaded() && r == checksCache.value.arePrivateKeySelinuxAttributesOk
    {
      LoadChecks();
      r := checksCache.value.arePrivateKeySelinuxAttributesOk;
    }

    /** `arePublicKeySelinuxAttributesOk`. */
    method ArePublicKeySelinuxAttributesOk() returns (r: CheckValue)
      requires Consistent()
      modifies this`checksCache, this`checksCalls, this`checksSource
      ensures ChecksTierLoaded() && r == checksCache.value.arePublicKeySelinuxAttributesOk
    {
      LoadChecks();
      r := checksCache.value.arePublicKeySelinuxAttributesOk;
    }

    /** `exist`. */
    method Exist() returns (r: CheckValue)
      requires Consistent()
      modifies this`checksCache, this`checksCalls, this`checksSource
      ensures ChecksTierLoaded() && r == checksCache.value.exist
    {
      LoadChecks();
      r := checksCache.value.exist;
    }

    /** `isValid`. */
    method IsValid() returns (r: CheckValue)
      requires Consistent()
      modifies this`checksCache, this`checksCalls, this`checksSource
      ensures ChecksTierLoaded() && r == checksCache.value.isValid
    {
      LoadChecks();
      r := checksCache.value.isValid;
    }

    /** `hasValidAuthority`. */
    method HasValidAuthority() returns (r: CheckValue)
      requires Consistent()
      modifies this`checksCache, this`checksCalls, this`checksSource
      ensures ChecksTierLoaded() && r == checksCache.value.validAuthority
    {
      LoadChecks();
      r := checksCache.value.validAuthority;
    }

    /** `hasKnownAuthority`. */
    method HasKnownAuthority() returns (r: CheckValue)
      requires Consistent()
      modifies this`checksCache, this`checksCalls, this`checksSource
      ensures ChecksTierLoaded() && r == checksCache.value.hasKnownAuthority
    {
      LoadChecks();
      r := checksCache.value.hasKnownAuthority;
    }

    /** `isNotRevoked`. */
    method IsNotRevoked() returns (r: CheckValue)
      requires Consistent()
      modifies this`checksCache, this`checksCalls, this`checksSource
      ensures ChecksTierLoaded() && r == checksCache.value.isNotRevoked
    {
      LoadChecks();
      r := checksCache.value.isNotRevoked;
    }

    /** `authorityMatch`. */
    method AuthorityMatch() returns (r: CheckValue)
      requires Consistent()
      modifies this`checksCache, this`checksCalls, this`checksSource
      ensures ChecksTierLoaded() && r == checksCache.value.authorityMismatch
    {
      LoadChecks();
      r := checksCache.value.authorityMismatch;
    }

    /** `hasExpectedOwner`. */
    method HasExpectedOwner() returns (r: CheckValue)
      requires Consistent()
      modifies this`checksCache, this`checksCalls, this`checksSource
      ensures ChecksTierLoaded() && r == checksCache.value.unexpectedOwner
    {
      LoadChecks();
      r := checksCache.value.unexpectedOwner;
    }

    /**
     * `isActivated`, loading the tier that owns its field: true exactly when
     * the daemon reported the NOT_ACTIVATED check as passed.
     */
    method IsActivated() returns (r: bool)
      requires Consistent()
      modifies this`checksCache, this`checksCalls, this`checksSource
      ensures ChecksTierLoaded() && r == (checksCache.value.notActivated == Passed)
    {
      LoadChecks();
      r := checksCache.value.notActivated == Passed;
    }

    // ------------------------------------------------------------ detail accessors

    /** `expirationDate`. */
    method ExpirationDate() returns (r: Option<DateTime>)
      requires Consistent()
      modifies this`detailsCache, this`detailsCalls, this`detailsSource
      ensures DetailsTierLoaded() && r == detailsCache.value.expirationDate
    {
      LoadDetails();
      r := detailsCache.value.expirationDate;
    }

    /** `activationDate`. */
    method ActivationDate() returns (r: Option<DateTime>)
      requires Consistent()
      modifies this`detailsCache, this`detailsCalls, this`detailsSource
      ensures DetailsTierLoaded() && r == detailsCache.value.activationDate
    {
      LoadDetails();
      r := detailsCache.value.activationDate;
    }

    /** `requirePrivateKeyPassword`. */
    method RequirePrivateKeyPassword() returns (r: bool)
      requires Consistent()
      modifies this`detailsCache, this`detailsCalls, this`detailsSource
      ensures DetailsTierLoaded() && r == detailsCache.value.requirePrivateKeyPassword
    {
      LoadDetails();
      r := detailsCache.value.requirePrivateKeyPassword;
    }

    /** `publicSignature`. */
    method PublicSignature() returns (r: seq<Byte>)
      requires Consistent()
      modifies this`detailsCache, this`detailsCalls, this`detailsSource
      ensures DetailsTierLoaded() && r == detailsCache.value.publicSignature
    {
      LoadDetails();
      r := detailsCache.value.publicSignature;
    }

    /** `versionNumber`. */
    method VersionNumber() returns (r: int)
      requires Consistent()
      modifies this`detailsCache, this`detailsCalls, this`detailsSource
      ensures DetailsTierLoaded() && r == detailsCache.value.versionNumber
    {
      LoadDetails();
      r := detailsCache.value.versionNumber;
    }

    /** `serialNumber`. */
    method SerialNumber() returns (r: seq<Byte>)
      requires Consistent()
      modifies this`detailsCache, this`detailsCalls, this`detailsSource
      ensures DetailsTierLoaded() && r == detailsCache.value.serialNumber
    {
      LoadDetails();
      r := detailsCache.value.serialNumber;
    }

    /** `issuer`. */
    method Issuer() returns (r: string)
      requires Consistent()
      modifies this`detailsCache, this`detailsCalls, this`detailsSource
      ensures DetailsTierLoaded() && r == detailsCache.value.issuer
    {
      LoadDetails();
      r := detailsCache.value.issuer;
    }

    /** `subjectKeyAlgorithm`. */
    method SubjectKeyAlgorithm() returns (r: seq<Byte>)
      requires Consistent()
      modifies this`detailsCache, this`detailsCalls, this`detailsSource
      ensures DetailsTierLoaded() && r == detailsCache.value.subjectKeyAlgorithm
    {
      LoadDetails();
      r := detailsCache.value.subjectKeyAlgorithm;
    }

    /** `cn`. */
    method Cn() returns (r: string)
      requires Consistent()
      modifies this`detailsCache, this`detailsCalls, this`detailsSource
      ensures DetailsTierLoaded() && r == detailsCache.value.cn
    {
      LoadDetails();
      r := detailsCache.value.cn;
    }

    /** `n`. */
    method N() returns (r: string)
      requires Consistent()
      modifies this`detailsCache, this`detailsCalls, this`detailsSource
      ensures DetailsTierLoaded() && r == detailsCache.value.n
    {
      LoadDetails();
      r := detailsCache.value.n;
    }

    /** `o`. */
    method O() returns (r: string)
      requires Consistent()
      modifies this`detailsCache, this`detailsCalls, this`detailsSource
      ensures DetailsTierLoaded() && r == detailsCache.value.o
    {
      LoadDetails();
      r := detailsCache.value.o;
    }

    /** `signatureAlgorithm`. */
    method SignatureAlgorithm() returns (r: seq<Byte>)
      requires Consistent()
      modifies this`detailsCache, this`detailsCalls, this`detailsSource
      ensures DetailsTierLoaded() && r == detailsCache.value.signatureAlgorithm
    {
      LoadDetails();
      r := detailsCache.value.signatureAlgorithm;
    }

    /** `md5Fingerprint`. */
    method Md5Fingerprint() returns (r: seq<Byte>)
      requires Consistent()
      modifies this`detailsCache, this`detailsCalls, this`detailsSource
      ensures DetailsTierLoaded() && r == detailsCache.value.md5Fingerprint
    {
      LoadDetails();
      r := detailsCache.value.md5Fingerprint;
    }

    /** `sha1Fingerprint`. */
    method Sha1Fingerprint() returns (r: seq<Byte>)
      requires Consistent()
      modifies this`detailsCache, this`detailsCalls, this`detailsSource
      ensures DetailsTierLoaded() && r == detailsCache.value.sha1Fingerprint
    {
      LoadDetails();
      r := detailsCache.value.sha1Fingerprint;
    }

    /** `publicKeyId`. */
    method PublicKeyId() returns (r: seq<Byte>)
      requires Consistent()
      modifies this`detailsCache, this`detailsCalls, this`detailsSource
      ensures DetailsTierLoaded() && r == detailsCache.value.publicKeyId
    {
      LoadDetails();
      r := detailsCache.value.publicKeyId;
    }

    /** `issuerDn`. */
    method IssuerDn() returns (r: seq<Byte>)
      requires Consistent()
      modifies this`detailsCache, this`detailsCalls, this`detailsSource
      ensures DetailsTierLoaded() && r == detailsCache.value.issuerDn
    {
      LoadDetails();
      r := detailsCache.value.issuerDn;
    }

    /** `nextExpectedUpdateDate`. */
    method NextExpectedUpdateDate() returns (r: Option<DateTime>)
      requires Consistent()
      modifies this`detailsCache, this`detailsCalls, this`detailsSource
      ensures DetailsTierLoaded() && r == detailsCache.value.nextExpectedUpdateDate
    {
      LoadDetails();
      r := detailsCache.value.nextExpectedUpdateDate;
    }

    /** `outgoingServer`, loading the tier that owns its field. */
    method OutgoingServer() returns (r: string)
      requires Consistent()
      modifies this`detailsCache, this`detailsCalls, this`detailsSource
      ensures DetailsTierLoaded() && r == detailsCache.value.outgoingServer
    {
      LoadDetails();
      r := detailsCache.value.outgoingServer;
    }

    // ------------------------------------------------------------ the accessors as written

    /**
     * `isActivated` as written: it loads the details tier and then reads the
     * checks tier.  `None` stands for the dereference of a null checks slot.
     */
    method IsActivatedAsWritten() returns (r: Option<bool>)
      requires Consistent()
      modifies this`detailsCache, this`detailsCalls, this`detailsSource
      ensures DetailsTierLoaded()
      ensures r.None? <==> checksCache.None?
      ensures r.Some? ==> r.value == (checksCache.value.notActivated == Passed)
    {
      LoadDetails();
      if checksCache.None? {
        r := None;
      } else {
        r := Some(checksCache.value.notActivated == Passed);
      }
    }

    /**
     * `outgoingServer` as written: it loads the checks tier and then reads the
     * details tier.  `None` stands for the dereference of a null details slot.
     */
    method OutgoingServerAsWritten() returns (r: Option<string>)
      requires Consistent()
      modifies this`checksCache, this`checksCalls, this`checksSource
      ensures ChecksTierLoaded()
      ensures r.None? <==> detailsCache.None?
      ensures r.Some? ==> r.value == detailsCache.value.outgoingServer
    {
      LoadChecks();
      if detailsCache.None? {
        r := None;
      } else {
        r := Some(detailsCache.value.outgoingServer);
      }
    }

    // ------------------------------------------------------------ dispatch

    /**
     * `checkResult`: the named accessor of every check.  `ACTIVATED` goes
     * through `isActivated` and the cast of its `bool`.
     */
    method CheckResult(c: Check) returns (r: CheckValue)
      requires Consistent()
      modifies this`checksCache, this`checksCalls, this`checksSource
      ensures ChecksTierLoaded()
      ensures r == if c.Activated? then CheckValueOfBool(checksCache.value.notActivated == Passed)
                   else CheckOf(checksCache.value, c)
    {
      match c
      case HasPrivateKey => r := HasPrivateKey();
      case Expired => r := IsNotExpired();
      case StrongSigning => r := HasStrongSigning();
      case NotSelfSigned => r := IsNotSelfSigned();
      case KeyMatch => r := PrivateKeyMatch();
      case PrivateKeyStoragePermission => r := ArePrivateKeyStoragePermissionOk();
      case PublicKeyStoragePermission => r := ArePublicKeyStoragePermissionOk();
      case PrivateKeyDirectoryPermissions => r := ArePrivateKeyDirectoryPermissionsOk();
      case PublicKeyDirectoryPermissions => r := ArePublicKeyDirectoryPermissionsOk();
      case PrivateKeyStorageLocation => r := ArePrivateKeyStorageLocationOk();
      case PublicKeyStorageLocation => r := ArePublicKeyStorageLocationOk();
      case PrivateKeySelinuxAttributes => r := ArePrivateKeySelinuxAttributesOk();
      case PublicKeySelinuxAttributes => r := ArePublicKeySelinuxAttributesOk();
      case Exist => r := Exist();
      case Valid => r := IsValid();
      case ValidAuthority => r := HasValidAuthority();
      case KnownAuthority => r := HasKnownAuthority();
      case NotRevoked => r := IsNotRevoked();
      case AuthorityMatch => r := AuthorityMatch();
      case ExpectedOwner => r := HasExpectedOwner();
      case Activated =>
        var activated := IsActivated();
        r := CheckValueOfBool(activated);
    }

    /** `detailResult`: the named accessor of every detail, under the tag of its type. */
    method DetailResult(d: Detail) returns (r: DetailValue)
      requires Consistent()
      modifies this`detailsCache, this`detailsCalls, this`detailsSource
      ensures DetailsTierLoaded() && r == DetailOf(detailsCache.value, d)
    {
      match d
      case ExpirationDate =>
        var v := ExpirationDate();
        r := DDate(v);
      case ActivationDate =>
        var v := ActivationDate();
        r := DDate(v);
      case RequirePrivateKeyPassword =>
        var v := RequirePrivateKeyPassword();
        r := DBool(v);
      case PublicSignature =>
        var v := PublicSignature();
        r := DBytes(v);
      case VersionNumber =>
        var v := VersionNumber();
        r := DInt(v);
      case SerialNumber =>
        var v := SerialNumber();
        r := DBytes(v);
      case Issuer =>
        var v := Issuer();
        r := DString(v);
      case SubjectKeyAlgorithm =>
        var v := SubjectKeyAlgorithm();
        r := DBytes(v);
      case Cn =>
        var v := Cn();
        r := DString(v);
      case N =>
        var v := N();
        r := DString(v);
      case O =>
        var v := O();
        r := DString(v);
      case SignatureAlgorithm =>
        var v := SignatureAlgorithm();
        r := DBytes(v);
      case Md5Fingerprint =>
        var v := Md5Fingerprint();
        r := DBytes(v);
      case Sha1Fingerprint =>
        var v := Sha1Fingerprint();
        r := DBytes(v);
      case PublicKeyId =>
        var v := PublicKeyId();
        r := DBytes(v);
      case IssuerDn =>
        var v := IssuerDn();
        r := DBytes(v);
      case NextExpectedUpdateDate =>
        var v := NextExpectedUpdateDate();
        r := DDate(v);
      case OutgoingServer =>
        var v := OutgoingServer();
        r := DString(v);
    }

    // ------------------------------------------------------------ identity

    /** `path`. */
    method Path() returns (p: Url)
      ensures p == path
    {
      p := path;
    }

    /** `type`. */
    method Type() returns (t: CertificateType)
      ensures t == certificateType
    {
      t := certificateType;
    }

    /** `setPath`: replaces the path only; a tier already loaded is neither cleared nor fetched again. */
    method SetPath(url: Url)
      requires Consistent()
      modifies this`path
      ensures Consistent() && path == url
    {
      path := url;
    }
  }

  // ---------------------------------------------------------------- scenarios

  /**
   * On a new certificate, `isActivated` as written dereferences the empty
   * checks slot, while the corrected accessor fetches the checks tier for the
   * certificate's path and answers from it.
   */
  method IsActivatedOnNewCertificate(url: Url, t: CertificateType, privateKey: Url, daemon: Daemon, parseDate: DateParser)
    returns (asWritten: Option<bool>, corrected: bool)
    ensures asWritten == None
    ensures corrected == (ToBool(Lookup(daemon.validateCertificate("", url.path, ""), CheckKey(Activated))) == Passed)
  {
    var cert := new Certificate(url, t, privateKey, daemon, parseDate);
    asWritten := cert.IsActivatedAsWritten();
    corrected := cert.IsActivated();
    var checks := daemon.validateCertificate("", url.path, "");
    assert cert.checksSource == PathOnly(url);
    assert cert.daemon.validateCertificate("", UrlToString(cert.checksSource), "") == checks;
    assert cert.checksCache.value == BuildChecksCache(checks);
    ChecksCacheReadsOwnKey(checks, Activated);
  }

  /**
   * On a certificate whose checks tier alone was loaded, `outgoingServer` as
   * written dereferences the empty details slot, while the corrected accessor
   * fetches the details tier and returns the daemon's text unchanged.
   */
  method OutgoingServerAfterChecksOnly(url: Url, t: CertificateType, privateKey: Url, daemon: Daemon, parseDate: DateParser)
    returns (asWritten: Option<string>, corrected: string)
    ensures asWritten == None
    ensures corrected == Lookup(daemon.getCertificateDetails(url.path), DetailKey(OutgoingServer))
  {
    var cert := new Certificate(url, t, privateKey, daemon, parseDate);
    var _ := cert.HasPrivateKey();
    assert cert.detailsCache.None?;
    asWritten := cert.OutgoingServerAsWritten();
    corrected := cert.OutgoingServer();
    var details := daemon.getCertificateDetails(url.path);
    assert cert.detailsSource == PathOnly(url);
    assert cert.daemon.getCertificateDetails(UrlToString(cert.detailsSource)) == details;
    assert cert.detailsCache.value == BuildDetailsCache(details, cert.parseDate);
    assert BuildDetailsCache(details, cert.parseDate).outgoingServer == Lookup(details, DetailKey(OutgoingServer));
  }

  /**
   * Changing the path after the details tier was loaded neither refreshes nor
   * clears it: the same detail reads the same, first-fetched value before and
   * after, and `path` returns the new URL.
   */
  method SetPathKeepsLoadedTier(url: Url, next: Url, t: CertificateType, privateKey: Url, daemon: Daemon, parseDate: DateParser)
    returns (before: string, after: string, newPath: Url)
    ensures before == after == Lookup(daemon.getCertificateDetails(url.path), DetailKey(Cn))
    ensures newPath == next
  {
    var cert := new Certificate(url, t, privateKey, daemon, parseDate);
    before := cert.Cn();
    cert.SetPath(next);
    after := cert.Cn();
    newPath := cert.Path();
    TextDetailsPassThrough(daemon.getCertificateDetails(url.path), parseDate, Cn);
  }

  /**
   * Dispatches through `checkResult` reuse the first fetch: two successive
   * calls on a new certificate, for any two checks, make one checks fetch and
   * no details fetch, and both read the daemon's answer for the path.
   */
  method RepeatedCheckResultsShareOneFetch(url: Url, t: CertificateType, privateKey: Url, daemon: Daemon, parseDate: DateParser, c1: Check, c2: Check)
    returns (cert: Certificate, r1: CheckValue, r2: CheckValue)
    ensures cert.checksCalls == 1 && cert.detailsCalls == 0
    ensures r1 == CheckResultFor(daemon.validateCertificate("", url.path, ""), c1)
    ensures r2 == CheckResultFor(daemon.validateCertificate("", url.path, ""), c2)
  {
    cert := new Certificate(url, t, privateKey, daemon, parseDate);
    r1 := cert.CheckResult(c1);
    r2 := cert.CheckResult(c2);
    ChecksCacheReadsOwnKey(daemon.validateCertificate("", url.path, ""), c1);
    ChecksCacheReadsOwnKey(daemon.validateCertificate("", url.path, ""), c2);
  }

}

# Certificate front end: a Dafny model

This project models the certificate front end of the Ring client library,
`src/certificate.cpp`. A `Certificate` is a view over one X.509 certificate.
The daemon checks it and describes it. The front end reads those answers lazily,
in two independent tiers:

- **Checks.** 21 three-valued outcomes (`PASSED`, `FAILED`, `UNSUPPORTED`).
  They come from one `validateCertificate` call.
- **Details.** 18 descriptive fields: dates, byte strings, a version number and
  text. They come from one `getCertificateDetails` call.

Each tier's result map is turned into an immutable record, `ChecksCache` or
`DetailsCache`. The record is stored in a nullable slot. It is never cleared.

Files, one module each:

- `wrappers.dfy`: `Option`. It stands in for the null pointer and the null `QDateTime`.
- `qt.dfy`: the Qt behaviour the code relies on:
  - map lookup with a `""` default, as `MapStringString`'s const `operator[]` does;
  - `QString::toAscii` and `QString::toInt`;
  - `QUrl`;
  - the shape of `QDateTime`.
- `schema.dfy`: `CheckValues`, `Checks` and `Details`, their ordinals, and the
  four static name and description tables.
- `security_const.dfy`: the daemon's result keys and its two outcome tokens.
- `caches.dfy`: `toBool`, the two cache records, how each is built from a result
  map, and the selectors that the dispatch switches route through.
- `certificate.dfy`: the `Certificate` class, its demo scenarios and the two
  tier mix-ups described below.

The class has two `Option` slots, `detailsCache` and `checksCache`, in the role
of `m_pDetailsCache` and `m_pCheckCache`. It also has ghost call counters. Its
invariant `Consistent()` has two parts:

- each counter is 1 when its slot is set and 0 otherwise;
- a set slot holds the record built from the daemon's answer for the path it was
  fetched for.

It follows that no tier is ever fetched twice (`AtMostOneFetchPerTier`).

No method clears a slot. Each loader and each accessor has a frame that names
only its own tier's fields, so no operation on one tier can touch the other.

Two accessors in the source load one tier and then read the other. They are
listed under "Findings".

- The accessors `IsActivated` and `OutgoingServer`, and the dispatch methods
  `CheckResult` and `DetailResult`, load the tier that owns the field they read.
- The code as written is kept beside them: `IsActivatedAsWritten` and
  `OutgoingServerAsWritten`.

`isActivated` reads `m_NotActivated`, a member of the checks tier, after
loading the details tier. The model keeps that order in the as-written member.

The detail dates are parsed with the format string `"yyyy-mm-dd"`. In Qt's
format language `mm` means minutes, not the month. The date parser is a
parameter of the model, so this stays visible as the constant
`Caches.DATE_FORMAT`, but the model does not decide what the parse returns.

## Model

| member | source | states |
|---|---|---|
| Qt.LookupOtherKey | src/certificate.cpp:225-267 | writing or erasing one key of a result map leaves the `operator[]` reading of every other key unchanged |
| Qt.LookupReadsStoredValue | src/certificate.cpp:225-267 | the const `operator[]` reads a missing key as "", and a present key reads its stored value |
| Qt.ToAscii | src/certificate.cpp:228 | `toAscii` yields one byte per character: its Latin-1 code, or '?' when it has none |
| Qt.ToAsciiRoundTrip | src/certificate.cpp:228-240 | Latin-1 text is recovered unchanged from the bytes `toAscii` produces |
| Qt.ToInt | src/certificate.cpp:229 | `toInt` always yields a value inside the 32-bit `int` range |
| Qt.ToIntNumber | src/certificate.cpp:229 | reading back the decimal text of any `int` yields that `int` |
| Qt.ToIntWithoutDigits | src/certificate.cpp:229 | text without a digit, including the "" of a missing key, reads as 0 |
| Qt.PathOnly | src/certificate.cpp:289 | the URL stored by the constructor keeps only the path component and prints as exactly that path |
| Qt.UrlToStringEndsWithPath | src/certificate.cpp:273 | the text `m_Path.toString()` sent to the daemon ends with the URL's path, and is exactly the path when there is no scheme or authority |
| CertificateSchema.CheckOrdinal | src/certificate.cpp:109-131 | each check has an ordinal below `COUNT__`, and the enumeration lists it at that ordinal |
| CertificateSchema.DetailOrdinal | src/certificate.cpp:157-177 | each detail has an ordinal below `COUNT__`, and the enumeration lists it at that ordinal |
| CertificateSchema.CheckOrdinalBijective | src/certificate.cpp:109-131 | ordinals number the 21 checks one to one and onto |
| CertificateSchema.DetailOrdinalBijective | src/certificate.cpp:157-177 | ordinals number the 18 details one to one and onto |
| CertificateSchema.TablesMatchEnumerators | src/certificate.cpp:109-199 | each name and description table has exactly one entry per enumerator: 21 for checks, 18 for details |
| CertificateSchema.GetCheckName | src/certificate.cpp:298-301 | `getName(Checks)` returns a non-empty entry of the check name table |
| CertificateSchema.GetDetailName | src/certificate.cpp:303-306 | `getName(Details)` returns a non-empty entry of the detail name table |
| CertificateSchema.GetCheckDescription | src/certificate.cpp:308-311 | every check description is still the placeholder "TODO" |
| CertificateSchema.GetDetailDescription | src/certificate.cpp:313-316 | every detail description is still the placeholder "TODO" |
| CertificateSchema.CheckTablesIndexedByOrdinal | src/certificate.cpp:298-316 | `getName` and `getDescription` of the check at ordinal i return entry i of the check name and description tables |
| CertificateSchema.DetailTablesIndexedByOrdinal | src/certificate.cpp:298-316 | `getName` and `getDescription` of the detail at ordinal i return entry i of the detail name and description tables |
| CertificateSchema.CheckNamesDistinct | src/certificate.cpp:109-131 | no two checks share a display name |
| CertificateSchema.DetailNamesDistinct | src/certificate.cpp:157-177 | no two details share a display name |
| SecurityConst.CheckKeyInjective | src/certificate.cpp:247-267 | distinct checks are read from distinct keys of the result map |
| SecurityConst.CheckKey | src/certificate.cpp:247-267 | every check is read from a non-empty key of the result map; `CheckKeyInjective` states that the keys are distinct |
| SecurityConst.DetailKeyInjective | src/certificate.cpp:225-242 | distinct details are read from distinct keys of the result map |
| Caches.ToBool | src/certificate.cpp:213-221 | the PASSED token maps to `Passed`, the FAILED token to `Failed`, and every other string, "" included, to `Unsupported` (each both ways) |
| Caches.ChecksCacheReadsOwnKey | src/certificate.cpp:245-268 | every check of a built `ChecksCache` is `toBool` of the token under that check's own key |
| Caches.BuildChecksCache | src/certificate.cpp:245-268 | the `ChecksCache` constructor: an answer without entries leaves every check `Unsupported` |
| Caches.ChecksCacheDeterminedByChecks | src/certificate.cpp:318-436 | the member that each accessor reads is its own: two caches that agree on all 21 checks are the same record |
| Caches.CheckDependsOnlyOnItsKey | src/certificate.cpp:245-268 | two result maps that agree on a check's key give that check the same outcome |
| Caches.UpdatingOneCheck | src/certificate.cpp:245-268 | overwriting one key sets that check to the new token's reading and leaves the other 20 unchanged |
| Caches.RemovingOneCheck | src/certificate.cpp:245-268 | deleting one key makes that check `Unsupported` and leaves the other 20 unchanged |
| Caches.AllPassedTokensGiveAllPassed | src/certificate.cpp:245-268 | a map reporting every check as PASSED yields `Passed` for every check |
| Caches.DetailOf | src/certificate.cpp:598-624 | each detail is returned under the tag of its declared member type |
| Caches.DecodeDetail | src/certificate.cpp:223-243 | the per-type conversion keeps the declared type: date parse, byte copy, int parse, or the text itself |
| Caches.BuildDetailsCache | src/certificate.cpp:227 | construction never fails and the private-key-password flag is always false |
| Caches.DetailsCacheReadsOwnKey | src/certificate.cpp:223-243 | every detail read from the map is its type's conversion of the text under its own key |
| Caches.TextDetailsPassThrough | src/certificate.cpp:231-242 | issuer, CN, N, O and outgoing server are the map's values unchanged, or "" when the key is missing |
| Caches.VersionNumberParse | src/certificate.cpp:229 | the version number is `toInt` of its entry, 0 when the key is missing, and any `int` written as decimal text reads back as itself |
| Caches.ByteDetailsKeepLatin1Text | src/certificate.cpp:228-240 | a byte detail whose entry is Latin-1 text holds exactly that text's character codes |
| Caches.MissingDetailDegrades | src/certificate.cpp:223-243 | a missing key yields its type's zero value: the parse of "", false, no bytes, 0 or "" |
| Caches.DetailDependsOnlyOnItsKey | src/certificate.cpp:223-243 | two maps that agree on a detail's key give that detail the same value |
| Caches.UpdatingOneDetail | src/certificate.cpp:223-243 | overwriting one detail's key leaves every other detail unchanged |
| Certificates.CheckValueOfBool | src/certificate.cpp:591 | the cast of `isActivated`'s bool is `Passed` exactly for true and `Failed` exactly for false |
| Certificates.Certificate.constructor | src/certificate.cpp:286-291 | the path component of the URL and the type are stored, the private key is ignored, and both slots start empty |
| Certificates.Certificate.AtMostOneFetchPerTier | src/certificate.cpp:270-284 | under the class invariant `Consistent`, each tier has been fetched at most once, and exactly when its slot is set |
| Certificates.Certificate.LoadDetails | src/certificate.cpp:270-276 | the details slot ends set; when it was empty it is fetched once for the current path, when set it and the call count stay as they were; the checks tier is outside its frame |
| Certificates.Certificate.LoadChecks | src/certificate.cpp:278-284 | the checks slot ends set; when it was empty it is fetched once with empty account and host for the current path, when set nothing changes; the details tier is outside its frame |
| Certificates.Certificate.HasPrivateKey | src/certificate.cpp:318-322 | loads the checks tier (at most one fetch ever) and returns its own member of the first-built `ChecksCache`; details untouched |
| Certificates.Certificate.IsNotExpired | src/certificate.cpp:324-328 | loads the checks tier (at most one fetch ever) and returns its own member of the first-built `ChecksCache`; details untouched |
| Certificates.Certificate.HasStrongSigning | src/certificate.cpp:330-334 | loads the checks tier (at most one fetch ever) and returns its own member of the first-built `ChecksCache`; details untouched |
| Certificates.Certificate.IsNotSelfSigned | src/certificate.cpp:336-340 | loads the checks tier (at most one fetch ever) and returns its own member of the first-built `ChecksCache`; details untouched |
| Certificates.Certificate.PrivateKeyMatch | src/certificate.cpp:342-346 | loads the checks tier (at most one fetch ever) and returns its own member of the first-built `ChecksCache`; details untouched |
| Certificates.Certificate.ArePrivateKeyStoragePermissionOk | src/certificate.cpp:348-352 | loads the checks tier (at most one fetch ever) and returns its own member of the first-built `ChecksCache`; details untouched |
| Certificates.Certificate.ArePublicKeyStoragePermissionOk | src/certificate.cpp:354-358 | loads the checks tier (at most one fetch ever) and returns its own member of the first-built `ChecksCache`; details untouched |
| Certificates.Certificate.ArePrivateKeyDirectoryPermissionsOk | src/certificate.cpp:360-364 | loads the checks tier (at most one fetch ever) and returns its own member of the first-built `ChecksCache`; details untouched |
| Certificates.Certificate.ArePublicKeyDirectoryPermissionsOk | src/certificate.cpp:366-370 | loads the checks tier (at most one fetch ever) and returns its own member of the first-built `ChecksCache`; details untouched |
| Certificates.Certificate.ArePrivateKeyStorageLocationOk | src/certificate.cpp:372-376 | loads the checks tier (at most one fetch ever) and returns its own member of the first-built `ChecksCache`; details untouched |
| Certificates.Certificate.ArePublicKeyStorageLocationOk | src/certificate.cpp:378-382 | loads the checks tier (at most one fetch ever) and returns its own member of the first-built `ChecksCache`; details untouched |
| Certificates.Certificate.ArePrivateKeySelinuxAttributesOk | src/certificate.cpp:384-388 | loads the checks tier (at most one fetch ever) and returns its own member of the first-built `ChecksCache`; details untouched |
| Certificates.Certificate.ArePublicKeySelinuxAttributesOk | src/certificate.cpp:390-394 | loads the checks tier (at most one fetch ever) and returns its own member of the first-built `ChecksCache`; details untouched |
| Certificates.Certificate.Exist | src/certificate.cpp:396-400 | loads the checks tier (at most one fetch ever) and returns its own member of the first-built `ChecksCache`; details untouched |
| Certificates.Certificate.IsValid | src/certificate.cpp:402-406 | loads the checks tier (at most one fetch ever) and returns its own member of the first-built `ChecksCache`; details untouched |
| Certificates.Certificate.HasValidAuthority | src/certificate.cpp:408-412 | loads the checks tier (at most one fetch ever) and returns its own member of the first-built `ChecksCache`; details untouched |
| Certificates.Certificate.HasKnownAuthority | src/certificate.cpp:414-418 | loads the checks tier (at most one fetch ever) and returns its own member of the first-built `ChecksCache`; details untouched |
| Certificates.Certificate.IsNotRevoked | src/certificate.cpp:420-424 | loads the checks tier (at most one fetch ever) and returns its own member of the first-built `ChecksCache`; details untouched |
| Certificates.Certificate.AuthorityMatch | src/certificate.cpp:426-430 | loads the checks tier (at most one fetch ever) and returns its own member of the first-built `ChecksCache`; details untouched |
| Certificates.Certificate.HasExpectedOwner | src/certificate.cpp:432-436 | loads the checks tier (at most one fetch ever) and returns its own member of the first-built `ChecksCache`; details untouched |
| Certificates.Certificate.IsActivated | src/certificate.cpp:540-543 | loads the checks tier, which owns the field, and is true exactly when NOT_ACTIVATED was reported PASSED |
| Certificates.Certificate.ExpirationDate | src/certificate.cpp:438-442 | loads the details tier (at most one fetch ever) and returns its own member of the first-built `DetailsCache`; checks untouched |
| Certificates.Certificate.ActivationDate | src/certificate.cpp:444-448 | loads the details tier (at most one fetch ever) and returns its own member of the first-built `DetailsCache`; checks untouched |
| Certificates.Certificate.RequirePrivateKeyPassword | src/certificate.cpp:450-454 | loads the details tier (at most one fetch ever) and returns its own member of the first-built `DetailsCache`; checks untouched |
| Certificates.Certificate.PublicSignature | src/certificate.cpp:456-460 | loads the details tier (at most one fetch ever) and returns its own member of the first-built `DetailsCache`; checks untouched |
| Certificates.Certificate.VersionNumber | src/certificate.cpp:462-466 | loads the details tier (at most one fetch ever) and returns its own member of the first-built `DetailsCache`; checks untouched |
| Certificates.Certificate.SerialNumber | src/certificate.cpp:468-472 | loads the details tier (at most one fetch ever) and returns its own member of the first-built `DetailsCache`; checks untouched |
| Certificates.Certificate.Issuer | src/certificate.cpp:474-478 | loads the details tier (at most one fetch ever) and returns its own member of the first-built `DetailsCache`; checks untouched |
| Certificates.Certificate.SubjectKeyAlgorithm | src/certificate.cpp:480-484 | loads the details tier (at most one fetch ever) and returns its own member of the first-built `DetailsCache`; checks untouched |
| Certificates.Certificate.Cn | src/certificate.cpp:486-490 | loads the details tier (at most one fetch ever) and returns its own member of the first-built `DetailsCache`; checks untouched |
| Certificates.Certificate.N | src/certificate.cpp:492-496 | loads the details tier (at most one fetch ever) and returns its own member of the first-built `DetailsCache`; checks untouched |
| Certificates.Certificate.O | src/certificate.cpp:498-502 | loads the details tier (at most one fetch ever) and returns its own member of the first-built `DetailsCache`; checks untouched |
| Certificates.Certificate.SignatureAlgorithm | src/certificate.cpp:504-508 | loads the details tier (at most one fetch ever) and returns its own member of the first-built `DetailsCache`; checks untouched |
| Certificates.Certificate.Md5Fingerprint | src/certificate.cpp:510-514 | loads the details tier (at most one fetch ever) and returns its own member of the first-built `DetailsCache`; checks untouched |
| Certificates.Certificate.Sha1Fingerprint | src/certificate.cpp:516-520 | loads the details tier (at most one fetch ever) and returns its own member of the first-built `DetailsCache`; checks untouched |
| Certificates.Certificate.PublicKeyId | src/certificate.cpp:522-526 | loads the details tier (at most one fetch ever) and returns its own member of the first-built `DetailsCache`; checks untouched |
| Certificates.Certificate.IssuerDn | src/certificate.cpp:528-532 | loads the details tier (at most one fetch ever) and returns its own member of the first-built `DetailsCache`; checks untouched |
| Certificates.Certificate.NextExpectedUpdateDate | src/certificate.cpp:534-538 | loads the details tier (at most one fetch ever) and returns its own member of the first-built `DetailsCache`; checks untouched |
| Certificates.Certificate.OutgoingServer | src/certificate.cpp:561-565 | loads the details tier, which owns the field, and returns its outgoing server |
| Certificates.Certificate.IsActivatedAsWritten | src/certificate.cpp:540-543 | as written: loads details, then reads the checks slot, which is a null dereference exactly when that slot is empty |
| Certificates.Certificate.OutgoingServerAsWritten | src/certificate.cpp:561-565 | as written: loads checks, then reads the details slot, which is a null dereference exactly when that slot is empty |
| Certificates.Certificate.CheckResult | src/certificate.cpp:568-596 | for every check the result is that check's member of the loaded `ChecksCache`; for ACTIVATED it is the cast of `isActivated` |
| Certificates.CheckResultFor | src/certificate.cpp:568-596 | the value `checkResult` gives a check for a daemon answer: the check's own reading, and for ACTIVATED never `Unsupported` |
| Certificates.Certificate.DetailResult | src/certificate.cpp:598-624 | for all 18 details the result is the matching accessor's value under the tag of its type |
| Certificates.Certificate.Path | src/certificate.cpp:551-554 | returns the last path stored |
| Certificates.Certificate.Type | src/certificate.cpp:556-559 | returns the type given at construction |
| Certificates.Certificate.SetPath | src/certificate.cpp:546-549 | replaces the path only: no slot is cleared or refreshed and the invariant still holds |
| Certificates.IsActivatedOnNewCertificate | src/certificate.cpp:540-543 | on a new certificate the as-written `isActivated` dereferences the empty checks slot; the corrected one answers from the daemon's NOT_ACTIVATED token |
| Certificates.OutgoingServerAfterChecksOnly | src/certificate.cpp:561-565 | after only the checks tier was loaded, the as-written `outgoingServer` dereferences the empty details slot; the corrected one returns the daemon's OUTGOING_SERVER text |
| Certificates.SetPathKeepsLoadedTier | src/certificate.cpp:546-549 | after `setPath` a loaded detail still reads the value first fetched, and `path` returns the new URL |
| Certificates.RepeatedCheckResultsShareOneFetch | src/certificate.cpp:278-284 | two dispatches on a new certificate, ACTIVATED included, give one checks fetch and no details fetch, and both read the daemon's answer for the certificate's path |

## Left out

- The D-Bus transport to the daemon (src/certificate.cpp:273, 281). The two calls are the function fields of `Certificates.Daemon`: functions of their arguments, which always return some map.
- `QDateTime::fromString` (src/certificate.cpp:225-226, 241). It is the `DateParser` parameter. Real date parsing, and what the `mm` token does to it, is not modelled.
- `QObject::tr` translation. The tables hold the untranslated English text.
- `QString::toAscii`: a C-string codec installed with `setCodecForCStrings` is not modelled. Dafny's `char` is a Unicode scalar value, while a `QString` holds UTF-16 units, so a character outside the Basic Multilingual Plane gives one '?' here and two in Qt.
- `QString::toInt`: only ASCII white space is trimmed, and locale handling is not modelled.
- `QUrl`: query, fragment and percent-encoding are not modelled. Neither is the re-parsing that `QUrl(path.path())` applies to a path containing ':'.
- certificate.h is not part of this model:
  - the ordinals of `Checks` and `Details` follow the order of the tables and switches;
  - `Certificate::Type` keeps only an ordinal;
  - `static_cast<CheckValues>(bool)` is read as false to `FAILED` and true to `PASSED`, like `Certificates.CheckValueOfBool`.
- security_const.h is not part of this model. Keys and tokens are spelled as their identifiers. The proofs rely only on the keys being pairwise distinct, on no check key being the empty string, on `PASSED` differing from `FAILED`, and on neither token being the empty string.
- The `COUNT__` sentinels are not values of `Check` and `Detail`. The `Q_ASSERT(false)` branches and their fallback returns (src/certificate.cpp:592-595, 620-623) cannot be reached.
- Memory management is not modelled: the destructor (src/certificate.cpp:207-211) and the `CertificateModel::instance()` parent.
- Concurrency and first-load races are not modelled. The source is single-threaded.
- src/video_interface_singleton.cpp is not part of this model. It only builds the process-wide D-Bus proxy.
- The call counters are ghost state. The source keeps no counter. They count the daemon calls the model makes.

## Findings

| source | as written | input that shows it | evidently intended | confidence | as-written member | corrected member |
|---|---|---|---|---|---|---|
| src/certificate.cpp:540-543 | `isActivated` calls `loadDetails()` and then reads through `m_pCheckCache` | a new `Certificate` whose first call is `isActivated()` or `checkResult(ACTIVATED)`: the checks slot is still null (`Certificates.IsActivatedOnNewCertificate`) | load the checks tier, which owns `m_NotActivated` | high; not executed | Certificates.Certificate.IsActivatedAsWritten | Certificates.Certificate.IsActivated |
| src/certificate.cpp:561-565 | `outgoingServer` calls `loadChecks()` and then reads through `m_pDetailsCache` | a `Certificate` on which only check accessors, or none, have run, followed by `outgoingServer()` or `detailResult(OUTGOING_SERVER)`: the details slot is still null (`Certificates.OutgoingServerAfterChecksOnly`) | load the details tier, which owns `m_OutgoingServer` | high; not executed | Certificates.Certificate.OutgoingServerAsWritten | Certificates.Certificate.OutgoingServer |

/** Releases, the APIManager fields the upgrade gate looks at, and what the preflight checks decide. */
module Preflights {
  import opened Options
  import opened Decimals

  /** The parts of s between the separators; never empty. */
  function Split(s: string, separator: char): (parts: seq<string>)
    ensures |parts| >= 1
  {
    if s == [] then [[]] else
    var rest := Split(s[1..], separator);
    if s[0] == separator then [[]] + rest else [[s[0]] + rest[0]] + rest[1..]
  }

  lemma {:induction false} SplitOne(s: string, separator: char)
    requires separator !in s
    ensures Split(s, separator) == [s]
  {
    if s != [] {
      SplitOne(s[1..], separator);
      assert [s[0]] + s[1..] == s;
    }
  }

  lemma {:induction false} SplitFirst(s: string, rest: string, separator: char)
    requires separator !in s
    ensures Split(s + [separator] + rest, separator) == [s] + Split(rest, separator)
  {
    var whole := s + [separator] + rest;
    if s == [] {
      assert whole[1..] == rest;
    } else {
      SplitFirst(s[1..], rest, separator);
      assert whole[1..] == s[1..] + [separator] + rest;
      assert [s[0]] + s[1..] == s;
    }
  }

  /** The versions compiled into a running operator. */
  datatype Release = Release(operatorVersion: string, threescale: string) {
    function MajorMinor(): string {
      var parts := Split(threescale, '.');
      if |parts| >= 2 then parts[0] + "." + parts[1] else ""
    }
  }

  function SecondValue(version: string): Option<int> {
    var parts := Split(version, '.');
    if |parts| < 2 then None else Atoi(parts[1])
  }

  /** Whether the minor versions are more than one apart; None when one of them cannot be read. */
  function CompareMinorVersions(v: string, w: string): Option<bool> {
    var a, b := SecondValue(v), SecondValue(w);
    if a.None? || b.None? then None else
    var difference := Wrap(a.value - b.value);
    Some(difference != 0 && difference != 1 && difference != -1)
  }

  datatype ExternalComponents =
    ExternalComponents(systemRedis: bool, systemDatabase: bool, backendRedis: bool, zyncDatabase: bool)

  datatype HighAvailability = HighAvailability(enabled: bool, externalZyncDatabase: bool)

  /** The spec; defaulted says that no other default would change it. */
  datatype Spec = Spec(external: Option<ExternalComponents>, highAvailability: Option<HighAvailability>,
           defaulted: bool)

  /** An APIManager: its resource version, the three annotations of the operator and its spec. */
  datatype APIManager = APIManager(version: nat, confirmed: Option<nat>, operatorVersion: Option<string>,
                                   release: Option<string>, spec: Spec)

  function FromHighAvailability(s: Spec): Option<ExternalComponents> {
    if s.highAvailability.None? || !s.highAvailability.value.enabled then None else
    Some(ExternalComponents(true, true, true, s.highAvailability.value.externalZyncDatabase))
  }

  /** External components take precedence over the deprecated high availability field. */
  predicate IsExternal(s: Spec, selector: ExternalComponents -> bool) {
    if s.external.Some? then selector(s.external.value) else
    var e := FromHighAvailability(s);
    e.Some? && selector(e.value)
  }

  predicate DatabasesExternal(s: Spec) {
    && IsExternal(s, (e: ExternalComponents) => e.backendRedis)
    && IsExternal(s, (e: ExternalComponents) => e.systemRedis)
    && IsExternal(s, (e: ExternalComponents) => e.systemDatabase)
  }

  /** The three databases are external if each is declared so, or all are by high availability alone. */
  lemma {:induction false} DatabasesExternalExactly(s: Spec)
    ensures DatabasesExternal(s) <==>
            match s.external
            case Some(e) => e.backendRedis && e.systemRedis && e.systemDatabase
            case None => s.highAvailability.Some? && s.highAvailability.value.enabled
  {
  }

  function UpdateExternalComponents(s: Spec): Spec {
    if s.external.Some? then s else
    Spec(FromHighAvailability(s), None, s.defaulted)
  }

  /** Dropping the deprecated field changes no answer about external components, and happens once. */
  lemma {:induction false} UpdateKeepsExternal(s: Spec, selector: ExternalComponents -> bool)
    ensures IsExternal(UpdateExternalComponents(s), selector) == IsExternal(s, selector)
    ensures UpdateExternalComponents(UpdateExternalComponents(s)) == UpdateExternalComponents(s)
  {
  }

  /** The installed release; an absent and an empty annotation are alike. */
  function Installed(a: APIManager): string {
    if a.release.Some? then a.release.value else ""
  }

  function MultiMinorHop(r: Release, a: APIManager): Option<bool> {
    if Installed(a) == "" then Some(false) else CompareMinorVersions(Installed(a), r.MajorMinor())
  }

  function Defaulted(r: Release, a: APIManager): APIManager {
    a.(operatorVersion := Some(r.operatorVersion), release := Some(r.threescale),
    spec := UpdateExternalComponents(a.spec).(defaulted := true))
  }

  /** The requirements published for the incoming release. */
  datatype Requirements =
    Requirements(version: string, mysql: string, postgres: string, systemRedis: string, backendRedis: string)

  datatype Database = SystemDatabase | BackendRedis | SystemRedis

  /** Which of the three requirements hold. */
  datatype Verified = Verified(systemDatabase: bool, backendRedis: bool, systemRedis: bool) {
    predicate All() { systemDatabase && backendRedis && systemRedis }

    predicate Of(d: Database) {
      match d
      case SystemDatabase => systemDatabase
      case BackendRedis => backendRedis
      case SystemRedis => systemRedis
    }
  }

  /** Whether something is required of the database. */
  predicate Stated(q: Requirements, d: Database) {
    match d
    case SystemDatabase => q.mysql != "" || q.postgres != ""
    case BackendRedis => q.backendRedis != ""
    case SystemRedis => q.systemRedis != ""
  }

  datatype Verdict = NotExternal | FreshInstallRefused | UpgradeRefused | IncomingRefused | Confirm

  /** What the preflight checks decide once every verification has been answered. */
  function Judge(r: Release, a: APIManager, q: Requirements, v: Verified): Verdict {
    if !DatabasesExternal(a.spec) then NotExternal
    else if !v.All() && q.version == r.MajorMinor() && Installed(a) == "" then FreshInstallRefused
    else if !v.All() && q.version == r.MajorMinor() && Installed(a) != r.threescale then UpgradeRefused
    else if !v.All() && q.version != r.MajorMinor() && Installed(a) == r.threescale then IncomingRefused
    else Confirm
  }

  /**
   The three refusals do not cover every combination of versions: requirements that do not hold are confirmed all
   the same exactly when the published release and the installed one both are, or both are not, the operator's own.
   */
  lemma {:induction false} UnverifiedConfirmed(r: Release, a: APIManager, q: Requirements, v: Verified)
    requires r.threescale != ""
    ensures Judge(r, a, q, v) == Confirm && !v.All() <==>
            && DatabasesExternal(a.spec) && !v.All()
            && (q.version == r.MajorMinor() <==> Installed(a) == r.threescale)
    ensures v.All() ==> (Judge(r, a, q, v) == Confirm <==> DatabasesExternal(a.spec))
  {
  }

  function Version(major: string, minor: string, patch: string): string {
    major + ['.'] + (minor + ['.'] + patch)
  }

  lemma {:induction false} SplitVersion(major: string, minor: string, patch: string)
    requires '.' !in major && '.' !in minor && '.' !in patch
    ensures Split(Version(major, minor, patch), '.') == [major, minor, patch]
    ensures Split(major + "." + minor, '.') == [major, minor]
  {
    SplitFirst(major, minor + ['.'] + patch, '.');
    SplitFirst(minor, patch, '.');
    SplitOne(patch, '.');
    SplitFirst(major, minor, '.');
    SplitOne(minor, '.');
    assert Version(major, minor, patch) == major + ['.'] + (minor + ['.'] + patch);
  }

  /** v is the text of a version with minor version n, whatever stands before and after it. */
  ghost predicate HasMinor(v: string, n: nat) {
    exists major, suffix :: IsVersion(v, major, n, suffix)
  }

  ghost predicate IsVersion(v: string, major: string, n: nat, suffix: string) {
    '.' !in major && (suffix != "" ==> suffix[0] == '.') && v == major + ['.'] + (Decimal(n) + suffix)
  }

  lemma {:induction false} SecondValueOf(v: string, major: string, n: nat, suffix: string)
    requires IsVersion(v, major, n, suffix)
    ensures |Split(v, '.')| >= 2 && Split(v, '.')[0] == major && Split(v, '.')[1] == Decimal(n)
    ensures SecondValue(v) == if n <= MAX_INT then Some(n) else None
  {
    DecimalDigits(n);
    AtoiReadsDecimal(n);
    hide Atoi;
    SplitFirst(major, Decimal(n) + suffix, '.');
    if suffix == "" {
      assert Decimal(n) + suffix == Decimal(n);
      SplitOne(Decimal(n), '.');
    } else {
      SplitFirst(Decimal(n), suffix[1..], '.');
      assert Decimal(n) + suffix == Decimal(n) + ['.'] + suffix[1..];
    }
  }

  /**
   Exactly the instances two or more minor versions away, in either direction, are refused as a multi-minor hop; minor
   versions beyond 64 bits cannot be compared.
   */
  lemma {:induction false} HopExactly(r: Release, a: APIManager, installed: nat, incoming: nat)
    requires HasMinor(Installed(a), installed) && HasMinor(r.threescale, incoming)
    ensures MultiMinorHop(r, a) ==
            if installed > MAX_INT || incoming > MAX_INT then None
            else Some(installed > incoming + 1 || incoming > installed + 1)
  {
    hide Atoi, Decimal, Split;
    var major, suffix :| IsVersion(Installed(a), major, installed, suffix);
    SecondValueOf(Installed(a), major, installed, suffix);
    MajorMinorOf(r, incoming);
    assert |Installed(a)| > 0;
  }

  /** The comparison of the program, once it has succeeded, in terms of the minor versions. */
  lemma {:induction false} HopCompared(r: Release, a: APIManager)
    requires MultiMinorHop(r, a).Some?
    ensures forall i: nat, j: nat :: HasMinor(Installed(a), i) && HasMinor(r.threescale, j) ==>
                                       (MultiMinorHop(r, a).value <==> i > j + 1 || j > i + 1)
  {
    hide MultiMinorHop, Installed, HasMinor;
    forall i: nat, j: nat | HasMinor(Installed(a), i) && HasMinor(r.threescale, j)
      ensures MultiMinorHop(r, a).value <==> i > j + 1 || j > i + 1
    {
      HopExactly(r, a, i, j);
    }
  }

  lemma {:induction false} MajorMinorOf(r: Release, n: nat)
    requires HasMinor(r.threescale, n)
    ensures SecondValue(r.MajorMinor()) == if n <= MAX_INT then Some(n) else None
  {
    hide Atoi, Decimal, Split;
    var major, suffix :| IsVersion(r.threescale, major, n, suffix);
    SecondValueOf(r.threescale, major, n, suffix);
    assert r.MajorMinor() == major + ['.'] + (Decimal(n) + "");
    SecondValueOf(r.MajorMinor(), major, n, "");
  }

  /** An instance one patch behind its operator has any requirements of another release confirmed, met or not. */
  lemma {:induction false} PatchBehindConfirms(r: Release, a: APIManager, q: Requirements, v: Verified,
                                               major: string, minor: string, patch: string, behind: string)
    requires '.' !in major && '.' !in minor && '.' !in patch && '.' !in behind && patch != behind
    requires Atoi(minor).Some?
    requires r.threescale == Version(major, minor, patch) && a.release == Some(Version(major, minor, behind))
    requires DatabasesExternal(a.spec) && q.version != r.MajorMinor()
    ensures MultiMinorHop(r, a) == Some(false)
    ensures Judge(r, a, q, v) == Confirm
  {
    hide DatabasesExternal, Atoi, Split;
    SplitVersion(major, minor, patch);
    SplitVersion(major, minor, behind);
    assert Split(r.threescale, '.')[2] != Split(Installed(a), '.')[2];
  }

  /** What a pass that does not bypass the preflights must know before it touches the components. */
  predicate MayProceed(r: Release, a: APIManager, requirementsVersion: nat) {
    && MultiMinorHop(r, a) == Some(false)
    && DatabasesExternal(a.spec)
    && (a.confirmed == Some(requirementsVersion) || Installed(a) == r.threescale)
  }
}

/** Cluster stack names: the dotted ClusterClass syntax and the dashed ClusterStackRelease syntax. */
module ClusterStacks {
  import opened Results
  import opened Text
  import opened Versions

  datatype KubernetesVersion = KubernetesVersion(major: int, minor: int)

  datatype ClusterStack = ClusterStack(provider: string, name: string, kubernetes: KubernetesVersion, version: Version)

  /** kubernetesversion.New. */
  function NewKubernetes(major: string, minor: string): Result<KubernetesVersion> {
    match Atoi(major)
    case Err(_) => Err(InvalidKubernetesMajor)
    case Ok(a) =>
      match Atoi(minor)
      case Err(_) => Err(InvalidKubernetesMinor)
      case Ok(b) => Ok(KubernetesVersion(a, b))
  }

  /** kubernetesversion.NewFromString. */
  function KubernetesFromString(s: string): Result<KubernetesVersion> {
    var parts := Split(s, '.');
    if |parts| != 2 then Err(InvalidFormat) else NewKubernetes(parts[0], parts[1])
  }

  function PrintKubernetes(k: KubernetesVersion, sep: char): string {
    Itoa(k.major) + [sep] + Itoa(k.minor)
  }

  /** What both parsers do once the parts are counted. */
  function FromParts(parts: seq<string>, version: Result<Version>): Result<ClusterStack>
    requires |parts| >= 4
  {
    if parts[0] == "" then Err(InvalidProvider)
    else if parts[1] == "" then Err(InvalidName)
    else
      match NewKubernetes(parts[2], parts[3])
      case Err(e) => Err(e)
      case Ok(k) =>
        match version
        case Err(e) => Err(e)
        case Ok(v) => Ok(ClusterStack(parts[0], parts[1], k, v))
  }

  /** NewFromClusterClassProperties: "docker-ferrol-1-27-v1", "docker-ferrol-1-27-v1-alpha.1". */
  function FromClass(s: string): Result<ClusterStack> {
    var parts := Split(s, '-');
    if |parts| != 5 && |parts| != 6 then Err(InvalidFormat)
    else FromParts(parts, ParseDotted(Join(parts[4..], '-')))
  }

  /** NewFromClusterStackReleaseProperties: "docker-ferrol-1-27-v1", "docker-ferrol-1-27-v1-alpha-1". */
  function FromRelease(s: string): Result<ClusterStack> {
    var parts := Split(s, '-');
    if |parts| != 5 && |parts| != 7 then Err(InvalidFormat)
    else FromParts(parts, ParseDashed(Join(parts[4..], '-')))
  }

  /** New, for the versions listed in a ClusterStack spec. */
  function New(provider: string, name: string, kubernetes: string, version: string): Result<ClusterStack> {
    match KubernetesFromString(kubernetes)
    case Err(e) => Err(e)
    case Ok(k) =>
      match ParseDotted(version)
      case Err(e) => Err(e)
      case Ok(v) =>
        if provider == "" then Err(InvalidProvider)
        else if name == "" then Err(InvalidName)
        else if !Valid(v) then Err(InvalidVersion)
        else if k.major == 0 then Err(InvalidKubernetesMajor)
        else if k.minor == 0 then Err(InvalidKubernetesMinor)
        else Ok(ClusterStack(provider, name, k, v))
  }

  /** The name of a cluster stack with the version as written. */
  function Named(cs: ClusterStack, version: string): string {
    Join([cs.provider, cs.name, PrintKubernetes(cs.kubernetes, '-'), version], '-')
  }

  function Print(cs: ClusterStack, sep: char): string {
    Named(cs, Versions.Print(cs.version, sep))
  }

  /** String, the name of a release object. */
  function ReleaseName(cs: ClusterStack): string {
    Print(cs, '-')
  }

  /** StringWithDot, the name of a cluster class. */
  function ClassName(cs: ClusterStack): string {
    Print(cs, '.')
  }

  /** ConvertFromClusterClassToClusterStackFormat: a name with exactly one dot gets a dash in its place. */
  function Convert(s: string): string {
    var parts := Split(s, '.');
    if |parts| == 2 then parts[0] + "-" + parts[1] else s
  }

  // ---------------------------------------------------------------------------------------
  // Round trips
  // ---------------------------------------------------------------------------------------

  /** What can be written and read back: names without dash, Kubernetes version in range, printable version. */
  predicate Canonical(cs: ClusterStack) {
    && CanonicalFront(cs)
    && Printable(cs.version)
  }

  predicate CanonicalFront(cs: ClusterStack) {
    && cs.provider != "" && Free(cs.provider, '-')
    && cs.name != "" && Free(cs.name, '-')
    && 0 <= cs.kubernetes.major <= MAX_INT && 0 <= cs.kubernetes.minor <= MAX_INT
  }

  function Front(cs: ClusterStack): seq<string> {
    [cs.provider, cs.name, Itoa(cs.kubernetes.major), Itoa(cs.kubernetes.minor)]
  }

  lemma JoinFour(a: string, b: string, c: string, d: string)
    ensures Join([a, b, c, d], '-') == a + "-" + (b + "-" + (c + "-" + d))
  {
    assert [a, b, c, d][1..] == [b, c, d] && [b, c, d][1..] == [c, d] && [c, d][1..] == [d];
    assert Join([d], '-') == d;
    assert Join([c, d], '-') == c + "-" + d;
    assert Join([b, c, d], '-') == b + "-" + (c + "-" + d);
  }

  lemma SplitFive(a: string, b: string, c: string, d: string, v: string)
    requires Free(a, '-') && Free(b, '-') && Free(c, '-') && Free(d, '-')
    ensures Split(a + "-" + (b + "-" + (c + "-" + (d + "-" + v))), '-') == [a, b, c, d] + Split(v, '-')
  {
    SplitCons(d, v, '-');
    SplitCons(c, d + "-" + v, '-');
    SplitCons(b, c + "-" + (d + "-" + v), '-');
    SplitCons(a, b + "-" + (c + "-" + (d + "-" + v)), '-');
    assert [a, b, c, d] + Split(v, '-') == [a] + ([b] + ([c] + ([d] + Split(v, '-'))));
  }

  lemma SplitNamed(cs: ClusterStack, v: string)
    requires CanonicalFront(cs)
    ensures Split(Named(cs, v), '-') == Front(cs) + Split(v, '-')
  {
    var a, b := Itoa(cs.kubernetes.major), Itoa(cs.kubernetes.minor);
    JoinFour(cs.provider, cs.name, a + "-" + b, v);
    Regroup(a, "-", b, "-", v);
    AtoiItoa(cs.kubernetes.major);
    AtoiItoa(cs.kubernetes.minor);
    ClassesFree(a, '-');
    ClassesFree(b, '-');
    SplitFive(cs.provider, cs.name, a, b, v);
  }

  lemma ParsedFront(s: string, version: Result<Version>)
    requires |Split(s, '-')| >= 4 && FromParts(Split(s, '-'), version).Ok?
    ensures CanonicalFront(FromParts(Split(s, '-'), version).value)
  {
    var parts := Split(s, '-');
    SplitParts(s, '-');
    AtoiAccepts(parts[2]);
    AtoiAccepts(parts[3]);
  }

  /** What the two parsers answer on a name, whatever its version. */
  lemma ParseNamed(cs: ClusterStack, v: string)
    requires CanonicalFront(cs)
    ensures var s, n := Named(cs, v), |Split(v, '-')|;
      && FromClass(s) == (if n == 1 || n == 2 then FromParts(Front(cs), ParseDotted(v)) else Err(InvalidFormat))
      && FromRelease(s) == (if n == 1 || n == 3 then FromParts(Front(cs), ParseDashed(v)) else Err(InvalidFormat))
  {
    SplitNamed(cs, v);
    var parts := Split(Named(cs, v), '-');
    assert parts[4..] == Split(v, '-');
    JoinSplit(v, '-');
    assert parts[0] == cs.provider && parts[1] == cs.name;
    assert parts[2] == Front(cs)[2] && parts[3] == Front(cs)[3];
  }

  lemma FrontParses(cs: ClusterStack, v: Version)
    requires CanonicalFront(cs)
    ensures FromParts(Front(cs), Ok(v)) == Ok(cs.(version := v))
  {
    AtoiItoa(cs.kubernetes.major);
    AtoiItoa(cs.kubernetes.minor);
  }

  lemma VersionPartCount(v: Version)
    requires Parsed(v)
    ensures |Split(Dotted(v), '-')| == if v.channel == STABLE then 1 else 2
    ensures |Split(Dashed(v), '-')| == if v.channel == STABLE then 1 else 3
  {
    AtoiItoa(v.major);
    var d := Itoa(v.major);
    if v.channel == STABLE {
      ParsesShort(d);
    } else {
      ParsesDotted(d, v.channel, v.patch);
      ParsesDashed(d, v.channel, v.patch);
    }
  }

  /** Round trip of the class syntax: exactly the canonical cluster stacks come back. */
  lemma ClassRoundTrip(cs: ClusterStack)
    ensures FromClass(ClassName(cs)) == Ok(cs) <==> Canonical(cs)
  {
    var s := ClassName(cs);
    var parts := Split(s, '-');
    if FromClass(s) == Ok(cs) {
      ParsedFront(s, ParseDotted(Join(parts[4..], '-')));
      ParsersReturnParsed(Join(parts[4..], '-'));
    }
    if CanonicalFront(cs) && Parsed(cs.version) {
      ParseNamed(cs, Dotted(cs.version));
      VersionPartCount(cs.version);
      VersionRoundTrips(cs.version);
      PrintableParses(cs.version);
      FrontParses(cs, ParseDotted(Dotted(cs.version)).value);
    }
  }

  /** Round trip of the release syntax, on the same cluster stacks. */
  lemma ReleaseRoundTrip(cs: ClusterStack)
    ensures FromRelease(ReleaseName(cs)) == Ok(cs) <==> Canonical(cs)
  {
    var s := ReleaseName(cs);
    var parts := Split(s, '-');
    if FromRelease(s) == Ok(cs) {
      ParsedFront(s, ParseDashed(Join(parts[4..], '-')));
      ParsersReturnParsed(Join(parts[4..], '-'));
    }
    if CanonicalFront(cs) && Parsed(cs.version) {
      ParseNamed(cs, Dashed(cs.version));
      VersionPartCount(cs.version);
      VersionRoundTrips(cs.version);
      PrintableParses(cs.version);
      FrontParses(cs, ParseDashed(Dashed(cs.version)).value);
    }
  }

  lemma NamesAreInjective(cs: ClusterStack, ds: ClusterStack)
    requires Canonical(cs) && Canonical(ds)
    ensures ReleaseName(cs) == ReleaseName(ds) || ClassName(cs) == ClassName(ds) ==> cs == ds
  {
    ClassRoundTrip(cs);
    ClassRoundTrip(ds);
    ReleaseRoundTrip(cs);
    ReleaseRoundTrip(ds);
  }

  /** What printing keeps of a cluster stack: all but the patch of a stable version. */
  function Printed(cs: ClusterStack): ClusterStack {
    if cs.version.channel == STABLE then cs.(version := cs.version.(patch := "")) else cs
  }

  /** What either parser can return. */
  predicate Parses(cs: ClusterStack) {
    CanonicalFront(cs) && Parsed(cs.version)
  }

  lemma ParsersReturnParses(s: string)
    ensures FromRelease(s).Ok? ==> Parses(FromRelease(s).value)
    ensures FromClass(s).Ok? ==> Parses(FromClass(s).value)
  {
    var parts := Split(s, '-');
    if |parts| >= 5 {
      var v := Join(parts[4..], '-');
      ParsersReturnParsed(v);
      if FromRelease(s).Ok? {
        ParsedFront(s, ParseDashed(v));
      }
      if FromClass(s).Ok? {
        ParsedFront(s, ParseDotted(v));
      }
    }
  }

  /** Parsed cluster stacks share their class name exactly if they differ at most in the patch of a stable version. */
  lemma ClassNamesMeetIff(cs: ClusterStack, ds: ClusterStack)
    requires Parses(cs) && Parses(ds)
    ensures ClassName(cs) == ClassName(ds) <==> Printed(cs) == Printed(ds)
  {
    NamesAreInjective(Printed(cs), Printed(ds));
  }

  /** A release name that writes a patch on channel stable is accepted, patch included. */
  lemma PatchedNameParses(cs: ClusterStack, p: string)
    requires Canonical(cs) && cs.version.channel == STABLE && Word(p)
    ensures FromRelease(Named(cs, Long(Itoa(cs.version.major), STABLE, '-', p)))
      == Ok(cs.(version := cs.version.(patch := p)))
  {
    var d := Itoa(cs.version.major);
    AtoiItoa(cs.version.major);
    AtoiDigits(d);
    ParsesDashed(d, STABLE, p);
    ParseNamed(cs, Long(d, STABLE, '-', p));
    FrontParses(cs, cs.version.(patch := p));
  }

  /** The release name of a version that is not stable is no class name. */
  lemma ReleaseIsNoClass(cs: ClusterStack)
    requires Canonical(cs) && cs.version.channel != STABLE
    ensures FromClass(ReleaseName(cs)).Err?
  {
    ParseNamed(cs, Dashed(cs.version));
    VersionPartCount(cs.version);
  }

  /** The two names of a cluster stack coincide exactly for stable versions. */
  lemma NamesCoincideIffStable(cs: ClusterStack)
    requires Canonical(cs)
    ensures ClassName(cs) == ReleaseName(cs) <==> cs.version.channel == STABLE
  {
    SplitNamed(cs, Dotted(cs.version));
    SplitNamed(cs, Dashed(cs.version));
    VersionPartCount(cs.version);
  }

  /** Kubernetes versions of a spec: printed with a dot they are read back exactly if in range. */
  lemma KubernetesRoundTrip(k: KubernetesVersion)
    ensures KubernetesFromString(PrintKubernetes(k, '.')) == Ok(k)
      <==> MIN_INT <= k.major <= MAX_INT && MIN_INT <= k.minor <= MAX_INT
  {
    if MIN_INT <= k.major <= MAX_INT && MIN_INT <= k.minor <= MAX_INT {
      AtoiItoa(k.major);
      AtoiItoa(k.minor);
      AtoiAccepts(Itoa(k.major));
      AtoiAccepts(Itoa(k.minor));
      SplitFree(Itoa(k.major), '.');
      SplitFree(Itoa(k.minor), '.');
      SplitAppend(Itoa(k.major), Itoa(k.minor), '.');
    }
  }

  // ---------------------------------------------------------------------------------------
  // Conversion between the syntaxes
  // ---------------------------------------------------------------------------------------

  lemma ConvertByDots(s: string)
    ensures Occurrences(s, '.') != 1 ==> Convert(s) == s
    ensures Occurrences(s, '.') == 1 ==> |Split(Convert(s), '-')| == |Split(s, '-')| + 1
  {
    SplitLength(s, '.');
    if Occurrences(s, '.') == 1 {
      var parts := Split(s, '.');
      var a, b := parts[0], parts[1];
      JoinSplit(s, '.');
      assert parts[1..] == [b];
      assert s == a + "." + b;
      SplitLength(s, '-');
      SplitLength(Convert(s), '-');
      OccurrencesAppend(a + ".", b, '-');
      OccurrencesAppend(a, ".", '-');
      OccurrencesAppend(a + "-", b, '-');
      OccurrencesAppend(a, "-", '-');
    }
  }

  /** The last two parts of a class name of six: "vN" and "channel.patch". */
  lemma SixTail(s: string) returns (d: string, c: string, p: string)
    requires |Split(s, '-')| == 6 && FromClass(s).Ok?
    ensures Digits(d) && Word(c) && Word(p)
    ensures Split(s, '-')[4] == "v" + d && Split(s, '-')[5] == c + "." + p
    ensures Join(Split(s, '-')[4..], '-') == Long(d, c, '.', p)
  {
    var last := Split(s, '-')[4..];
    SplitParts(s, '-');
    SplitJoin(last, '-');
    var long;
    long, d, c, p := MatchParts(Join(last, '-'), '.');
    if long { ParsesDotted(d, c, p); } else { ParsesShort(d); }
    assert last[0] == Split(s, '-')[4] && last[1] == Split(s, '-')[5];
  }

  /** All but the last part of a name. */
  lemma SixHead(s: string) returns (x: string)
    requires |Split(s, '-')| == 6
    ensures s == x + "-" + Split(s, '-')[5] && Split(x, '-') == Split(s, '-')[..5]
  {
    var parts := Split(s, '-');
    SplitParts(s, '-');
    x := Join(parts[..5], '-');
    SplitJoin(parts[..5], '-');
    SplitFree(parts[5], '-');
    SplitAppend(x, parts[5], '-');
    assert parts == parts[..5] + [parts[5]];
    JoinSplit(x + "-" + parts[5], '-');
    JoinSplit(s, '-');
  }

  lemma OneDot(a: string, p: string)
    requires Occurrences(a + "." + p, '.') == 1
    ensures Split(a + "." + p, '.') == [a, p]
  {
    OccurrencesAppend(a + ".", p, '.');
    OccurrencesAppend(a, ".", '.');
    OccurrencesFree(a, '.');
    OccurrencesFree(p, '.');
    SplitFree(a, '.');
    SplitFree(p, '.');
    SplitAppend(a, p, '.');
  }

  lemma TwoMore(x: string, c: string, p: string)
    requires Free(c, '-') && Free(p, '-')
    ensures Split(x + "-" + c + "-" + p, '-') == Split(x, '-') + [c, p]
  {
    SplitFree(c, '-');
    SplitFree(p, '-');
    SplitAppend(x + "-" + c, p, '-');
    SplitAppend(x, c, '-');
  }

  lemma ConvertSix(s: string)
    requires |Split(s, '-')| == 6 && FromClass(s).Ok? && Occurrences(s, '.') == 1
    ensures FromRelease(Convert(s)) == FromClass(s)
  {
    var parts := Split(s, '-');
    var d, c, p := SixTail(s);
    var x := SixHead(s);
    assert x + "-" + (c + "." + p) == (x + "-" + c) + "." + p;
    OneDot(x + "-" + c, p);
    ClassesFree(c, '-');
    ClassesFree(p, '-');
    TwoMore(x, c, p);
    var now := Split(Convert(s), '-');
    assert now == parts[..5] + [c, p];
    SevenTail(now, d, c, p);
    ParsesDashed(d, c, p);
    ParsesDotted(d, c, p);
    assert now[0] == parts[0] && now[1] == parts[1] && now[2] == parts[2] && now[3] == parts[3];
  }

  lemma SevenTail(parts: seq<string>, d: string, c: string, p: string)
    requires |parts| == 7 && parts[4] == "v" + d && parts[5] == c && parts[6] == p
    ensures Join(parts[4..], '-') == Long(d, c, '-', p)
  {
    assert parts[4..] == ["v" + d, c, p] && ["v" + d, c, p][1..] == [c, p];
    assert Join([c, p], '-') == c + "-" + p;
    assert Long(d, c, '-', p) == "v" + d + "-" + (c + "-" + p);
  }

  lemma FiveParts(s: string)
    requires |Split(s, '-')| == 5
    ensures FromClass(s).Ok? ==> FromRelease(s) == FromClass(s)
  {
    var parts := Split(s, '-');
    assert parts[4..] == [parts[4]];
    SplitParts(s, '-');
    if Matches(parts[4], '.') {
      var long, d, c, p := MatchParts(parts[4], '.');
      if long { ParsesDotted(d, c, p); SplitFree(parts[4], '-'); } else { ParsesShort(d); }
    }
  }

  /**
   Commuting conversion: on an accepted class name the release parser gives the same cluster stack for the
   converted name exactly if the only dot is the one of the version: none besides, or, in a stable name, not
   exactly one.
   */
  lemma ConversionCommutesIff(s: string)
    requires FromClass(s).Ok?
    ensures FromRelease(Convert(s)) == FromClass(s)
      <==> if |Split(s, '-')| == 5 then Occurrences(s, '.') != 1 else Occurrences(s, '.') == 1
  {
    ConvertByDots(s);
    if |Split(s, '-')| == 5 {
      FiveParts(s);
    } else if Occurrences(s, '.') == 1 {
      ConvertSix(s);
    }
  }

  /** What both names begin with. */
  function NameFront(cs: ClusterStack): string {
    cs.provider + "-" + (cs.name + "-" + (PrintKubernetes(cs.kubernetes, '-') + "-"))
  }

  lemma DotlessFront(cs: ClusterStack)
    requires CanonicalFront(cs) && Free(cs.provider, '.') && Free(cs.name, '.')
    ensures Free(NameFront(cs), '.')
  {
    AtoiItoa(cs.kubernetes.major);
    AtoiItoa(cs.kubernetes.minor);
    ClassesFree(Itoa(cs.kubernetes.major), '.');
    ClassesFree(Itoa(cs.kubernetes.minor), '.');
  }

  /** A dotted version has exactly one dot, before its patch. */
  lemma DottedVersion(v: Version) returns (a: string)
    requires Printable(v) && v.channel != STABLE
    ensures Dotted(v) == a + "." + v.patch && Dashed(v) == a + "-" + v.patch && Free(a, '.') && Free(v.patch, '.')
  {
    a := "v" + Itoa(v.major) + "-" + v.channel;
    AtoiItoa(v.major);
    ClassesFree(Itoa(v.major), '.');
    ClassesFree(v.channel, '.');
    ClassesFree(v.patch, '.');
  }

  lemma DotlessStable(v: Version)
    requires Printable(v) && v.channel == STABLE
    ensures Dotted(v) == Dashed(v) && Free(Dotted(v), '.')
  {
    AtoiItoa(v.major);
    ClassesFree(Itoa(v.major), '.');
  }

  lemma ConvertAt(a: string, b: string)
    requires Free(a, '.') && Free(b, '.')
    ensures Convert(a + "." + b) == a + "-" + b
    ensures Convert(a) == a
  {
    SplitFree(a, '.');
    SplitFree(b, '.');
    SplitAppend(a, b, '.');
  }

  /** Names of canonical cluster stacks convert into each other unless provider or name contain a dot. */
  lemma CanonicalConversion(cs: ClusterStack)
    requires Canonical(cs) && Free(cs.provider, '.') && Free(cs.name, '.')
    ensures Convert(ClassName(cs)) == ReleaseName(cs)
  {
    var front := NameFront(cs);
    DotlessFront(cs);
    PrintedFront(cs, '.');
    PrintedFront(cs, '-');
    if cs.version.channel == STABLE {
      DotlessStable(cs.version);
      ConvertAt(front + Dotted(cs.version), "");
    } else {
      var a := DottedVersion(cs.version);
      ConvertAt(front + a, cs.version.patch);
      assert front + (a + "." + cs.version.patch) == front + a + "." + cs.version.patch;
      assert front + (a + "-" + cs.version.patch) == front + a + "-" + cs.version.patch;
    }
  }

  lemma PrintedFront(cs: ClusterStack, sep: char)
    ensures Print(cs, sep) == NameFront(cs) + Versions.Print(cs.version, sep)
  {
    var k, v := PrintKubernetes(cs.kubernetes, '-'), Versions.Print(cs.version, sep);
    JoinFour(cs.provider, cs.name, k, v);
    assert cs.name + "-" + (k + "-" + v) == (cs.name + "-" + (k + "-")) + v;
  }

  /** FromReleaseTag agrees with the version that the release parser finds. */
  lemma ReleaseTagAgrees(tag: string)
    requires FromRelease(tag).Ok?
    ensures FromReleaseTag(tag) == Ok(FromRelease(tag).value.version)
  {
    var v := Split(tag, '-');
    if |v| == 5 {
      assert v[4..] == [v[4]];
    } else {
      assert v[4..] == [v[4], v[5], v[6]] && v[4..][1..] == [v[5], v[6]] && v[4..][1..][1..] == [v[6]];
      assert Join([v[5], v[6]], '-') == v[5] + "-" + v[6];
      assert Join(v[4..], '-') == v[4] + "-" + v[5] + "-" + v[6];
    }
  }
}

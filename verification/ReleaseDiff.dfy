/** Which ClusterStackReleases a ClusterStack keeps, creates and deletes. */
module ReleaseDiff {
  import opened Results
  import opened Text
  import opened Versions
  import opened ClusterStacks
  import opened Sorting
  import opened LatestReady

  datatype Spec = Spec(provider: string, name: string, kubernetes: string, channel: string, versions: seq<string>)

  // ---------------------------------------------------------------------------------------
  // Latest release of the repository, releases of the spec
  // ---------------------------------------------------------------------------------------

  predicate MatchesSpec(tag: string, spec: Spec) {
    && FromRelease(tag).Ok?
    && var cs := FromRelease(tag).value;
    && cs.version.channel == spec.channel && PrintKubernetes(cs.kubernetes, '.') == spec.kubernetes
    && cs.name == spec.name && cs.provider == spec.provider
  }

  function Matching(tags: seq<string>, spec: Spec): seq<ClusterStack> {
    if tags == [] then []
    else
      var tag := tags[|tags| - 1];
      Matching(tags[..|tags| - 1], spec) + if MatchesSpec(tag, spec) then [FromRelease(tag).value] else []
  }

  lemma {:induction false} MatchingHas(tags: seq<string>, spec: Spec)
    ensures forall t :: t in tags && MatchesSpec(t, spec) ==> FromRelease(t).value in Matching(tags, spec)
    ensures forall x :: x in Matching(tags, spec) ==>
      exists t :: t in tags && MatchesSpec(t, spec) && FromRelease(t).value == x
    ensures SameChannel(Matching(tags, spec))
  {
    if tags != [] {
      var front, last := tags[..|tags| - 1], tags[|tags| - 1];
      assert tags == front + [last];
      MatchingHas(front, spec);
      forall x | x in Matching(tags, spec)
        ensures exists t :: t in tags && MatchesSpec(t, spec) && FromRelease(t).value == x
      {
        if x in Matching(front, spec) {
          var t :| t in front && MatchesSpec(t, spec) && FromRelease(t).value == x;
          assert t in tags;
        } else {
          assert last in tags && MatchesSpec(last, spec);
        }
      }
      forall i | 0 <= i < |Matching(tags, spec)| ensures Matching(tags, spec)[i].version.channel == spec.channel {
        assert Matching(tags, spec)[i] in Matching(tags, spec);
      }
    }
  }

  /** A matching tag of greatest version. */
  ghost predicate GreatestMatch(tags: seq<string>, spec: Spec, tag: string) {
    && tag in tags && MatchesSpec(tag, spec)
    && forall t :: t in tags && MatchesSpec(t, spec) ==> !Before(FromRelease(tag).value, FromRelease(t).value)
  }

  /** getLatestReleaseFromRemoteRepository: the name of a matching tag of greatest version, if any matches. */
  method GetLatestRemote(tags: seq<string>, spec: Spec) returns (latest: Option<string>)
    ensures latest.None? <==> forall t :: t in tags ==> !MatchesSpec(t, spec)
    ensures latest.Some? ==>
      exists t :: GreatestMatch(tags, spec, t) && latest.value == ReleaseName(FromRelease(t).value)
  {
    var stacks: seq<ClusterStack> := [];
    var n := 0;
    while n < |tags|
      invariant 0 <= n <= |tags|
      invariant stacks == Matching(tags[..n], spec)
    {
      assert tags[..n + 1][..n] == tags[..n];
      if MatchesSpec(tags[n], spec) {
        stacks := stacks + [FromRelease(tags[n]).value];
      }
      n := n + 1;
    }
    assert tags[..n] == tags;
    MatchingHas(tags, spec);
    if stacks == [] {
      return None;
    }
    assert stacks[0] in stacks;
    OneChannelIsRankable(stacks);
    var last := Latest(stacks);
    latest := Some(ReleaseName(last));
    ghost var t := TagOf(tags, spec, last);
  }

  /** A greatest of the matching stacks is that of a greatest matching tag. */
  lemma TagOf(tags: seq<string>, spec: Spec, last: ClusterStack) returns (t: string)
    requires last in Matching(tags, spec) && forall x :: x in Matching(tags, spec) ==> !Before(last, x)
    ensures GreatestMatch(tags, spec, t) && FromRelease(t).value == last
  {
    MatchingHas(tags, spec);
    t :| t in tags && MatchesSpec(t, spec) && FromRelease(t).value == last;
  }

  /** The release name of one version of the spec. */
  function SpecName(spec: Spec, version: string): Option<string> {
    var cs := New(spec.provider, spec.name, spec.kubernetes, version);
    if cs.Ok? then Some(ReleaseName(cs.value)) else None
  }

  /** A release name matches a spec exactly if provider, name, channel and Kubernetes version are those of the spec. */
  lemma MatchesIff(cs: ClusterStack, spec: Spec)
    requires Canonical(cs)
    ensures MatchesSpec(ReleaseName(cs), spec) <==>
      && cs.provider == spec.provider && cs.name == spec.name && cs.version.channel == spec.channel
      && Itoa(cs.kubernetes.major) + "." + Itoa(cs.kubernetes.minor) == spec.kubernetes
  {
    ReleaseRoundTrip(cs);
  }

  /**
   A version of a spec is named exactly if the spec has a provider, a name and a Kubernetes version without zeroes, and
   the version parses.
   */
  lemma NamedIff(spec: Spec, version: string)
    ensures var k := KubernetesFromString(spec.kubernetes);
      SpecName(spec, version).Some? <==>
        && spec.provider != "" && spec.name != "" && ParseDotted(version).Ok?
        && k.Ok? && k.value.major != 0 && k.value.minor != 0
  {
    DottedParserReturnsParsed(version);
    if ParseDotted(version).Ok? {
      ParsedIsValid(ParseDotted(version).value);
    }
  }

  /** And then the name is read back as the release of that provider, name, Kubernetes version and version. */
  lemma SpecNameMeans(spec: Spec, version: string)
    requires SpecName(spec, version).Some? && Free(spec.provider, '-') && Free(spec.name, '-')
    requires KubernetesFromString(spec.kubernetes).value.major > 0
      && KubernetesFromString(spec.kubernetes).value.minor > 0
    ensures var k, v := KubernetesFromString(spec.kubernetes).value, ParseDotted(version).value;
      FromRelease(SpecName(spec, version).value)
      == Ok(ClusterStack(spec.provider, spec.name, k,
                         if v.channel == STABLE then Version(v.major, STABLE, "") else v))
  {
    var cs := New(spec.provider, spec.name, spec.kubernetes, version).value;
    DottedParserReturnsParsed(version);
    KubernetesInRange(spec.kubernetes);
    ReleaseRoundTrip(Printed(cs));
  }

  lemma KubernetesInRange(s: string)
    requires KubernetesFromString(s).Ok?
    ensures var k := KubernetesFromString(s).value; k.major <= MAX_INT && k.minor <= MAX_INT
  {
    var parts := Split(s, '.');
    AtoiAccepts(parts[0]);
    AtoiAccepts(parts[1]);
  }

  lemma ParsedIsValid(v: Version)
    requires Parsed(v)
    ensures Valid(v)
  {
    if v.channel != STABLE {
      WordPatch(v.patch);
    }
  }

  /** How the versions of a spec are named. */
  function Namer(spec: Spec): string -> Option<string> {
    (version: string) => SpecName(spec, version)
  }

  predicate AllNamed(name: string -> Option<string>, versions: seq<string>) {
    forall v :: v in versions ==> name(v).Some?
  }

  ghost predicate NamesAre(name: string -> Option<string>, versions: seq<string>, names: set<string>) {
    forall x :: x in names <==> exists v :: v in versions && name(v) == Some(x)
  }

  /** getClusterStackReleasesInSpec: the release names of exactly the listed versions; an error if one is malformed. */
  method GetInSpec(spec: Spec) returns (ok: bool, names: set<string>)
    ensures ok <==> AllNamed(Namer(spec), spec.versions)
    ensures ok ==> NamesAre(Namer(spec), spec.versions, names)
  {
    ok, names := CollectNames(Namer(spec), spec.versions);
  }

  /** Its loop. */
  method CollectNames(name: string -> Option<string>, versions: seq<string>) returns (ok: bool, names: set<string>)
    ensures ok <==> AllNamed(name, versions)
    ensures ok ==> NamesAre(name, versions, names)
  {
    names := {};
    var n := 0;
    while n < |versions|
      invariant 0 <= n <= |versions|
      invariant AllNamed(name, versions[..n]) && NamesAre(name, versions[..n], names)
    {
      var v := versions[n];
      assert v in versions;
      if name(v).None? {
        return false, {};
      }
      assert versions[..n + 1] == versions[..n] + [v];
      NamesMore(name, versions[..n], v, names);
      names := names + {name(v).value};
      n := n + 1;
    }
    assert versions[..n] == versions;
    ok := true;
  }

  lemma NamesMore(name: string -> Option<string>, versions: seq<string>, v: string, names: set<string>)
    requires NamesAre(name, versions, names) && name(v).Some?
    ensures NamesAre(name, versions + [v], names + {name(v).value})
  {
    var all := names + {name(v).value};
    forall x | x in all ensures exists w :: w in versions + [v] && name(w) == Some(x) {
      if x in names {
        var w :| w in versions && name(w) == Some(x);
        assert w in versions + [v];
      } else {
        assert v in versions + [v];
      }
    }
  }

  // ---------------------------------------------------------------------------------------
  // makeDiff
  // ---------------------------------------------------------------------------------------

  datatype Wish = Wish(latest: Option<string>, latestReady: Option<string>, inSpec: set<string>, inUse: set<string>) {
    /** Wanted whatever is ready. */
    predicate Names(name: string) {
      latest == Some(name) || name in inSpec || name in inUse
    }

    predicate Wants(name: string) {
      Names(name) || latestReady == Some(name)
    }
  }

  /** The releases for which `keep` holds (or does not), in order. */
  function Filter(rs: seq<Release>, wish: Wish, keep: bool): (r: seq<Release>)
    ensures forall x :: x in r <==> x in rs && (wish.Wants(x.name) <==> keep)
  {
    if rs == [] then []
    else
      var front, last := rs[..|rs| - 1], rs[|rs| - 1];
      assert rs == front + [last];
      var r := Filter(front, wish, keep);
      if wish.Wants(last.name) == keep then r + [last] else r
  }

  function NamesOf(rs: seq<Release>): set<string> {
    set r | r in rs :: r.name
  }

  function NamesList(rs: seq<Release>): (r: seq<string>)
    ensures |r| == |rs|
    ensures forall i :: 0 <= i < |rs| ==> r[i] == rs[i].name
  {
    seq(|rs|, i requires 0 <= i < |rs| => rs[i].name)
  }

  function NewRelease(name: string): Release {
    Release(name, false, "")
  }

  /** Names to add after the kept ones, with multiplicity: the latest is not looked for again in the spec. */
  function Added(kept: set<string>, wish: Wish): multiset<string> {
    (if wish.latest.Some? && wish.latest.value !in kept then multiset{wish.latest.value} else multiset{})
    + multiset(wish.inSpec - kept)
  }

  /** The first loop: what exists is kept or deleted, in order. */
  method KeepOrDelete(existing: seq<Release>, wish: Wish) returns (kept: seq<Release>, toDelete: seq<Release>,
      found: set<string>)
    ensures kept == Filter(existing, wish, true) && toDelete == Filter(existing, wish, false)
    ensures found == NamesOf(kept)
  {
    kept, toDelete, found := [], [], {};
    var n := 0;
    while n < |existing|
      invariant 0 <= n <= |existing|
      invariant kept == Filter(existing[..n], wish, true) && toDelete == Filter(existing[..n], wish, false)
      invariant found == NamesOf(kept)
    {
      var cs := existing[n];
      var shouldCreate := false;
      if (wish.latest.Some? && cs.name == wish.latest.value)
        || (wish.latestReady.Some? && cs.name == wish.latestReady.value) {
        shouldCreate := true;
      }
      if cs.name in wish.inSpec {
        shouldCreate := true;
      }
      if cs.name in wish.inUse {
        shouldCreate := true;
      }
      assert existing[..n + 1][..n] == existing[..n];
      if shouldCreate {
        kept, found := kept + [cs], found + {cs.name};
      } else {
        toDelete := toDelete + [cs];
      }
      n := n + 1;
    }
    assert existing[..n] == existing;
  }

  lemma AddOne(more: seq<Release>, name: string)
    ensures NamesList(more + [NewRelease(name)]) == NamesList(more) + [name]
    ensures multiset(NamesList(more + [NewRelease(name)])) == multiset(NamesList(more)) + multiset{name}
  {
    assert NamesList(more + [NewRelease(name)]) == NamesList(more) + [name];
  }

  /** The names of the spec that were not found, one new release each, in any order. */
  method AddFromSpec(inSpec: set<string>, found: set<string>) returns (more: seq<Release>)
    ensures forall x :: x in more ==> x == NewRelease(x.name)
    ensures multiset(NamesList(more)) == multiset(inSpec - found)
  {
    more := [];
    var rest := inSpec;
    while rest != {}
      invariant rest <= inSpec
      invariant forall x :: x in more ==> x == NewRelease(x.name)
      invariant multiset(NamesList(more)) == multiset(inSpec - rest - found)
      decreases rest
    {
      var cs :| cs in rest;
      var next := rest - {cs};
      if cs !in found {
        AddOne(more, cs);
        more := more + [NewRelease(cs)];
        assert inSpec - next - found == (inSpec - rest - found) + {cs};
      } else {
        assert inSpec - next - found == inSpec - rest - found;
      }
      rest := next;
    }
    assert inSpec - {} - found == inSpec - found;
  }

  /** Kept releases in order, then the missing ones as new, unready objects. */
  ghost predicate CreateList(kept: seq<Release>, missing: multiset<string>, toCreate: seq<Release>) {
    && |kept| <= |toCreate| && toCreate[..|kept|] == kept
    && (forall x :: x in toCreate[|kept|..] ==> x == NewRelease(x.name))
    && multiset(NamesList(toCreate[|kept|..])) == missing
  }

  lemma Assembled(kept: seq<Release>, first: seq<Release>, rest: seq<Release>, missing: multiset<string>)
    requires forall x :: x in first ==> x == NewRelease(x.name)
    requires forall x :: x in rest ==> x == NewRelease(x.name)
    requires multiset(NamesList(first)) + multiset(NamesList(rest)) == missing
    ensures CreateList(kept, missing, kept + first + rest)
  {
    var all := kept + first + rest;
    assert all[|kept|..] == first + rest;
    assert NamesList(first + rest) == NamesList(first) + NamesList(rest);
  }

  /** makeDiff: what exists is kept or deleted in order; the latest and those of the spec not found are new. */
  method MakeDiff(existing: seq<Release>, wish: Wish) returns (toCreate: seq<Release>, toDelete: seq<Release>)
    ensures toDelete == Filter(existing, wish, false)
    ensures CreateList(Filter(existing, wish, true), Added(NamesOf(Filter(existing, wish, true)), wish), toCreate)
  {
    var kept, found;
    kept, toDelete, found := KeepOrDelete(existing, wish);
    toCreate := kept;
    ghost var first: seq<Release> := [];
    if wish.latest.Some? && wish.latest.value !in found {
      first := [NewRelease(wish.latest.value)];
      assert NamesList(first) == [wish.latest.value];
      toCreate := toCreate + [NewRelease(wish.latest.value)];
    } else {
      assert NamesList(first) == [];
    }
    assert toCreate == kept + first;
    var rest := AddFromSpec(wish.inSpec, found);
    Assembled(kept, first, rest, Added(found, wish));
    toCreate := toCreate + rest;
  }

  // ---------------------------------------------------------------------------------------
  // What the diff guarantees
  // ---------------------------------------------------------------------------------------

  /** Where the elements of a filtered list stand in the whole one. */
  ghost predicate Positions(rs: seq<Release>, part: seq<Release>, at: seq<nat>) {
    && |at| == |part|
    && (forall i :: 0 <= i < |at| ==> at[i] < |rs| && rs[at[i]] == part[i])
    && (forall i, j :: 0 <= i < j < |at| ==> at[i] < at[j])
  }

  /** `at` are, in order, exactly the positions whose release is wanted (or not). */
  ghost predicate Selects(rs: seq<Release>, wish: Wish, keep: bool, at: seq<nat>) {
    && (forall i: nat :: i in at <==> i < |rs| && (wish.Wants(rs[i].name) <==> keep))
    && (forall i, j :: 0 <= i < j < |at| ==> at[i] < at[j])
  }

  lemma SelectsMore(rs: seq<Release>, last: Release, wish: Wish, keep: bool, at: seq<nat>)
    requires Selects(rs, wish, keep, at)
    ensures Selects(rs + [last], wish, keep, if wish.Wants(last.name) == keep then at + [|rs|] else at)
  {
    var now := if wish.Wants(last.name) == keep then at + [|rs|] else at;
    forall i, j | 0 <= i < j < |now| ensures now[i] < now[j] {
      if j == |at| {
        assert at[i] in at;
      }
    }
  }

  lemma PositionsMore(rs: seq<Release>, last: Release, part: seq<Release>, at: seq<nat>)
    requires Positions(rs, part, at)
    ensures Positions(rs + [last], part, at)
    ensures Positions(rs + [last], part + [last], at + [|rs|])
  {
  }

  lemma {:induction false} FilterInOrder(rs: seq<Release>, wish: Wish, keep: bool) returns (at: seq<nat>)
    ensures Positions(rs, Filter(rs, wish, keep), at) && Selects(rs, wish, keep, at)
  {
    at := [];
    if rs != [] {
      var front, last := rs[..|rs| - 1], rs[|rs| - 1];
      var before := FilterInOrder(front, wish, keep);
      assert rs == front + [last];
      SelectsMore(front, last, wish, keep, before);
      PositionsMore(front, last, Filter(front, wish, keep), before);
      at := if wish.Wants(last.name) == keep then before + [|front|] else before;
    }
  }

  /**
   makeDiff partitions the positions of the existing releases in order: wanted ones are kept, the others deleted;
   the names it creates are the wanted existing ones, the latest and those of the spec.
   */
  lemma DiffPartition(existing: seq<Release>, wish: Wish, toCreate: seq<Release>) returns (kept: seq<nat>,
      gone: seq<nat>)
    requires CreateList(Filter(existing, wish, true), Added(NamesOf(Filter(existing, wish, true)), wish), toCreate)
    ensures |kept| <= |toCreate| && Positions(existing, toCreate[..|kept|], kept)
    ensures forall r :: r in toCreate[|kept|..] ==> !r.ready && r.kubernetes == ""
    ensures Positions(existing, Filter(existing, wish, false), gone)
    ensures forall i: nat :: i < |existing| ==> (i in kept <==> i !in gone)
    ensures forall i: nat :: i in gone ==> i < |existing| && !wish.Wants(existing[i].name)
    ensures forall x :: x in NamesOf(toCreate) <==>
      (x in NamesOf(existing) && wish.Wants(x)) || wish.latest == Some(x) || x in wish.inSpec
  {
    kept := FilterInOrder(existing, wish, true);
    gone := FilterInOrder(existing, wish, false);
    CreatedNames(existing, wish, toCreate);
  }

  lemma AddedNames(kept: set<string>, wish: Wish, x: string)
    ensures x in Added(kept, wish) <==> x !in kept && (wish.latest == Some(x) || x in wish.inSpec)
  {
  }

  lemma CreatedNames(existing: seq<Release>, wish: Wish, toCreate: seq<Release>)
    requires CreateList(Filter(existing, wish, true), Added(NamesOf(Filter(existing, wish, true)), wish), toCreate)
    ensures forall x :: x in NamesOf(toCreate) <==>
      (x in NamesOf(existing) && wish.Wants(x)) || wish.latest == Some(x) || x in wish.inSpec
  {
    var kept := Filter(existing, wish, true);
    var rest := toCreate[|kept|..];
    assert toCreate == kept + rest;
    ListedNames(rest);
    forall x
      ensures x in NamesOf(toCreate)
        <==> (x in NamesOf(existing) && wish.Wants(x)) || wish.latest == Some(x) || x in wish.inSpec
    {
      KeptNames(existing, wish, x);
      AddedNames(NamesOf(kept), wish, x);
      assert x in NamesOf(toCreate) <==> x in NamesOf(kept) || x in NamesOf(rest);
    }
  }

  lemma KeptNames(existing: seq<Release>, wish: Wish, x: string)
    ensures x in NamesOf(Filter(existing, wish, true)) <==> x in NamesOf(existing) && wish.Wants(x)
  {
  }

  lemma ListedNames(rs: seq<Release>)
    ensures forall x :: x in NamesOf(rs) <==> x in multiset(NamesList(rs))
  {
    forall x | x in NamesOf(rs) ensures x in NamesList(rs) {
      var r :| r in rs && r.name == x;
      var i :| 0 <= i < |rs| && rs[i] == r;
      assert NamesList(rs)[i] == x;
    }
    forall x | x in NamesList(rs) ensures x in NamesOf(rs) {
      var i :| 0 <= i < |rs| && NamesList(rs)[i] == x;
      assert rs[i] in rs;
    }
  }

  // ---------------------------------------------------------------------------------------
  // Carrying the diff out
  // ---------------------------------------------------------------------------------------

  /**
   The releases after the deletions and creations, in any order: what was kept is as it was, what is new is not
   ready, and every name of the diff is there once.
   */
  ghost predicate CarriedOut(kept: seq<Release>, toCreate: seq<Release>, next: seq<Release>) {
    && (forall r :: r in kept ==> r in next)
    && (forall r :: r in next ==> r in kept || (!r.ready && r.name !in NamesOf(kept)))
    && NamesOf(next) == NamesOf(toCreate)
    && (forall i, j :: 0 <= i < j < |next| ==> next[i].name != next[j].name)
  }

  ghost predicate DistinctVersions(n: Naming, rs: seq<Release>)
    requires ReadyParses(n, rs)
  {
    forall r, s | r in rs && s in rs && r.ready && s.ready ::
      n.Stack(r).value.version == n.Stack(s).value.version ==> r == s
  }

  /**
   Ready releases are told apart: no other release goes by the dotted name of one, and no other ready one shares its
   dotted name or its version.
   */
  ghost predicate Unambiguous(n: Naming, rs: seq<Release>)
    requires ReadyParses(n, rs)
  {
    && (forall r, s :: r in rs && s in rs && s.ready && r.name == n.Dotted(s) ==> r == s)
    && (forall r, s | r in rs && s in rs && r.ready && s.ready :: n.Dotted(r) == n.Dotted(s) ==> r == s)
    && DistinctVersions(n, rs)
  }

  /** The latest ready release is one that the diff keeps: by its own name, whatever its dotted one. */
  ghost predicate KeepsLatestReady(n: Naming, existing: seq<Release>, wish: Wish)
    requires ReadyParses(n, existing)
  {
    NoneReady(existing) || exists m :: Maximal(n, existing, m) && (n.Dotted(m) == m.name || wish.Names(m.name))
  }

  /** Two maxima have the same version. */
  lemma MaximaAgree(n: Naming, rs: seq<Release>, r: Release, s: Release)
    requires ReadyParses(n, rs) && OneChannel(n, rs) && Maximal(n, rs, r) && Maximal(n, rs, s)
    ensures n.Stack(r).value.version == n.Stack(s).value.version
  {
    BeforeLaws(n.Stack(r).value, n.Stack(s).value, n.Stack(s).value);
  }

  lemma SurvivorsParse(n: Naming, existing: seq<Release>, wish: Wish, toCreate: seq<Release>, next: seq<Release>)
    requires ReadyParses(n, existing) && CarriedOut(Filter(existing, wish, true), toCreate, next)
    ensures forall r :: r in next && r.ready ==> r in existing && wish.Wants(r.name)
    ensures ReadyParses(n, next)
    ensures OneChannel(n, existing) ==> OneChannel(n, next)
  {
  }

  /** Of the two latest ready releases the maximum of the survivors is the same exactly if the diff keeps the first. */
  lemma SameLatestReadyIff(n: Naming, existing: seq<Release>, wish: Wish, toCreate: seq<Release>, next: seq<Release>,
      again: Option<string>)
    requires ReadyParses(n, existing) && OneChannel(n, existing) && Unambiguous(n, existing)
    requires IsLatestReady(n, existing, wish.latestReady)
    requires CarriedOut(Filter(existing, wish, true), toCreate, next)
    requires ReadyParses(n, next) && IsLatestReady(n, next, again)
    ensures again == wish.latestReady <==> KeepsLatestReady(n, existing, wish)
  {
    SurvivorsParse(n, existing, wish, toCreate, next);
    if wish.latestReady.Some? {
      var m :| Maximal(n, existing, m) && wish.latestReady.value == n.Dotted(m);
      forall k | Maximal(n, existing, k) ensures k == m {
        MaximaAgree(n, existing, m, k);
      }
      if m in next {
        SurvivorIsLatest(n, existing, wish, toCreate, next, again, m);
      }
    }
  }

  /** A maximum that survives is the maximum of the survivors. */
  lemma SurvivorIsLatest(n: Naming, existing: seq<Release>, wish: Wish, toCreate: seq<Release>, next: seq<Release>,
                         again: Option<string>, m: Release)
    requires ReadyParses(n, existing) && OneChannel(n, existing) && Unambiguous(n, existing)
    requires CarriedOut(Filter(existing, wish, true), toCreate, next)
    requires ReadyParses(n, next) && IsLatestReady(n, next, again)
    requires Maximal(n, existing, m) && m in next
    ensures again == Some(n.Dotted(m))
  {
    SurvivorsParse(n, existing, wish, toCreate, next);
    assert Maximal(n, next, m);
    var r :| Maximal(n, next, r) && again == Some(n.Dotted(r));
    MaximaAgree(n, next, m, r);
  }

  /**
   Convergence: after a diff has been carried out, a second one with the other inputs unchanged deletes nothing and
   lists exactly what is there; and the latest ready release is the same exactly if the diff keeps it.
   */
  lemma DiffConverges(n: Naming, existing: seq<Release>, wish: Wish, toCreate: seq<Release>, next: seq<Release>,
                      again: Option<string>, more: seq<Release>)
    requires ReadyParses(n, existing) && OneChannel(n, existing) && Unambiguous(n, existing)
    requires IsLatestReady(n, existing, wish.latestReady)
    requires CreateList(Filter(existing, wish, true), Added(NamesOf(Filter(existing, wish, true)), wish), toCreate)
    requires CarriedOut(Filter(existing, wish, true), toCreate, next)
    requires ReadyParses(n, next) && IsLatestReady(n, next, again)
    requires var wish2 := wish.(latestReady := again);
      CreateList(Filter(next, wish2, true), Added(NamesOf(Filter(next, wish2, true)), wish2), more)
    ensures Filter(next, wish.(latestReady := again), false) == []
    ensures more == next
    ensures again == wish.latestReady <==> KeepsLatestReady(n, existing, wish)
  {
    var wish2 := wish.(latestReady := again);
    SameLatestReadyIff(n, existing, wish, toCreate, next, again);
    CreatedNames(existing, wish, toCreate);
    forall r | r in next ensures wish2.Wants(r.name) && r.name in NamesOf(toCreate) {
      assert r.name in NamesOf(next);
      if !wish.Names(r.name) {
        KeptForReadiness(n, existing, wish, toCreate, next, again, r);
      }
    }
    AllWanted(next, wish2);
    NothingMissing(next, wish2, more);
  }

  /** What is kept as the latest ready release only is that release, and it stays the latest. */
  lemma KeptForReadiness(n: Naming, existing: seq<Release>, wish: Wish, toCreate: seq<Release>, next: seq<Release>,
                         again: Option<string>, r: Release)
    requires ReadyParses(n, existing) && OneChannel(n, existing) && Unambiguous(n, existing)
    requires IsLatestReady(n, existing, wish.latestReady)
    requires CarriedOut(Filter(existing, wish, true), toCreate, next)
    requires ReadyParses(n, next) && IsLatestReady(n, next, again)
    requires r in existing && r in next && wish.Wants(r.name) && !wish.Names(r.name)
    ensures again == Some(r.name)
  {
    var m :| Maximal(n, existing, m) && wish.latestReady.value == n.Dotted(m);
    assert r == m;
    SurvivorIsLatest(n, existing, wish, toCreate, next, again, m);
  }

  lemma {:induction false} AllWanted(rs: seq<Release>, wish: Wish)
    requires forall r :: r in rs ==> wish.Wants(r.name)
    ensures Filter(rs, wish, true) == rs && Filter(rs, wish, false) == []
  {
    if rs != [] {
      assert rs == rs[..|rs| - 1] + [rs[|rs| - 1]];
      AllWanted(rs[..|rs| - 1], wish);
    }
  }

  lemma NothingMissing(next: seq<Release>, wish: Wish, more: seq<Release>)
    requires forall x :: wish.latest == Some(x) || x in wish.inSpec ==> x in NamesOf(next)
    requires CreateList(next, Added(NamesOf(next), wish), more)
    ensures more == next
  {
    var rest := more[|next|..];
    forall x ensures x !in Added(NamesOf(next), wish) {
      AddedNames(NamesOf(next), wish, x);
    }
    assert |multiset(NamesList(rest))| == |rest|;
    assert Added(NamesOf(next), wish) == multiset{};
    assert more == next + rest;
  }

  // ---------------------------------------------------------------------------------------
  // Dotted and dashed names
  // ---------------------------------------------------------------------------------------

  /** The dotted name of a well-named release is its own exactly if it is stable. */
  lemma DottedIffStable(r: Release)
    requires WellNamed(r)
    ensures OperatorNaming().Stack(r).Ok?
    ensures OperatorNaming().Dotted(r) == r.name <==> FromRelease(r.name).value.version.channel == STABLE
  {
    var cs := FromRelease(r.name).value;
    ReleaseRoundTrip(cs);
    NamesCoincideIffStable(cs);
  }

  /** The class name of a version that is not stable is no release name. */
  lemma DottedIsNoRelease(cs: ClusterStack)
    requires Canonical(cs) && cs.version.channel != STABLE
    ensures FromRelease(ClassName(cs)).Err?
  {
    ParseNamed(cs, Dotted(cs.version));
    VersionPartCount(cs.version);
  }

  /** Well-named releases with distinct names, of which the ready ones have distinct versions, are told apart. */
  lemma WellNamedUnambiguous(rs: seq<Release>)
    requires forall r :: r in rs ==> WellNamed(r)
    requires forall r, s :: r in rs && s in rs && r.name == s.name ==> r == s
    requires ReadyParses(OperatorNaming(), rs) && DistinctVersions(OperatorNaming(), rs)
    ensures Unambiguous(OperatorNaming(), rs)
  {
    var n := OperatorNaming();
    WellNamedTell(rs);
    forall r, s | r in rs && s in rs && s.ready && r.name == n.Dotted(s) ensures r == s {
      DottedIffStable(s);
      var cs := FromRelease(s.name).value;
      ReleaseRoundTrip(cs);
      if cs.version.channel != STABLE {
        DottedIsNoRelease(cs);
      }
    }
  }

  /**
   Exactly when the latest ready release survives a diff: if none is ready, or the maximum is stable, the latest of the
   repository, in the spec, or in use under its dashed name.
   */
  lemma KeepsLatestReadyIff(existing: seq<Release>, wish: Wish)
    requires forall r :: r in existing ==> WellNamed(r)
    requires ReadyParses(OperatorNaming(), existing)
    ensures KeepsLatestReady(OperatorNaming(), existing, wish) <==>
      || NoneReady(existing)
      || exists m :: Maximal(OperatorNaming(), existing, m)
          && (FromRelease(m.name).value.version.channel == STABLE || wish.latest == Some(m.name)
            || m.name in wish.inSpec || m.name in wish.inUse)
  {
    forall m | m in existing
      ensures OperatorNaming().Stack(m).Ok?
      ensures OperatorNaming().Dotted(m) == m.name <==> FromRelease(m.name).value.version.channel == STABLE
    {
      DottedIffStable(m);
    }
  }

  /** The only ready release of a list does not survive if it goes by another name than its dotted one. */
  lemma OnlyReadyLost(n: Naming, r: Release)
    requires r.ready && n.Stack(r).Ok? && n.Dotted(r) != r.name
    ensures var wish := Wish(None, Some(n.Dotted(r)), {}, {});
      && ReadyParses(n, [r]) && IsLatestReady(n, [r], wish.latestReady) && !KeepsLatestReady(n, [r], wish)
      && Filter([r], wish, true) == [] && CarriedOut([], [], []) && IsLatestReady(n, [], None)
  {
    var m := n.Stack(r).value;
    BeforeLaws(m, m, m);
    assert forall x :: x in [r] <==> x == r;
    assert Maximal(n, [r], r);
    assert r !in Filter([r], Wish(None, Some(n.Dotted(r)), {}, {}), true);
  }

  /** So it is with every version that is not stable. */
  lemma LatestReadyLost(cs: ClusterStack, kubernetes: string)
    requires Canonical(cs) && cs.version.channel != STABLE
    ensures var n, r, wish := OperatorNaming(), Release(ReleaseName(cs), true, kubernetes),
        Wish(None, Some(ClassName(cs)), {}, {});
      && ReadyParses(n, [r]) && IsLatestReady(n, [r], wish.latestReady)
      && Filter([r], wish, true) == [] && CarriedOut([], [], []) && IsLatestReady(n, [], None)
  {
    ReleaseRoundTrip(cs);
    NamesCoincideIffStable(cs);
    OnlyReadyLost(OperatorNaming(), Release(ReleaseName(cs), true, kubernetes));
  }

  /**
   Whether a release that is in use, or is the latest ready one, is deleted all the same: the names of both kinds
   are dotted, so exactly if it is not stable and neither the latest of the repository nor listed in the spec.
   */
  lemma UnprotectedIff(existing: seq<Release>, wish: Wish, r: Release)
    requires r in existing && WellNamed(r)
    requires var class_ := ClassName(FromRelease(r.name).value);
      class_ in wish.inUse || wish.latestReady == Some(class_)
    requires forall u :: u in wish.inUse || wish.latestReady == Some(u) ==> FromClass(u).Ok?
    ensures r in Filter(existing, wish, false)
      <==> FromRelease(r.name).value.version.channel != STABLE && wish.latest != Some(r.name) && r.name !in wish.inSpec
  {
    DottedIffStable(r);
    var cs := FromRelease(r.name).value;
    ReleaseRoundTrip(cs);
    if cs.version.channel != STABLE {
      ReleaseIsNoClass(cs);
    }
  }

  /** One that is deleted although a cluster uses it: docker-ferrol-1-27-v1-alpha-1. */
  lemma UsedButDeleted()
    ensures var cs := ClusterStack("docker", "ferrol", KubernetesVersion(1, 27), Version(1, "alpha", "1"));
      var r := Release(ReleaseName(cs), true, "1.27");
      r in Filter([r], Wish(None, None, {}, {ClassName(cs)}), false)
  {
    var cs := ClusterStack("docker", "ferrol", KubernetesVersion(1, 27), Version(1, "alpha", "1"));
    assert Canonical(cs);
    AnyUsedButDeleted(cs, Release(ReleaseName(cs), true, "1.27"));
  }

  lemma AnyUsedButDeleted(cs: ClusterStack, r: Release)
    requires Canonical(cs) && cs.version.channel != STABLE && r.name == ReleaseName(cs)
    ensures r in Filter([r], Wish(None, None, {}, {ClassName(cs)}), false)
  {
    ReleaseRoundTrip(cs);
    ClassRoundTrip(cs);
    UnprotectedIff([r], Wish(None, None, {}, {ClassName(cs)}), r);
  }
}

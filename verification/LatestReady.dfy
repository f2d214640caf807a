/** The latest ready ClusterStackRelease of a list. */
module LatestReady {
  import opened Results
  import opened Text
  import opened Versions
  import opened ClusterStacks
  import opened Sorting

  /** A ClusterStackRelease: its name and the part of its status that is read here. */
  datatype Release = Release(name: string, ready: bool, kubernetes: string)

  /** How release names are read and how the result is named; the loops depend on neither. */
  datatype Naming = Naming(parse: string -> Result<ClusterStack>, dotted: ClusterStack -> string) {
    function Stack(r: Release): Result<ClusterStack> {
      parse(r.name)
    }

    /** The dotted name of a release whose name parses. */
    function Dotted(r: Release): string
      requires Stack(r).Ok?
    {
      dotted(Stack(r).value)
    }
  }

  /** The syntaxes of the operator: dashed release names in, dotted class names out. */
  function OperatorNaming(): Naming {
    Naming(FromRelease, ClassName)
  }

  predicate ReadyParses(n: Naming, rs: seq<Release>) {
    forall r :: r in rs && r.ready ==> n.Stack(r).Ok?
  }

  ghost predicate OneChannel(n: Naming, rs: seq<Release>)
    requires ReadyParses(n, rs)
  {
    forall r, s :: r in rs && s in rs && r.ready && s.ready ==>
      n.Stack(r).value.version.channel == n.Stack(s).value.version.channel
  }

  /** `m` is ready and no ready release has a greater version. */
  ghost predicate Maximal(n: Naming, rs: seq<Release>, m: Release)
    requires ReadyParses(n, rs)
  {
    m in rs && m.ready && forall r :: r in rs && r.ready ==> !Before(n.Stack(m).value, n.Stack(r).value)
  }

  ghost predicate NoneReady(rs: seq<Release>) {
    forall r :: r in rs ==> !r.ready
  }

  /** The dotted name of a maximal ready release, or none if none is ready. */
  ghost predicate IsLatestReady(n: Naming, rs: seq<Release>, latest: Option<string>)
    requires ReadyParses(n, rs)
  {
    match latest
    case None => NoneReady(rs)
    case Some(name) => exists m :: Maximal(n, rs, m) && name == n.Dotted(m)
  }

  /** The ready releases, parsed, in order. */
  function ReadyStacks(n: Naming, rs: seq<Release>): seq<ClusterStack>
    requires ReadyParses(n, rs)
  {
    if rs == [] then []
    else
      var front, last := rs[..|rs| - 1], rs[|rs| - 1];
      if last.ready then ReadyStacks(n, front) + [n.Stack(last).value] else ReadyStacks(n, front)
  }

  /** The Kubernetes version of the last ready release of each dotted name. */
  function VersionMap(n: Naming, rs: seq<Release>): map<string, string>
    requires ReadyParses(n, rs)
  {
    if rs == [] then map[]
    else
      var front, last := rs[..|rs| - 1], rs[|rs| - 1];
      if last.ready then VersionMap(n, front)[n.Dotted(last) := last.kubernetes] else VersionMap(n, front)
  }

  lemma {:induction false} ReadyStacksHave(n: Naming, rs: seq<Release>)
    requires ReadyParses(n, rs)
    ensures forall r :: r in rs && r.ready ==> n.Stack(r).value in ReadyStacks(n, rs)
    ensures forall x :: x in ReadyStacks(n, rs) ==> exists r :: r in rs && r.ready && n.Stack(r).value == x
  {
    if rs != [] {
      var front, last := rs[..|rs| - 1], rs[|rs| - 1];
      assert rs == front + [last];
      ReadyStacksHave(n, front);
      forall x | x in ReadyStacks(n, rs) ensures exists r :: r in rs && r.ready && n.Stack(r).value == x {
        if x in ReadyStacks(n, front) {
          var r :| r in front && r.ready && n.Stack(r).value == x;
          assert r in rs;
        } else {
          assert last in rs && last.ready;
        }
      }
    }
  }

  /** `rs[i]` is the last ready release of this dotted name. */
  ghost predicate LastOfName(n: Naming, rs: seq<Release>, name: string, i: nat)
    requires i < |rs| && ReadyParses(n, rs)
  {
    && rs[i].ready && n.Dotted(rs[i]) == name
    && forall j :: i < j < |rs| && rs[j].ready ==> n.Dotted(rs[j]) != name
  }

  /** What the map holds is the version of the last ready release of the name. */
  lemma {:induction false} VersionMapHas(n: Naming, rs: seq<Release>, x: ClusterStack) returns (i: nat)
    requires ReadyParses(n, rs) && x in ReadyStacks(n, rs)
    ensures n.dotted(x) in VersionMap(n, rs) && i < |rs|
    ensures LastOfName(n, rs, n.dotted(x), i) && VersionMap(n, rs)[n.dotted(x)] == rs[i].kubernetes
  {
    var front, last := rs[..|rs| - 1], rs[|rs| - 1];
    if last.ready && n.Dotted(last) == n.dotted(x) {
      i := |rs| - 1;
    } else {
      assert x in ReadyStacks(n, front);
      i := VersionMapHas(n, front, x);
      assert rs[i] == front[i];
      forall j | i < j < |rs| && rs[j].ready ensures n.Dotted(rs[j]) != n.dotted(x) {
        if j < |front| {
          assert rs[j] == front[j];
        }
      }
    }
  }

  /** The loop over the releases: the ready ones parsed, and their versions by dotted name. */
  method CollectReady(n: Naming, rs: seq<Release>) returns (ok: bool, stacks: seq<ClusterStack>,
      kubernetes: map<string, string>)
    ensures ok <==> ReadyParses(n, rs)
    ensures ok ==> stacks == ReadyStacks(n, rs) && kubernetes == VersionMap(n, rs)
  {
    stacks, kubernetes := [], map[];
    var k := 0;
    while k < |rs|
      invariant 0 <= k <= |rs|
      invariant ReadyParses(n, rs[..k])
      invariant stacks == ReadyStacks(n, rs[..k]) && kubernetes == VersionMap(n, rs[..k])
    {
      var csr := rs[k];
      assert csr in rs;
      assert rs[..k + 1] == rs[..k] + [csr] && rs[..k + 1][..k] == rs[..k];
      if csr.ready {
        var cs := n.Stack(csr);
        if cs.Err? {
          return false, [], map[];
        }
        stacks := stacks + [cs.value];
        kubernetes := kubernetes[n.dotted(cs.value) := csr.kubernetes];
      }
      k := k + 1;
    }
    assert rs[..k] == rs;
    ok := true;
  }

  /**
   getLatestReadyClusterStackRelease: an error exactly if a ready name cannot be parsed; nothing exactly if none
   is ready; otherwise the name of a ready release, maximal if all ready ones are of one channel, with the
   Kubernetes version of the last ready release of that name, which is the maximal one's own if names tell versions.
   */
  method GetLatestReady(n: Naming, rs: seq<Release>) returns (ok: bool, latest: Option<string>, kubernetes: string)
    ensures ok <==> ReadyParses(n, rs)
    ensures ok ==> (latest.None? <==> NoneReady(rs))
    ensures ok && latest.Some? ==>
      exists i: nat | i < |rs| :: LastOfName(n, rs, latest.value, i) && kubernetes == rs[i].kubernetes
    ensures ok && OneChannel(n, rs) ==> IsLatestReady(n, rs, latest)
    ensures ok && latest.Some? && OneChannel(n, rs) && NamesTell(n, rs) ==> OwnVersion(n, rs, latest.value, kubernetes)
  {
    latest, kubernetes := None, "";
    var stacks, versions;
    ok, stacks, versions := CollectReady(n, rs);
    if ok {
      ReadyStacksHave(n, rs);
      if stacks == [] {
        return;
      }
      assert stacks[0] in stacks;
      var cs := Latest(stacks);
      ghost var i := VersionMapHas(n, rs, cs);
      assert rs[i] in rs;
      latest, kubernetes := Some(n.dotted(cs)), versions[n.dotted(cs)];
      if OneChannel(n, rs) {
        ReadySameChannel(n, rs);
        OneChannelIsRankable(stacks);
        LatestIsMaximal(n, rs, cs);
        if NamesTell(n, rs) {
          NamesTellLast(n, rs, n.dotted(cs), i);
        }
      }
    }
  }

  lemma ReadySameChannel(n: Naming, rs: seq<Release>)
    requires ReadyParses(n, rs) && OneChannel(n, rs)
    ensures SameChannel(ReadyStacks(n, rs))
  {
    var stacks := ReadyStacks(n, rs);
    ReadyStacksHave(n, rs);
    forall a, b | 0 <= a < |stacks| && 0 <= b < |stacks|
      ensures stacks[a].version.channel == stacks[b].version.channel
    {
      assert stacks[a] in stacks && stacks[b] in stacks;
    }
  }

  lemma LatestIsMaximal(n: Naming, rs: seq<Release>, cs: ClusterStack)
    requires ReadyParses(n, rs) && OneChannel(n, rs) && cs in ReadyStacks(n, rs)
    requires SameChannel(ReadyStacks(n, rs)) ==> forall x :: x in ReadyStacks(n, rs) ==> !Before(cs, x)
    ensures IsLatestReady(n, rs, Some(n.dotted(cs)))
  {
    ReadySameChannel(n, rs);
    ReadyStacksHave(n, rs);
    var m :| m in rs && m.ready && n.Stack(m).value == cs;
    assert Maximal(n, rs, m);
  }

  // ---------------------------------------------------------------------------------------
  // Whose Kubernetes version it is
  // ---------------------------------------------------------------------------------------

  /** Ready releases with the same dotted name have the same version. */
  ghost predicate NamesTell(n: Naming, rs: seq<Release>)
    requires ReadyParses(n, rs)
  {
    forall r, s | r in rs && s in rs && r.ready && s.ready && n.Dotted(r) == n.Dotted(s) ::
      n.Stack(r).value.version == n.Stack(s).value.version
  }

  /** The Kubernetes version is that of a maximal ready release of the name itself. */
  ghost predicate OwnVersion(n: Naming, rs: seq<Release>, name: string, kubernetes: string) {
    ReadyParses(n, rs) && exists m :: Maximal(n, rs, m) && n.Dotted(m) == name && m.kubernetes == kubernetes
  }

  /** If names tell versions, the last ready release of the name is itself maximal. */
  lemma NamesTellLast(n: Naming, rs: seq<Release>, name: string, i: nat)
    requires ReadyParses(n, rs) && IsLatestReady(n, rs, Some(name)) && NamesTell(n, rs)
    requires i < |rs| && LastOfName(n, rs, name, i)
    ensures Maximal(n, rs, rs[i]) && OwnVersion(n, rs, name, rs[i].kubernetes)
  {
    var m :| Maximal(n, rs, m) && name == n.Dotted(m);
    assert rs[i] in rs;
  }

  /** The same releases with other Kubernetes versions. */
  function Labelled(rs: seq<Release>, version: nat -> string): (r: seq<Release>)
    ensures |r| == |rs| && forall i :: 0 <= i < |rs| ==> r[i] == rs[i].(kubernetes := version(i))
  {
    seq(|rs|, i requires 0 <= i < |rs| => rs[i].(kubernetes := version(i)))
  }

  /** Neither who is ready nor who is maximal depends on Kubernetes versions. */
  lemma LabelledAlike(n: Naming, rs: seq<Release>, version: nat -> string, i: nat)
    requires ReadyParses(n, rs) && i < |rs|
    ensures var ls := Labelled(rs, version);
      && ReadyParses(n, ls) && (Maximal(n, ls, ls[i]) <==> Maximal(n, rs, rs[i]))
      && forall name :: LastOfName(n, ls, name, i) <==> LastOfName(n, rs, name, i)
  {
    var ls := Labelled(rs, version);
    forall r | r in ls && r.ready ensures n.Stack(r).Ok? {
      var j :| 0 <= j < |ls| && ls[j] == r;
      assert rs[j] in rs;
    }
    assert ls[i] in ls && rs[i] in rs;
    if Maximal(n, ls, ls[i]) {
      forall r | r in rs && r.ready ensures !Before(n.Stack(rs[i]).value, n.Stack(r).value) {
        var j :| 0 <= j < |rs| && rs[j] == r;
        assert ls[j] in ls;
      }
    }
    if Maximal(n, rs, rs[i]) {
      forall r | r in ls && r.ready ensures !Before(n.Stack(ls[i]).value, n.Stack(r).value) {
        var j :| 0 <= j < |ls| && ls[j] == r;
        assert rs[j] in rs;
      }
    }
  }

  /**
   Exactly when what is returned is the version of the maximal release, whatever the Kubernetes versions are: if the
   last ready release of its dotted name is itself maximal.
   */
  lemma OwnVersionIff(n: Naming, rs: seq<Release>, name: string, i: nat)
    requires ReadyParses(n, rs) && i < |rs| && LastOfName(n, rs, name, i)
    ensures (forall version: nat -> string :: OwnVersion(n, Labelled(rs, version), name, version(i)))
      <==> Maximal(n, rs, rs[i])
  {
    if Maximal(n, rs, rs[i]) {
      forall version: nat -> string ensures OwnVersion(n, Labelled(rs, version), name, version(i)) {
        LabelledAlike(n, rs, version, i);
        assert Labelled(rs, version)[i].kubernetes == version(i);
      }
    } else {
      var version := (j: nat) => if j == i then "own" else "other";
      var ls := Labelled(rs, version);
      LabelledAlike(n, rs, version, i);
      assert version(i) == "own";
      forall m | m in ls && m.kubernetes == "own" ensures m == ls[i] {
      }
      assert !OwnVersion(n, ls, name, version(i));
    }
  }

  /** A release whose name is the printed form of what it parses to. */
  predicate WellNamed(r: Release) {
    FromRelease(r.name).Ok? && r.name == ReleaseName(FromRelease(r.name).value)
  }

  /**
   With the names of the operator: names tell versions exactly if no two ready releases differ only in the patch of a
   stable version.
   */
  lemma OperatorNamesTellIff(rs: seq<Release>)
    requires ReadyParses(OperatorNaming(), rs)
    ensures NamesTell(OperatorNaming(), rs) <==>
      forall r, s | r in rs && s in rs && r.ready && s.ready
        && Printed(FromRelease(r.name).value) == Printed(FromRelease(s.name).value) ::
        FromRelease(r.name).value.version.patch == FromRelease(s.name).value.version.patch
  {
    var n := OperatorNaming();
    forall r, s | r in rs && s in rs && r.ready && s.ready
      ensures n.Dotted(r) == n.Dotted(s) <==>
        Printed(FromRelease(r.name).value) == Printed(FromRelease(s.name).value)
    {
      ParsersReturnParses(r.name);
      ParsersReturnParses(s.name);
      assert n.Stack(r) == FromRelease(r.name) && n.Stack(s) == FromRelease(s.name);
      ClassNamesMeetIff(FromRelease(r.name).value, FromRelease(s.name).value);
    }
  }

  /** Well-named releases tell versions, and with distinct names the maximal one of a dotted name is unique. */
  lemma WellNamedTell(rs: seq<Release>)
    requires forall r :: r in rs && r.ready ==> WellNamed(r)
    ensures var n := OperatorNaming();
      && ReadyParses(n, rs) && NamesTell(n, rs)
      && forall r, s :: r in rs && s in rs && r.ready && s.ready && n.Dotted(r) == n.Dotted(s) ==> r.name == s.name
  {
    var n := OperatorNaming();
    forall r, s | r in rs && s in rs && r.ready && s.ready && n.Dotted(r) == n.Dotted(s)
      ensures FromRelease(r.name) == FromRelease(s.name)
    {
      ReleaseRoundTrip(FromRelease(r.name).value);
      ReleaseRoundTrip(FromRelease(s.name).value);
      NamesAreInjective(FromRelease(r.name).value, FromRelease(s.name).value);
    }
  }

  /** Of two ready releases of one dotted name the greater one comes first. */
  lemma LesserTakesName(n: Naming, rs: seq<Release>, name: string)
    requires |rs| == 2 && rs[0].ready && rs[1].ready && n.Stack(rs[0]).Ok? && n.Stack(rs[1]).Ok?
    requires n.Dotted(rs[0]) == name && n.Dotted(rs[1]) == name && rs[0].kubernetes != rs[1].kubernetes
    requires Before(n.Stack(rs[1]).value, n.Stack(rs[0]).value)
    ensures ReadyParses(n, rs) && OneChannel(n, rs) && Maximal(n, rs, rs[0]) && IsLatestReady(n, rs, Some(name))
    ensures LastOfName(n, rs, name, 1) && !OwnVersion(n, rs, name, rs[1].kubernetes)
  {
    BeforeIsAsymmetric(n.Stack(rs[1]).value, n.Stack(rs[0]).value);
    var m := n.Stack(rs[0]).value;
    BeforeLaws(m, m, m);
    assert forall r :: r in rs <==> r == rs[0] || r == rs[1];
  }

  lemma PatchIsGreater(cs: ClusterStack, p: string)
    requires cs.version.patch == "" && p != ""
    ensures Before(cs, cs.(version := cs.version.(patch := p)))
  {
    assert cs.version.patch[..0] == p[..0];
  }

  /**
   One where it is not: after a version with a patch on channel stable, which is the greater one, comes the same version
   without, and it is the latter whose Kubernetes version stands under the name.
   */
  lemma PatchedTakesOtherVersion(cs: ClusterStack, p: string, k1: string, k2: string)
    requires Canonical(cs) && cs.version.channel == STABLE && Word(p) && k1 != k2
    ensures var n, patched := OperatorNaming(), Named(cs, Long(Itoa(cs.version.major), STABLE, '-', p));
      var rs := [Release(patched, true, k1), Release(ReleaseName(cs), true, k2)];
      && ReadyParses(n, rs) && OneChannel(n, rs) && Maximal(n, rs, rs[0])
      && IsLatestReady(n, rs, Some(ClassName(cs)))
      && LastOfName(n, rs, ClassName(cs), 1) && !OwnVersion(n, rs, ClassName(cs), k2)
  {
    var n, patched := OperatorNaming(), Named(cs, Long(Itoa(cs.version.major), STABLE, '-', p));
    var rs := [Release(patched, true, k1), Release(ReleaseName(cs), true, k2)];
    ReleaseRoundTrip(cs);
    PatchedNameParses(cs, p);
    PatchIsGreater(cs, p);
    LesserTakesName(n, rs, ClassName(cs));
  }
}

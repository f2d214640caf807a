/** Admission of cluster updates: which successive cluster classes the webhook lets through. */
module Webhook {
  import opened Results
  import opened ClusterStacks

  datatype Topology = Topology(class_: string, version: string)

  /** Kubernetes version in the status of a release, by release name; none if the lookup fails. */
  type Lookup = string -> Option<string>

  datatype Fault =
    | NoTopology
    | NoClass
    | WrongVersion
    | OldClassMalformed
    | NewClassMalformed
    | ProviderChanged
    | NameChanged
    | MinorChanged

  /** Warnings admit the object; faults reject it. */
  datatype Answer = Answer(warned: bool, faults: set<Fault>) {
    predicate Admitted() {
      faults == {}
    }
  }

  /** isVersionCorrect. */
  function IsVersionCorrect(cluster: Option<Topology>, lookup: Lookup): Answer {
    match cluster
    case None => Answer(false, {NoTopology})
    case Some(t) =>
      if t.class_ == "" then Answer(false, {NoClass})
      else
        match lookup(Convert(t.class_))
        case None => Answer(true, {})
        case Some(want) =>
          if want == "" then Answer(true, {})
          else if t.version != want then Answer(false, {WrongVersion})
          else Answer(false, {})
  }

  /** The checks that compare two parsed classes. */
  function Differences(prev: ClusterStack, next: ClusterStack): set<Fault> {
    var step := next.kubernetes.minor - prev.kubernetes.minor;
    (if prev.provider != next.provider then {ProviderChanged} else {})
    + (if prev.name != next.name then {NameChanged} else {})
    + (if step != 1 && step != 0 then {MinorChanged} else {})
  }

  /** The decision for any reading of class names; an existing cluster has a topology. */
  function Decide(parse: string -> Result<ClusterStack>, prev: Topology, next: Option<Topology>,
                  lookup: Lookup): Answer {
    var first := IsVersionCorrect(next, lookup);
    if first.warned || first.faults != {} then first
    else
      match parse(prev.class_)
      case Err(_) => Answer(false, {OldClassMalformed})
      case Ok(old_) =>
        match parse(next.value.class_)
        case Err(_) => Answer(false, {NewClassMalformed})
        case Ok(new_) => Answer(false, Differences(old_, new_))
  }

  /** ValidateCreate. */
  function ValidateCreate(next: Option<Topology>, lookup: Lookup): Answer {
    IsVersionCorrect(next, lookup)
  }

  /** ValidateUpdate. */
  function ValidateUpdate(prev: Topology, next: Option<Topology>, lookup: Lookup): Answer {
    Decide(FromClass, prev, next, lookup)
  }

  /** The release of the class is there and states a Kubernetes version. */
  predicate Known(t: Topology, lookup: Lookup) {
    var want := lookup(Convert(t.class_));
    want.Some? && want.value != ""
  }

  /** The same provider and stack name, and a Kubernetes minor version at most `rise` higher. */
  predicate Follows(p: ClusterStack, n: ClusterStack, rise: int) {
    n.provider == p.provider && n.name == p.name
      && p.kubernetes.minor <= n.kubernetes.minor <= p.kubernetes.minor + rise
  }

  /** Both classes parse, and `next` continues the cluster stack of `prev`. */
  predicate Continues(parse: string -> Result<ClusterStack>, prev: Topology, next: Topology, rise: int) {
    && parse(prev.class_).Ok? && parse(next.class_).Ok?
    && Follows(parse(prev.class_).value, parse(next.class_).value, rise)
  }

  lemma DecideIff(parse: string -> Result<ClusterStack>, prev: Topology, next: Topology, lookup: Lookup)
    ensures var answer := Decide(parse, prev, Some(next), lookup);
      && (answer.warned <==> next.class_ != "" && !Known(next, lookup))
      && (answer.Admitted() <==>
            && next.class_ != ""
            && (Known(next, lookup)
              ==> lookup(Convert(next.class_)) == Some(next.version) && Continues(parse, prev, next, 1)))
  {
    if parse(prev.class_).Ok? && parse(next.class_).Ok? {
      NoDifferences(parse(prev.class_).value, parse(next.class_).value);
    }
  }

  /**
   Exactly which updates are admitted: all whose release lookup fails or yields no version, with a warning and
   whatever the classes; otherwise those that state the version of the release and continue the cluster stack.
   */
  lemma AdmittedIff(prev: Topology, next: Topology, lookup: Lookup)
    ensures var answer := ValidateUpdate(prev, Some(next), lookup);
      && (answer.warned <==> next.class_ != "" && !Known(next, lookup))
      && (answer.Admitted() <==>
            && next.class_ != ""
            && (Known(next, lookup) ==>
                  lookup(Convert(next.class_)) == Some(next.version) && Continues(FromClass, prev, next, 1)))
  {
    DecideIff(FromClass, prev, next, lookup);
  }

  /** Without a topology, or a class in it, neither a new cluster nor an update is admitted. */
  lemma NoClassNoAdmission(prev: Topology, next: Option<Topology>, lookup: Lookup)
    requires next.None? || next.value.class_ == ""
    ensures !ValidateUpdate(prev, next, lookup).Admitted() && !ValidateUpdate(prev, next, lookup).warned
    ensures !ValidateCreate(next, lookup).Admitted() && !ValidateCreate(next, lookup).warned
  {
    assert NoTopology in IsVersionCorrect(next, lookup).faults || NoClass in IsVersionCorrect(next, lookup).faults;
  }

  /** Exactly which new clusters are admitted: as updates, but without a cluster stack to continue. */
  lemma CreateAdmittedIff(next: Topology, lookup: Lookup)
    ensures var answer := ValidateCreate(Some(next), lookup);
      && (answer.warned <==> next.class_ != "" && !Known(next, lookup))
      && (answer.Admitted() <==>
            next.class_ != "" && (Known(next, lookup) ==> lookup(Convert(next.class_)) == Some(next.version)))
  {
  }

  /** The complaints about two cluster stacks. */
  predicate Complaints(p: ClusterStack, n: ClusterStack, faults: set<Fault>) {
    && (ProviderChanged in faults <==> p.provider != n.provider)
    && (NameChanged in faults <==> p.name != n.name)
    && (MinorChanged in faults <==>
          n.kubernetes.minor != p.kubernetes.minor && n.kubernetes.minor != p.kubernetes.minor + 1)
    && faults <= {ProviderChanged, NameChanged, MinorChanged}
  }

  lemma DecideFaults(parse: string -> Result<ClusterStack>, prev: Topology, next: Topology, lookup: Lookup)
    requires next.class_ != "" && Known(next, lookup) && lookup(Convert(next.class_)) == Some(next.version)
    requires parse(prev.class_).Ok? && parse(next.class_).Ok?
    ensures Complaints(parse(prev.class_).value, parse(next.class_).value,
                       Decide(parse, prev, Some(next), lookup).faults)
  {
    var faults := Differences(parse(prev.class_).value, parse(next.class_).value);
    assert Decide(parse, prev, Some(next), lookup).faults == faults;
  }

  /** Which complaints an update gets whose version is that of its release. */
  lemma FaultsAre(prev: Topology, next: Topology, lookup: Lookup)
    requires next.class_ != "" && Known(next, lookup) && lookup(Convert(next.class_)) == Some(next.version)
    requires FromClass(prev.class_).Ok? && FromClass(next.class_).Ok?
    ensures Complaints(FromClass(prev.class_).value, FromClass(next.class_).value,
                       ValidateUpdate(prev, Some(next), lookup).faults)
  {
    DecideFaults(FromClass, prev, next, lookup);
  }

  lemma NoDifferences(prev: ClusterStack, next: ClusterStack)
    ensures Differences(prev, next) == {} <==> Follows(prev, next, 1)
  {
    assert prev.provider != next.provider ==> ProviderChanged in Differences(prev, next);
    assert prev.name != next.name ==> NameChanged in Differences(prev, next);
    assert next.kubernetes.minor - prev.kubernetes.minor !in {0, 1} ==> MinorChanged in Differences(prev, next);
  }

  /** A history of admitted updates whose release was known each time; releases may come and go in between. */
  ghost predicate AdmittedRun(parse: string -> Result<ClusterStack>, history: seq<Topology>, lookup: nat -> Lookup) {
    forall i: nat | i + 1 < |history| ::
      Known(history[i + 1], lookup(i)) && Decide(parse, history[i], Some(history[i + 1]), lookup(i)).Admitted()
  }

  lemma {:induction false} StepsContinue(parse: string -> Result<ClusterStack>, history: seq<Topology>, i: nat, j: nat)
    requires forall k: nat | k + 1 < |history| :: Continues(parse, history[k], history[k + 1], 1)
    requires i < j < |history|
    ensures Continues(parse, history[i], history[j], j - i)
    decreases j
  {
    var k := j - 1;
    assert Continues(parse, history[k], history[k + 1], 1);
    if i < k {
      StepsContinue(parse, history, i, k);
    }
  }

  lemma RunContinues(parse: string -> Result<ClusterStack>, history: seq<Topology>, lookup: nat -> Lookup, i: nat,
                     j: nat)
    requires AdmittedRun(parse, history, lookup) && i < j < |history|
    ensures Continues(parse, history[i], history[j], j - i)
    ensures lookup(j - 1)(Convert(history[j].class_)) == Some(history[j].version)
  {
    forall k: nat | k + 1 < |history|
      ensures Continues(parse, history[k], history[k + 1], 1)
      ensures lookup(k)(Convert(history[k + 1].class_)) == Some(history[k + 1].version)
    {
      DecideIff(parse, history[k], history[k + 1], lookup(k));
    }
    StepsContinue(parse, history, i, j);
    var k := j - 1;
    assert lookup(k)(Convert(history[k + 1].class_)) == Some(history[k + 1].version);
  }

  /**
   Over any such history the provider and the stack name stay constant, and from any point to any later one the
   Kubernetes minor version does not fall and rises by at most the number of updates between them; and each state names
   the Kubernetes version that its release had when it was admitted.
   */
  lemma ClassesContinue(history: seq<Topology>, lookup: nat -> Lookup, i: nat, j: nat)
    requires AdmittedRun(FromClass, history, lookup) && i < j < |history|
    ensures Continues(FromClass, history[i], history[j], j - i)
    ensures lookup(j - 1)(Convert(history[j].class_)) == Some(history[j].version)
  {
    RunContinues(FromClass, history, lookup, i, j);
  }
}

/**
 Operand versions: which server release a custom resource asks for, which one is installed, and when the two differ
 enough for an upgrade to be scheduled.
 */
module Operands {

  datatype Option<+T> = None | Some(value: T)

  datatype Version = Version(major: nat, minor: nat, patch: nat)

  // A server release known to the operator. Downstream releases are compared by their downstream version.
  datatype Operand = Operand(upstream: Version, downstream: Option<Version>, image: string, cve: bool) {
    function Ref(): Version {
      if downstream.Some? then downstream.value else upstream
    }

    // Comparing a downstream release with one that has no downstream version is a nil dereference in the source; the
    // releases shipped with one operator are all of one kind, so the comparison is taken to be false there.
    predicate EQ(other: Operand) {
      if downstream.Some? then other.downstream == downstream else upstream == other.upstream
    }
  }

  datatype Phase = Pending | Running

  // The operand recorded in the status of the custom resource; no version means it was written by an old operator.
  datatype OperandStatus = OperandStatus(version: Option<Version>, image: string, customImage: bool, phase: Phase)

  type Manager = map<Version, Operand>

  // Every operand is registered under its own reference.
  ghost predicate ValidManager(known: Manager) {
    forall v :: v in known ==> known[v].Ref() == v
  }

  function StatusOf(image: Option<string>, phase: Phase, operand: Operand): OperandStatus {
    OperandStatus(Some(operand.Ref()), if image.Some? then image.value else operand.image, image.Some?, phase)
  }

  predicate UpgradeRequired(installed: OperandStatus, image: Option<string>, requested: Operand, known: Manager) {
    if installed.version.None? then true
    else if installed.version.value !in known then true
    else if installed.phase == Pending then false
    else
      var current := known[installed.version.value];
      if requested.cve && current.upstream == requested.upstream && image.None? && !installed.customImage then false
      else if requested.EQ(current) then
        if image.None? then installed.customImage else image.value != installed.image
      else true
  }

  // Recording the requested operand settles the question: whatever phase it is recorded with, no further upgrade is
  // required until the request changes. Upgrades therefore cannot repeat for ever.
  lemma RecordedOperandIsSettled(image: Option<string>, phase: Phase, requested: Operand, known: Manager)
    requires requested.Ref() in known && known[requested.Ref()] == requested
    ensures !UpgradeRequired(StatusOf(image, phase, requested), image, requested, known)
  {
    var status := StatusOf(image, phase, requested);
    assert known[status.version.value] == requested && requested.EQ(requested);
  }

  // The releases of one operator are all downstream ones, or all upstream ones.
  ghost predicate OneKind(known: Manager) {
    forall u, v :: u in known && v in known ==> (known[u].downstream.Some? <==> known[v].downstream.Some?)
  }

  // Among releases of one kind, equality is equality of the references they are registered under.
  lemma EqualMeansSameReference(known: Manager, u: Version, v: Version)
    requires ValidManager(known) && OneKind(known) && u in known && v in known
    ensures known[u].EQ(known[v]) <==> u == v
  {
    assert known[u].Ref() == u && known[v].Ref() == v;
  }

  // What is asked for is installed: the image requested, if one is, of the very release; otherwise an image of the
  // operator's own, of that release or of one that a new base image alone sets apart.
  predicate Installed(status: OperandStatus, image: Option<string>, requested: Operand, known: Manager) {
    && status.version.Some? && status.version.value in known
    && var current := known[status.version.value];
       match image
       case Some(custom) => status.image == custom && requested.EQ(current)
       case None =>
         && !status.customImage
         && (requested.EQ(current) || (requested.cve && requested.upstream == current.upstream))
  }

  // An upgrade is required exactly when the release installed is not known, or it is running and not what is asked for.
  lemma UpgradeRequiredWhen(status: OperandStatus, image: Option<string>, requested: Operand, known: Manager)
    ensures UpgradeRequired(status, image, requested, known) <==>
              || status.version.None? || status.version.value !in known
              || (status.phase == Running && !Installed(status, image, requested, known))
  {
  }
}

/**
 * The upgrade selection dialog: three selections (repository, technology,
 * target version) that gate which upgrade requests reach the pull-request
 * generator.
 *
 * The dialog's state is a class whose methods are its event handlers; the
 * datatype `Form` and the functions over it say what each handler does, and
 * the lemmas say what the handlers keep true together.
 */
module UpgradeForm {

  /** The request handed to `onStartUpgrade`. */
  datatype Request = Request(repositoryId: string, technology: string, targetVersion: string)

  /** The target versions offered per technology, newest first. */
  function AvailableVersions(technology: string): seq<string>
  {
    if technology == "Java" then ["21", "17", "11", "8"]
    else if technology == "Angular" then ["18", "17", "16", "15"]
    else if technology == "Python" then ["3.12", "3.11", "3.10", "3.9"]
    else []
  }

  /** The technologies the technology selector offers. */
  predicate KnownTechnology(technology: string)
  {
    technology == "Java" || technology == "Angular" || technology == "Python"
  }

  /** Exactly the three known technologies have versions, four each; nothing else has any. */
  lemma AvailableVersionsTable(technology: string)
    ensures KnownTechnology(technology) <==> AvailableVersions(technology) != []
    ensures KnownTechnology(technology) ==> |AvailableVersions(technology)| == 4
    ensures "" !in AvailableVersions(technology)
  {
  }

  /** The dialog's state, and the requests emitted so far, oldest first. */
  datatype Form = Form(repository: string, technology: string, version: string, open: bool, emitted: seq<Request>)

  /** All three selections are made: the start button is enabled. */
  predicate Complete(f: Form)
  {
    f.repository != "" && f.technology != "" && f.version != ""
  }

  /** `handleStartUpgrade`: emit the selections, clear them and close; an incomplete form is left alone. */
  function Start(f: Form): Form
  {
    if Complete(f) then Form("", "", "", false, f.emitted + [Request(f.repository, f.technology, f.version)])
    else f
  }

  /** The technology selector's change handler: the version is cleared with every change. */
  function ChooseTechnology(f: Form, technology: string): Form
  {
    f.(technology := technology, version := "")
  }

  /** A request the generator can receive from this dialog: a repository, a known technology and one of its versions. */
  predicate Offered(r: Request)
  {
    r.repositoryId != "" && KnownTechnology(r.technology) && r.targetVersion in AvailableVersions(r.technology)
  }

  /** The invariant of the dialog: the version belongs to the technology, and every emitted request is offered. */
  predicate Consistent(f: Form)
  {
    && (f.version == "" || f.version in AvailableVersions(f.technology))
    && forall i :: 0 <= i < |f.emitted| ==> Offered(f.emitted[i])
  }

  /** Starting emits one request exactly when the form is complete, and that request carries the three selections. */
  lemma StartEmitsOnlyWhenComplete(f: Form)
    ensures Complete(f) <==> |Start(f).emitted| == |f.emitted| + 1
    ensures !Complete(f) ==> Start(f) == f
    ensures Complete(f) ==> Start(f).emitted[|f.emitted|] == Request(f.repository, f.technology, f.version)
    ensures Start(f).emitted[..|f.emitted|] == f.emitted
  {
  }

  /** After a start, the start button is disabled again: a second start emits nothing. */
  lemma StartOnce(f: Form)
    ensures !Complete(Start(f)) || Start(f) == f
    ensures Start(Start(f)).emitted == Start(f).emitted
  {
  }

  /** Changing the technology always leaves the start button disabled until a version is chosen again. */
  lemma ChooseTechnologyDisablesStart(f: Form, technology: string)
    ensures !Complete(ChooseTechnology(f, technology))
    ensures Start(ChooseTechnology(f, technology)) == ChooseTechnology(f, technology)
  {
  }

  /** Every handler keeps the dialog consistent, so only offered requests ever reach the generator. */
  lemma {:induction false} StartKeepsConsistent(f: Form)
    requires Consistent(f)
    ensures Consistent(Start(f))
  {
    if Complete(f) {
      var r := Request(f.repository, f.technology, f.version);
      assert f.version in AvailableVersions(f.technology);
      assert KnownTechnology(f.technology);
      assert Offered(r);
      var e := Start(f).emitted;
      assert e == f.emitted + [r];
      assert forall i :: 0 <= i < |e| ==> e[i] == if i < |f.emitted| then f.emitted[i] else r;
    }
  }

  lemma ChooseTechnologyKeepsConsistent(f: Form, technology: string)
    requires Consistent(f)
    ensures Consistent(ChooseTechnology(f, technology))
  {
  }

  /**
   * The dialog as React holds it: three `useState` fields, the `open` flag its
   * parent controls through `onOpenChange`, and the requests handed to
   * `onStartUpgrade`.
   */
  class UpgradeSelectionModal {
    var selectedRepository: string
    var selectedTechnology: string
    var selectedVersion: string
    var open: bool
    var emitted: seq<Request>

    function State(): Form
      reads this
    {
      Form(selectedRepository, selectedTechnology, selectedVersion, open, emitted)
    }

    /** Every selection starts empty. */
    constructor (open: bool)
      ensures State() == Form("", "", "", open, [])
      ensures Consistent(State())
    {
      selectedRepository := "";
      selectedTechnology := "";
      selectedVersion := "";
      this.open := open;
      emitted := [];
    }

    /** The repository selector offers the ids of the listed repositories. */
    method SelectRepository(id: string)
      modifies this
      ensures State() == old(State()).(repository := id)
    {
      selectedRepository := id;
    }

    method SelectTechnology(technology: string)
      modifies this
      ensures State() == ChooseTechnology(old(State()), technology)
    {
      selectedTechnology := technology;
      selectedVersion := "";
    }

    /** The version selector offers only the versions of the chosen technology. */
    method SelectVersion(version: string)
      requires version in AvailableVersions(selectedTechnology)
      modifies this
      ensures !old(VersionSelectDisabled())
      ensures State() == old(State()).(version := version)
      ensures old(Consistent(State())) ==> Consistent(State())
    {
      selectedVersion := version;
    }

    method StartUpgrade()
      modifies this
      ensures State() == Start(old(State()))
    {
      if selectedRepository != "" && selectedTechnology != "" && selectedVersion != "" {
        emitted := emitted + [Request(selectedRepository, selectedTechnology, selectedVersion)];
        selectedRepository := "";
        selectedTechnology := "";
        selectedVersion := "";
        open := false;
      }
    }

    /** The cancel button: the dialog closes and keeps its selections. */
    method Cancel()
      modifies this
      ensures State() == old(State()).(open := false)
    {
      open := false;
    }

    /**
     * The `disabled` flag of the version selector: while it is set there is no
     * version to pick, and once a known technology is chosen all four of its
     * versions are offered.
     */
    function VersionSelectDisabled(): (r: bool)
      reads this
      ensures r ==> AvailableVersions(selectedTechnology) == []
      ensures !r && KnownTechnology(selectedTechnology) ==> |AvailableVersions(selectedTechnology)| == 4
    {
      selectedTechnology == ""
    }

    /** The `disabled` flag of the start button. */
    function StartDisabled(): (r: bool)
      reads this
      ensures r <==> !Complete(State())
    {
      selectedRepository == "" || selectedTechnology == "" || selectedVersion == ""
    }
  }
}

/**
 * The `packages` step of the krill installer sequence: it reads the
 * calamares `packages.conf` manifest of the target system, picks a remove
 * list and an install list out of its `operations`, and issues one `chroot`
 * command line per package for the manifest's backend.
 *
 * The emitted command lines are the observable behaviour; the commands are
 * not executed here, so an exec failure is not modelled.  The step's quirks
 * are kept as the code has them: the selection branch on an EMPTY first
 * remove list, `apt-get purge` used for the packages to install, and no
 * branch for a backend other than `apt` and `pacman`.
 */
module Packages {
  import opened Wrappers

  /** One entry of `operations`: a package list under `install`, under `remove`, or neither. */
  datatype Operation = Operation(install: Option<seq<string>>, remove: Option<seq<string>>)

  /** The parsed manifest. */
  datatype Manifest = Manifest(backend: string, operations: seq<Operation>)

  /** One command line handed to exec, with whether its output is echoed. */
  datatype Command = Command(line: string, echo: bool)

  /**
   * What one run of the step does: the commands it issued, in order, or the
   * commands it issued before a TypeError ended it (indexing a missing
   * operation, reading `.length` of an undefined `remove`, or iterating an
   * undefined `install`).
   */
  datatype Outcome = Issued(commands: seq<Command>) | Crashed(before: seq<Command>)

  /** The remove and install lists the step settles on; `install` may be undefined. */
  datatype Selection = Selection(remove: seq<string>, install: Option<seq<string>>)

  /** The two command templates the loops use. */
  datatype Template = AptPurge | PacmanSync

  function ConfigFile(installTarget: string): string {
    installTarget + "/etc/calamares/modules/packages.conf"
  }

  function AptPurgeLine(installTarget: string, pkg: string, toNull: string): string {
    "chroot " + installTarget + " apt-get purge -y " + pkg + " " + toNull
  }

  function AptAutoremoveLine(installTarget: string, toNull: string): string {
    "chroot " + installTarget + " apt-get autoremove -y " + toNull
  }

  function PacmanSyncLine(installTarget: string, pkg: string): string {
    "chroot " + installTarget + " pacman -S " + pkg
  }

  /** The command one loop iteration issues for `pkg`. */
  function PackageCommand(t: Template, installTarget: string, toNull: string, echo: bool, pkg: string): Command {
    match t
    case AptPurge => Command(AptPurgeLine(installTarget, pkg, toNull), echo)
    case PacmanSync => Command(PacmanSyncLine(installTarget, pkg), true)
  }

  /** The commands a `for (const p of pkgs)` loop issues, in list order. */
  function Each(t: Template, installTarget: string, toNull: string, echo: bool, pkgs: seq<string>): (r: seq<Command>)
    decreases |pkgs|
  {
    if pkgs == [] then []
    else Each(t, installTarget, toNull, echo, pkgs[..|pkgs| - 1])
         + [PackageCommand(t, installTarget, toNull, echo, pkgs[|pkgs| - 1])]
  }

  /**
   * List selection from `operations` (packages.ts:26-34).  None stands for the
   * TypeError raised when the entries the branch reads are missing.
   */
  function Select(ops: seq<Operation>): (sel: Option<Selection>)
    ensures sel.Some? <==>
      |ops| > 0 && ops[0].remove.Some? && (ops[0].remove.value == [] ==> |ops| > 1)
    ensures sel.Some? ==> sel.value.remove == []
    ensures sel.Some? ==>
      sel.value.install == if ops[0].remove.value == [] then ops[1].install else ops[0].install
  {
    if |ops| == 0 || ops[0].remove.None? then None
    else if |ops[0].remove.value| == 0 then
      if |ops| < 2 then None else Some(Selection(ops[0].remove.value, ops[1].install))
    else Some(Selection([], ops[0].install))
  }

  /** What the step emits for a manifest that exists and whose lists were selected. */
  function Emit(backend: string, sel: Selection, installTarget: string, toNull: string, echo: bool): Outcome {
    if backend == "apt" then
      var removes := Each(AptPurge, installTarget, toNull, echo, sel.remove);
      if sel.install.None? then Crashed(removes)
      else Issued(removes + Each(AptPurge, installTarget, toNull, echo, sel.install.value)
                  + [Command(AptAutoremoveLine(installTarget, toNull), echo)])
    else if backend == "pacman" then
      var removes := Each(PacmanSync, installTarget, toNull, echo, sel.remove);
      if sel.install.None? then Crashed(removes)
      else Issued(removes + Each(PacmanSync, installTarget, toNull, echo, sel.install.value))
    else Issued([])
  }

  /**
   * The whole step: `files` maps each existing path to the manifest parsed
   * from it.
   */
  function PackagesStep(installTarget: string, toNull: string, echo: bool, files: map<string, Manifest>): Outcome {
    var path := ConfigFile(installTarget);
    if path !in files then Issued([])
    else
      var manifest := files[path];
      match Select(manifest.operations)
      case None => Crashed([])
      case Some(sel) => Emit(manifest.backend, sel, installTarget, toNull, echo)
  }

  /** The fields of the krill `Sequence` that the step reads. */
  class Sequence {
    var installTarget: string
    var toNull: string
    var echo: bool

    constructor (installTarget: string, toNull: string, echo: bool)
      ensures this.installTarget == installTarget && this.toNull == toNull && this.echo == echo
    {
      this.installTarget := installTarget;
      this.toNull := toNull;
      this.echo := echo;
    }

    /**
     * One `for (const p of pkgs)` loop of the step: appends, package by
     * package, the command the template builds (packages.ts:37-42, 46-51).
     */
    method IssueEach(t: Template, pkgs: seq<string>, before: seq<Command>) returns (issued: seq<Command>)
      ensures issued == before + Each(t, installTarget, toNull, echo, pkgs)
    {
      var echoYes := true;
      issued := before;
      var i := 0;
      while i < |pkgs|
        invariant 0 <= i <= |pkgs|
        invariant issued == before + Each(t, installTarget, toNull, echo, pkgs[..i])
      {
        var p := pkgs[i];
        if t == AptPurge {
          issued := issued + [Command("chroot " + installTarget + " apt-get purge -y " + p + " " + toNull, echo)];
        } else {
          issued := issued + [Command("chroot " + installTarget + " pacman -S " + p, echoYes)];
        }
        assert pkgs[..i + 1][..i] == pkgs[..i];
        i := i + 1;
      }
      assert pkgs[..i] == pkgs;
    }

    /** `packages` (packages.ts:19-55): issues the commands one loop iteration at a time. */
    method Packages(files: map<string, Manifest>) returns (out: Outcome)
      ensures out == PackagesStep(installTarget, toNull, echo, files)
    {
      var configFile := installTarget + "/etc/calamares/modules/packages.conf";
      if configFile !in files {
        return Issued([]);
      }
      var packages := files[configFile];
      var operations := packages.operations;
      if |operations| == 0 || operations[0].remove.None? {
        return Crashed([]);
      }
      var packagesToRemove: seq<string> := [];
      var packagesToInstall: Option<seq<string>>;
      if |operations[0].remove.value| == 0 {
        packagesToRemove := operations[0].remove.value;
        if |operations| < 2 {
          return Crashed([]);
        }
        packagesToInstall := operations[1].install;
      } else {
        packagesToInstall := operations[0].install;
      }
      ghost var sel := Selection(packagesToRemove, packagesToInstall);
      assert Select(operations) == Some(sel);

      var issued: seq<Command> := [];
      if packages.backend == "apt" {
        issued := IssueEach(AptPurge, packagesToRemove, issued);
        if packagesToInstall.None? {
          return Crashed(issued);
        }
        issued := IssueEach(AptPurge, packagesToInstall.value, issued);
        issued := issued + [Command("chroot " + installTarget + " apt-get autoremove -y " + toNull, echo)];
      } else if packages.backend == "pacman" {
        issued := IssueEach(PacmanSync, packagesToRemove, issued);
        if packagesToInstall.None? {
          return Crashed(issued);
        }
        issued := IssueEach(PacmanSync, packagesToInstall.value, issued);
      }
      out := Issued(issued);
    }
  }

  /** The loop's commands, one per package, each built from that package. */
  lemma {:induction false} EachAt(t: Template, installTarget: string, toNull: string, echo: bool, pkgs: seq<string>)
    ensures |Each(t, installTarget, toNull, echo, pkgs)| == |pkgs|
    ensures forall k :: 0 <= k < |pkgs| ==>
      Each(t, installTarget, toNull, echo, pkgs)[k] == PackageCommand(t, installTarget, toNull, echo, pkgs[k])
    decreases |pkgs|
  {
    if pkgs != [] {
      var init := pkgs[..|pkgs| - 1];
      EachAt(t, installTarget, toNull, echo, init);
      assert forall k :: 0 <= k < |init| ==> init[k] == pkgs[k];
    }
  }

  /** Without the manifest at `<installTarget>/etc/calamares/modules/packages.conf` nothing is issued. */
  lemma NoManifestNoCommands(installTarget: string, toNull: string, echo: bool, files: map<string, Manifest>)
    requires installTarget + "/etc/calamares/modules/packages.conf" !in files
    ensures PackagesStep(installTarget, toNull, echo, files) == Issued([])
  {
  }

  /**
   * The remove list is always empty, so nothing is ever issued for it; an
   * undefined install list makes `apt` and `pacman` fail on their install
   * loop before any command.
   */
  lemma RemoveListIsEmpty(backend: string, sel: Selection, installTarget: string, toNull: string, echo: bool)
    requires sel.remove == []
    ensures Emit(backend, sel, installTarget, toNull, echo).Crashed? ==>
      Emit(backend, sel, installTarget, toNull, echo).before == []
    ensures (backend == "apt" || backend == "pacman") && sel.install.None? ==>
      Emit(backend, sel, installTarget, toNull, echo) == Crashed([])
  {
  }

  /**
   * A manifest that removes a package first and installs one second takes the
   * `else` branch of the selection and uses the FIRST operation's (undefined)
   * install list, so `apt` fails without issuing any command.
   */
  lemma RemoveThenInstallManifestCrashes(installTarget: string, toNull: string, echo: bool, x: string, y: string)
    ensures var files := map[ConfigFile(installTarget) :=
        Manifest("apt", [Operation(None, Some([x])), Operation(Some([y]), None)])];
      PackagesStep(installTarget, toNull, echo, files) == Crashed([])
  {
  }

  /**
   * For `apt`: one `apt-get purge -y` per package of the install list, in
   * order, echoed as the sequence says, then exactly one
   * `apt-get autoremove -y`.
   */
  lemma AptCommands(installTarget: string, toNull: string, echo: bool, files: map<string, Manifest>)
    requires ConfigFile(installTarget) in files
    requires files[ConfigFile(installTarget)].backend == "apt"
    requires Select(files[ConfigFile(installTarget)].operations).Some?
    requires Select(files[ConfigFile(installTarget)].operations).value.install.Some?
    ensures var pkgs := Select(files[ConfigFile(installTarget)].operations).value.install.value;
      var out := PackagesStep(installTarget, toNull, echo, files);
      out.Issued? && |out.commands| == |pkgs| + 1 &&
      (forall k :: 0 <= k < |pkgs| ==>
        out.commands[k] == Command(AptPurgeLine(installTarget, pkgs[k], toNull), echo)) &&
      out.commands[|pkgs|] == Command(AptAutoremoveLine(installTarget, toNull), echo)
  {
    var sel := Select(files[ConfigFile(installTarget)].operations).value;
    EachAt(AptPurge, installTarget, toNull, echo, sel.install.value);
  }

  /**
   * For `pacman`: exactly one `pacman -S` per package of the install list, in
   * order, always echoed, and nothing else (no autoremove).
   */
  lemma PacmanCommands(installTarget: string, toNull: string, echo: bool, files: map<string, Manifest>)
    requires ConfigFile(installTarget) in files
    requires files[ConfigFile(installTarget)].backend == "pacman"
    requires Select(files[ConfigFile(installTarget)].operations).Some?
    requires Select(files[ConfigFile(installTarget)].operations).value.install.Some?
    ensures var pkgs := Select(files[ConfigFile(installTarget)].operations).value.install.value;
      var out := PackagesStep(installTarget, toNull, echo, files);
      out.Issued? && |out.commands| == |pkgs| &&
      forall k :: 0 <= k < |pkgs| ==>
        out.commands[k] == Command(PacmanSyncLine(installTarget, pkgs[k]), true)
  {
    var sel := Select(files[ConfigFile(installTarget)].operations).value;
    EachAt(PacmanSync, installTarget, toNull, echo, sel.install.value);
  }

  /** Any backend other than `apt` and `pacman` gets no command at all. */
  lemma OtherBackendNoCommands(installTarget: string, toNull: string, echo: bool, files: map<string, Manifest>)
    requires ConfigFile(installTarget) in files
    requires files[ConfigFile(installTarget)].backend != "apt"
    requires files[ConfigFile(installTarget)].backend != "pacman"
    ensures PackagesStep(installTarget, toNull, echo, files) == Issued([]) ||
            PackagesStep(installTarget, toNull, echo, files) == Crashed([])
  {
  }

  /**
   * A first operation with an empty `remove` makes the SECOND operation's
   * `install` list the one installed; a first operation with a non-empty
   * `remove` installs its own `install` list and removes nothing.
   */
  lemma {:induction false} InstallListChoice(rm: seq<string>, first: Option<seq<string>>, second: Option<seq<string>>, rest: seq<Operation>)
    ensures rm == [] ==>
      Select([Operation(first, Some(rm)), Operation(second, None)] + rest) == Some(Selection([], second))
    ensures rm != [] ==>
      Select([Operation(first, Some(rm))] + rest) == Some(Selection([], first))
  {
  }

  /** A pacman manifest installing only `vim` issues exactly one command, for `vim`. */
  lemma PacmanVim(installTarget: string, toNull: string, echo: bool)
    ensures var files := map[ConfigFile(installTarget) :=
        Manifest("pacman", [Operation(None, Some([])), Operation(Some(["vim"]), None)])];
      PackagesStep(installTarget, toNull, echo, files) ==
        Issued([Command("chroot " + installTarget + " pacman -S vim", true)])
  {
    EachAt(PacmanSync, installTarget, toNull, echo, ["vim"]);
    assert "chroot " + installTarget + " pacman -S " + "vim" == "chroot " + installTarget + " pacman -S vim";
  }
}

/**
 * The installer-module sequencer for the Ubuntu focal family: `Focal.create`
 * asks a `Fisherman` to build the calamares settings and then one module
 * configuration after another, in a fixed order, with the custom final steps
 * (CFS) spliced in between `cleanup` and `umount`.
 *
 * What each Fisherman call writes is not part of this model: each call
 * appends one step record to the Fisherman's trace, and the trace is what
 * `Create` produces.  The CFS list is an input of `Create`.
 */
module Focal {
  import opened Wrappers

  /** Which Fisherman call produced a step. */
  datatype Kind =
    | Settings          // createCalamaresSettings(theme, isClone)
    | Module            // buildModule(name, theme?)
    | CalamaresModule   // buildCalamaresModule(name, flag, theme?)
    | Unpackfs          // moduleUnpackfs()
    | Displaymanager    // moduleDisplaymanager()
    | ContextualProcess // contextualprocess(name)
    | ShellProcess      // shellprocess(name)
    | Packages          // modulePackages(distro, release)
    | Removeuser(userOpt: string) // moduleRemoveuser(user_opt); see below

  /**
   * One recorded call: its kind, the module name, its boolean argument
   * (isClone, the calamares-module flag, or release) if it has one, and the
   * theme if passed.  The calamares-module flag is recorded as given: every
   * call passes a literal, and what the Fisherman does with it is not part of
   * this model.  `moduleRemoveuser` is the only call with a string argument
   * other than a name or a theme, so that argument travels with its kind
   * rather than as a field every other step would leave empty.
   */
  datatype Step = Step(kind: Kind, name: string, flag: Option<bool>, theme: Option<string>)

  function ModuleStep(name: string, theme: Option<string>): Step {
    Step(Module, name, None, theme)
  }

  function CalamaresStep(name: string, flag: bool, theme: Option<string>): Step {
    Step(CalamaresModule, name, Some(flag), theme)
  }

  /** The module builder, reduced to the record of the calls made on it. */
  class Fisherman {
    var trace: seq<Step>

    constructor ()
      ensures trace == []
    {
      trace := [];
    }

    method CreateCalamaresSettings(theme: string, isClone: bool)
      modifies this
      ensures trace == old(trace) + [Step(Settings, "settings", Some(isClone), Some(theme))]
    {
      trace := trace + [Step(Settings, "settings", Some(isClone), Some(theme))];
    }

    method BuildModule(name: string, theme: Option<string> := None)
      modifies this
      ensures trace == old(trace) + [ModuleStep(name, theme)]
    {
      trace := trace + [ModuleStep(name, theme)];
    }

    method BuildCalamaresModule(name: string, flag: bool, theme: Option<string> := None)
      modifies this
      ensures trace == old(trace) + [CalamaresStep(name, flag, theme)]
    {
      trace := trace + [CalamaresStep(name, flag, theme)];
    }

    method ModuleUnpackfs()
      modifies this
      ensures trace == old(trace) + [Step(Unpackfs, "unpackfs", None, None)]
    {
      trace := trace + [Step(Unpackfs, "unpackfs", None, None)];
    }

    method ModuleDisplaymanager()
      modifies this
      ensures trace == old(trace) + [Step(Displaymanager, "displaymanager", None, None)]
    {
      trace := trace + [Step(Displaymanager, "displaymanager", None, None)];
    }

    method Contextualprocess(name: string)
      modifies this
      ensures trace == old(trace) + [Step(ContextualProcess, name, None, None)]
    {
      trace := trace + [Step(ContextualProcess, name, None, None)];
    }

    method Shellprocess(name: string)
      modifies this
      ensures trace == old(trace) + [Step(ShellProcess, name, None, None)]
    {
      trace := trace + [Step(ShellProcess, name, None, None)];
    }

    method ModulePackages(release: bool)
      modifies this
      ensures trace == old(trace) + [Step(Packages, "packages", Some(release), None)]
    {
      trace := trace + [Step(Packages, "packages", Some(release), None)];
    }

    method ModuleRemoveuser(userOpt: string)
      modifies this
      ensures trace == old(trace) + [Step(Removeuser(userOpt), "removeuser", None, None)]
    {
      trace := trace + [Step(Removeuser(userOpt), "removeuser", None, None)];
    }
  }

  /** Positions in the trace of the fixed steps the properties below talk about. */
  const WelcomeAt := 1
  const PartitionAt := 2
  const MountAt := 3
  const UnpackfsAt := 4
  const YolkAt := 5
  const PackagesAt := 24
  const RemoveuserAt := 25
  const YolkOffAt := 26
  const YolkUndoAt := 27
  const CleanupAt := 28
  /** Number of fixed steps up to and including `cleanup`. */
  const FixedCount := 29

  /**
   * The 29 calls of create() up to and including `cleanup` (focal.ts:61-90),
   * written as the chain of one-step appends the calls perform.
   */
  function FixedSteps(theme: string, isClone: bool, release: bool, userOpt: string): seq<Step> {
    [Step(Settings, "settings", Some(isClone), Some(theme))]
    + [ModuleStep("welcome", None)]
    + [ModuleStep("partition", Some(theme))]
    + [ModuleStep("mount", None)]
    + [Step(Unpackfs, "unpackfs", None, None)]
    + [CalamaresStep("sources-yolk", true, None)]
    + [ModuleStep("machineid", None)]
    + [ModuleStep("fstab", None)]
    + [ModuleStep("locale", Some(theme))]
    + [ModuleStep("keyboard", None)]
    + [ModuleStep("localecfg", None)]
    + [ModuleStep("luksbootkeyfile", None)]
    + [ModuleStep("users", Some(theme))]
    + [Step(Displaymanager, "displaymanager", None, None)]
    + [ModuleStep("networkcfg", None)]
    + [ModuleStep("hwclock", None)]
    + [Step(ContextualProcess, "before_bootloader_mkdirs", None, None)]
    + [Step(ShellProcess, "bug-LP#1829805", None, None)]
    + [ModuleStep("initramfs", None)]
    + [ModuleStep("grubcfg", None)]
    + [Step(ContextualProcess, "before_bootloader", None, None)]
    + [ModuleStep("bootloader", None)]
    + [Step(ContextualProcess, "after_bootloader", None, None)]
    + [Step(ShellProcess, "add386arch", None, None)]
    + [Step(Packages, "packages", Some(release), None)]
    + [Step(Removeuser(userOpt), "removeuser", None, None)]
    + [CalamaresStep("sources-yolk", false, None)]
    + [CalamaresStep("sources-yolk-undo", false, None)]
    + [CalamaresStep("cleanup", true, None)]
  }

  /** The custom final steps, each a calamares module with flag true and the theme (focal.ts:97-101). */
  function CfsSteps(cfs: seq<string>, theme: string): seq<Step>
    decreases |cfs|
  {
    if cfs == [] then []
    else CfsSteps(cfs[..|cfs| - 1], theme) + [CalamaresStep(cfs[|cfs| - 1], true, Some(theme))]
  }

  /** The whole trace of create() for these fields and CFS list. */
  function CreateTrace(theme: string, isClone: bool, release: bool, userOpt: string, cfs: seq<string>): seq<Step> {
    FixedSteps(theme, isClone, release, userOpt) + CfsSteps(cfs, theme)
    + [ModuleStep("umount", None)] + [ModuleStep("finished", None)]
  }

  /**
   * The focal sequencer.  The installer, remix and distro descriptions are
   * passed through unchanged; the model keeps them as opaque values.
   */
  class Focal<Installer, Remix, Distro> {
    var distro: Distro
    var installer: Installer
    var isClone: bool
    var release: bool
    var remix: Remix
    var theme: string  // includes the path
    var userOpt: string
    var verbose: bool

    /** Stores every argument unchanged; the optional ones default as in the source. */
    constructor (installer: Installer, remix: Remix, distro: Distro, userOpt: string,
                 release: bool := false, theme: string := "eggs", isClone: bool := false, verbose: bool := false)
      ensures this.installer == installer && this.remix == remix && this.distro == distro
      ensures this.userOpt == userOpt && this.verbose == verbose && this.release == release
      ensures this.theme == theme && this.isClone == isClone
    {
      this.installer := installer;
      this.remix := remix;
      this.distro := distro;
      this.userOpt := userOpt;
      this.verbose := verbose;
      this.release := release;
      this.theme := theme;
      this.isClone := isClone;
    }

    /**
     * The CFS block of create() (focal.ts:95-101): when there are steps, each
     * is built as a calamares module with flag true and the theme, in order.
     */
    method BuildCustomFinalSteps(fisherman: Fisherman, steps: seq<string>, theme: string)
      modifies fisherman
      ensures fisherman.trace == old(fisherman.trace) + CfsSteps(steps, theme)
    {
      ghost var before := fisherman.trace;
      if |steps| > 0 {
        var i := 0;
        while i < |steps|
          invariant 0 <= i <= |steps|
          invariant fisherman.trace == before + CfsSteps(steps[..i], theme)
        {
          fisherman.BuildCalamaresModule(steps[i], true, Some(theme));
          assert steps[..i + 1][..i] == steps[..i];
          i := i + 1;
        }
        assert steps[..i] == steps;
      }
    }

    /** create(): the calls in order; `cfs` is what `CFS.steps()` returned. */
    method Create(cfs: seq<string>) returns (trace: seq<Step>)
      ensures trace == CreateTrace(theme, isClone, release, userOpt, cfs)
    {
      var theme, isClone, release, userOpt := this.theme, this.isClone, this.release, this.userOpt;
      var fisherman := new Fisherman();

      fisherman.CreateCalamaresSettings(theme, isClone);
      assert fisherman.trace == [Step(Settings, "settings", Some(isClone), Some(theme))];

      fisherman.BuildModule("welcome");
      fisherman.BuildModule("partition", Some(theme));
      fisherman.BuildModule("mount");
      fisherman.ModuleUnpackfs();
      fisherman.BuildCalamaresModule("sources-yolk", true);
      fisherman.BuildModule("machineid");
      fisherman.BuildModule("fstab");
      fisherman.BuildModule("locale", Some(theme));
      fisherman.BuildModule("keyboard");
      fisherman.BuildModule("localecfg");
      fisherman.BuildModule("luksbootkeyfile");
      fisherman.BuildModule("users", Some(theme));
      fisherman.ModuleDisplaymanager();
      fisherman.BuildModule("networkcfg");
      fisherman.BuildModule("hwclock");
      fisherman.Contextualprocess("before_bootloader_mkdirs");
      fisherman.Shellprocess("bug-LP#1829805");
      fisherman.BuildModule("initramfs");
      fisherman.BuildModule("grubcfg");
      fisherman.Contextualprocess("before_bootloader");
      fisherman.BuildModule("bootloader");
      fisherman.Contextualprocess("after_bootloader");
      fisherman.Shellprocess("add386arch");
      fisherman.ModulePackages(release);
      fisherman.ModuleRemoveuser(userOpt);
      fisherman.BuildCalamaresModule("sources-yolk", false);
      fisherman.BuildCalamaresModule("sources-yolk-undo", false);
      fisherman.BuildCalamaresModule("cleanup", true);

      assert fisherman.trace == FixedSteps(theme, isClone, release, userOpt);

      // cfs: custom final steps
      BuildCustomFinalSteps(fisherman, cfs, theme);

      fisherman.BuildModule("umount");
      fisherman.BuildModule("finished");
      trace := fisherman.trace;
    }
  }

  /** The CFS part has one step per supplied name, in the supplied order. */
  lemma {:induction false} CfsStepsAt(cfs: seq<string>, theme: string)
    ensures |CfsSteps(cfs, theme)| == |cfs|
    ensures forall k :: 0 <= k < |cfs| ==> CfsSteps(cfs, theme)[k] == CalamaresStep(cfs[k], true, Some(theme))
    decreases |cfs|
  {
    if cfs != [] {
      var init := cfs[..|cfs| - 1];
      CfsStepsAt(init, theme);
      assert forall k :: 0 <= k < |init| ==> init[k] == cfs[k];
    }
  }

  /**
   * The trace has 31 steps plus one per CFS name; it starts with the
   * calamares settings for the theme and clone flag and ends with `umount`
   * followed by `finished`.
   */
  lemma TraceShape(theme: string, isClone: bool, release: bool, userOpt: string, cfs: seq<string>)
    ensures var t := CreateTrace(theme, isClone, release, userOpt, cfs);
      |t| == 31 + |cfs| &&
      t[0] == Step(Settings, "settings", Some(isClone), Some(theme)) &&
      t[|t| - 2] == ModuleStep("umount", None) &&
      t[|t| - 1] == ModuleStep("finished", None)
  {
    CfsStepsAt(cfs, theme);
  }

  /** `mount` comes right before `unpackfs`, and both after `welcome` and `partition`. */
  lemma MountThenUnpackfs(theme: string, isClone: bool, release: bool, userOpt: string, cfs: seq<string>)
    ensures var t := CreateTrace(theme, isClone, release, userOpt, cfs);
      WelcomeAt < PartitionAt < MountAt && UnpackfsAt == MountAt + 1 &&
      t[WelcomeAt].name == "welcome" && t[PartitionAt].name == "partition" &&
      t[MountAt] == ModuleStep("mount", None) && t[UnpackfsAt].kind == Unpackfs
  {
  }

  /**
   * `sources-yolk` (true) precedes `packages` and `removeuser`, which precede
   * `sources-yolk` (false), `sources-yolk-undo` (false) and `cleanup` (true),
   * in that order and after every fixed step between them.
   */
  lemma YolkBracketsPackages(theme: string, isClone: bool, release: bool, userOpt: string, cfs: seq<string>)
    ensures var t := CreateTrace(theme, isClone, release, userOpt, cfs);
      YolkAt < PackagesAt < RemoveuserAt < YolkOffAt < YolkUndoAt < CleanupAt &&
      t[YolkAt] == CalamaresStep("sources-yolk", true, None) &&
      t[PackagesAt] == Step(Packages, "packages", Some(release), None) &&
      t[RemoveuserAt] == Step(Removeuser(userOpt), "removeuser", None, None) &&
      t[YolkOffAt] == CalamaresStep("sources-yolk", false, None) &&
      t[YolkUndoAt] == CalamaresStep("sources-yolk-undo", false, None) &&
      t[CleanupAt] == CalamaresStep("cleanup", true, None) &&
      RemoveuserAt == PackagesAt + 1 && YolkOffAt == RemoveuserAt + 1 &&
      YolkUndoAt == YolkOffAt + 1 && CleanupAt == YolkUndoAt + 1
  {
  }

  /**
   * The CFS steps sit, in the supplied order, strictly between `cleanup` and
   * `umount`: right after `cleanup`, with `umount` right after the last one.
   */
  lemma CfsSpliced(theme: string, isClone: bool, release: bool, userOpt: string, cfs: seq<string>)
    ensures var t := CreateTrace(theme, isClone, release, userOpt, cfs);
      |t| == FixedCount + |cfs| + 2 &&
      t[FixedCount - 1] == CalamaresStep("cleanup", true, None) &&
      (forall k :: 0 <= k < |cfs| ==> t[FixedCount + k] == CalamaresStep(cfs[k], true, Some(theme))) &&
      t[FixedCount + |cfs|] == ModuleStep("umount", None)
  {
    CfsStepsAt(cfs, theme);
    var t := CreateTrace(theme, isClone, release, userOpt, cfs);
    forall k | 0 <= k < |cfs|
      ensures t[FixedCount + k] == CalamaresStep(cfs[k], true, Some(theme))
    {
      assert t[FixedCount + k] == CfsSteps(cfs, theme)[k];
    }
  }

  /** With no custom final steps, `cleanup` is immediately followed by `umount`. */
  lemma EmptyCfsCleanupThenUmount(theme: string, isClone: bool, release: bool, userOpt: string)
    ensures var t := CreateTrace(theme, isClone, release, userOpt, []);
      |t| == 31 && t[CleanupAt] == CalamaresStep("cleanup", true, None) &&
      t[CleanupAt + 1] == ModuleStep("umount", None)
  {
  }

  /** The theme rule on one step: only partition, locale and users modules carry the theme. */
  predicate ThemeRule(s: Step, theme: string) {
    s.kind == Module ==>
      (s.theme.Some? <==> s.name in {"partition", "locale", "users"}) &&
      (s.theme.Some? ==> s.theme.value == theme)
  }

  lemma FixedThemeRuleLow(theme: string, isClone: bool, release: bool, userOpt: string)
    ensures forall i :: 0 <= i < 10 ==> ThemeRule(FixedSteps(theme, isClone, release, userOpt)[i], theme)
  {
  }

  lemma FixedThemeRuleMid(theme: string, isClone: bool, release: bool, userOpt: string)
    ensures forall i :: 10 <= i < 20 ==> ThemeRule(FixedSteps(theme, isClone, release, userOpt)[i], theme)
  {
  }

  lemma FixedThemeRuleHigh(theme: string, isClone: bool, release: bool, userOpt: string)
    ensures forall i :: 20 <= i < FixedCount ==> ThemeRule(FixedSteps(theme, isClone, release, userOpt)[i], theme)
  {
  }

  /**
   * Of the `buildModule` steps, exactly `partition`, `locale` and `users`
   * receive the theme (the create's own theme), whatever the CFS list.
   */
  lemma ThemedModules(theme: string, isClone: bool, release: bool, userOpt: string, cfs: seq<string>)
    ensures var t := CreateTrace(theme, isClone, release, userOpt, cfs);
      forall i :: 0 <= i < |t| ==> ThemeRule(t[i], theme)
  {
    var fixed := FixedSteps(theme, isClone, release, userOpt);
    var custom := CfsSteps(cfs, theme);
    FixedThemeRuleLow(theme, isClone, release, userOpt);
    FixedThemeRuleMid(theme, isClone, release, userOpt);
    FixedThemeRuleHigh(theme, isClone, release, userOpt);
    CfsStepsAt(cfs, theme);
    var t := CreateTrace(theme, isClone, release, userOpt, cfs);
    assert |fixed| == FixedCount;
    forall i | 0 <= i < |t|
      ensures ThemeRule(t[i], theme)
    {
      if i < FixedCount {
        assert t[i] == fixed[i];
      } else if i < FixedCount + |cfs| {
        assert t[i] == custom[i - FixedCount];
      }
    }
  }

  /**
   * A Focal given only its required arguments (focal.ts:44-53) is no
   * release, no clone and uses the `eggs` theme, so its create() (focal.ts:58-105)
   * gives the settings step `isClone` false and the packages step `release` false.
   */
  method CreateWithDefaults<Installer, Remix, Distro>(installer: Installer, remix: Remix, distro: Distro,
                                                      userOpt: string, cfs: seq<string>) returns (trace: seq<Step>)
    ensures trace == CreateTrace("eggs", false, false, userOpt, cfs)
    ensures trace[0] == Step(Settings, "settings", Some(false), Some("eggs"))
    ensures trace[PackagesAt] == Step(Packages, "packages", Some(false), None)
  {
    var focal := new Focal(installer, remix, distro, userOpt);
    trace := focal.Create(cfs);
  }
}

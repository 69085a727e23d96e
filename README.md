# penguins-eggs: produce flags, focal sequencer, krill packages step

This project is a Dafny model of three pieces of penguins-eggs, the tool that
turns a running Linux system into a bootable live image ("egg") and installs it
again with calamares or with its own installer, krill.

- **`eggs produce` flag composition** (`produce.dfy`, module `Produce`). This is
  how `Produce.run` turns the command-line flags into the configuration it hands
  to the image builder (`Ovary`). It covers:
  - add-on normalisation, the add-on directory check and the theme override;
  - the desktop-link filter;
  - the five exclude toggles;
  - prefix and basename;
  - compression precedence;
  - the derived `unsecure` flag;
  - the theme path rules and the theme check;
  - the four known add-on keys.

  It also models where the run stops with `process.exit()`, and the size
  validator `isValidSize`. `Run` is an imperative method with the source's
  loops and branches. It is proved equal to the function `ProduceOutcome`, and
  the lemmas state the flag rules about that function.
- **The focal installer sequencer** (`focal.dfy`, module `Focal`). It models the
  `Focal` class (constructor defaults and `create`) and a `Fisherman` class that
  records each module-building call as one step of a trace. `Create` is proved
  to produce the trace `CreateTrace`. The lemmas state the ordering facts:
  - where mount, unpackfs and the `sources-yolk` pair sit;
  - where the custom final steps (CFS) are spliced in;
  - which modules receive the theme;
  - the trace length.
- **The krill `packages` step** (`packages.dfy`, module `Packages`). It reads the
  `packages.conf` manifest, picks the lists and issues one `chroot` command line
  per package. The `Sequence` class's `Packages` method builds the commands in
  loops. It is proved equal to the function `PackagesStep`. The code's quirks are
  kept as written:
  - the selection branch taken on an empty first `remove` list;
  - `apt-get purge` used for the packages to install;
  - no commands for a backend other than `apt` and `pacman`.

`wrappers.dfy` holds the `Option` and `Result` types.

The machine is passed to the model as an input, not simulated. `Produce.Host`
holds:
- the set of paths that exist;
- `path.resolve` as a function;
- the command's own directory;
- the primary user.

The root check and the answer of `ovary.fertilization` are boolean inputs of
`Run`. The packages step gets the parsed manifest of every existing file as a
map. The CFS list is an input of `Create`.

Some facts about the code that its flag descriptions or names do not suggest:
- **Compression.** Compression depends only on `--max` and `--standard`
  (produce.ts:153-158), although the `--release` flag's description says
  "max compression" (produce.ts:51). `release` is passed on unchanged.
- **Add-ons.** Every add-on is checked only for its directory
  (produce.ts:78-83). A name other than `adapt`, `ichoice`, `pve` and
  `rsupport`, the four the `--addons` description lists (produce.ts:40), sets no
  key (produce.ts:206-223).
- **Excludes.** The `--excludes` description offers `custom` (produce.ts:44),
  which is not one of the five names the code looks for (produce.ts:119-135), so
  it sets nothing.
- **Clone flags.** `clone` and `cryptedclone` are two independent booleans, both
  passed on as given (produce.ts:162-164, 229).
- **Default theme.** The default theme `eggs` is not checked for a `theme`
  sub-path. Only a theme given by `--theme`, or set by a `theme` add-on, is
  checked (produce.ts:182-199).
- **Packages step.** The remove list is always empty after selection
  (packages.ts:29-34), so the remove loops (packages.ts:37-39, 46-48) never
  issue a command. A manifest that removes first and installs second takes the
  `else` branch and reads the first operation's install list, which is
  undefined.
- **Step failures.** `create` awaits each call in order (focal.ts:61-104) and
  handles no failure of its own.

## Model

| member | source | states |
|---|---|---|
| Produce.SlashIndex | src/commands/produce.ts:85-86 | `addon.search('/')`: a value from -1 to below the length; when not -1, the character there is `/` |
| Produce.SlashIndexFirst | src/commands/produce.ts:85-86 | the index is -1 exactly when the string has no `/`, and no `/` comes before the index otherwise |
| Produce.DoubleSlashAt | src/commands/produce.ts:74 | `addon.includes('//')` holds exactly when two adjacent characters are slashes (both directions) |
| Produce.DoubleSlashNameHasSlash | src/commands/produce.ts:74-86 | an add-on given with `//` keeps a `/` in the text after its first `/`, so its name is never `theme` |
| Produce.EggsPrefixSplit | src/commands/produce.ts:74-86 | `eggs/` + name splits into vendor `eggs` and exactly that name |
| Produce.ThemeAddonIsBareTheme | src/commands/produce.ts:74-89 | after normalisation, the name part is `theme` exactly when the add-on was given as bare `theme`; its vendor is then `eggs` |
| Produce.CheckAddons | src/commands/produce.ts:72-90 | the add-on loop returns the first missing add-on (normalised) as an error, else the theme flag as the overrides leave it; equal to `ScanAddons` |
| Produce.MissingStops | src/commands/produce.ts:79-83 | once an add-on of a prefix is missing, the whole list fails at that same add-on (the loop exits there) |
| Produce.MissingIffSomeMissing | src/commands/produce.ts:72-83 | the add-on check fails exactly when some add-on's normalised directory does not exist (both directions) |
| Produce.MissingIsFirst | src/commands/produce.ts:72-83 | the reported add-on is the normalised form of the first one whose directory is missing |
| Produce.ThemeOverrideRule | src/commands/produce.ts:72-89 | after the loop the theme flag is `Some("eggs")` if some add-on is `theme`, and the given `--theme` otherwise |
| Produce.CheckLinks | src/commands/produce.ts:94-104 | the link loop keeps the links whose desktop file exists, equal to `KeptLinks` |
| Produce.KeptLinksMembers | src/commands/produce.ts:94-104 | a link is kept exactly when it was requested and `/usr/share/applications/<link>.desktop` exists |
| Produce.KeptLinksAppend | src/commands/produce.ts:97-103 | filtering respects concatenation, so kept links stay in their requested order |
| Produce.KeptLinksAllPresent | src/commands/produce.ts:94-104 | when every desktop file exists, all links are kept unchanged |
| Produce.CheckExcludes | src/commands/produce.ts:111-138 | the five exclude toggles, equal to `ExcludesOf` |
| Produce.ExcludesExact | src/commands/produce.ts:111-138 | a region is excluded exactly when its name is in `--excludes` (none by default); an extra unknown name changes nothing |
| Produce.CheckAddonKeys | src/commands/produce.ts:206-223 | the add-on key branches, equal to `AddonsOf` |
| Produce.AddonKeysExact | src/commands/produce.ts:206-223 | `adapt`, `ichoice`, `pve`, `rsupport` are set exactly when that raw name is in `--addons`; no other key exists |
| Produce.CompressionPrecedence | src/commands/produce.ts:153-158 | compression is `max` exactly when `--max`, `standard` exactly when `--standard` without `--max`, else `fast` |
| Produce.ThemeArgRules | src/commands/produce.ts:184-192 | a theme with `/` loses exactly one trailing `/` (or none if it has none); any other theme is put under `/home/<user>/.wardrobe/vendors/` |
| Produce.CheckTheme | src/commands/produce.ts:183-199 | the theme block resolves the theme path and fails when `<theme>/theme` is missing, equal to `ResolveTheme` |
| Produce.Run | src/commands/produce.ts:60-235 | the whole of `run`, step by step, equals `ProduceOutcome`: not root, aborted with the reason, or the resolved configuration |
| Produce.ResolvedConfig | src/commands/produce.ts:140-177 | a completed run was root and hands on: `unsecure` exactly when `--unsecure`, `--clone` or `--cryptedclone`; the kept links, exclude set, add-on keys, compression, prefix and basename as the rules above give them; production follows `fertilization` |
| Produce.MissingAddonAborts | src/commands/produce.ts:72-83 | a missing add-on directory ends the run with `AddonNotFound` before any theme or build step; the first missing add-on is the one named |
| Produce.ResolvedTheme | src/commands/produce.ts:182-199 | a completed run uses `eggs` when neither `--theme` nor a `theme` add-on was given, otherwise the resolved theme path, whose `theme` sub-path exists |
| Produce.MissingThemeAborts | src/commands/produce.ts:194-198 | a requested theme whose `theme` sub-path is missing ends the run with `ThemeNotFound` |
| Produce.IsValidSize | src/commands/produce.ts:238-242 | true exactly when the input is one or more decimal digits followed by nothing, `G` or `M` |
| Produce.ValidSizeExamples | src/commands/produce.ts:238-242 | `4G`, `512M`, `20` are valid; the empty string, `G`, `4GB`, `4g` and `4 G` are not |
| Focal.Fisherman.constructor | src/classes/incubation/distros/focal.ts:59 | a new Fisherman has recorded nothing |
| Focal.Fisherman.CreateCalamaresSettings | src/classes/incubation/distros/focal.ts:61 | appends the settings step with the theme and the clone flag |
| Focal.Fisherman.BuildModule | src/classes/incubation/distros/focal.ts:63-65 | appends one module step with its name and optional theme |
| Focal.Fisherman.BuildCalamaresModule | src/classes/incubation/distros/focal.ts:67 | appends one calamares-module step with its name, its boolean argument as given, and optional theme |
| Focal.Fisherman.ModuleUnpackfs | src/classes/incubation/distros/focal.ts:66 | appends the unpackfs step |
| Focal.Fisherman.ModuleDisplaymanager | src/classes/incubation/distros/focal.ts:75 | appends the displaymanager step |
| Focal.Fisherman.Contextualprocess | src/classes/incubation/distros/focal.ts:78 | appends a contextual-process step with its name |
| Focal.Fisherman.Shellprocess | src/classes/incubation/distros/focal.ts:79 | appends a shell-process step with its name |
| Focal.Fisherman.ModulePackages | src/classes/incubation/distros/focal.ts:86 | appends the packages step with the release flag |
| Focal.Fisherman.ModuleRemoveuser | src/classes/incubation/distros/focal.ts:87 | appends the removeuser step with the user option |
| Focal.Focal.constructor | src/classes/incubation/distros/focal.ts:44-53 | stores every argument unchanged; release, theme, isClone and verbose default to false, `eggs`, false, false |
| Focal.CreateWithDefaults | src/classes/incubation/distros/focal.ts:44-53 | a Focal built from the required arguments alone creates the trace for theme `eggs`, no clone and no release: the settings step gets false and `eggs`, the packages step false |
| Focal.Focal.BuildCustomFinalSteps | src/classes/incubation/distros/focal.ts:95-101 | appends one calamares-module step per CFS name, in order, each with flag true and the theme |
| Focal.Focal.Create | src/classes/incubation/distros/focal.ts:58-105 | the Fisherman's trace after `create` is exactly `CreateTrace` of the object's fields and the CFS list |
| Focal.CfsStepsAt | src/classes/incubation/distros/focal.ts:97-101 | the CFS part has one step per name, the k-th built from the k-th name |
| Focal.TraceShape | src/classes/incubation/distros/focal.ts:61-104 | the trace has 31 steps plus one per CFS name, starts with the settings step and ends with `umount` then `finished` |
| Focal.MountThenUnpackfs | src/classes/incubation/distros/focal.ts:63-66 | `mount` is immediately before `unpackfs`, and both come after `welcome` and `partition` |
| Focal.YolkBracketsPackages | src/classes/incubation/distros/focal.ts:67-90 | `sources-yolk` (true) precedes `packages` and `removeuser`, which are followed directly by `sources-yolk` (false), `sources-yolk-undo` (false) and `cleanup` (true) |
| Focal.CfsSpliced | src/classes/incubation/distros/focal.ts:90-103 | the CFS steps sit in their supplied order right after `cleanup`, with `umount` right after the last |
| Focal.EmptyCfsCleanupThenUmount | src/classes/incubation/distros/focal.ts:90-103 | with no CFS, the trace has 31 steps and `cleanup` is directly followed by `umount` |
| Focal.FixedThemeRuleLow | src/classes/incubation/distros/focal.ts:61-71 | the first ten fixed steps obey the theme rule |
| Focal.FixedThemeRuleMid | src/classes/incubation/distros/focal.ts:72-81 | the next ten fixed steps obey the theme rule |
| Focal.FixedThemeRuleHigh | src/classes/incubation/distros/focal.ts:82-90 | the remaining fixed steps obey the theme rule |
| Focal.ThemedModules | src/classes/incubation/distros/focal.ts:61-104 | of all module steps, exactly `partition`, `locale` and `users` carry a theme, and it is the object's theme |
| Packages.Select | src/krill/modules/packages.ts:26-34 | the lists are read: (1) it has no TypeError exactly when `operations[0].remove` exists, and `operations[1]` too when that list is empty; (2) the remove list is always empty; (3) the install list is `operations[1].install` when the first remove list is empty, else `operations[0].install` |
| Packages.InstallListChoice | src/krill/modules/packages.ts:29-34 | an empty first `remove` selects the second operation's install list; a non-empty one selects the first operation's own and removes nothing |
| Packages.EachAt | src/krill/modules/packages.ts:37-51 | a package loop issues one command per package, the k-th built from the k-th package |
| Packages.Sequence.constructor | src/krill/modules/packages.ts:38-43 | the sequence holds the target root, the output redirection and the echo setting the command lines use |
| Packages.Sequence.IssueEach | src/krill/modules/packages.ts:37-51 | one package loop appends its commands, in order, to those already issued |
| Packages.Sequence.Packages | src/krill/modules/packages.ts:19-55 | the whole step, loop by loop, equals `PackagesStep` |
| Packages.NoManifestNoCommands | src/krill/modules/packages.ts:21-22 | with no `<installTarget>/etc/calamares/modules/packages.conf`, nothing is issued |
| Packages.RemoveListIsEmpty | src/krill/modules/packages.ts:26-51 | the remove loops issue nothing, so a failure issues no command; with `apt` or `pacman`, an undefined install list fails on its install loop before any command |
| Packages.RemoveThenInstallManifestCrashes | src/krill/modules/packages.ts:29-43 | an `apt` manifest `[{remove: [x]}, {install: [y]}]` takes the `else` branch, reads the first operation's undefined install list and fails with no command issued |
| Packages.AptCommands | src/krill/modules/packages.ts:36-43 | for `apt`: one `chroot T apt-get purge -y P N` per install package, in order, with the sequence's echo, then exactly one `apt-get autoremove -y` |
| Packages.PacmanCommands | src/krill/modules/packages.ts:45-51 | for `pacman`: exactly one `chroot T pacman -S P` per install package, in order, always echoed, and nothing else |
| Packages.OtherBackendNoCommands | src/krill/modules/packages.ts:36-52 | any other backend issues no command |
| Packages.PacmanVim | src/krill/modules/packages.ts:45-51 | a pacman manifest installing only `vim` issues exactly `chroot T pacman -S vim`, echoed |

## Left out

- `Utils.isRoot` and `Utils.useRoot` (produce.ts:64, 232-234) are not modelled; the root check is a boolean input, and the non-root outcome prints nothing.
- `Compressors.populate` and the compressor strings are not modelled; the model records only which profile (`fast`, `standard`, `max`) is picked.
- `Config.thatWeNeed`, `Config.install` and the `customConfirm` prompt (produce.ts:201-204) are left out: they install prerequisites and do not change the configuration.
- `Ovary.fertilization`, `Ovary.produce` and `Ovary.finished` (produce.ts:226-231) are external. The fertilization answer is an input, and `Resolved` records whether production follows.
- `Utils.titles`, `Utils.warning` and `console.log` output are not modelled.
- `fs.existsSync`, `path.resolve`, `__dirname` and `Utils.getPrimaryUser` are not implemented; they come in through the `Host` input.
- `DesktopFile` and `AddonDir` build the checked paths, and `path.resolve` is applied only where the code applies it (add-on directories and the theme).
- `Produce.Run` does not mutate `flags.theme` in place (produce.ts:88); a local theme flag carries the override, which gives the same later reads.
- The loops and branches of `run` are split into helper methods (`CheckAddons`, `CheckLinks`, `CheckExcludes`, `CheckTheme`, `CheckAddonKeys`). `create`'s CFS loop is likewise moved into `BuildCustomFinalSteps`. The split keeps each proof small and does not change the order of effects.
- JavaScript `undefined` for a boolean flag is treated as false, and an absent string or list flag as `None`.
- `process.exit()` is modelled as the `Abort` outcome. The warnings printed before it are not modelled.
- What each Fisherman call writes, the distro and installer descriptions it passes on, and `verbose` are not part of this model. A call is one recorded step.
- The boolean argument of `buildCalamaresModule` is recorded as given. Its meaning lies in the Fisherman, which is not part of this model. It is unrelated to `this.release`.
- `CFS.steps` is not part of this model; the CFS list is an input of `Create`.
- Command execution, chroot semantics and exec failure or rejection are left out. A command is a line plus its echo setting, and the step's outcome is the list of lines issued.
- YAML parsing is not modelled; the manifest arrives parsed. A manifest without an `operations` list is treated like an empty one, which stops the step before any command.
- The TypeErrors `packages` can raise are modelled as `Crashed` with the commands issued before them. They arise from a missing `operations[0]` or `operations[1]`, an undefined `remove`, or an undefined `install`.
- `addon.includes('//')` is modelled as written. An add-on such as `vendor/theme` with a single slash therefore becomes `eggs/vendor/theme` and does not override the theme. This is kept as the code behaves, and `ThemeAddonIsBareTheme` states it.
- src/classes/families/fedora.ts is not part of this model: its results depend entirely on `dnf` and exec output.
- src/classes/tools.ts is not part of this model: it only loads YAML and depends on settings that are not shown.
- src/lib/select_filesystem_type.ts is not part of this model: it is an interactive prompt.
- src/interfaces/i-analyze.ts is not part of this model: it holds data with no behaviour.

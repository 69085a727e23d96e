/**
 * Flag composition of `eggs produce`: how `Produce.run` turns the parsed
 * command-line flags into the configuration it hands to the image builder
 * (prefix, basename, theme, compression, clone modes, add-ons, desktop links,
 * excluded regions, unsecure), and where it terminates instead; plus the
 * size validator `isValidSize`.
 *
 * The filesystem, `path.resolve`, the primary-user lookup, the root check and
 * the builder's own `fertilization` answer are inputs to the model.
 */
module Produce {
  import opened Wrappers

  /** The flags of `eggs produce`: an absent string flag is None, an absent boolean flag false. */
  datatype Flags = Flags(
    addons: Option<seq<string>>,
    basename: Option<string>,
    clone: bool,
    cryptedclone: bool,
    excludes: Option<seq<string>>,
    links: Option<seq<string>>,
    max: bool,
    noicons: bool,
    nointeractive: bool,
    prefix: Option<string>,
    release: bool,
    script: bool,
    standard: bool,
    theme: Option<string>,
    unsecure: bool,
    verbose: bool,
    yolk: bool)

  /** What the run can observe of the machine it runs on. */
  datatype Host = Host(
    existing: set<string>,      // the paths `fs.existsSync` reports as present
    resolve: string -> string,  // `path.resolve`
    moduleDir: string,          // the directory of the compiled command (`__dirname`)
    primaryUser: string)        // what `Utils.getPrimaryUser()` returns

  /** The regions of IExcludes; a region is in the set exactly when its field is true. */
  datatype Region = Static | Home | Mine | Usr | Var

  /** The keys of IAddons; a key is in the set exactly when it was set to true. */
  datatype AddonKey = Adapt | Ichoice | Pve | Rsupport

  /** Which of the `Compressors` profiles was picked. */
  datatype Compression = Fast | Standard | Max

  /** Everything `run` passes on to `Ovary.fertilization` and `Ovary.produce`. */
  datatype BuildConfig = BuildConfig(
    prefix: string,
    basename: string,
    theme: string,
    compression: Compression,
    clone: bool,
    cryptedclone: bool,
    scriptOnly: bool,
    yolkRenew: bool,
    release: bool,
    myAddons: set<AddonKey>,
    myLinks: seq<string>,
    excludes: set<Region>,
    nointeractive: bool,
    noicons: bool,
    unsecure: bool,
    verbose: bool)

  /** Why the run called `process.exit()`. */
  datatype Reason = AddonNotFound(addon: string) | ThemeNotFound(theme: string)

  /**
   * How `run` ends: not root (it only prints how to use root), terminated,
   * or with a resolved configuration; `produced` tells whether the builder
   * went on to produce (it does when `fertilization` answers true).
   */
  datatype Outcome = NotRoot | Abort(reason: Reason) | Resolved(config: BuildConfig, produced: bool)

  function RegionName(r: Region): string {
    match r
    case Static => "static"
    case Home => "home"
    case Mine => "mine"
    case Usr => "usr"
    case Var => "var"
  }

  function AddonKeyName(k: AddonKey): string {
    match k
    case Adapt => "adapt"
    case Ichoice => "ichoice"
    case Pve => "pve"
    case Rsupport => "rsupport"
  }

  // ---------------------------------------------------------------- strings

  /** `s.includes('//')`. */
  predicate HasDoubleSlash(s: string)
    decreases |s|
  {
    |s| >= 2 && ((s[0] == '/' && s[1] == '/') || HasDoubleSlash(s[1..]))
  }

  /** A string includes `//` exactly when two adjacent characters of it are slashes. */
  lemma {:induction false} DoubleSlashAt(s: string)
    ensures HasDoubleSlash(s) <==> exists i :: 0 <= i < |s| - 1 && s[i] == '/' && s[i + 1] == '/'
    decreases |s|
  {
    if |s| >= 2 {
      var t := s[1..];
      DoubleSlashAt(t);
      if i :| 0 <= i < |s| - 1 && s[i] == '/' && s[i + 1] == '/' {
        if i > 0 {
          assert t[i - 1] == '/' && t[i] == '/';
        }
      }
      if HasDoubleSlash(t) {
        var i :| 0 <= i < |t| - 1 && t[i] == '/' && t[i + 1] == '/';
        assert s[i + 1] == '/' && s[i + 2] == '/';
      }
    }
  }

  /** `s.search('/')`: the index of the first `/`, or -1 when there is none. */
  function SlashIndex(s: string): (r: int)
    ensures -1 <= r < |s|
    ensures r >= 0 ==> s[r] == '/'
    decreases |s|
  {
    if s == [] then -1
    else if s[0] == '/' then 0
    else
      var k := SlashIndex(s[1..]);
      if k < 0 then -1 else k + 1
  }

  /** The index is -1 exactly when there is no `/`, and no `/` comes before it. */
  lemma {:induction false} SlashIndexFirst(s: string)
    ensures SlashIndex(s) == -1 <==> '/' !in s
    ensures SlashIndex(s) >= 0 ==> '/' !in s[..SlashIndex(s)]
    decreases |s|
  {
    if s != [] && s[0] != '/' {
      SlashIndexFirst(s[1..]);
      var k := SlashIndex(s[1..]);
      assert s == [s[0]] + s[1..];
      if k >= 0 {
        assert s[..k + 1] == [s[0]] + s[1..][..k];
      }
    }
  }

  /** An add-on without `//` belongs to the `eggs` vendor (produce.ts:74-76). */
  function NormalizeAddon(addon: string): string {
    if HasDoubleSlash(addon) then addon else "eggs/" + addon
  }

  /** `addon.slice(0, Math.max(0, addon.search('/')))`. */
  function VendorOf(addon: string): string {
    var k := SlashIndex(addon);
    addon[..if k > 0 then k else 0]
  }

  /** `addon.substring(addon.search('/') + 1, addon.length)`. */
  function NameOf(addon: string): string {
    addon[SlashIndex(addon) + 1..]
  }

  /** The directory an add-on is looked up in (produce.ts:78). */
  function AddonDir(host: Host, addon: string): string {
    host.resolve(host.moduleDir + "/../../addons/" + addon)
  }

  function DesktopFile(link: string): string {
    "/usr/share/applications/" + link + ".desktop"
  }

  function WardrobeDir(user: string): string {
    "/home/" + user + "/.wardrobe/vendors/"
  }

  // ----------------------------------------------------- the pieces of run

  /** An add-on whose directory, once the add-on is normalised, does not exist. */
  predicate AddonMissing(host: Host, addon: string) {
    AddonDir(host, NormalizeAddon(addon)) !in host.existing
  }

  /** The first add-on, normalised, whose directory is missing (produce.ts:78-81). */
  function FirstMissing(host: Host, addons: seq<string>): Option<string>
    decreases |addons|
  {
    if addons == [] then None
    else
      match FirstMissing(host, addons[..|addons| - 1])
      case Some(missing) => Some(missing)
      case None =>
        var last := addons[|addons| - 1];
        if AddonMissing(host, last) then Some(NormalizeAddon(last)) else None
  }

  /** The theme flag once every add-on named `theme` has set it to its vendor (produce.ts:83-88). */
  function ThemeOverride(addons: seq<string>, theme: Option<string>): Option<string>
    decreases |addons|
  {
    if addons == [] then theme
    else
      var addon := NormalizeAddon(addons[|addons| - 1]);
      if NameOf(addon) == "theme" then Some(VendorOf(addon)) else ThemeOverride(addons[..|addons| - 1], theme)
  }

  /**
   * The add-on loop (produce.ts:72-90): either the first add-on, normalised,
   * whose directory is missing, or the theme flag as the loop leaves it.
   */
  function ScanAddons(host: Host, addons: seq<string>, theme: Option<string>): Result<Option<string>, string> {
    match FirstMissing(host, addons)
    case Some(missing) => Err(missing)
    case None => Ok(ThemeOverride(addons, theme))
  }

  /** The desktop-link loop (produce.ts:94-104): the links whose desktop file exists. */
  function KeptLinks(host: Host, links: seq<string>): seq<string>
    decreases |links|
  {
    if links == [] then []
    else
      var kept := KeptLinks(host, links[..|links| - 1]);
      var link := links[|links| - 1];
      if DesktopFile(link) in host.existing then kept + [link] else kept
  }

  /** The five exclude toggles (produce.ts:111-138). */
  function ExcludesOf(excludes: Option<seq<string>>): set<Region> {
    match excludes
    case None => {}
    case Some(l) =>
      (if "static" in l then {Static} else {}) + (if "home" in l then {Home} else {})
      + (if "mine" in l then {Mine} else {}) + (if "usr" in l then {Usr} else {})
      + (if "var" in l then {Var} else {})
  }

  /** The known add-on booleans (produce.ts:206-223). */
  function AddonsOf(addons: Option<seq<string>>): set<AddonKey> {
    match addons
    case None => {}
    case Some(l) =>
      (if "adapt" in l then {Adapt} else {}) + (if "ichoice" in l then {Ichoice} else {})
      + (if "pve" in l then {Pve} else {}) + (if "rsupport" in l then {Rsupport} else {})
  }

  /** Compression precedence (produce.ts:153-158). */
  function CompressionOf(max: bool, standard: bool): Compression {
    if max then Max else if standard then Standard else Fast
  }

  /** The theme path before `path.resolve` (produce.ts:184-192). */
  function ThemeArg(theme: string, user: string): string {
    if '/' in theme then
      if |theme| > 0 && theme[|theme| - 1] == '/' then theme[..|theme| - 1] else theme
    else WardrobeDir(user) + theme
  }

  /** The theme (produce.ts:182-199): `eggs` by default, else resolved and required to hold `theme`. */
  function ResolveTheme(host: Host, theme: Option<string>): Result<string, string> {
    match theme
    case None => Ok("eggs")
    case Some(t) =>
      var resolved := host.resolve(ThemeArg(t, host.primaryUser));
      if resolved + "/theme" in host.existing then Ok(resolved) else Err(resolved)
  }

  /** The configuration run composes once its checks have passed. */
  function Compose(flags: Flags, host: Host, theme: string): BuildConfig {
    BuildConfig(
      flags.prefix.GetOr(""),
      flags.basename.GetOr(""),
      theme,
      CompressionOf(flags.max, flags.standard),
      flags.clone,
      flags.cryptedclone,
      flags.script,
      flags.yolk,
      flags.release,
      AddonsOf(flags.addons),
      KeptLinks(host, flags.links.GetOr([])),
      ExcludesOf(flags.excludes),
      flags.nointeractive,
      flags.noicons,
      flags.unsecure || flags.clone || flags.cryptedclone,
      flags.verbose)
  }

  /** The whole of run (produce.ts:60-235); `fertilized` is what `ovary.fertilization` answers. */
  function ProduceOutcome(flags: Flags, host: Host, isRoot: bool, fertilized: bool): Outcome {
    if !isRoot then NotRoot
    else
      match ScanAddons(host, flags.addons.GetOr([]), flags.theme)
      case Err(addon) => Abort(AddonNotFound(addon))
      case Ok(themeFlag) =>
        match ResolveTheme(host, themeFlag)
        case Err(theme) => Abort(ThemeNotFound(theme))
        case Ok(theme) => Resolved(Compose(flags, host, theme), fertilized)
  }

  // ------------------------------------------------------------ the method

  /**
   * The add-on loop of run (produce.ts:72-90): normalises each add-on, stops
   * at the first one whose directory is missing, and lets a `theme` add-on
   * override the theme flag.
   */
  method CheckAddons(host: Host, addons: seq<string>, theme: Option<string>) returns (r: Result<Option<string>, string>)
    ensures r == ScanAddons(host, addons, theme)
  {
    var themeFlag := theme;
    var i := 0;
    while i < |addons|
      invariant 0 <= i <= |addons|
      invariant FirstMissing(host, addons[..i]) == None
      invariant ThemeOverride(addons[..i], theme) == themeFlag
    {
      var addon := NormalizeAddon(addons[i]);
      assert addons[..i + 1][..i] == addons[..i];
      if AddonDir(host, addon) !in host.existing {
        MissingStops(host, addons, i + 1);
        return Err(addon);
      }
      if NameOf(addon) == "theme" {
        themeFlag := Some(VendorOf(addon));
      }
      i := i + 1;
    }
    assert addons[..i] == addons;
    r := Ok(themeFlag);
  }

  /** The desktop-link loop of run (produce.ts:94-104): keeps the links whose desktop file exists. */
  method CheckLinks(host: Host, links: seq<string>) returns (myLinks: seq<string>)
    ensures myLinks == KeptLinks(host, links)
  {
    myLinks := [];
    var j := 0;
    while j < |links|
      invariant 0 <= j <= |links|
      invariant myLinks == KeptLinks(host, links[..j])
    {
      var link := links[j];
      assert links[..j + 1][..j] == links[..j];
      if "/usr/share/applications/" + link + ".desktop" in host.existing {
        myLinks := myLinks + [link];
      }
      j := j + 1;
    }
    assert links[..j] == links;
  }

  /** The exclude toggles of run (produce.ts:111-138), for a given `--excludes` list. */
  method CheckExcludes(names: seq<string>) returns (excludes: set<Region>)
    ensures excludes == ExcludesOf(Some(names))
  {
    excludes := {};
    if "static" in names {
      excludes := excludes + {Static};
    }
    if "home" in names {
      excludes := excludes + {Home};
    }
    if "mine" in names {
      excludes := excludes + {Mine};
    }
    if "usr" in names {
      excludes := excludes + {Usr};
    }
    if "var" in names {
      excludes := excludes + {Var};
    }
  }

  /** The theme block of run (produce.ts:183-199), for a given theme flag. */
  method CheckTheme(host: Host, themeFlag: string) returns (r: Result<string, string>)
    ensures r == ResolveTheme(host, Some(themeFlag))
  {
    var theme := themeFlag;
    if '/' in theme {
      if |theme| > 0 && theme[|theme| - 1] == '/' {
        theme := theme[..|theme| - 1];
      }
    } else {
      var wpath := "/home/" + host.primaryUser + "/.wardrobe/vendors/";
      theme := wpath + themeFlag;
    }
    theme := host.resolve(theme);
    if theme + "/theme" !in host.existing {
      return Err(theme);
    }
    r := Ok(theme);
  }

  /** The add-on booleans of run (produce.ts:206-223), for a given `--addons` list. */
  method CheckAddonKeys(names: seq<string>) returns (myAddons: set<AddonKey>)
    ensures myAddons == AddonsOf(Some(names))
  {
    myAddons := {};
    if "adapt" in names {
      myAddons := myAddons + {Adapt};
    }
    if "ichoice" in names {
      myAddons := myAddons + {Ichoice};
    }
    if "pve" in names {
      myAddons := myAddons + {Pve};
    }
    if "rsupport" in names {
      myAddons := myAddons + {Rsupport};
    }
  }

  /** `Produce.run`, step by step as the source does it. */
  method Run(flags: Flags, host: Host, isRoot: bool, fertilized: bool) returns (out: Outcome)
    ensures out == ProduceOutcome(flags, host, isRoot, fertilized)
  {
    if !isRoot {
      return NotRoot;
    }

    // add-ons of the vendors
    var themeFlag := flags.theme;
    if flags.addons.Some? {
      var scan := CheckAddons(host, flags.addons.value, flags.theme);
      if scan.Err? {
        return Abort(AddonNotFound(scan.error));
      }
      themeFlag := scan.value;
    }

    // links check
    var myLinks: seq<string> := [];
    if flags.links.Some? {
      myLinks := CheckLinks(host, flags.links.value);
    }

    // composition of the flags
    var excludes: set<Region> := {};
    if flags.excludes.Some? {
      excludes := CheckExcludes(flags.excludes.value);
    }

    var prefix := "";
    if flags.prefix.Some? {
      prefix := flags.prefix.value;
    }

    var basename := "";
    if flags.basename.Some? {
      basename := flags.basename.value;
    }

    var compression := Fast;
    if flags.max {
      compression := Max;
    } else if flags.standard {
      compression := Standard;
    }

    // if clone or cryptedclone, unsecure is true
    var unsecure := flags.unsecure || flags.clone || flags.cryptedclone;

    var theme := "eggs";
    if themeFlag.Some? {
      var found := CheckTheme(host, themeFlag.value);
      if found.Err? {
        return Abort(ThemeNotFound(found.error));
      }
      theme := found.value;
    }

    var myAddons: set<AddonKey> := {};
    if flags.addons.Some? {
      myAddons := CheckAddonKeys(flags.addons.value);
    }

    var config := BuildConfig(prefix, basename, theme, compression, flags.clone, flags.cryptedclone,
                              flags.script, flags.yolk, flags.release, myAddons, myLinks, excludes,
                              flags.nointeractive, flags.noicons, unsecure, flags.verbose);
    out := Resolved(config, fertilized);
  }

  // ---------------------------------------------------------------- lemmas

  /** Once an add-on of a prefix is missing, the whole list fails at that add-on. */
  lemma {:induction false} MissingStops(host: Host, addons: seq<string>, k: nat)
    requires k <= |addons|
    requires FirstMissing(host, addons[..k]).Some?
    ensures FirstMissing(host, addons) == FirstMissing(host, addons[..k])
    decreases |addons| - k
  {
    if k < |addons| {
      var init := addons[..|addons| - 1];
      assert init[..k] == addons[..k];
      MissingStops(host, init, k);
    } else {
      assert addons[..k] == addons;
    }
  }

  /** The add-on loop fails exactly when the directory of some add-on is missing. */
  lemma {:induction false} MissingIffSomeMissing(host: Host, addons: seq<string>)
    ensures FirstMissing(host, addons).Some? <==> exists i :: 0 <= i < |addons| && AddonMissing(host, addons[i])
    decreases |addons|
  {
    if addons != [] {
      var n := |addons| - 1;
      var init := addons[..n];
      MissingIffSomeMissing(host, init);
      if FirstMissing(host, init).Some? {
        var i :| 0 <= i < n && AddonMissing(host, init[i]);
        assert init[i] == addons[i];
      } else if !AddonMissing(host, addons[n]) {
        forall i | 0 <= i < |addons|
          ensures !AddonMissing(host, addons[i])
        {
          if i < n {
            assert addons[i] == init[i];
          }
        }
      }
    }
  }

  /** When it fails, it names the first add-on whose directory is missing, normalised. */
  lemma MissingIsFirst(host: Host, addons: seq<string>, i: nat)
    requires i < |addons| && AddonMissing(host, addons[i])
    requires forall j :: 0 <= j < i ==> !AddonMissing(host, addons[j])
    ensures FirstMissing(host, addons) == Some(NormalizeAddon(addons[i]))
  {
    var init := addons[..i];
    MissingIffSomeMissing(host, init);
    assert addons[..i + 1][..i] == init;
    MissingStops(host, addons, i + 1);
  }

  /**
   * The text after the first `/` of a normalised add-on is `theme` exactly
   * when the add-on was given as the bare name `theme`, whose vendor is `eggs`.
   */
  lemma ThemeAddonIsBareTheme(addon: string)
    ensures NameOf(NormalizeAddon(addon)) == "theme" <==> addon == "theme"
    ensures addon == "theme" ==> VendorOf(NormalizeAddon(addon)) == "eggs"
  {
    if HasDoubleSlash(addon) {
      DoubleSlashNameHasSlash(addon);
      assert addon != "theme" by {
        DoubleSlashAt(addon);
      }
    } else {
      EggsPrefixSplit(addon);
    }
  }

  /** After the first `/` of a string that includes `//` there is another `/`. */
  lemma DoubleSlashNameHasSlash(addon: string)
    requires HasDoubleSlash(addon)
    ensures '/' in NameOf(addon)
  {
    DoubleSlashAt(addon);
    var i :| 0 <= i < |addon| - 1 && addon[i] == '/' && addon[i + 1] == '/';
    var k := SlashIndex(addon);
    SlashIndexFirst(addon);
    assert addon[i] in addon;
    assert k <= i;
    assert NameOf(addon)[i - k] == addon[i + 1];
  }

  /** `eggs/` followed by a name splits into vendor `eggs` and that name. */
  lemma EggsPrefixSplit(addon: string)
    ensures SlashIndex("eggs/" + addon) == 4
    ensures VendorOf("eggs/" + addon) == "eggs" && NameOf("eggs/" + addon) == addon
  {
    var n := "eggs/" + addon;
    assert n[..4] == "eggs";
    assert SlashIndex(n[4..]) == 0;
    assert n[3..][1..] == n[4..] && SlashIndex(n[3..]) == 1;
    assert n[2..][1..] == n[3..] && SlashIndex(n[2..]) == 2;
    assert n[1..][1..] == n[2..] && SlashIndex(n[1..]) == 3;
  }

  /**
   * The theme flag after the add-on loop is `eggs` if some add-on was given
   * as `theme`, and the flag as given otherwise.
   */
  lemma {:induction false} ThemeOverrideRule(addons: seq<string>, theme: Option<string>)
    ensures ThemeOverride(addons, theme) == if "theme" in addons then Some("eggs") else theme
    decreases |addons|
  {
    if addons != [] {
      var init := addons[..|addons| - 1];
      var last := addons[|addons| - 1];
      ThemeOverrideRule(init, theme);
      ThemeAddonIsBareTheme(last);
      assert addons == init + [last];
      assert "theme" in addons <==> "theme" in init || last == "theme";
    }
  }

  /** A link is kept exactly when it was requested and its desktop file exists. */
  lemma {:induction false} KeptLinksMembers(host: Host, links: seq<string>)
    ensures forall x :: x in KeptLinks(host, links) <==> x in links && DesktopFile(x) in host.existing
    decreases |links|
  {
    if links != [] {
      var init := links[..|links| - 1];
      KeptLinksMembers(host, init);
      assert links == init + [links[|links| - 1]];
    }
  }

  /** Filtering respects concatenation, so the kept links stay in their requested order. */
  lemma {:induction false} KeptLinksAppend(host: Host, a: seq<string>, b: seq<string>)
    ensures KeptLinks(host, a + b) == KeptLinks(host, a) + KeptLinks(host, b)
    decreases |b|
  {
    if b == [] {
      assert a + b == a;
    } else {
      var init := b[..|b| - 1];
      KeptLinksAppend(host, a, init);
      assert (a + b)[..|a + b| - 1] == a + init;
    }
  }

  /** When every requested desktop file exists, all links are kept as given. */
  lemma {:induction false} KeptLinksAllPresent(host: Host, links: seq<string>)
    requires forall i :: 0 <= i < |links| ==> DesktopFile(links[i]) in host.existing
    ensures KeptLinks(host, links) == links
    decreases |links|
  {
    if links != [] {
      var init := links[..|links| - 1];
      KeptLinksAllPresent(host, init);
      assert links == init + [links[|links| - 1]];
    }
  }

  /** Each region is excluded exactly when its name was passed; other names do nothing. */
  lemma ExcludesExact(excludes: Option<seq<string>>, other: string)
    ensures forall r :: r in ExcludesOf(excludes) <==> excludes.Some? && RegionName(r) in excludes.value
    ensures other !in {"static", "home", "mine", "usr", "var"} && excludes.Some? ==>
      ExcludesOf(Some(excludes.value + [other])) == ExcludesOf(excludes)
  {
  }

  /** An add-on key is set exactly when its raw name was passed. */
  lemma AddonKeysExact(addons: Option<seq<string>>)
    ensures forall k :: k in AddonsOf(addons) <==> addons.Some? && AddonKeyName(k) in addons.value
  {
  }

  /** `--max` wins over `--standard`, which wins over the default `fast`. */
  lemma CompressionPrecedence(max: bool, standard: bool)
    ensures CompressionOf(max, standard) == Max <==> max
    ensures CompressionOf(max, standard) == Standard <==> !max && standard
    ensures CompressionOf(max, standard) == Fast <==> !max && !standard
  {
  }

  /**
   * A theme containing `/` only loses one trailing `/`; any other theme is
   * looked up among the primary user's wardrobe vendors.
   */
  lemma ThemeArgRules(theme: string, user: string)
    ensures '/' in theme && theme[|theme| - 1] == '/' ==> ThemeArg(theme, user) + "/" == theme
    ensures '/' in theme && theme[|theme| - 1] != '/' ==> ThemeArg(theme, user) == theme
    ensures '/' !in theme ==> ThemeArg(theme, user) == "/home/" + user + "/.wardrobe/vendors/" + theme
  {
  }

  /** What a completed run hands on, in terms of the flags. */
  lemma ResolvedConfig(flags: Flags, host: Host, isRoot: bool, fertilized: bool)
    requires ProduceOutcome(flags, host, isRoot, fertilized).Resolved?
    ensures var c := ProduceOutcome(flags, host, isRoot, fertilized).config;
      isRoot &&
      ProduceOutcome(flags, host, isRoot, fertilized).produced == fertilized &&
      (c.unsecure <==> flags.unsecure || flags.clone || flags.cryptedclone) &&
      (flags.clone || flags.cryptedclone ==> c.unsecure) &&
      c.myLinks == KeptLinks(host, flags.links.GetOr([])) &&
      c.excludes == ExcludesOf(flags.excludes) &&
      c.myAddons == AddonsOf(flags.addons) &&
      c.compression == CompressionOf(flags.max, flags.standard) &&
      c.prefix == flags.prefix.GetOr("") && c.basename == flags.basename.GetOr("")
  {
  }

  /** A missing add-on directory ends the run before the theme is looked at or anything is built. */
  lemma MissingAddonAborts(flags: Flags, host: Host, fertilized: bool, i: nat)
    requires flags.addons.Some? && i < |flags.addons.value|
    requires AddonMissing(host, flags.addons.value[i])
    ensures ProduceOutcome(flags, host, true, fertilized).Abort?
    ensures ProduceOutcome(flags, host, true, fertilized).reason.AddonNotFound?
    ensures (forall j :: 0 <= j < i ==> !AddonMissing(host, flags.addons.value[j])) ==>
      ProduceOutcome(flags, host, true, fertilized).reason.addon == NormalizeAddon(flags.addons.value[i])
  {
    MissingIffSomeMissing(host, flags.addons.value);
    if forall j :: 0 <= j < i ==> !AddonMissing(host, flags.addons.value[j]) {
      MissingIsFirst(host, flags.addons.value, i);
    }
  }

  /**
   * Which theme a completed run uses: `eggs` when neither `--theme` nor a
   * `theme` add-on was given; otherwise the resolved theme argument, whose
   * `theme` sub-path exists.
   */
  lemma ResolvedTheme(flags: Flags, host: Host, fertilized: bool)
    requires ProduceOutcome(flags, host, true, fertilized).Resolved?
    ensures var c := ProduceOutcome(flags, host, true, fertilized).config;
      var asked := if "theme" in flags.addons.GetOr([]) then Some("eggs") else flags.theme;
      (asked.None? ==> c.theme == "eggs") &&
      (asked.Some? ==> c.theme == host.resolve(ThemeArg(asked.value, host.primaryUser)) &&
                       c.theme + "/theme" in host.existing)
  {
    ThemeOverrideRule(flags.addons.GetOr([]), flags.theme);
  }

  /** A theme whose `theme` sub-path is missing ends the run. */
  lemma MissingThemeAborts(flags: Flags, host: Host, fertilized: bool)
    requires FirstMissing(host, flags.addons.GetOr([])).None?
    requires var t := ThemeOverride(flags.addons.GetOr([]), flags.theme);
      t.Some? && host.resolve(ThemeArg(t.value, host.primaryUser)) + "/theme" !in host.existing
    ensures ProduceOutcome(flags, host, true, fertilized).Abort?
    ensures ProduceOutcome(flags, host, true, fertilized).reason.ThemeNotFound?
  {
  }

  // ---------------------------------------------------------- isValidSize

  predicate AllDigits(s: string) {
    forall i :: 0 <= i < |s| ==> '0' <= s[i] <= '9'
  }

  /**
   * `isValidSize` (produce.ts:238-242), the pattern `^(\d+)([GM]?)$`: one or
   * more decimal digits, then at most one `G` or `M`, and nothing else.
   */
  function IsValidSize(input: string): (ok: bool)
    ensures ok <==> exists k :: 1 <= k <= |input| && AllDigits(input[..k]) && input[k..] in {"", "G", "M"}
  {
    var n := |input|;
    var r := n > 0 &&
      (AllDigits(input) || (n > 1 && (input[n - 1] == 'G' || input[n - 1] == 'M') && AllDigits(input[..n - 1])));
    assert r ==> if AllDigits(input) then input[..n] == input && input[n..] == "" else input[n - 1..] == [input[n - 1]];
    assert (exists k :: 1 <= k <= n && AllDigits(input[..k]) && input[k..] in {"", "G", "M"}) ==> r by {
      if k :| 1 <= k <= n && AllDigits(input[..k]) && input[k..] in {"", "G", "M"} {
        if input[k..] == "" {
          assert input[..k] == input;
        } else {
          assert |input[k..]| == 1 && k == n - 1 && input[n - 1] == input[k..][0];
        }
      }
    }
    r
  }

  /** Sizes as the `--cryptedclone` example passes them. */
  lemma ValidSizeExamples()
    ensures IsValidSize("4G") && IsValidSize("512M") && IsValidSize("20")
    ensures !IsValidSize("") && !IsValidSize("G") && !IsValidSize("4GB") && !IsValidSize("4g") && !IsValidSize("4 G")
  {
    assert "4G"[..1] == "4";
    assert "512M"[..3] == "512";
    assert "20"[..2] == "20";
    assert "G"[..1] == "G" && "G"[0] == 'G';
    assert "4GB"[1] == 'G' && "4g"[1] == 'g' && "4 G"[1] == ' ';
  }
}

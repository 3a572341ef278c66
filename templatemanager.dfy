/** Finding and loading card templates (internal/templates/template.go): the
    `extends` resolution for files and built-in templates, the search over
    the template locations, the manager's cache, and the listing of the
    available card styles. The file systems are oracles from a path to what
    reading and decoding that path gives. */
module TemplateManager {

  import opened Wrappers
  import opened StringUtil
  import opened Templates

  /** What reading and decoding the YAML file at a path gives. */
  datatype LoadOutcome = Loaded(template: Template) | ReadError(readMsg: string) | ParseError(parseMsg: string)

  /** The disk and the templates built into the binary. */
  datatype Sources = Sources(files: string -> LoadOutcome, builtin: string -> LoadOutcome)

  /** How deep an `extends` chain is followed; the source recurses without
      bound. */
  const ExtendsDepth: nat := 32

  const TooDeep := "extends chain too deep"

  // ---------------------------------------------------------------------------
  // Files on disk
  // ---------------------------------------------------------------------------

  function LoadTemplateFile(src: Sources, path: string): (r: Result<Template, string>)
    ensures r.Ok? <==> src.files(path).Loaded?
    ensures r.Ok? ==> r.value == src.files(path).template.(templateDir := Dir(path))
  {
    match src.files(path)
    case Loaded(t) => Ok(t.(templateDir := Dir(path)))
    case ReadError(e) => Err(e)
    case ParseError(e) => Err("error parsing template: " + e)
  }

  /** resolveBaseTemplate's path: a relative `extends` is taken from the
      extending template's directory. */
  function BasePath(extendsPath: string, currentDir: string): string
  {
    if IsAbs(extendsPath) then extendsPath else JoinPath(currentDir, extendsPath)
  }

  /** loadAndProcessTemplate: the file, merged onto its base when it extends
      one. The result keeps the file's own name, TCG and directory. */
  function LoadAndProcess(src: Sources, path: string, fuel: nat): (r: Result<Template, string>)
    ensures r.Ok? ==> src.files(path).Loaded?
    ensures r.Ok? ==> r.value.tcg == src.files(path).template.tcg
    ensures r.Ok? ==> r.value.name == src.files(path).template.name
    ensures r.Ok? ==> r.value.templateDir == Dir(path)
    decreases fuel
  {
    match LoadTemplateFile(src, path)
    case Err(e) => Err(e)
    case Ok(t) =>
      if t.extendsPath == "" then Ok(t)
      else if fuel == 0 then Err(TooDeep)
      else
        match LoadAndProcess(src, BasePath(t.extendsPath, t.templateDir), fuel - 1)
        case Err(e) => Err("failed to load base template '" + t.extendsPath + "': " + e)
        case Ok(b) => Ok(Merged(b, t))
  }

  /** A template whose base cannot be loaded is not loaded either. */
  lemma BaseFailureFails(src: Sources, path: string, fuel: nat)
    requires src.files(path).Loaded? && src.files(path).template.extendsPath != ""
    requires fuel > 0
    requires var t := src.files(path).template;
      LoadAndProcess(src, BasePath(t.extendsPath, Dir(path)), fuel - 1).Err?
    ensures LoadAndProcess(src, path, fuel).Err?
    ensures HasPrefix(LoadAndProcess(src, path, fuel).error, "failed to load base template '")
  {
    var t := src.files(path).template;
    var e := LoadAndProcess(src, BasePath(t.extendsPath, Dir(path)), fuel - 1).error;
    var msg := "failed to load base template '" + t.extendsPath + "': " + e;
    assert msg[..|"failed to load base template '"|] == "failed to load base template '";
  }

  // ---------------------------------------------------------------------------
  // Built-in templates
  // ---------------------------------------------------------------------------

  /** resolveBuiltinBaseTemplate's path: "./" is taken from the current
      built-in directory, and a path not starting with "builtin/" is joined
      onto "builtin". The join is not cleaned, so the result starts with
      "builtin" textually even when ".." segments lead out of it. */
  function BuiltinBasePath(extendsPath: string, currentDir: string): (p: string)
    ensures HasPrefix(p, "builtin/") || p == "builtin"
  {
    var basePath := if HasPrefix(extendsPath, "./") then JoinPath(currentDir, extendsPath[2..]) else extendsPath;
    if HasPrefix(basePath, "builtin/") then basePath
    else
      var r := JoinPath("builtin", basePath);
      assert basePath != "" ==> r[..8] == "builtin/";
      r
  }

  /** A path already under "builtin/" and not starting with "./" is used as is. */
  lemma BuiltinPathKept(extendsPath: string, currentDir: string)
    requires HasPrefix(extendsPath, "builtin/")
    ensures BuiltinBasePath(extendsPath, currentDir) == extendsPath
  {
    assert !HasPrefix(extendsPath, "./") by {
      assert extendsPath[0] == 'b';
    }
  }

  /** A "./" path is resolved next to the current built-in template. */
  lemma BuiltinRelativePath(extendsPath: string, currentDir: string)
    requires HasPrefix(extendsPath, "./") && HasPrefix(currentDir, "builtin/") && |extendsPath| > 2
    ensures BuiltinBasePath(extendsPath, currentDir) == currentDir + "/" + extendsPath[2..]
  {
    var p := currentDir + "/" + extendsPath[2..];
    assert p[..8] == currentDir[..8];
  }

  function ResolveBuiltinBase(src: Sources, extendsPath: string, currentDir: string, fuel: nat): (r: Result<Template, string>)
    ensures r.Ok? ==> src.builtin(BuiltinBasePath(extendsPath, currentDir)).Loaded?
    ensures r.Ok? ==> r.value.templateDir == Dir(BuiltinBasePath(extendsPath, currentDir))
    decreases fuel
  {
    var basePath := BuiltinBasePath(extendsPath, currentDir);
    match src.builtin(basePath)
    case ReadError(e) => Err(e)
    case ParseError(e) => Err("error parsing builtin base template: " + e)
    case Loaded(t0) =>
      var t := t0.(templateDir := Dir(basePath));
      if t.extendsPath == "" then Ok(t)
      else if fuel == 0 then Err(TooDeep)
      else
        match ResolveBuiltinBase(src, t.extendsPath, t.templateDir, fuel - 1)
        case Err(e) => Err(e)
        case Ok(b) => Ok(Merged(b, t))
  }

  function BuiltinPath(tcg: string, cardstyle: string): string
  {
    "builtin/" + tcg + "/" + cardstyle + ".yaml"
  }

  /** loadBuiltinTemplate: the last place a card style is looked for. */
  function LoadBuiltin(src: Sources, tcg: string, cardstyle: string): (r: Result<Template, string>)
    ensures r.Ok? ==> src.builtin(BuiltinPath(tcg, cardstyle)).Loaded?
    ensures r.Ok? ==> r.value.templateDir == "builtin/" + tcg
  {
    match src.builtin(BuiltinPath(tcg, cardstyle))
    case ReadError(e) => Err("builtin template " + tcg + "/" + cardstyle + " not found: " + e)
    case ParseError(e) => Err("error parsing builtin template: " + e)
    case Loaded(t0) =>
      var t := t0.(templateDir := "builtin/" + tcg);
      if t.extendsPath == "" then Ok(t)
      else
        match ResolveBuiltinBase(src, t.extendsPath, t.templateDir, ExtendsDepth)
        case Err(e) => Err("failed to load builtin base template '" + t.extendsPath + "': " + e)
        case Ok(b) => Ok(Merged(b, t))
  }

  // ---------------------------------------------------------------------------
  // The search
  // ---------------------------------------------------------------------------

  datatype Config = Config(customTemplateDir: string, customCardstyleDir: string)

  function StyleFile(dir: string, tcg: string, cardstyle: string): string
  {
    JoinPath(JoinPath(dir, tcg), cardstyle + ".yaml")
  }

  /** findAndLoadTemplate: workspace, user folder for the TCG, user folder root
      (only for a template of the requested TCG), legacy folder, built-in. */
  function FindAndLoad(src: Sources, cfg: Config, tcg: string, cardstyle: string): Result<Template, string>
  {
    var workspace := LoadAndProcess(src, StyleFile("templates", tcg, cardstyle), ExtendsDepth);
    if workspace.Ok? then workspace
    else
      var user :=
        if cfg.customCardstyleDir == "" then None
        else
          var tcgFile := LoadAndProcess(src, StyleFile(cfg.customCardstyleDir, tcg, cardstyle), ExtendsDepth);
          if tcgFile.Ok? then Some(tcgFile.value)
          else
            var rootFile := LoadAndProcess(src, JoinPath(cfg.customCardstyleDir, cardstyle + ".yaml"), ExtendsDepth);
            if rootFile.Ok? && rootFile.value.tcg == tcg then Some(rootFile.value) else None;
      if user.Some? then Ok(user.value)
      else
        var legacy :=
          if cfg.customTemplateDir == "" then Err("")
          else LoadAndProcess(src, StyleFile(cfg.customTemplateDir, tcg, cardstyle), ExtendsDepth);
        if legacy.Ok? then legacy
        else LoadBuiltin(src, tcg, cardstyle)
  }

  /** A place to look, and whether the template found there must be of the
      requested TCG. */
  datatype Tier = Tier(path: string, checkTcg: bool)

  /** The places searched before the built-in templates, in order. */
  function Tiers(cfg: Config, tcg: string, cardstyle: string): seq<Tier>
  {
    [Tier(StyleFile("templates", tcg, cardstyle), false)]
    + (if cfg.customCardstyleDir == "" then []
       else [Tier(StyleFile(cfg.customCardstyleDir, tcg, cardstyle), false),
             Tier(JoinPath(cfg.customCardstyleDir, cardstyle + ".yaml"), true)])
    + (if cfg.customTemplateDir == "" then [] else [Tier(StyleFile(cfg.customTemplateDir, tcg, cardstyle), false)])
  }

  predicate Accepts(src: Sources, tier: Tier, tcg: string)
  {
    var r := LoadAndProcess(src, tier.path, ExtendsDepth);
    r.Ok? && (!tier.checkTcg || r.value.tcg == tcg)
  }

  /** The reference search: the first tier that accepts, else built-in. */
  function FirstAccepted(src: Sources, tiers: seq<Tier>, tcg: string, cardstyle: string): Result<Template, string>
  {
    if |tiers| == 0 then LoadBuiltin(src, tcg, cardstyle)
    else if Accepts(src, tiers[0], tcg) then LoadAndProcess(src, tiers[0].path, ExtendsDepth)
    else FirstAccepted(src, tiers[1..], tcg, cardstyle)
  }

  /** The search is "first tier that accepts wins; any failure falls through". */
  lemma SearchOrder(src: Sources, cfg: Config, tcg: string, cardstyle: string)
    ensures FindAndLoad(src, cfg, tcg, cardstyle) == FirstAccepted(src, Tiers(cfg, tcg, cardstyle), tcg, cardstyle)
  {
    var legacy := if cfg.customTemplateDir == "" then [] else [Tier(StyleFile(cfg.customTemplateDir, tcg, cardstyle), false)];
    if cfg.customCardstyleDir == "" {
      SearchOrderNoUser(src, cfg, tcg, cardstyle, legacy);
    } else {
      SearchOrderUser(src, cfg, tcg, cardstyle, legacy);
    }
  }

  lemma SearchOrderNoUser(src: Sources, cfg: Config, tcg: string, cardstyle: string, legacy: seq<Tier>)
    requires cfg.customCardstyleDir == ""
    requires legacy == if cfg.customTemplateDir == "" then [] else [Tier(StyleFile(cfg.customTemplateDir, tcg, cardstyle), false)]
    ensures FindAndLoad(src, cfg, tcg, cardstyle) == FirstAccepted(src, Tiers(cfg, tcg, cardstyle), tcg, cardstyle)
  {
    LegacyTier(src, cfg, tcg, cardstyle, legacy);
    var t1 := Tier(StyleFile("templates", tcg, cardstyle), false);
    assert Tiers(cfg, tcg, cardstyle) == [t1] + legacy;
    FirstAcceptedCons(src, t1, legacy, tcg, cardstyle);
  }

  lemma SearchOrderUser(src: Sources, cfg: Config, tcg: string, cardstyle: string, legacy: seq<Tier>)
    requires cfg.customCardstyleDir != ""
    requires legacy == if cfg.customTemplateDir == "" then [] else [Tier(StyleFile(cfg.customTemplateDir, tcg, cardstyle), false)]
    ensures FindAndLoad(src, cfg, tcg, cardstyle) == FirstAccepted(src, Tiers(cfg, tcg, cardstyle), tcg, cardstyle)
  {
    LegacyTier(src, cfg, tcg, cardstyle, legacy);
    var t1 := Tier(StyleFile("templates", tcg, cardstyle), false);
    var t2 := Tier(StyleFile(cfg.customCardstyleDir, tcg, cardstyle), false);
    var t3 := Tier(JoinPath(cfg.customCardstyleDir, cardstyle + ".yaml"), true);
    assert Tiers(cfg, tcg, cardstyle) == [t1] + ([t2] + ([t3] + legacy));
    UserTiers(src, tcg, cardstyle, t1, t2, t3, legacy);
  }

  lemma LegacyTier(src: Sources, cfg: Config, tcg: string, cardstyle: string, legacy: seq<Tier>)
    requires legacy == if cfg.customTemplateDir == "" then [] else [Tier(StyleFile(cfg.customTemplateDir, tcg, cardstyle), false)]
    ensures FirstAccepted(src, legacy, tcg, cardstyle) ==
      var r := if cfg.customTemplateDir == "" then Err("")
               else LoadAndProcess(src, StyleFile(cfg.customTemplateDir, tcg, cardstyle), ExtendsDepth);
      if r.Ok? then r else LoadBuiltin(src, tcg, cardstyle)
  {
    if cfg.customTemplateDir != "" {
      assert legacy[1..] == [];
    }
  }

  lemma UserTiers(src: Sources, tcg: string, cardstyle: string, t1: Tier, t2: Tier, t3: Tier, legacy: seq<Tier>)
    requires !t1.checkTcg && !t2.checkTcg && t3.checkTcg
    ensures FirstAccepted(src, [t1] + ([t2] + ([t3] + legacy)), tcg, cardstyle) ==
      var w := LoadAndProcess(src, t1.path, ExtendsDepth);
      if w.Ok? then w
      else
        var u := LoadAndProcess(src, t2.path, ExtendsDepth);
        if u.Ok? then u
        else
          var root := LoadAndProcess(src, t3.path, ExtendsDepth);
          if root.Ok? && root.value.tcg == tcg then root
          else FirstAccepted(src, legacy, tcg, cardstyle)
  {
    FirstAcceptedCons(src, t1, [t2] + ([t3] + legacy), tcg, cardstyle);
    FirstAcceptedCons(src, t2, [t3] + legacy, tcg, cardstyle);
    FirstAcceptedCons(src, t3, legacy, tcg, cardstyle);
  }

  lemma FirstAcceptedCons(src: Sources, t: Tier, rest: seq<Tier>, tcg: string, cardstyle: string)
    ensures FirstAccepted(src, [t] + rest, tcg, cardstyle) ==
      if Accepts(src, t, tcg) then LoadAndProcess(src, t.path, ExtendsDepth) else FirstAccepted(src, rest, tcg, cardstyle)
  {
    assert ([t] + rest)[1..] == rest;
  }

  /** The search fails only when every tier failed and the built-in template
      failed; the failure is the built-in one's. */
  lemma SearchFailure(src: Sources, cfg: Config, tcg: string, cardstyle: string)
    requires FindAndLoad(src, cfg, tcg, cardstyle).Err?
    ensures FindAndLoad(src, cfg, tcg, cardstyle) == LoadBuiltin(src, tcg, cardstyle)
    ensures forall i :: 0 <= i < |Tiers(cfg, tcg, cardstyle)| ==> !Accepts(src, Tiers(cfg, tcg, cardstyle)[i], tcg)
  {
    SearchOrder(src, cfg, tcg, cardstyle);
    FirstAcceptedFailure(src, Tiers(cfg, tcg, cardstyle), tcg, cardstyle);
  }

  lemma {:induction false} FirstAcceptedFailure(src: Sources, tiers: seq<Tier>, tcg: string, cardstyle: string)
    requires FirstAccepted(src, tiers, tcg, cardstyle).Err?
    ensures FirstAccepted(src, tiers, tcg, cardstyle) == LoadBuiltin(src, tcg, cardstyle)
    ensures forall i :: 0 <= i < |tiers| ==> !Accepts(src, tiers[i], tcg)
    decreases |tiers|
  {
    if |tiers| > 0 {
      FirstAcceptedFailure(src, tiers[1..], tcg, cardstyle);
      assert forall i :: 1 <= i < |tiers| ==> tiers[i] == tiers[1..][i - 1];
    }
  }

  /** A template at the root of the user folder that declares another TCG is
      passed over: the search goes on as if that place were not there. */
  lemma RootFileOfOtherTcg(src: Sources, cfg: Config, tcg: string, cardstyle: string)
    requires cfg.customCardstyleDir != ""
    requires var r := LoadAndProcess(src, JoinPath(cfg.customCardstyleDir, cardstyle + ".yaml"), ExtendsDepth);
      r.Ok? && r.value.tcg != tcg
    ensures var tiers := Tiers(cfg, tcg, cardstyle);
      FindAndLoad(src, cfg, tcg, cardstyle) == FirstAccepted(src, tiers[..2] + tiers[3..], tcg, cardstyle)
  {
    SearchOrder(src, cfg, tcg, cardstyle);
    var tiers := Tiers(cfg, tcg, cardstyle);
    RootTier(cfg, tcg, cardstyle);
    SkipRejected(src, tiers[..2], tiers[2], tiers[3..], tcg, cardstyle);
  }

  lemma RootTier(cfg: Config, tcg: string, cardstyle: string)
    requires cfg.customCardstyleDir != ""
    ensures var tiers := Tiers(cfg, tcg, cardstyle);
      && |tiers| >= 3
      && tiers[2] == Tier(JoinPath(cfg.customCardstyleDir, cardstyle + ".yaml"), true)
      && tiers == tiers[..2] + [tiers[2]] + tiers[3..]
  {
  }

  /** A place that does not accept can be left out of the search. */
  lemma {:induction false} SkipRejected(src: Sources, before: seq<Tier>, t: Tier, after: seq<Tier>, tcg: string, cardstyle: string)
    requires !Accepts(src, t, tcg)
    ensures FirstAccepted(src, before + [t] + after, tcg, cardstyle) == FirstAccepted(src, before + after, tcg, cardstyle)
    decreases |before|
  {
    if |before| == 0 {
      assert before + [t] + after == [t] + after;
      assert before + after == after;
      FirstAcceptedCons(src, t, after, tcg, cardstyle);
    } else {
      SkipRejected(src, before[1..], t, after, tcg, cardstyle);
      assert before + [t] + after == [before[0]] + (before[1..] + [t] + after);
      assert before + after == [before[0]] + (before[1..] + after);
      FirstAcceptedCons(src, before[0], before[1..] + [t] + after, tcg, cardstyle);
      FirstAcceptedCons(src, before[0], before[1..] + after, tcg, cardstyle);
    }
  }

  /** A file found in the workspace is taken whatever the other places hold. */
  lemma WorkspaceFirst(src: Sources, cfg: Config, tcg: string, cardstyle: string)
    requires LoadAndProcess(src, StyleFile("templates", tcg, cardstyle), ExtendsDepth).Ok?
    ensures FindAndLoad(src, cfg, tcg, cardstyle) == LoadAndProcess(src, StyleFile("templates", tcg, cardstyle), ExtendsDepth)
  {
  }

  // ---------------------------------------------------------------------------
  // Listing
  // ---------------------------------------------------------------------------

  datatype CardStyleInfo = CardStyleInfo(
    tcg: string, name: string, displayName: string, description: string,
    version: string, source: string, extendsPath: string)

  function StyleKey(s: CardStyleInfo): string
  {
    s.tcg + "/" + s.name
  }

  function Keys(styles: seq<CardStyleInfo>): set<string>
  {
    set i | 0 <= i < |styles| :: StyleKey(styles[i])
  }

  lemma KeysSnoc(styles: seq<CardStyleInfo>, x: CardStyleInfo)
    ensures Keys(styles + [x]) == Keys(styles) + {StyleKey(x)}
  {
    var t := styles + [x];
    forall k | k in Keys(t)
      ensures k in Keys(styles) + {StyleKey(x)}
    {
      var i :| 0 <= i < |t| && StyleKey(t[i]) == k;
      if i < |styles| {
        assert t[i] == styles[i];
      }
    }
    forall k | k in Keys(styles)
      ensures k in Keys(t)
    {
      var i :| 0 <= i < |styles| && StyleKey(styles[i]) == k;
      assert t[i] == styles[i];
    }
    assert t[|styles|] == x;
  }

  /** The first style found for each TCG/name key, in order. */
  function FirstByKey(styles: seq<CardStyleInfo>): (r: seq<CardStyleInfo>)
    ensures Keys(r) == Keys(styles)
    ensures forall i, j :: 0 <= i < j < |r| ==> StyleKey(r[i]) != StyleKey(r[j])
    ensures forall x :: x in r ==> x in styles
  {
    if |styles| == 0 then []
    else
      var init := styles[..|styles| - 1];
      var last := styles[|styles| - 1];
      var d := FirstByKey(init);
      assert styles == init + [last];
      KeysSnoc(init, last);
      if StyleKey(last) in Keys(init) then d
      else
        KeysSnoc(d, last);
        d + [last]
  }

  /** The entry kept for a key is the first style found with that key. */
  lemma {:induction false} FirstOccurrenceKept(styles: seq<CardStyleInfo>, i: int)
    requires 0 <= i < |styles|
    requires forall j :: 0 <= j < i ==> StyleKey(styles[j]) != StyleKey(styles[i])
    ensures styles[i] in FirstByKey(styles)
    decreases |styles|
  {
    var init := styles[..|styles| - 1];
    if i < |styles| - 1 {
      FirstOccurrenceKept(init, i);
    } else {
      assert StyleKey(styles[i]) !in Keys(init);
    }
  }

  /** A discovery that failed contributes nothing. */
  function Listed(r: Result<seq<CardStyleInfo>, string>): seq<CardStyleInfo>
  {
    if r.Ok? then r.value else []
  }

  /** What the four discoveries (workspace, user, legacy, built-in) found. */
  datatype Discovery = Discovery(
    workspace: Result<seq<CardStyleInfo>, string>,
    user: Result<seq<CardStyleInfo>, string>,
    legacy: Result<seq<CardStyleInfo>, string>,
    embedded: Result<seq<CardStyleInfo>, string>)

  /** Every style in priority order; the user and legacy folders only when
      configured. */
  function Discovered(cfg: Config, d: Discovery): seq<CardStyleInfo>
  {
    Listed(d.workspace)
    + (if cfg.customCardstyleDir != "" then Listed(d.user) else [])
    + (if cfg.customTemplateDir != "" then Listed(d.legacy) else [])
    + Listed(d.embedded)
  }

  /** Appends the styles whose key is not yet seen. */
  method AddUnseen(all: seq<CardStyleInfo>, seen: set<string>, styles: seq<CardStyleInfo>, ghost prior: seq<CardStyleInfo>)
    returns (all': seq<CardStyleInfo>, seen': set<string>)
    requires all == FirstByKey(prior) && seen == Keys(prior)
    ensures all' == FirstByKey(prior + styles) && seen' == Keys(prior + styles)
  {
    all', seen' := all, seen;
    assert prior + styles[..0] == prior;
    for i := 0 to |styles|
      invariant all' == FirstByKey(prior + styles[..i]) && seen' == Keys(prior + styles[..i])
    {
      var style := styles[i];
      var key := style.tcg + "/" + style.name;
      assert prior + styles[..i + 1] == (prior + styles[..i]) + [style];
      assert (prior + styles[..i + 1])[..|prior| + i] == prior + styles[..i];
      KeysSnoc(prior + styles[..i], style);
      if key !in seen' {
        all' := all' + [style];
        seen' := seen' + {key};
      }
    }
    assert styles[..|styles|] == styles;
  }

  class Manager {
    const customTemplateDir: string
    const customCardstyleDir: string
    const sources: Sources
    var templates: map<string, Template>
    /** The request that filled each cache entry. */
    ghost var requests: map<string, (string, string)>

    function Cfg(): Config
    {
      Config(customTemplateDir, customCardstyleDir)
    }

    /** Every cached template is what the search found for the request whose
        key it is stored under. */
    ghost predicate Valid()
      reads this
    {
      && requests.Keys == templates.Keys
      && forall k :: k in templates ==>
           && k == CacheKey(requests[k].0, requests[k].1)
           && FindAndLoad(sources, Cfg(), requests[k].0, requests[k].1) == Ok(templates[k])
    }

    /** NewManager: the user folder is ".tcg-cardgen/cardstyles" under the
        home directory, which is never empty. */
    constructor (customTemplateDir: string, homeDir: string, sources: Sources)
      ensures Valid() && templates == map[]
      ensures this.customTemplateDir == customTemplateDir && this.sources == sources
      ensures this.customCardstyleDir == JoinPath(JoinPath(homeDir, ".tcg-cardgen"), "cardstyles")
      ensures this.customCardstyleDir != ""
    {
      this.customTemplateDir := customTemplateDir;
      this.customCardstyleDir := JoinPath(JoinPath(homeDir, ".tcg-cardgen"), "cardstyles");
      this.sources := sources;
      templates := map[];
      requests := map[];
    }

    /** LoadTemplate: a cached template is returned without searching;
        otherwise the search result is cached, or its error wrapped. */
    method LoadTemplate(tcg: string, cardstyle: string) returns (r: Result<Template, string>)
      requires Valid()
      modifies this
      ensures Valid()
      ensures var key := CacheKey(tcg, cardstyle);
        key in old(templates) ==> r == Ok(old(templates)[key]) && templates == old(templates)
      ensures var key := CacheKey(tcg, cardstyle);
        var found := FindAndLoad(sources, Cfg(), tcg, cardstyle);
        key !in old(templates) ==>
          && (found.Err? ==> r == Err("cardstyle " + key + " not found: " + found.error) && templates == old(templates))
          && (found.Ok? ==> r == found && templates == old(templates)[key := found.value])
      ensures r.Ok? && '/' !in tcg && '/' !in cardstyle ==> r == FindAndLoad(sources, Cfg(), tcg, cardstyle)
    {
      var key := tcg + "/" + cardstyle;
      if key in templates {
        r := Ok(templates[key]);
        if '/' !in tcg && '/' !in cardstyle {
          KeyParts(tcg, cardstyle, requests[key].0, requests[key].1);
          assert requests[key] == (tcg, cardstyle);
        }
        return;
      }
      var found := FindAndLoad(sources, Cfg(), tcg, cardstyle);
      if found.Err? {
        r := Err("cardstyle " + key + " not found: " + found.error);
        return;
      }
      templates := templates[key := found.value];
      requests := requests[key := (tcg, cardstyle)];
      r := found;
    }

    /** ListAvailableCardstyles: one entry per TCG/name, from the first place
        that lists it. */
    method ListAvailableCardstyles(d: Discovery) returns (all: seq<CardStyleInfo>)
      ensures all == FirstByKey(Discovered(Cfg(), d))
    {
      all := [];
      var seen: set<string> := {};
      ghost var workspace := Listed(d.workspace);
      ghost var upToUser := workspace + (if customCardstyleDir != "" then Listed(d.user) else []);
      ghost var upToLegacy := upToUser + (if customTemplateDir != "" then Listed(d.legacy) else []);
      all, seen := AddTier(all, seen, d.workspace, true, []);
      assert [] + workspace == workspace;
      all, seen := AddTier(all, seen, d.user, customCardstyleDir != "", workspace);
      all, seen := AddTier(all, seen, d.legacy, customTemplateDir != "", upToUser);
      all, seen := AddTier(all, seen, d.embedded, true, upToLegacy);
      assert upToLegacy + Listed(d.embedded) == Discovered(Cfg(), d);
    }
  }

  /** One discovery step: the styles of a configured tier whose discovery
      succeeded, added when their key is new. */
  method AddTier(all: seq<CardStyleInfo>, seen: set<string>, found: Result<seq<CardStyleInfo>, string>,
                 configured: bool, ghost prior: seq<CardStyleInfo>)
    returns (all': seq<CardStyleInfo>, seen': set<string>)
    requires all == FirstByKey(prior) && seen == Keys(prior)
    ensures var next := prior + (if configured then Listed(found) else []);
      all' == FirstByKey(next) && seen' == Keys(next)
  {
    if configured && found.Ok? {
      all', seen' := AddUnseen(all, seen, found.value, prior);
    } else {
      assert prior + [] == prior;
      all', seen' := all, seen;
    }
  }

  function CacheKey(tcg: string, cardstyle: string): string
  {
    tcg + "/" + cardstyle
  }

  /** A slash-free request is the only one stored under its cache key. */
  lemma KeyParts(a: string, b: string, c: string, d: string)
    requires '/' !in a && '/' !in b
    requires CacheKey(a, b) == CacheKey(c, d)
    ensures a == c && b == d
  {
    var k := CacheKey(a, b);
    assert k[..|a|] == a && k[|a|..|a| + 1] == "/";
    IndexAt(k, "/", |a|);
    assert k == c + "/" + d;
    assert OccursAt(k, "/", |c|) by {
      assert k[|c|..|c| + 1] == "/";
    }
    assert forall j :: |a| < j < |k| ==> k[j] == b[j - |a| - 1];
    assert k[|c|] == '/';
    assert |c| == |a|;
    assert k[..|c|] == c && k[|c| + 1..] == d && k[|a| + 1..] == b;
  }

  /** Different requests can share a cache key when a name holds '/'; the
      second is then served the first one's template. */
  lemma SharedCacheKey()
    ensures CacheKey("a/b", "c") == CacheKey("a", "b/c")
  {
  }
}

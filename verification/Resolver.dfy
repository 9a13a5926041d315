/** Folding configuration layers, lowest priority first
    (loopal-config/src/resolver.rs, layer.rs, resolved.rs). */
module Resolver {
  import opened Prelude
  import opened JsonValues
  import opened ConfigMerge
  import opened IndexMaps

  datatype LayerSource = Global | Plugin(name: string) | Project | Local | Env | Cli

  datatype McpServerConfig = McpServerConfig(enabled: bool, body: Json)

  datatype Skill = Skill(name: string, body: string)

  datatype ConfigLayer = ConfigLayer(source: LayerSource, settings: Json,
                                     mcpServers: IndexMap<McpServerConfig>, skills: seq<Skill>, hooks: seq<Json>,
                                     instructions: Option<string>, memory: Option<string>)

  datatype McpServerEntry = McpServerEntry(config: McpServerConfig, source: LayerSource)

  datatype SkillEntry = SkillEntry(skill: Skill, source: LayerSource)

  datatype HookEntry = HookEntry(config: Json, source: LayerSource)

  /** The settings read from the merged value, with the fields that are then
      overwritten apart. */
  datatype Settings<S> = Settings(typed: S, mcpServers: IndexMap<McpServerConfig>, hooks: seq<Json>)

  datatype ResolvedConfig<S> = ResolvedConfig(settings: Settings<S>, mcpServers: IndexMap<McpServerEntry>,
                                              skills: IndexMap<SkillEntry>, hooks: seq<HookEntry>,
                                              instructions: string, memory: string, layers: seq<LayerSource>)

  datatype ConfigError = ParseError

  // ---- texts ------------------------------------------------------------

  function TrimEnd(s: string): string {
    if s != "" && IsSpace(s[|s| - 1]) then TrimEnd(s[..|s| - 1]) else s
  }

  function TrimStart(s: string): string {
    if s != "" && IsSpace(s[0]) then TrimStart(s[1..]) else s
  }

  function Trim(s: string): string {
    TrimEnd(TrimStart(s))
  }

  function JoinWith(sep: string, parts: seq<string>): string {
    if parts == [] then ""
    else if |parts| == 1 then parts[0]
    else JoinWith(sep, parts[..|parts| - 1]) + sep + parts[|parts| - 1]
  }

  /** The part a layer contributes: its trimmed text, if any is left. */
  function Part(text: Option<string>): seq<string> {
    if text.Some? && Trim(text.value) != "" then [Trim(text.value)] else []
  }

  // ---- what one layer does ----------------------------------------------

  function SettingsStep(s: Json, layer: ConfigLayer): Json {
    if layer.settings.Null? then s else Merged(s, layer.settings)
  }

  /** A server that is enabled is inserted, one that is not is removed. */
  function ServerNaming(source: LayerSource): Entry<McpServerConfig> -> Naming<McpServerEntry> {
    (e: Entry<McpServerConfig>) =>
      Naming(e.key, if e.value.enabled then Some(McpServerEntry(e.value, source)) else None)
  }

  function SkillNaming(source: LayerSource): Skill -> Naming<SkillEntry> {
    (s: Skill) => Naming(s.name, Some(SkillEntry(s, source)))
  }

  function LayerServers(l: ConfigLayer): seq<Naming<McpServerEntry>> {
    Map(ServerNaming(l.source), l.mcpServers)
  }

  function LayerSkills(l: ConfigLayer): seq<Naming<SkillEntry>> {
    Map(SkillNaming(l.source), l.skills)
  }

  function Hooked(source: LayerSource): Json -> HookEntry {
    (config: Json) => HookEntry(config, source)
  }

  // ---- all layers -------------------------------------------------------

  function SettingsOf(defaults: Json, layers: seq<ConfigLayer>): Json {
    if layers == [] then defaults
    else SettingsStep(SettingsOf(defaults, layers[..|layers| - 1]), layers[|layers| - 1])
  }

  function McpOf(layers: seq<ConfigLayer>): IndexMap<McpServerEntry> {
    Built(FlatMap(LayerServers, layers))
  }

  function SkillsOf(layers: seq<ConfigLayer>): IndexMap<SkillEntry> {
    Built(FlatMap(LayerSkills, layers))
  }

  function LayerHooks(l: ConfigLayer): seq<HookEntry> {
    Map(Hooked(l.source), l.hooks)
  }

  function LayerInstructions(l: ConfigLayer): seq<string> {
    Part(l.instructions)
  }

  function LayerMemory(l: ConfigLayer): seq<string> {
    Part(l.memory)
  }

  function SourceOf(l: ConfigLayer): LayerSource {
    l.source
  }

  function ConfigOf(e: Entry<McpServerEntry>): Entry<McpServerConfig> {
    Entry(e.key, e.value.config)
  }

  function HookOf(h: HookEntry): Json {
    h.config
  }

  /** Everything the layers say, or the error of reading the settings. */
  function Resolution<S>(defaults: Json, parse: Json -> Option<S>, layers: seq<ConfigLayer>)
    : Result<ResolvedConfig<S>, ConfigError>
  {
    var servers, hooks, typed := McpOf(layers), FlatMap(LayerHooks, layers), parse(SettingsOf(defaults, layers));
    if typed.None? then Err(ParseError)
    else
      Ok(ResolvedConfig(Settings(typed.value, Map(ConfigOf, servers), Map(HookOf, hooks)), servers, SkillsOf(layers),
                        hooks, JoinWith("\n\n", FlatMap(LayerInstructions, layers)),
                        JoinWith("\n\n", FlatMap(LayerMemory, layers)), Map(SourceOf, layers)))
  }

  /** What the loop has gathered from some layers. */
  datatype Parts = Parts(settings: Json, mcpServers: IndexMap<McpServerEntry>, skills: IndexMap<SkillEntry>,
                         hooks: seq<HookEntry>, instructions: seq<string>, memory: seq<string>,
                         sources: seq<LayerSource>)

  function PartsOf(defaults: Json, layers: seq<ConfigLayer>): Parts {
    Parts(SettingsOf(defaults, layers), McpOf(layers), SkillsOf(layers), FlatMap(LayerHooks, layers),
          FlatMap(LayerInstructions, layers), FlatMap(LayerMemory, layers), Map(SourceOf, layers))
  }

  /** What one more layer adds. */
  function PartsStep(p: Parts, l: ConfigLayer): Parts {
    Parts(SettingsStep(p.settings, l), AppliedAll(p.mcpServers, LayerServers(l)), AppliedAll(p.skills, LayerSkills(l)),
          p.hooks + LayerHooks(l), p.instructions + LayerInstructions(l), p.memory + LayerMemory(l),
          p.sources + [l.source])
  }

  lemma OneMoreBuilt<T>(namings: ConfigLayer -> seq<Naming<T>>, before: seq<ConfigLayer>, l: ConfigLayer)
    ensures Built(FlatMap(namings, before + [l])) == AppliedAll(Built(FlatMap(namings, before)), namings(l))
  {
    FlatMapLast(namings, before, l);
    AppliedConcat([], FlatMap(namings, before), namings(l));
  }

  lemma OneMoreSettings(defaults: Json, before: seq<ConfigLayer>, l: ConfigLayer)
    ensures SettingsOf(defaults, before + [l]) == SettingsStep(SettingsOf(defaults, before), l)
  {
    assert (before + [l])[..|before|] == before;
  }

  lemma OneMoreLayer(defaults: Json, before: seq<ConfigLayer>, l: ConfigLayer)
    ensures PartsOf(defaults, before + [l]) == PartsStep(PartsOf(defaults, before), l)
  {
    OneMoreSettings(defaults, before, l);
    OneMoreBuilt(LayerServers, before, l);
    OneMoreBuilt(LayerSkills, before, l);
    FlatMapLast(LayerHooks, before, l);
    FlatMapLast(LayerInstructions, before, l);
    FlatMapLast(LayerMemory, before, l);
    MapConcat(SourceOf, before, [l]);
    assert Map(SourceOf, [l]) == [l.source];
  }

  lemma LayerUpTo(defaults: Json, layers: seq<ConfigLayer>, i: nat)
    requires i < |layers|
    ensures PartsOf(defaults, layers[..i + 1]) == PartsStep(PartsOf(defaults, layers[..i]), layers[i])
  {
    assert layers[..i + 1] == layers[..i] + [layers[i]];
    OneMoreLayer(defaults, layers[..i], layers[i]);
  }

  // ---- what a resolution says -------------------------------------------

  predicate Blank(s: string) {
    forall c :: c in s ==> IsSpace(c)
  }

  /** `t` is `s` without the white space at its ends. */
  ghost predicate IsTrimmed(t: string, s: string) {
    && (t != "" ==> !IsSpace(t[0]) && !IsSpace(t[|t| - 1]))
    && exists a, b :: Blank(a) && Blank(b) && s == a + t + b
  }

  lemma {:induction false} TrimEndCuts(s: string) returns (b: string)
    ensures Blank(b) && s == TrimEnd(s) + b
    ensures TrimEnd(s) != "" ==> !IsSpace(TrimEnd(s)[|TrimEnd(s)| - 1])
  {
    if s != "" && IsSpace(s[|s| - 1]) {
      var t := TrimEndCuts(s[..|s| - 1]);
      b := t + [s[|s| - 1]];
    } else {
      b := "";
    }
  }

  lemma {:induction false} TrimStartCuts(s: string) returns (a: string)
    ensures Blank(a) && s == a + TrimStart(s)
    ensures TrimStart(s) != "" ==> !IsSpace(TrimStart(s)[0])
  {
    if s != "" && IsSpace(s[0]) {
      var t := TrimStartCuts(s[1..]);
      a := [s[0]] + t;
    } else {
      a := "";
    }
  }

  lemma TrimIsTrimmed(s: string)
    ensures IsTrimmed(Trim(s), s) && (Trim(s) == "" <==> Blank(s))
  {
    var a := TrimStartCuts(s);
    var mid := TrimStart(s);
    var b := TrimEndCuts(mid);
    assert s == a + Trim(s) + b;
    if Trim(s) != "" {
      assert Trim(s)[0] == mid[0] && Trim(s)[0] in s;
    }
  }

  /** The texts that are there and not blank, trimmed, in order. */
  ghost predicate Gathered(texts: seq<Option<string>>, parts: seq<string>) {
    if texts == [] then parts == []
    else
      var before, text := texts[..|texts| - 1], texts[|texts| - 1];
      if text.None? || Blank(text.value) then Gathered(before, parts)
      else
        && parts != [] && IsTrimmed(parts[|parts| - 1], text.value)
        && Gathered(before, parts[..|parts| - 1])
  }

  function Glued(sep: string, parts: seq<string>): string {
    if parts == [] then ""
    else parts[0] + (if |parts| == 1 then "" else sep + Glued(sep, parts[1..]))
  }

  lemma {:induction false} GluedLast(sep: string, parts: seq<string>, last: string)
    requires parts != []
    ensures Glued(sep, parts + [last]) == Glued(sep, parts) + sep + last
  {
    var all := parts + [last];
    assert all[1..] == parts[1..] + [last];
    if |parts| > 1 {
      GluedLast(sep, parts[1..], last);
      assert parts[0] + (sep + (Glued(sep, parts[1..]) + sep + last))
          == parts[0] + (sep + Glued(sep, parts[1..])) + sep + last;
    } else {
      assert all[1..] == [last];
      assert parts[0] + (sep + last) == parts[0] + sep + last;
    }
  }

  lemma {:induction false} JoinIsGlued(sep: string, parts: seq<string>)
    ensures JoinWith(sep, parts) == Glued(sep, parts)
  {
    if |parts| > 1 {
      var before, last := parts[..|parts| - 1], parts[|parts| - 1];
      JoinIsGlued(sep, before);
      assert parts == before + [last];
      GluedLast(sep, before, last);
    }
  }

  lemma {:induction false} PartsAreGathered(part: ConfigLayer -> seq<string>, text: ConfigLayer -> Option<string>,
                                            layers: seq<ConfigLayer>)
    requires forall l :: part(l) == Part(text(l))
    ensures Gathered(Map(text, layers), FlatMap(part, layers))
  {
    if layers != [] {
      var before, l := layers[..|layers| - 1], layers[|layers| - 1];
      PartsAreGathered(part, text, before);
      assert Map(text, layers)[..|before|] == Map(text, before);
      if text(l).Some? {
        TrimIsTrimmed(text(l).value);
      }
      if Part(text(l)) == [] {
        assert FlatMap(part, layers) == FlatMap(part, before);
      } else {
        assert FlatMap(part, layers) == FlatMap(part, before) + [Trim(text(l).value)];
      }
    }
  }

  /** `text` is what the layers say, lowest first, a blank line between. */
  ghost predicate Says(text: string, texts: seq<Option<string>>) {
    exists parts :: Gathered(texts, parts) && text == Glued("\n\n", parts)
  }

  /** Number of hooks in the layers before. */
  function HookOffset(layers: seq<ConfigLayer>): nat {
    if layers == [] then 0 else HookOffset(layers[..|layers| - 1]) + |layers[|layers| - 1].hooks|
  }

  /** Hook `k` of layer `i` stands after all hooks of lower layers. */
  predicate HookInPlace(hooks: seq<HookEntry>, layers: seq<ConfigLayer>, i: nat, k: nat)
    requires i < |layers| && k < |layers[i].hooks|
  {
    var at := HookOffset(layers[..i]) + k;
    at < |hooks| && hooks[at] == HookEntry(layers[i].hooks[k], layers[i].source)
  }

  predicate HooksInPlace(hooks: seq<HookEntry>, layers: seq<ConfigLayer>) {
    && |hooks| == HookOffset(layers)
    && forall i: nat, k: nat :: i < |layers| && k < |layers[i].hooks| ==> HookInPlace(hooks, layers, i, k)
  }

  lemma {:induction false} HooksStand(layers: seq<ConfigLayer>)
    ensures HooksInPlace(FlatMap(LayerHooks, layers), layers)
  {
    if layers != [] {
      var before, l := layers[..|layers| - 1], layers[|layers| - 1];
      HooksStand(before);
      var hooks, earlier := FlatMap(LayerHooks, layers), FlatMap(LayerHooks, before);
      assert hooks == earlier + LayerHooks(l);
      forall i: nat, k: nat | i < |layers| && k < |layers[i].hooks| ensures HookInPlace(hooks, layers, i, k) {
        if i < |before| {
          assert before[i] == layers[i] && before[..i] == layers[..i];
          assert HookInPlace(earlier, before, i, k);
        } else {
          assert layers[..i] == before && hooks[|earlier| + k] == LayerHooks(l)[k];
        }
      }
    }
  }

  /** Instructions, memory, hooks, sources, and the fields of the settings that
      are copied from the resolved ones. */
  ghost predicate Agrees<S>(r: ResolvedConfig<S>, layers: seq<ConfigLayer>) {
    && Says(r.instructions, Map((l: ConfigLayer) => l.instructions, layers))
    && Says(r.memory, Map((l: ConfigLayer) => l.memory, layers))
    && HooksInPlace(r.hooks, layers)
    && |r.layers| == |layers| && (forall i :: 0 <= i < |layers| ==> r.layers[i] == layers[i].source)
    && |r.settings.hooks| == |r.hooks| && (forall i :: 0 <= i < |r.hooks| ==> r.settings.hooks[i] == r.hooks[i].config)
    && |r.settings.mcpServers| == |r.mcpServers|
    && (forall i :: 0 <= i < |r.mcpServers| ==>
          r.settings.mcpServers[i] == Entry(r.mcpServers[i].key, r.mcpServers[i].value.config))
  }

  lemma TextsSay(part: ConfigLayer -> seq<string>, text: ConfigLayer -> Option<string>, layers: seq<ConfigLayer>)
    requires forall l :: part(l) == Part(text(l))
    ensures Says(JoinWith("\n\n", FlatMap(part, layers)), Map(text, layers))
  {
    PartsAreGathered(part, text, layers);
    JoinIsGlued("\n\n", FlatMap(part, layers));
  }

  /** What the fold computes is what the layers say. */
  lemma ResolutionAgrees<S>(defaults: Json, parse: Json -> Option<S>, layers: seq<ConfigLayer>)
    ensures var r := Resolution(defaults, parse, layers);
            && (r.Ok? <==> parse(SettingsOf(defaults, layers)).Some?)
            && (r.Ok? ==>
                  && Agrees(r.value, layers) && r.value.settings.typed == parse(SettingsOf(defaults, layers)).value
                  && r.value.mcpServers == McpOf(layers) && r.value.skills == SkillsOf(layers))
  {
    TextsSay(LayerInstructions, (l: ConfigLayer) => l.instructions, layers);
    TextsSay(LayerMemory, (l: ConfigLayer) => l.memory, layers);
    HooksStand(layers);
  }

  class ConfigResolver {
    var layers: seq<ConfigLayer>

    constructor ()
      ensures layers == []
    {
      layers := [];
    }

    method AddLayer(layer: ConfigLayer)
      modifies this
      ensures layers == old(layers) + [layer]
    {
      layers := layers + [layer];
    }

    /** `defaults` are the default settings as a value, `parse` reads a value
        as settings. */
    method Resolve<S>(defaults: Json, parse: Json -> Option<S>) returns (r: Result<ResolvedConfig<S>, ConfigError>)
      ensures r == Resolution(defaults, parse, layers)
      ensures r.Ok? <==> parse(SettingsOf(defaults, layers)).Some?
      ensures r.Ok? ==> Agrees(r.value, layers)
    {
      ResolutionAgrees(defaults, parse, layers);
      var settings := defaults;
      var mcpServers: IndexMap<McpServerEntry> := [];
      var skills: IndexMap<SkillEntry> := [];
      var hooks: seq<HookEntry> := [];
      var instructionParts, memoryParts: seq<string> := [], [];
      var sources: seq<LayerSource> := [];
      for i := 0 to |layers|
        invariant Parts(settings, mcpServers, skills, hooks, instructionParts, memoryParts, sources)
               == PartsOf(defaults, layers[..i])
      {
        LayerUpTo(defaults, layers, i);
        var layer := layers[i];
        sources := sources + [layer.source];
        settings := MergeSettings(settings, layer);
        mcpServers := MergeServers(mcpServers, layer);
        skills := MergeSkills(skills, layer);
        hooks := AppendHooks(hooks, layer);
        instructionParts := instructionParts + LayerInstructions(layer);
        memoryParts := memoryParts + LayerMemory(layer);
      }
      assert layers[..|layers|] == layers;
      var typed := parse(settings);
      if typed.None? {
        return Err(ParseError);
      }
      var synced := Settings(typed.value, Map(ConfigOf, mcpServers), Map(HookOf, hooks));
      r := Ok(ResolvedConfig(synced, mcpServers, skills, hooks, JoinWith("\n\n", instructionParts),
                             JoinWith("\n\n", memoryParts), sources));
    }
  }

  method MergeSettings(settings: Json, layer: ConfigLayer) returns (r: Json)
    ensures r == SettingsStep(settings, layer)
  {
    r := settings;
    if !layer.settings.Null? {
      r := DeepMerge(settings, layer.settings);
    }
  }

  method MergeServers(servers: IndexMap<McpServerEntry>, layer: ConfigLayer) returns (r: IndexMap<McpServerEntry>)
    ensures r == AppliedAll(servers, LayerServers(layer))
  {
    r := servers;
    ghost var ns := LayerServers(layer);
    for i := 0 to |layer.mcpServers|
      invariant r == AppliedAll(servers, ns[..i])
    {
      assert ns[..i + 1][..i] == ns[..i];
      var name, config := layer.mcpServers[i].key, layer.mcpServers[i].value;
      if config.enabled {
        r := Insert(r, name, McpServerEntry(config, layer.source));
      } else {
        r := ShiftRemove(r, name);
      }
    }
    assert ns[..|ns|] == ns;
  }

  method MergeSkills(skills: IndexMap<SkillEntry>, layer: ConfigLayer) returns (r: IndexMap<SkillEntry>)
    ensures r == AppliedAll(skills, LayerSkills(layer))
  {
    r := skills;
    ghost var ns := LayerSkills(layer);
    for i := 0 to |layer.skills|
      invariant r == AppliedAll(skills, ns[..i])
    {
      assert ns[..i + 1][..i] == ns[..i];
      r := Insert(r, layer.skills[i].name, SkillEntry(layer.skills[i], layer.source));
    }
    assert ns[..|ns|] == ns;
  }

  method AppendHooks(hooks: seq<HookEntry>, layer: ConfigLayer) returns (r: seq<HookEntry>)
    ensures r == hooks + LayerHooks(layer)
  {
    r := hooks;
    for i := 0 to |layer.hooks|
      invariant r == hooks + LayerHooks(layer)[..i]
    {
      r := r + [HookEntry(layer.hooks[i], layer.source)];
    }
    assert LayerHooks(layer)[..|layer.hooks|] == LayerHooks(layer);
  }

  // ---- which layer decides ----------------------------------------------

  predicate LeavesAlone(layer: ConfigLayer, path: seq<string>) {
    layer.settings.Null? || Untouched(layer.settings, path)
  }

  /** The layers from `i` on leave a path as it was. */
  lemma {:induction false} LaterLayersKeep(defaults: Json, layers: seq<ConfigLayer>, i: nat, path: seq<string>)
    requires i <= |layers| && forall j :: i <= j < |layers| ==> LeavesAlone(layers[j], path)
    ensures Lookup(SettingsOf(defaults, layers), path) == Lookup(SettingsOf(defaults, layers[..i]), path)
  {
    if i == |layers| {
      assert layers[..i] == layers;
    } else {
      var before, last := layers[..|layers| - 1], layers[|layers| - 1];
      LaterLayersKeep(defaults, before, i, path);
      assert before[..i] == layers[..i];
      if !last.settings.Null? {
        BaseSurvives(SettingsOf(defaults, before), last.settings, path);
      }
    }
  }

  /** A leaf set by a layer survives all later layers that leave its path
      alone, whatever the layers before it said. */
  lemma LastLeafWins(defaults: Json, layers: seq<ConfigLayer>, i: nat, path: seq<string>)
    requires i < |layers| && !layers[i].settings.Null?
    requires Lookup(layers[i].settings, path).Some? && !Lookup(layers[i].settings, path).value.Obj?
    requires forall j :: i < j < |layers| ==> LeavesAlone(layers[j], path)
    ensures Lookup(SettingsOf(defaults, layers), path) == Lookup(layers[i].settings, path)
  {
    LaterLayersKeep(defaults, layers, i + 1, path);
    assert layers[..i + 1][..i] == layers[..i];
    OverlayWins(SettingsOf(defaults, layers[..i]), layers[i].settings, path);
  }

  /** A layer that puts a non-object on the way removes the path for good,
      until a later layer touches it again. */
  lemma LastCutWins(defaults: Json, layers: seq<ConfigLayer>, i: nat, path: seq<string>)
    requires i < |layers| && !layers[i].settings.Null?
    requires Lookup(layers[i].settings, path).None? && !Untouched(layers[i].settings, path)
    requires forall j :: i < j < |layers| ==> LeavesAlone(layers[j], path)
    ensures Lookup(SettingsOf(defaults, layers), path).None?
  {
    LaterLayersKeep(defaults, layers, i + 1, path);
    assert layers[..i + 1][..i] == layers[..i];
    CutPathsVanish(SettingsOf(defaults, layers[..i]), layers[i].settings, path);
  }

  /** The last layer that names a server, -1 if none does. */
  function LastNaming(layers: seq<ConfigLayer>, name: string): (i: int)
    ensures -1 <= i < |layers|
    ensures i >= 0 ==> Find(layers[i].mcpServers, name).Some?
    ensures forall j :: i < j < |layers| ==> Find(layers[j].mcpServers, name).None?
  {
    if layers == [] then -1
    else if Find(layers[|layers| - 1].mcpServers, name).Some? then |layers| - 1
    else LastNaming(layers[..|layers| - 1], name)
  }

  lemma {:induction false} LayerNames(l: ConfigLayer, es: IndexMap<McpServerConfig>, name: string)
    ensures var ns, c := Map(ServerNaming(l.source), es), Find(es, name);
            && (c.Some? <==> exists i :: 0 <= i < |ns| && ns[i].key == name)
            && LastValue(ns, name) ==
                 if c.Some? && c.value.enabled then Some(McpServerEntry(c.value, l.source)) else None
  {
    if es != [] {
      var t, ns := es[..|es| - 1], Map(ServerNaming(l.source), es);
      LayerNames(l, t, name);
      assert ns[..|es| - 1] == Map(ServerNaming(l.source), t);
      assert forall i :: 0 <= i < |t| ==> ns[i] == ns[..|es| - 1][i];
      assert ns[|es| - 1].key == es[|es| - 1].key;
    }
  }

  lemma {:induction false} LastNamingDecidesValue(layers: seq<ConfigLayer>, name: string)
    ensures var i := LastNaming(layers, name);
            LastValue(FlatMap(LayerServers, layers), name) ==
              if i >= 0 && Find(layers[i].mcpServers, name).value.enabled
              then Some(McpServerEntry(Find(layers[i].mcpServers, name).value, layers[i].source)) else None
  {
    if layers != [] {
      var before, l := layers[..|layers| - 1], layers[|layers| - 1];
      LastNamingDecidesValue(before, name);
      LayerNames(l, l.mcpServers, name);
      LastValueConcat(FlatMap(LayerServers, before), LayerServers(l), name);
    }
  }

  /** A server is present iff the last layer naming it enables it, and then
      with that layer's configuration and source. */
  lemma LastNamingDecides(layers: seq<ConfigLayer>, name: string)
    ensures var i := LastNaming(layers, name);
            Find(McpOf(layers), name) ==
              if i >= 0 && Find(layers[i].mcpServers, name).value.enabled
              then Some(McpServerEntry(Find(layers[i].mcpServers, name).value, layers[i].source)) else None
  {
    LastNamingDecidesValue(layers, name);
    BuiltFind(FlatMap(LayerServers, layers), name);
  }

  /** No name twice, and servers stand in the order in which they came to stay:
      replacing one keeps its place, removing and naming it again does not. */
  lemma ServersInOrder(layers: seq<ConfigLayer>)
    ensures DistinctKeys(McpOf(layers)) && InOrder(FlatMap(LayerServers, layers), McpOf(layers))
  {
    BuiltInOrder(FlatMap(LayerServers, layers));
  }

  /** Skill `k` of layer `i` is the last of its name. */
  predicate IsLastSkill(layers: seq<ConfigLayer>, i: nat, k: nat)
    requires i < |layers| && k < |layers[i].skills|
  {
    var name := layers[i].skills[k].name;
    && (forall j :: k < j < |layers[i].skills| ==> layers[i].skills[j].name != name)
    && (forall n, j :: i < n < |layers| && 0 <= j < |layers[n].skills| ==> layers[n].skills[j].name != name)
  }

  /** The last skill of a name in the last layer that has one. */
  lemma SkillNames(layers: seq<ConfigLayer>, i: nat, k: nat)
    requires i < |layers| && k < |layers[i].skills| && IsLastSkill(layers, i, k)
    ensures var s := layers[i].skills[k];
            Find(SkillsOf(layers), s.name) == Some(SkillEntry(s, layers[i].source))
  {
    SkillValue(layers, i, k);
    BuiltFind(FlatMap(LayerSkills, layers), layers[i].skills[k].name);
  }

  lemma {:induction false} LayerSkillValue(source: LayerSource, skills: seq<Skill>, k: nat)
    requires k < |skills| && forall j :: k < j < |skills| ==> skills[j].name != skills[k].name
    ensures LastValue(Map(SkillNaming(source), skills), skills[k].name) == Some(SkillEntry(skills[k], source))
  {
    var t, ns := skills[..|skills| - 1], Map(SkillNaming(source), skills);
    assert ns[..|ns| - 1] == Map(SkillNaming(source), t);
    if k < |skills| - 1 {
      LayerSkillValue(source, t, k);
    }
  }

  lemma {:induction false} SkillValue(layers: seq<ConfigLayer>, i: nat, k: nat)
    requires i < |layers| && k < |layers[i].skills| && IsLastSkill(layers, i, k)
    ensures var s := layers[i].skills[k];
            LastValue(FlatMap(LayerSkills, layers), s.name) == Some(SkillEntry(s, layers[i].source))
  {
    var before, l, name := layers[..|layers| - 1], layers[|layers| - 1], layers[i].skills[k].name;
    var ns := LayerSkills(l);
    LastValueConcat(FlatMap(LayerSkills, before), ns, name);
    if i == |layers| - 1 {
      LayerSkillValue(l.source, l.skills, k);
      assert ns[k].key == name;
    } else {
      SkillValue(before, i, k);
      assert forall j :: 0 <= j < |ns| ==> ns[j].key == l.skills[j].name;
    }
  }
}

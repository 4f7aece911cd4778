/**
 The preset table: for each preset name, the configuration files it produces.
 The "experimental decorators" switch is an explicit parameter rather than
 state captured at construction time.
 */
module Presets {
  import opened Wrappers
  import opened Json

  /** One file of a multi-file preset: where it goes and what it holds. */
  datatype FileEntry = FileEntry(filename: string, content: Json)

  /** A preset is either one `tsconfig.json` or an ordered list of files. */
  datatype Descriptor =
    | Single(content: Json)
    | Multi(files: seq<FileEntry>)

  const PresetNames: set<string> := {"vite", "node", "next"}

  /** The file a single-file preset is written to. */
  const RootFile: string := "tsconfig.json"

  const ExperimentalDecoratorsKey: string := "experimentalDecorators"
  const EmitDecoratorMetadataKey: string := "emitDecoratorMetadata"
  const CompilerOptionsKey: string := "compilerOptions"

  /** The options spread into the decorated `compilerOptions`: both `true` when the switch is on, nothing otherwise. */
  function CommonDecorators(isExperimental: bool): (decorators: seq<Member>)
    ensures |decorators| == if isExperimental then 2 else 0
    ensures HasKey(decorators, ExperimentalDecoratorsKey) == isExperimental
    ensures HasKey(decorators, EmitDecoratorMetadataKey) == isExperimental
    ensures forall i :: 0 <= i < |decorators| ==> decorators[i].value == JBool(true)
  {
    if isExperimental then
      var ds := [Member(ExperimentalDecoratorsKey, JBool(true)), Member(EmitDecoratorMetadataKey, JBool(true))];
      assert ds[0].key == ExperimentalDecoratorsKey && ds[1].key == EmitDecoratorMetadataKey;
      ds
    else []
  }

  const True: Json := JBool(true)

  // ---- vite: tsconfig.json (the orchestrator) ----

  const ViteRoot: Json := JObject([
    Member("files", JArray([])),
    Member("references", JArray([
      JObject([Member("path", JString("./tsconfig.app.json"))]),
      JObject([Member("path", JString("./tsconfig.node.json"))])
    ]))
  ])

  // ---- vite: tsconfig.app.json (the browser application) ----

  const ViteAppOptions: seq<Member> := [
    Member("target", JString("ES2020")),
    Member("useDefineForClassFields", True),
    Member("lib", JArray([JString("ES2020"), JString("DOM"), JString("DOM.Iterable")])),
    Member("module", JString("ESNext")),
    Member("skipLibCheck", True),
    Member("moduleResolution", JString("bundler")),
    Member("allowImportingTsExtensions", True),
    Member("resolveJsonModule", True),
    Member("isolatedModules", True),
    Member("moduleDetection", JString("force")),
    Member("noEmit", True),
    Member("jsx", JString("react-jsx")),
    Member("strict", True),
    Member("noUnusedLocals", True),
    Member("noUnusedParameters", True),
    Member("noFallthroughCasesInSwitch", True)
  ]

  function ViteApp(isExperimental: bool): Json
  {
    JObject([
      Member(CompilerOptionsKey, JObject(Spread(ViteAppOptions, CommonDecorators(isExperimental)))),
      Member("include", JArray([JString("src")]))
    ])
  }

  // ---- vite: tsconfig.node.json (the build tooling) ----

  const ViteNodeOptions: seq<Member> := [
    Member("target", JString("ES2022")),
    Member("lib", JArray([JString("ES2022")])),
    Member("module", JString("ESNext")),
    Member("skipLibCheck", True),
    Member("moduleResolution", JString("bundler")),
    Member("allowImportingTsExtensions", True),
    Member("isolatedModules", True),
    Member("moduleDetection", JString("force")),
    Member("noEmit", True),
    Member("strict", True),
    Member("noUnusedLocals", True),
    Member("noUnusedParameters", True),
    Member("noFallthroughCasesInSwitch", True)
  ]

  const ViteNode: Json := JObject([
    Member(CompilerOptionsKey, JObject(ViteNodeOptions)),
    Member("include", JArray([JString("vite.config.ts")]))
  ])

  // ---- node ----

  const NodeOptions: seq<Member> := [
    Member("target", JString("ES2022")),
    Member("module", JString("NodeNext")),
    Member("moduleResolution", JString("NodeNext")),
    Member("lib", JArray([JString("ES2022")])),
    Member("outDir", JString("./dist")),
    Member("rootDir", JString("./src")),
    Member("strict", True),
    Member("noImplicitAny", True),
    Member("esModuleInterop", True),
    Member("skipLibCheck", True),
    Member("forceConsistentCasingInFileNames", True)
  ]

  function NodeConfig(isExperimental: bool): Json
  {
    JObject([
      Member(CompilerOptionsKey, JObject(Spread(NodeOptions, CommonDecorators(isExperimental)))),
      Member("include", JArray([JString("src/**/*")])),
      Member("exclude", JArray([JString("node_modules"), JString("**/*.spec.ts")]))
    ])
  }

  // ---- next ----

  const NextOptions: seq<Member> := [
    Member("target", JString("es5")),
    Member("lib", JArray([JString("dom"), JString("dom.iterable"), JString("esnext")])),
    Member("allowJs", True),
    Member("skipLibCheck", True),
    Member("strict", True),
    Member("forceConsistentCasingInFileNames", True),
    Member("noEmit", True),
    Member("esModuleInterop", True),
    Member("module", JString("esnext")),
    Member("moduleResolution", JString("node")),
    Member("resolveJsonModule", True),
    Member("isolatedModules", True),
    Member("jsx", JString("preserve")),
    Member("incremental", True),
    Member("plugins", JArray([JObject([Member("name", JString("next"))])]))
  ]

  function NextConfig(isExperimental: bool): Json
  {
    JObject([
      Member(CompilerOptionsKey, JObject(Spread(NextOptions, CommonDecorators(isExperimental)))),
      Member("include", JArray([JString("next-env.d.ts"), JString("**/*.ts"), JString("**/*.tsx"), JString(".next/types/**/*.ts")])),
      Member("exclude", JArray([JString("node_modules")]))
    ])
  }

  /** The file names a list of files targets. */
  function NameSet(files: seq<FileEntry>): set<string>
  {
    set e | e in files :: e.filename
  }

  /**
   The files a descriptor materializes into: a single preset always goes to
   `tsconfig.json` with its one config, a multi preset to its own list, in order.
   */
  function Targets(d: Descriptor): (files: seq<FileEntry>)
    ensures match d
            case Single(c) => NameSet(files) == {RootFile} && |files| == 1 && files[0].content == c
            case Multi(listed) => files == listed
  {
    match d
    case Single(c) => [FileEntry(RootFile, c)]
    case Multi(files) => files
  }

  /** The vite files: the orchestrator, the application config and the build-tool config, in that order. */
  function ViteFiles(isExperimental: bool): (files: seq<FileEntry>)
    ensures |files| == 3
    ensures files[0].filename == RootFile
    ensures files[1].filename == "tsconfig.app.json"
    ensures files[2].filename == "tsconfig.node.json"
  {
    [
      FileEntry(RootFile, ViteRoot),
      FileEntry("tsconfig.app.json", ViteApp(isExperimental)),
      FileEntry("tsconfig.node.json", ViteNode)
    ]
  }

  /**
   The preset table. It holds exactly `vite`, `node` and `next`; `vite` is the
   multi-file preset, `node` and `next` are single-file.
   */
  function GetPresets(isExperimental: bool): (presets: map<string, Descriptor>)
    ensures presets.Keys == PresetNames
    ensures presets["vite"] == Multi(ViteFiles(isExperimental))
    ensures presets["node"] == Single(NodeConfig(isExperimental))
    ensures presets["next"] == Single(NextConfig(isExperimental))
  {
    map[
      "vite" := Multi(ViteFiles(isExperimental)),
      "node" := Single(NodeConfig(isExperimental)),
      "next" := Single(NextConfig(isExperimental))
    ]
  }

  /** The `compilerOptions` members of a config, or none when it has no such object member. */
  function OptionsOf(config: Json): seq<Member>
  {
    if config.JObject? then
      match Get(config.members, CompilerOptionsKey)
      case Some(JObject(opts)) => opts
      case _ => []
    else []
  }

  /** Neither decorator option is present at all (absent, not present-and-false). */
  predicate NoDecoratorKeys(config: Json)
  {
    LacksDecorators(OptionsOf(config))
  }

  /**
   `on` is `off` with the two decorator options appended to its
   `compilerOptions`: the same top-level keys in the same order, every other
   top-level member reading the same, and the options object extended at its
   end only.
   */
  ghost predicate DecoratedFrom(on: Json, off: Json)
  {
    && on.JObject? && off.JObject?
    && Keys(on.members) == Keys(off.members)
    && Get(off.members, CompilerOptionsKey) == Some(JObject(OptionsOf(off)))
    && Get(on.members, CompilerOptionsKey) == Some(JObject(OptionsOf(off) + CommonDecorators(true)))
    && forall k :: k != CompilerOptionsKey ==> Get(on.members, k) == Get(off.members, k)
  }

  /** The option list lacks both decorator keys. */
  predicate LacksDecorators(opts: seq<Member>)
  {
    !HasKey(opts, ExperimentalDecoratorsKey) && !HasKey(opts, EmitDecoratorMetadataKey)
  }

  /** None of the authored option lists mentions either decorator key. */
  lemma AuthoredOptionsLackDecorators()
    ensures LacksDecorators(ViteAppOptions) && LacksDecorators(ViteNodeOptions)
    ensures LacksDecorators(NodeOptions) && LacksDecorators(NextOptions)
  {
  }

  /** Spreading the decorators onto options that lack them is plain appending. */
  lemma DecoratorsAppend(opts: seq<Member>, isExperimental: bool)
    requires LacksDecorators(opts)
    ensures Spread(opts, CommonDecorators(isExperimental)) == opts + CommonDecorators(isExperimental)
  {
    SpreadFreshKeysAppends(opts, CommonDecorators(isExperimental));
  }

  /** A config whose first member is `compilerOptions` and which differs from another only in that member's value. */
  lemma {:induction false} OptionsFirstDecorated(onOpts: seq<Member>, offOpts: seq<Member>, rest: seq<Member>)
    requires onOpts == offOpts + CommonDecorators(true)
    ensures DecoratedFrom(JObject([Member(CompilerOptionsKey, JObject(onOpts))] + rest),
                          JObject([Member(CompilerOptionsKey, JObject(offOpts))] + rest))
  {
    var on := [Member(CompilerOptionsKey, JObject(onOpts))] + rest;
    var off := [Member(CompilerOptionsKey, JObject(offOpts))] + rest;
    assert on[1..] == rest && off[1..] == rest;
    assert Keys(on) == [CompilerOptionsKey] + Keys(rest);
    assert Keys(off) == [CompilerOptionsKey] + Keys(rest);
  }

  /** The vite application config is decorated by the switch. */
  lemma ViteAppDecorated()
    ensures DecoratedFrom(ViteApp(true), ViteApp(false))
  {
    assert LacksDecorators(ViteAppOptions);
    DecoratorsAppend(ViteAppOptions, true);
    DecoratorsAppend(ViteAppOptions, false);
    OptionsFirstDecorated(ViteAppOptions + CommonDecorators(true), ViteAppOptions, ViteApp(false).members[1..]);
    assert ViteApp(false).members == [Member(CompilerOptionsKey, JObject(ViteAppOptions))] + ViteApp(false).members[1..];
    assert ViteApp(true).members == [Member(CompilerOptionsKey, JObject(ViteAppOptions + CommonDecorators(true)))] + ViteApp(false).members[1..];
  }

  /** The node config is decorated by the switch. */
  lemma NodeDecorated()
    ensures DecoratedFrom(NodeConfig(true), NodeConfig(false))
  {
    assert LacksDecorators(NodeOptions);
    DecoratorsAppend(NodeOptions, true);
    DecoratorsAppend(NodeOptions, false);
    OptionsFirstDecorated(NodeOptions + CommonDecorators(true), NodeOptions, NodeConfig(false).members[1..]);
    assert NodeConfig(false).members == [Member(CompilerOptionsKey, JObject(NodeOptions))] + NodeConfig(false).members[1..];
    assert NodeConfig(true).members == [Member(CompilerOptionsKey, JObject(NodeOptions + CommonDecorators(true)))] + NodeConfig(false).members[1..];
  }

  /** The next config is decorated by the switch. */
  lemma NextDecorated()
    ensures DecoratedFrom(NextConfig(true), NextConfig(false))
  {
    assert LacksDecorators(NextOptions);
    DecoratorsAppend(NextOptions, true);
    DecoratorsAppend(NextOptions, false);
    OptionsFirstDecorated(NextOptions + CommonDecorators(true), NextOptions, NextConfig(false).members[1..]);
    assert NextConfig(false).members == [Member(CompilerOptionsKey, JObject(NextOptions))] + NextConfig(false).members[1..];
    assert NextConfig(true).members == [Member(CompilerOptionsKey, JObject(NextOptions + CommonDecorators(true)))] + NextConfig(false).members[1..];
  }

  /**
   Turning the switch on changes vite only in `tsconfig.app.json`, and there
   only by appending the decorator options to `compilerOptions`; the
   orchestrator and the build-tool config are identical, and every file keeps
   its name and position.
   */
  lemma ViteFlagEffect()
    ensures var on := ViteFiles(true);
            var off := ViteFiles(false);
            && |on| == 3 == |off|
            && on[0] == off[0] && on[2] == off[2]
            && on[1].filename == off[1].filename == "tsconfig.app.json"
            && DecoratedFrom(on[1].content, off[1].content)
  {
    ViteAppDecorated();
  }

  /** With the switch off, no file of any preset carries either decorator key. */
  lemma FlagOffOmitsDecorators()
    ensures forall i :: 0 <= i < |ViteFiles(false)| ==> NoDecoratorKeys(ViteFiles(false)[i].content)
    ensures NoDecoratorKeys(NodeConfig(false)) && NoDecoratorKeys(NextConfig(false))
  {
    AuthoredOptionsLackDecorators();
    DecoratorsAppend(ViteAppOptions, false);
    DecoratorsAppend(NodeOptions, false);
    DecoratorsAppend(NextOptions, false);
  }

  /** In a decorated config both options read `true`, after all the authored options. */
  lemma {:induction false} DecoratedOptionsAreTrue(on: Json, off: Json)
    requires DecoratedFrom(on, off) && NoDecoratorKeys(off)
    ensures Keys(OptionsOf(on)) == Keys(OptionsOf(off)) + [ExperimentalDecoratorsKey, EmitDecoratorMetadataKey]
    ensures Get(OptionsOf(on), ExperimentalDecoratorsKey) == Some(JBool(true))
    ensures Get(OptionsOf(on), EmitDecoratorMetadataKey) == Some(JBool(true))
  {
    var opts := OptionsOf(off);
    assert OptionsOf(on) == opts + CommonDecorators(true);
    GetAppend(opts, CommonDecorators(true), ExperimentalDecoratorsKey);
    GetAppend(opts, CommonDecorators(true), EmitDecoratorMetadataKey);
  }

  /**
   With the switch on, the vite application config holds both decorator
   options as `true` while the build-tool config holds neither.
   */
  lemma ViteExperimentalContents()
    ensures Get(OptionsOf(ViteApp(true)), ExperimentalDecoratorsKey) == Some(JBool(true))
    ensures Get(OptionsOf(ViteApp(true)), EmitDecoratorMetadataKey) == Some(JBool(true))
    ensures NoDecoratorKeys(ViteNode)
  {
    ViteAppDecorated();
    FlagOffOmitsDecorators();
    assert ViteFiles(false)[1].content == ViteApp(false) && ViteFiles(false)[2].content == ViteNode;
    DecoratedOptionsAreTrue(ViteApp(true), ViteApp(false));
  }
}

# mytsfy: a Dafny model of the TypeScript-config scaffolding CLI

`mytsfy <preset> [-y|--init] [--experimental]` writes ready-made `tsconfig`
files into the current directory. This project models its whole run as pure
functions:

- **Preset table** (`Presets`, `presets.dfy`): `GetPresets(isExperimental)` maps
  `vite`, `node` and `next` to descriptors. A descriptor is `Single` (one config
  written to `tsconfig.json`) or `Multi` (an ordered list of file name and
  config). Configs are JSON values whose objects are ordered member lists
  (`Json`, `json.dfy`). The decorator switch is spread into `compilerOptions`
  with JavaScript's object-spread semantics: a new key is appended, and an
  existing key is redefined in place.
- **Argument resolution** (`Cli`, `cli.dfy`): the lower-cased first token names
  the preset. `-y`/`--init` and `--experimental` are whole-token, presence-only
  flags that may appear anywhere. A missing or unknown preset is the only usage
  error, with exit status 1.
- **Write-if-absent generator** (`Generator`, `generator.dfy`): the working
  directory is a `map<string, string>` from file name to text. `WriteJson`
  never overwrites. A preset's files are written one by one, in list order.
  The method `WriteEach` is the `forEach` loop of index.js, and the method
  `Generate` is its multi/single dispatch. Both are proved equal to the
  recursive `WriteAll`.
- **Manifest bootstrap and the whole run** (`Run`, `run.dfy`): `npm init -y` is
  invoked exactly when the init flag is set and `package.json` is absent. Its
  outcome is a parameter, and a failure still ends the run with status 0.

JSON serialization (`JSON.stringify(content, null, 2)`) is the function
parameter `serialize`. Nothing in the model depends on its formatting.

The decorator set is spread into three option lists: the vite application
config `tsconfig.app.json` (index.js:50), the node config (index.js:95) and the
next config (index.js:122). The vite orchestrator `tsconfig.json` and the
build-tool config `tsconfig.node.json` never receive it.

## Model

| member | source | states |
|---|---|---|
| Json.Assign | index.js:50 | defining one spread property on an object that lacks the key appends it at the end; redefining an existing key keeps the member count |
| Json.AssignGet | index.js:50 | after one spread property is defined, that key reads as the new value and every other key reads as before |
| Json.AssignExistingKeepsOrder | index.js:95 | redefining a key that already exists keeps the object's key order |
| Json.Spread | index.js:50 | `{...ms, ...extra}` defines the members of `extra` one by one, in order; the result has at least the members of `ms` in number, and at most one more per spread member (how each key reads is `SpreadGet`) |
| Json.SpreadGet | index.js:122 | after `{...ms, ...extra}`, each key of `extra` reads as `extra`'s value and every other key reads as in `ms` |
| Json.SpreadFreshKeysAppends | index.js:10-13 | spreading pairwise-distinct keys that are all new is concatenation: authored members keep keys, values and order, and the new ones follow in order |
| Presets.CommonDecorators | index.js:10-13 | with the switch on, the decorator set has two members, `experimentalDecorators` and `emitDecoratorMetadata`, both true; with it off, it is empty |
| Presets.ViteFiles | index.js:17-76 | the vite file list names tsconfig.json, tsconfig.app.json and tsconfig.node.json, in that order |
| Presets.GetPresets | index.js:15-127 | the table has exactly the keys vite, node and next; vite is the multi descriptor of the vite files; node and next are single descriptors of their configs |
| Presets.Targets | index.js:168-172 | a single-file preset has exactly one target, `tsconfig.json`, holding its config; a multi-file preset targets its own list, unchanged and in order |
| Presets.AuthoredOptionsLackDecorators | index.js:33-121 | no authored compilerOptions list contains experimentalDecorators or emitDecoratorMetadata |
| Presets.DecoratorsAppend | index.js:10-13 | spreading the decorator set onto options that lack those keys appends it (two keys when on, none when off) |
| Presets.ViteAppDecorated | index.js:31-53 | the flag-on tsconfig.app.json equals the flag-off one with the two decorator options appended to compilerOptions, all else equal |
| Presets.NodeDecorated | index.js:80-100 | the same for the node preset |
| Presets.NextDecorated | index.js:103-127 | the same for the next preset |
| Presets.ViteFlagEffect | index.js:17-76 | for vite, the flag keeps all three file names and positions; it leaves the root tsconfig.json and tsconfig.node.json identical and changes tsconfig.app.json only by appending the decorator options to compilerOptions |
| Presets.FlagOffOmitsDecorators | index.js:10-13 | with the flag off, no vite file and neither the node nor the next config has either decorator key in compilerOptions (absent, not false) |
| Presets.DecoratedOptionsAreTrue | index.js:11-12 | in a decorated config, the option keys are the authored ones followed by the two decorator keys, and both read true |
| Presets.ViteExperimentalContents | index.js:50-71 | with the flag on, vite's app config has both decorator options true and its build-tool config has neither |
| Cli.ToLower | index.js:133 | lower-casing keeps the length and maps each character through the ASCII lower-case mapping |
| Cli.ToLowerMeaning | index.js:133 | the result has no upper-case letter; non-letters and lower-case letters are kept; upper-case letters move by 32 code points |
| Cli.ToLowerIdempotent | index.js:133 | lower-casing twice equals lower-casing once |
| Cli.ParseArgs | index.js:132-135 | the preset is absent iff there is no first token or it is empty, and is otherwise the lower-cased first token; shouldInit iff some token is -y or --init; isExperimental iff some token is --experimental |
| Cli.ParseIgnoresFlagPositions | index.js:134-135 | two argument lists with the same first token and the same tokens parse identically, whatever the order or repetition |
| Cli.Resolve | index.js:137-153 | resolution succeeds iff there is a first token whose lower-cased form is vite, node or next; it then selects that entry of the table built for the parsed flag and passes both flags on; otherwise it is the usage error with status 1 |
| Cli.UpperCaseSelectsPreset | index.js:133-137 | `VITE --experimental` selects the flag-on vite preset |
| Cli.NoArgumentsIsUsageError | index.js:140-150 | no arguments is the usage error with status 1 |
| Cli.FlagFirstIsUsageError | index.js:133-140 | a flag in first position is taken as an unknown preset name |
| Cli.GuardAcceptsAsWritten | index.js:133-140 | the guard as written lets a run through iff there is a non-empty first token whose lower-cased form is vite, node, next, `constructor` or `__proto__` |
| Cli.InheritedNamesPassWrittenGuard | index.js:140 | a first token that lower-cases to `constructor` or `__proto__` passes the guard as written, but `Resolve` rejects it |
| Cli.ProtoPassesWrittenGuard | index.js:140 | the guard as written accepts `__proto__`, which `Resolve` rejects |
| Cli.WrittenGuardAgreesElsewhere | index.js:140 | outside the inherited names, the written guard and `Resolve` accept the same arguments |
| Generator.WriteJson | index.js:156-164 | the file exists afterwards and no other file appears; every existing file keeps its text (an existing target is not overwritten); an absent target gets the serialized config |
| Generator.WriteAll | index.js:168-172 | writing a file list adds exactly the targets not yet present; every file present before keeps its text; each created file holds the serialization of the first config listed for it; an existing target does not block the others |
| Generator.WriteEach | index.js:169 | the `forEach` loop over a file list, one write-if-absent per entry, computes `WriteAll` |
| Generator.Generate | index.js:168-172 | the multi/single dispatch (the `forEach` for a multi preset, one write to `tsconfig.json` for a single one) computes `WriteAll` over the descriptor's targets: exactly the missing targets are added and every existing file is kept |
| Generator.WriteAllExistingIsNoop | index.js:158-159 | when every target exists, writing changes nothing |
| Generator.WriteAllIdempotent | index.js:156-172 | generating a second time on the first run's result changes nothing |
| Generator.PresetTargets | index.js:168-172 | vite writes tsconfig.json, tsconfig.app.json and tsconfig.node.json; node and next write only tsconfig.json; no preset writes package.json |
| Generator.ViteTargetNames | index.js:168-169 | the vite preset targets exactly tsconfig.json, tsconfig.app.json and tsconfig.node.json |
| Generator.WriteAllCreatesFresh | index.js:158-161 | a target absent before, and named for the first time in the list, is created with its own config, whatever else already exists |
| Run.BootstrapStep | index.js:175-185 | the init command is invoked iff the flag is set and package.json is absent, and reports the command's outcome; without the flag, nothing is requested |
| Run.RunCli | index.js:132-185 | a run is the usage error (status 1) iff resolution fails; otherwise it exits 0, the directory is the generator's result, and the init command is invoked iff the flag is set and package.json was absent at the start |
| Run.InitFailureIsNotFatal | index.js:178-183 | when the init command fails, the run still exits 0, and the config files written are the same as when it succeeds |
| Run.ExistingManifestIsKept | index.js:176-177 | an existing package.json keeps its text, and the command is not invoked |
| Run.SecondRunWritesNothing | index.js:158-172 | a second run with the same arguments on the first run's directory writes nothing |

## Left out

- Console output is not modelled: status lines, ANSI colours, emoji and the help text. None of it affects the files or the exit status.
- `fs.existsSync`, `fs.writeFileSync`, `path.join` and `process.cwd()` are replaced by the abstract `Store` map. I/O errors from these calls are not modelled.
- `execSync('npm init -y')` is not modelled. Its outcome is the `CommandResult` parameter. The `package.json` it would create is not added to the store, because that is the subprocess's behaviour.
- Run.InitFailureIsNotFatal: the store does not record the `package.json` that a successful `npm init -y` creates, so the lemma says only that the written config files and the exit status agree, not the whole directory.
- `JSON.stringify` formatting is not modelled; the function parameter `serialize` stands in for it.
- `process.exit(1)` becomes the `UsageFailure(1)` result rather than a process termination.
- Cli.ToLower: maps only the ASCII letters A-Z, while `toLowerCase` applies the full Unicode mapping. This does not change which presets resolve. A token whose full lower-casing is `vite`, `node` or `next` can contain no non-ASCII character (the Kelvin sign lower-cases to `k`, which none of the names contains, and capital I with a dot above lower-cases to `i` followed by a combining dot, which is not ASCII). So the ASCII mapping accepts and rejects exactly the same tokens.
- After the written guard accepts an inherited name, the program goes on in ways the model does not follow. The selected value (`Object.prototype` or `Object`) has no `type`, so the single-file branch writes its `content`, which is `undefined`. When `tsconfig.json` is absent, `JSON.stringify(undefined)` gives `undefined` and `writeFileSync` throws an uncaught error for both names: nothing is written, and the process ends abnormally without the usage text. When `tsconfig.json` is present, both names skip the write, go on to the init step and exit 0. The model resolves only the table's own keys (see Findings).
- Determinism across calls ("structurally identical output for identical flags") is not stated separately, because every member is a mathematical function.

## Findings

| source | as written | input that shows it | evidently intended | confidence | as-written member | corrected member |
|---|---|---|---|---|---|---|
| index.js:140 | `!presets[type]` is a property read, so it also finds names inherited from `Object.prototype`; after lower-casing, `__proto__` and `constructor` pass the check | `mytsfy __proto__` | only `vite`, `node` and `next` are accepted; every other name is the usage error | not executed | Cli.ProtoPassesWrittenGuard | Cli.Resolve |

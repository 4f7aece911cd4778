/**
 One whole invocation: resolve the arguments, write the preset, then decide
 whether to bootstrap `package.json` with `npm init -y`. The subprocess is not
 modelled; its outcome is a parameter, and its effect on the directory is not
 part of the model.
 */
module Run {
  import opened Wrappers
  import opened Json
  import opened Presets
  import opened Cli
  import opened Generator

  const ManifestFile: string := "package.json"
  const SuccessExitCode: int := 0

  /** How the external `npm init -y` call ended, as the caller observes it. */
  datatype CommandResult = CommandSucceeded | CommandFailed

  /** What the manifest step did. */
  datatype Bootstrap =
    | NotRequested
    | ManifestPresent
    | Invoked(result: CommandResult)

  /** The result of one run: a usage error, or completion with the resulting directory. */
  datatype RunResult =
    | UsageFailure(exitCode: int)
    | Completed(store: Store, bootstrap: Bootstrap, exitCode: int)

  /**
   The manifest step: the command is invoked exactly when the init flag is set
   and no `package.json` exists; an existing manifest is never touched.
   */
  function BootstrapStep(shouldInit: bool, store: Store, npmInit: CommandResult): (b: Bootstrap)
    ensures b.Invoked? <==> shouldInit && ManifestFile !in store
    ensures b.Invoked? ==> b.result == npmInit
    ensures b == NotRequested <==> !shouldInit
  {
    if !shouldInit then NotRequested
    else if ManifestFile in store then ManifestPresent
    else Invoked(npmInit)
  }

  /**
   The program run on `args` in a directory `store`. A usage error stops the
   run before anything is written and exits with status 1. Otherwise the
   preset's files are written and the run exits with status 0, whether or not
   the init command failed. The manifest check happens after the configs are
   written, but no preset writes `package.json`, so it sees the directory's
   original state of that file.
   */
  function RunCli(args: seq<string>, store: Store, serialize: Json -> string, npmInit: CommandResult): (r: RunResult)
    ensures r.UsageFailure? <==> Resolve(args).Failure?
    ensures r.UsageFailure? ==> r.exitCode == 1
    ensures r.Completed? ==> r.exitCode == 0
    ensures r.Completed? ==> r.store == WriteAll(store, Targets(Resolve(args).value.descriptor), serialize)
    ensures r.Completed? ==> (r.bootstrap.Invoked? <==> ParseArgs(args).shouldInit && ManifestFile !in store)
    ensures r.Completed? && r.bootstrap.Invoked? ==> r.bootstrap.result == npmInit
  {
    match Resolve(args)
    case Failure(e) => UsageFailure(e.exitCode)
    case Success(sel) =>
      var written := WriteAll(store, Targets(sel.descriptor), serialize);
      PresetTargets(sel.name, sel.isExperimental);
      Completed(written, BootstrapStep(sel.shouldInit, written, npmInit), SuccessExitCode)
  }

  /** A failing `npm init` does not make the run fail. */
  lemma InitFailureIsNotFatal(args: seq<string>, store: Store, serialize: Json -> string)
    requires Resolve(args).Success?
    ensures RunCli(args, store, serialize, CommandFailed).exitCode == 0
    ensures RunCli(args, store, serialize, CommandFailed).store == RunCli(args, store, serialize, CommandSucceeded).store
  {
  }

  /** With `package.json` present, the init flag does not run the command and leaves the manifest as it was. */
  lemma ExistingManifestIsKept(args: seq<string>, store: Store, serialize: Json -> string, npmInit: CommandResult)
    requires Resolve(args).Success? && ManifestFile in store
    ensures RunCli(args, store, serialize, npmInit).bootstrap == (if ParseArgs(args).shouldInit then ManifestPresent else NotRequested)
    ensures RunCli(args, store, serialize, npmInit).store[ManifestFile] == store[ManifestFile]
  {
  }

  /** A second run with the same arguments on the first run's directory writes nothing. */
  lemma SecondRunWritesNothing(args: seq<string>, store: Store, serialize: Json -> string, npmInit: CommandResult)
    requires Resolve(args).Success?
    ensures var first := RunCli(args, store, serialize, npmInit).store;
            RunCli(args, first, serialize, npmInit).store == first
  {
    WriteAllIdempotent(store, Targets(Resolve(args).value.descriptor), serialize);
  }
}

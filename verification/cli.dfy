/**
 The command line: `mytsfy <preset> [-y|--init] [--experimental]`. The first
 token, lower-cased, names the preset; the flags are presence-only and are
 recognised in any position. A missing or unknown preset is the one usage
 error, reported with exit status 1.
 */
module Cli {
  import opened Wrappers
  import opened Presets

  const UsageExitCode: int := 1

  predicate IsUpper(c: char)
  {
    'A' <= c <= 'Z'
  }

  /** `String.prototype.toLowerCase` on one character, for the ASCII letters. */
  function LowerChar(c: char): char
  {
    if IsUpper(c) then (c as int - 'A' as int + 'a' as int) as char else c
  }

  function ToLower(s: string): (r: string)
    ensures |r| == |s|
    ensures forall i :: 0 <= i < |s| ==> r[i] == LowerChar(s[i])
  {
    if s == [] then [] else [LowerChar(s[0])] + ToLower(s[1..])
  }

  /** Lower-casing leaves no upper-case letter and changes nothing else. */
  lemma ToLowerMeaning(s: string)
    ensures forall i :: 0 <= i < |s| ==> !IsUpper(ToLower(s)[i])
    ensures forall i :: 0 <= i < |s| && !IsUpper(s[i]) ==> ToLower(s)[i] == s[i]
    ensures forall i :: 0 <= i < |s| && IsUpper(s[i]) ==> ToLower(s)[i] as int == s[i] as int + 32
  {
  }

  /** Lower-casing twice is lower-casing once. */
  lemma ToLowerIdempotent(s: string)
    ensures ToLower(ToLower(s)) == ToLower(s)
  {
  }

  /** What the CLI reads from its arguments. */
  datatype Invocation = Invocation(preset: Option<string>, shouldInit: bool, isExperimental: bool)

  /**
   The preset is the lower-cased first token (absent when there is no token or
   it is the empty string, which JavaScript treats as false); `shouldInit` and
   `isExperimental` record whether their flags occur as a whole token anywhere,
   including in first position.
   */
  function ParseArgs(args: seq<string>): (inv: Invocation)
    ensures inv.preset.None? <==> |args| == 0 || args[0] == ""
    ensures inv.preset.Some? ==> inv.preset.value == ToLower(args[0]) && inv.preset.value != ""
    ensures inv.shouldInit <==> exists i :: 0 <= i < |args| && (args[i] == "-y" || args[i] == "--init")
    ensures inv.isExperimental <==> exists i :: 0 <= i < |args| && args[i] == "--experimental"
  {
    Invocation(
      if |args| == 0 || args[0] == "" then None else Some(ToLower(args[0])),
      "-y" in args || "--init" in args,
      "--experimental" in args)
  }

  /** Flags are presence-only: reordering or repeating the tokens after the first changes nothing. */
  lemma ParseIgnoresFlagPositions(a: seq<string>, b: seq<string>)
    requires |a| > 0 && |b| > 0 && a[0] == b[0]
    requires forall t :: t in a <==> t in b
    ensures ParseArgs(a) == ParseArgs(b)
  {
  }

  /** The preset a successful resolution selected, with the two flags passed onward. */
  datatype Selection = Selection(name: string, descriptor: Descriptor, shouldInit: bool, isExperimental: bool)

  datatype UsageError = UsageError(exitCode: int)

  /**
   Resolution of the arguments against the preset table built for the parsed
   `--experimental` flag. Only the table's own three names are accepted.
   */
  function Resolve(args: seq<string>): (r: Result<Selection, UsageError>)
    ensures r.Success? <==> |args| > 0 && ToLower(args[0]) in PresetNames
    ensures r.Failure? ==> r.error.exitCode == 1
    ensures r.Success? ==> r.value.name == ToLower(args[0]) && r.value.name in PresetNames
    ensures r.Success? ==> r.value.descriptor == GetPresets(r.value.isExperimental)[r.value.name]
    ensures r.Success? ==> r.value.shouldInit == ParseArgs(args).shouldInit
    ensures r.Success? ==> r.value.isExperimental == ParseArgs(args).isExperimental
  {
    var inv := ParseArgs(args);
    var presets := GetPresets(inv.isExperimental);
    match inv.preset
    case None => Failure(UsageError(UsageExitCode))
    case Some(name) =>
      if name in presets then Success(Selection(name, presets[name], inv.shouldInit, inv.isExperimental))
      else Failure(UsageError(UsageExitCode))
  }

  /** The name is matched case-insensitively: `VITE` selects `vite`. */
  lemma UpperCaseSelectsPreset()
    ensures Resolve(["VITE", "--experimental"]) == Success(Selection("vite", GetPresets(true)["vite"], false, true))
  {
    var args := ["VITE", "--experimental"];
    assert ToLower(args[0]) == "vite";
    assert args[1] == "--experimental";
    assert "-y" !in args && "--init" !in args;
  }

  /** With no arguments at all, the run is a usage error. */
  lemma NoArgumentsIsUsageError()
    ensures Resolve([]) == Failure(UsageError(1))
  {
  }

  /** A flag in first position is taken as the preset name, which is unknown. */
  lemma FlagFirstIsUsageError(args: seq<string>)
    requires |args| > 0 && (args[0] == "-y" || args[0] == "--init" || args[0] == "--experimental")
    ensures Resolve(args).Failure?
  {
    var name := ToLower(args[0]);
    assert name == args[0] by {
      assert forall i :: 0 <= i < |args[0]| ==> !IsUpper(args[0][i]);
    }
    assert name !in PresetNames;
  }

  // ---- The guard as index.js writes it ----

  /**
   Property names every object inherits from `Object.prototype` that are
   already lower case (so lower-casing the token can produce them) and whose
   value is truthy; every other inherited name has an upper-case letter.
   */
  const InheritedLowerCaseNames: set<string> := {"constructor", "__proto__"}

  /**
   `!type || !presets[type]` as written: a property read that also finds
   inherited names, so the guard lets through a non-empty first token whose
   lower-cased form is a preset or an inherited name.
   */
  function GuardAcceptsAsWritten(args: seq<string>): (accepts: bool)
    ensures accepts <==> |args| > 0 && args[0] != "" &&
                         (ToLower(args[0]) in PresetNames || ToLower(args[0]) in InheritedLowerCaseNames)
  {
    var inv := ParseArgs(args);
    inv.preset.Some? &&
    (inv.preset.value in GetPresets(inv.isExperimental) || inv.preset.value in InheritedLowerCaseNames)
  }

  /**
   A first token that lower-cases to an inherited name passes the written
   guard, although `Resolve` rejects it as no preset.
   */
  lemma InheritedNamesPassWrittenGuard(args: seq<string>)
    requires |args| > 0 && ToLower(args[0]) in InheritedLowerCaseNames
    ensures GuardAcceptsAsWritten(args)
    ensures Resolve(args).Failure?
  {
  }

  /** `mytsfy __proto__` is such an input: the token is already lower case. */
  lemma ProtoPassesWrittenGuard()
    ensures GuardAcceptsAsWritten(["__proto__"])
    ensures Resolve(["__proto__"]).Failure?
  {
    var token := "__proto__";
    assert ToLower(token) == token by {
      assert forall i :: 0 <= i < |token| ==> !IsUpper(token[i]);
    }
    InheritedNamesPassWrittenGuard([token]);
  }

  /** Outside the inherited names, the written guard and `Resolve` accept exactly the same arguments. */
  lemma WrittenGuardAgreesElsewhere(args: seq<string>)
    requires |args| == 0 || ToLower(args[0]) !in InheritedLowerCaseNames
    ensures GuardAcceptsAsWritten(args) <==> Resolve(args).Success?
  {
  }
}

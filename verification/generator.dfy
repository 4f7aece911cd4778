/**
 Writing a preset into the working directory without ever overwriting a file.
 The directory is an abstract store from file name to file text, and the
 pretty-printer is a parameter `serialize`.
 */
module Generator {
  import opened Wrappers
  import opened Json
  import opened Presets

  /** The working directory: file name to file text. */
  type Store = map<string, string>

  /**
   `writeJson`: an existing file is left exactly as it is (the run only warns);
   an absent one is created holding the serialized config. No other file is
   touched either way, and the file exists afterwards.
   */
  function WriteJson(store: Store, filename: string, content: Json, serialize: Json -> string): (r: Store)
    ensures r.Keys == store.Keys + {filename}
    ensures forall k :: k in store ==> r[k] == store[k]
    ensures filename !in store ==> r[filename] == serialize(content)
  {
    if filename in store then store else store[filename := serialize(content)]
  }

  /** The content listed first for `name`: the one that a list-order write creates. */
  function ContentFor(files: seq<FileEntry>, name: string): (c: Option<Json>)
    ensures c.Some? <==> name in NameSet(files)
  {
    if files == [] then None
    else if files[0].filename == name then Some(files[0].content)
    else
      assert NameSet(files) == {files[0].filename} + NameSet(files[1..]) by {
        assert files == [files[0]] + files[1..];
      }
      ContentFor(files[1..], name)
  }

  /**
   Writing a list of files one by one, in order, each independently: the
   files present before are unchanged, exactly the missing targets are
   created, and each created file holds the first content listed for it.
   A target that already exists does not prevent writing the others.
   */
  function WriteAll(store: Store, files: seq<FileEntry>, serialize: Json -> string): (r: Store)
    ensures r.Keys == store.Keys + NameSet(files)
    ensures forall k :: k in store ==> r[k] == store[k]
    ensures forall k :: k in r && k !in store ==> r[k] == serialize(ContentFor(files, k).value)
    decreases |files|
  {
    if files == [] then store
    else
      assert NameSet(files) == {files[0].filename} + NameSet(files[1..]) by {
        assert files == [files[0]] + files[1..];
      }
      WriteAll(WriteJson(store, files[0].filename, files[0].content, serialize), files[1..], serialize)
  }

  /** `forEach` over a file list, one `writeJson` per entry, in list order. */
  method WriteEach(store: Store, files: seq<FileEntry>, serialize: Json -> string) returns (r: Store)
    ensures r == WriteAll(store, files, serialize)
  {
    r := store;
    var i := 0;
    while i < |files|
      invariant 0 <= i <= |files|
      invariant WriteAll(r, files[i..], serialize) == WriteAll(store, files, serialize)
    {
      assert files[i..][1..] == files[i + 1..];
      r := WriteJson(r, files[i].filename, files[i].content, serialize);
      i := i + 1;
    }
  }

  /**
   The generator as index.js runs it: `forEach` over the file list of a
   multi preset, or one `writeJson` to `tsconfig.json` for a single preset.
   */
  method Generate(store: Store, d: Descriptor, serialize: Json -> string) returns (r: Store)
    ensures r == WriteAll(store, Targets(d), serialize)
    ensures r.Keys == store.Keys + NameSet(Targets(d))
    ensures forall k :: k in store ==> r[k] == store[k]
  {
    match d
    case Multi(files) =>
      r := WriteEach(store, files, serialize);
    case Single(content) =>
      r := WriteJson(store, RootFile, content, serialize);
      assert [FileEntry(RootFile, content)][1..] == [];
  }

  /** When every target already exists, writing the list changes nothing. */
  lemma {:induction false} WriteAllExistingIsNoop(store: Store, files: seq<FileEntry>, serialize: Json -> string)
    requires NameSet(files) <= store.Keys
    ensures WriteAll(store, files, serialize) == store
    decreases |files|
  {
    if files != [] {
      assert files[0] in files;
      assert NameSet(files[1..]) <= NameSet(files) by {
        forall e | e in files[1..] ensures e in files { }
      }
      WriteAllExistingIsNoop(store, files[1..], serialize);
    }
  }

  /** Running the generator a second time on its own result changes nothing. */
  lemma WriteAllIdempotent(store: Store, files: seq<FileEntry>, serialize: Json -> string)
    ensures WriteAll(WriteAll(store, files, serialize), files, serialize) == WriteAll(store, files, serialize)
  {
    WriteAllExistingIsNoop(WriteAll(store, files, serialize), files, serialize);
  }

  /** The vite files are exactly the orchestrator, the application and the build-tool configs. */
  lemma ViteTargetNames(isExperimental: bool)
    ensures NameSet(ViteFiles(isExperimental)) == {RootFile, "tsconfig.app.json", "tsconfig.node.json"}
  {
    var files := ViteFiles(isExperimental);
    assert files == [files[0], files[1], files[2]];
  }

  /** The files each preset targets; none of them is the package manifest. */
  lemma PresetTargets(p: string, isExperimental: bool)
    requires p in PresetNames
    ensures p == "vite" ==> NameSet(Targets(GetPresets(isExperimental)[p])) == {RootFile, "tsconfig.app.json", "tsconfig.node.json"}
    ensures p != "vite" ==> NameSet(Targets(GetPresets(isExperimental)[p])) == {RootFile}
    ensures "package.json" !in NameSet(Targets(GetPresets(isExperimental)[p]))
  {
    if p == "vite" {
      ViteTargetNames(isExperimental);
    }
  }

  /** Among distinctly named files, each name's content is its own entry's. */
  lemma {:induction false} ContentForDistinct(files: seq<FileEntry>, i: int)
    requires 0 <= i < |files|
    requires forall j :: 0 <= j < i ==> files[j].filename != files[i].filename
    ensures ContentFor(files, files[i].filename) == Some(files[i].content)
  {
    if i > 0 {
      assert files[1..][i - 1] == files[i];
      ContentForDistinct(files[1..], i - 1);
    }
  }

  /** A target named for the first time in the list, and absent before, is created with its own content. */
  lemma WriteAllCreatesFresh(store: Store, files: seq<FileEntry>, serialize: Json -> string, i: int)
    requires 0 <= i < |files| && files[i].filename !in store
    requires forall j :: 0 <= j < i ==> files[j].filename != files[i].filename
    ensures WriteAll(store, files, serialize)[files[i].filename] == serialize(files[i].content)
  {
    ContentForDistinct(files, i);
    assert files[i] in files;
  }
}

/**
 The `generate` callback handed to the manifest plugin in webpack.config.js.
 It folds the emitted files into the seed manifest, `name -> path`, and keeps
 the file names of the `main` entry point that are not source maps.
 */
module Manifest {
  import opened Js
  import opened Strings

  /** The two fields of an emitted-file descriptor that the callback reads. */
  datatype FileRecord = FileRecord(name: string, path: string)

  /** The object the callback returns. */
  datatype ManifestOutput = ManifestOutput(files: map<string, string>, entryPoints: seq<string>)

  /** Reading `entryPoints.main.filter` when there is no `main` entry throws. */
  datatype GenerateError = MissingMainEntry

  datatype Result<T> = Ok(value: T) | Err(error: GenerateError)

  /** The names the file records mention. */
  function Names(files: seq<FileRecord>): set<string>
  {
    set f | f in files :: f.name
  }

  /** `files[i]` is the last record that carries its name. */
  predicate IsLastNamed(files: seq<FileRecord>, i: int)
  {
    0 <= i < |files| && forall j :: i < j < |files| ==> files[j].name != files[i].name
  }

  /** The left fold of the file records into the seed (webpack.config.js:92):
      each record, front to back, produces a copy of the manifest with its name
      set to its path, so the last record with a given name wins, and a seed
      entry survives only if no record names it. */
  function ManifestFiles(seed: map<string, string>, files: seq<FileRecord>): (manifest: map<string, string>)
    ensures manifest.Keys == seed.Keys + Names(files)
    ensures forall k :: k in seed && k !in Names(files) ==> manifest[k] == seed[k]
    ensures forall i :: IsLastNamed(files, i) ==> manifest[files[i].name] == files[i].path
    decreases |files|
  {
    if files == [] then seed
    else
      var first := files[0];
      var rest := files[1..];
      assert files == [first] + rest;
      assert Names(files) == {first.name} + Names(rest);
      assert forall i :: IsLastNamed(files, i) && i > 0 ==> IsLastNamed(rest, i - 1);
      assert IsLastNamed(files, 0) ==> first.name !in Names(rest);
      ManifestFiles(seed[first.name := first.path], rest)
  }

  /** Every entry of the generated manifest is accounted for: it is a seed entry
      that no record names, or the path of the last record with that name. */
  lemma EveryManifestEntryAccounted(seed: map<string, string>, files: seq<FileRecord>, k: string)
    requires k in ManifestFiles(seed, files)
    ensures var manifest := ManifestFiles(seed, files);
      || (k in seed && k !in Names(files) && manifest[k] == seed[k])
      || (exists i :: IsLastNamed(files, i) && files[i].name == k && manifest[k] == files[i].path)
  {
    if k in Names(files) {
      var i := LastIndexOf(files, k);
      assert IsLastNamed(files, i);
    }
  }

  /** The index of the last record named `name`, for a name that occurs. */
  function LastIndexOf(files: seq<FileRecord>, name: string): (i: nat)
    requires name in Names(files)
    ensures i < |files| && files[i].name == name
    ensures forall j :: i < j < |files| ==> files[j].name != name
    decreases |files|
  {
    var last := files[|files| - 1];
    if last.name == name then |files| - 1
    else
      var front := files[..|files| - 1];
      assert files == front + [last];
      assert name in Names(front);
      LastIndexOf(front, name)
  }

  /** Folding a concatenation folds the second part into the result of the first. */
  lemma {:induction false} ManifestFilesAppend(seed: map<string, string>, a: seq<FileRecord>, b: seq<FileRecord>)
    ensures ManifestFiles(seed, a + b) == ManifestFiles(ManifestFiles(seed, a), b)
    decreases |a|
  {
    if a == [] {
      assert a + b == b;
    } else {
      assert (a + b)[1..] == a[1..] + b;
      ManifestFilesAppend(seed[a[0].name := a[0].path], a[1..], b);
    }
  }

  /** A file name the entry-point list keeps (webpack.config.js:93): one in
      which the four characters `.map` start at no position, so not only names
      ending in `.map` are dropped. */
  predicate IsEntryFile(filename: string): (keep: bool)
    ensures keep <==> forall i :: !OccursAt(filename, ".map", i)
  {
    ContainsIffOccursAt(filename, ".map");
    !Contains(filename, ".map")
  }

  /** The file names of the `main` entry point that are entry files, in their
      original order (webpack.config.js:93). */
  function EntryFiles(main: seq<string>): (kept: seq<string>)
    ensures forall f :: f in kept <==> f in main && IsEntryFile(f)
    ensures forall f :: multiset(kept)[f] == if IsEntryFile(f) then multiset(main)[f] else 0
  {
    Filter(IsEntryFile, main)
  }

  /** The entry files keep the order of the `main` list. */
  lemma EntryFilesAppend(a: seq<string>, b: seq<string>)
    ensures EntryFiles(a + b) == EntryFiles(a) + EntryFiles(b)
  {
    FilterAppend(IsEntryFile, a, b);
  }

  /** A name with `.map` in the middle is dropped as well as one ending in it. */
  lemma EntryFilesExample()
    ensures EntryFiles(["main.js", "main.js.map", "main.map.js"]) == ["main.js"]
  {
    ContainsExtended(".map", ".map", "main.js", "");
    assert "main.js" + ".map" + "" == "main.js.map";
    ContainsExtended(".map", ".map", "main", ".js");
    assert "main" + ".map" + ".js" == "main.map.js";
    assert ".map"[3] == 'p' && 'p' !in "main.js";
    if Contains("main.js", ".map") {
      ContainsHasEveryChar("main.js", ".map", 3);
    }
    var main := ["main.js", "main.js.map", "main.map.js"];
    assert main == ["main.js"] + ["main.js.map", "main.map.js"];
    FilterAppend(IsEntryFile, ["main.js"], ["main.js.map", "main.map.js"]);
    assert Filter(IsEntryFile, ["main.js.map", "main.map.js"]) == [];
    assert ["main.js"][1..] == [];
  }

  /** The `generate` callback: the manifest of `files` over `seed` and the
      entry files of `main`; with no `main` entry point the callback throws. */
  function Generate(seed: map<string, string>, files: seq<FileRecord>, entryPoints: map<string, seq<string>>)
    : (r: Result<ManifestOutput>)
    ensures "main" !in entryPoints <==> r == Err(MissingMainEntry)
    ensures r.Ok? ==>
      && r.value.files.Keys == seed.Keys + Names(files)
      && (forall i :: IsLastNamed(files, i) ==> r.value.files[files[i].name] == files[i].path)
      && (forall k :: k in seed && k !in Names(files) ==> r.value.files[k] == seed[k])
      && (forall f :: f in r.value.entryPoints <==> f in entryPoints["main"] && IsEntryFile(f))
      && (forall f :: multiset(r.value.entryPoints)[f] == if IsEntryFile(f) then multiset(entryPoints["main"])[f] else 0)
    ensures r.Ok? ==>
      && r.value.files == ManifestFiles(seed, files)
      && r.value.entryPoints == EntryFiles(entryPoints["main"])
  {
    if "main" !in entryPoints then Err(MissingMainEntry)
    else Ok(ManifestOutput(ManifestFiles(seed, files), EntryFiles(entryPoints["main"])))
  }
}

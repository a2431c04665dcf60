/**
 * The note store: a folder of Markdown notes in an Obsidian vault, with
 * get-or-create, empty and append. The vault is a map from path to content,
 * held by reference so that every `Notes` object built on it sees one state.
 */
module NoteStore {
  import opened Text

  /** A handle on a vault file (Obsidian's `TFile`); it always denotes a file that exists. */
  datatype File = File(path: string)

  /** The vault every note lives in: path to content. */
  class Vault {
    var files: map<string, string>

    constructor (files: map<string, string>)
      ensures this.files == files
    {
      this.files := files;
    }
  }

  /** Path of the note `name` in folder `location`: `location/name.md`. */
  function NotePath(location: string, name: string): (path: string)
    ensures |path| == |location| + |name| + 4
    ensures path[..|location|] == location && path[|location|] == '/'
    ensures path[|location| + 1..|path| - 3] == name
    ensures path[|path| - 3..] == ".md"
  {
    location + "/" + name + ".md"
  }

  /** In one folder, different note names never share a path. */
  lemma NotePathInjective(location: string, a: string, b: string)
    requires NotePath(location, a) == NotePath(location, b)
    ensures a == b
  {
  }

  /** The vault after get-or-create of `path`: unchanged when the file exists, else one new empty file. */
  function WithFile(files: map<string, string>, path: string): (r: map<string, string>)
    ensures path in r && r.Keys == files.Keys + {path}
    ensures r[path] == (if path in files then files[path] else "")
    ensures forall p :: p in files ==> r[p] == files[p]
  {
    if path in files then files else files[path := ""]
  }

  /** Get-or-create twice is get-or-create once. */
  lemma WithFileIdempotent(files: map<string, string>, path: string)
    ensures WithFile(WithFile(files, path), path) == WithFile(files, path)
  {
  }

  /** The vault after appending `data` to the existing file at `path`. */
  function Appended(files: map<string, string>, path: string, data: string): (r: map<string, string>)
    requires path in files
    ensures r.Keys == files.Keys
    ensures |r[path]| == |files[path]| + |data|
    ensures r[path][..|files[path]|] == files[path] && r[path][|files[path]|..] == data
    ensures forall p :: p in files && p != path ==> r[p] == files[p]
  {
    files[path := files[path] + data]
  }

  /** The vault after appending each string of `ss` to the file at `path`, first to last. */
  function AppendedAll(files: map<string, string>, path: string, ss: seq<string>): (r: map<string, string>)
    requires path in files
    ensures path in r
    decreases |ss|
  {
    if ss == [] then files
    else Appended(AppendedAll(files, path, ss[..|ss| - 1]), path, ss[|ss| - 1])
  }

  /** Appending strings in turn adds their concatenation and touches no other file. */
  lemma {:induction false} AppendedAllConcat(files: map<string, string>, path: string, ss: seq<string>)
    requires path in files
    ensures AppendedAll(files, path, ss) == files[path := files[path] + Concat(ss)]
    decreases |ss|
  {
    if ss != [] {
      var init := ss[..|ss| - 1];
      AppendedAllConcat(files, path, init);
      var before := files[path := files[path] + Concat(init)];
      assert AppendedAll(files, path, ss) == Appended(before, path, ss[|ss| - 1]);
      assert files[path] + Concat(init) + ss[|ss| - 1] == files[path] + Concat(ss);
    } else {
      assert files[path] + Concat(ss) == files[path];
    }
  }

  /** Appending strings to a freshly emptied file leaves exactly their concatenation. */
  lemma AppendedAllToEmptied(files: map<string, string>, path: string, ss: seq<string>)
    ensures AppendedAll(files[path := ""], path, ss)[path] == Concat(ss)
  {
    AppendedAllConcat(files[path := ""], path, ss);
  }

  /** The notes of one folder of a vault. */
  class Notes {
    const location: string
    const vault: Vault

    constructor (vault: Vault, location: string)
      ensures this.vault == vault && this.location == location
    {
      this.vault := vault;
      this.location := location;
    }

    /** Get-or-create the note, then empty it: afterwards it exists and is "". */
    method NewFile(name: string) returns (file: File)
      modifies vault
      ensures file.path == NotePath(location, name)
      ensures vault.files == old(vault.files)[file.path := ""]
    {
      file := GetOrCreateFile(name);
      EmptyFile(file);
    }

    /** Return the note's file, creating it empty if it does not exist. */
    method GetOrCreateFile(name: string) returns (file: File)
      modifies vault
      ensures file.path == NotePath(location, name)
      ensures vault.files == WithFile(old(vault.files), file.path)
    {
      var fullPath := NotePath(location, name);
      file := File(fullPath);
      if fullPath in vault.files {
        return;
      }
      vault.files := vault.files[fullPath := ""];
    }

    /** Overwrite the file with the empty string. */
    method EmptyFile(file: File)
      requires file.path in vault.files
      modifies vault
      ensures vault.files == old(vault.files)[file.path := ""]
    {
      vault.files := vault.files[file.path := ""];
    }

    /** Append `data` to the end of the file. */
    method AppendToFile(file: File, data: string)
      requires file.path in vault.files
      modifies vault
      ensures vault.files == Appended(old(vault.files), file.path, data)
    {
      vault.files := vault.files[file.path := vault.files[file.path] + data];
    }
  }
}

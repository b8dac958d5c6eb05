/**
 * The persona registry (src/persona/mod.rs): personas loaded from a directory
 * of JSON files, keyed by file stem, with a built-in fallback so that a default
 * persona always resolves.
 *
 * Reading the directory and parsing each file are I/O; the model starts from
 * the directory listing, where each entry already carries the outcome of
 * reading and parsing its file.
 */
module PersonaRegistry {
  import opened Common

  datatype Persona = Persona(name: string, description: string, systemPrompt: string, greeting: Option<string>)

  /** The persona inserted when no file was loaded. */
  const Fallback: Persona :=
    Persona("default", "Default AI Assistant", "You are a helpful AI assistant.", Some("Hello! How can I help you?"))

  /**
   * One item of `fs::read_dir`: either the iteration itself failed (`entry?`),
   * or a path with its extension and file stem (None when absent or not
   * UTF-8) and the outcome of reading and parsing the file as a Persona. The
   * outcome is consulted only for ".json" files.
   */
  datatype DirEntry =
    | Unreadable(error: Error)
    | File(extension: Option<string>, stem: Option<string>, contents: Result<Persona>)

  predicate IsPersonaFile(e: DirEntry) {
    e.File? && e.extension == Some("json")
  }

  /** The registry key: the file stem, or the persona's own name when there is no stem. */
  function EntryKey(stem: Option<string>, p: Persona): (k: string)
    ensures stem.Some? ==> k == stem.value
    ensures stem.None? ==> k == p.name
  {
    match stem
    case Some(s) => s
    case None => p.name
  }

  /** One iteration of the loading loop. */
  function Step(acc: map<string, Persona>, e: DirEntry): Result<map<string, Persona>>
  {
    match e
    case Unreadable(err) => Failure(err)
    case File(ext, stem, contents) =>
      if ext != Some("json") then Success(acc)
      else match contents
        case Failure(err) => Failure(err)
        case Success(p) => Success(acc[EntryKey(stem, p) := p])
  }

  /** The map the loading loop has built after the given entries; the first error stops it. */
  function Load(entries: seq<DirEntry>): Result<map<string, Persona>>
  {
    if entries == [] then Success(map[])
    else match Load(entries[..|entries| - 1])
      case Failure(err) => Failure(err)
      case Success(acc) => Step(acc, entries[|entries| - 1])
  }

  /** An independent description of a key's entry: the last persona file whose key it is. */
  function LastFor(entries: seq<DirEntry>, k: string): Option<Persona>
  {
    if entries == [] then None
    else
      var e := entries[|entries| - 1];
      if IsPersonaFile(e) && e.contents.Success? && EntryKey(e.stem, e.contents.value) == k
      then Some(e.contents.value)
      else LastFor(entries[..|entries| - 1], k)
  }

  /**
   * A loaded registry holds exactly the keys of the persona files, each bound
   * to the last file with that key: later files overwrite earlier ones and
   * files with any other extension are ignored.
   */
  lemma {:induction false} LoadLastWins(entries: seq<DirEntry>, k: string)
    requires Load(entries).Success?
    ensures k in Load(entries).value <==> LastFor(entries, k).Some?
    ensures k in Load(entries).value ==> Load(entries).value[k] == LastFor(entries, k).value
  {
    if entries != [] {
      var init := entries[..|entries| - 1];
      assert Load(init).Success?;
      LoadLastWins(init, k);
    }
  }

  /** Once the loop has failed, later entries do not matter. */
  lemma {:induction false} LoadFailurePersists(entries: seq<DirEntry>, n: nat)
    requires n <= |entries|
    requires Load(entries[..n]).Failure?
    ensures Load(entries) == Load(entries[..n])
  {
    if n < |entries| {
      var init := entries[..|entries| - 1];
      assert init[..n] == entries[..n];
      LoadFailurePersists(init, n);
    } else {
      assert entries[..n] == entries;
    }
  }

  /** A directory without unreadable entries or persona files loads nothing. */
  lemma {:induction false} NoPersonaFilesLoadNothing(entries: seq<DirEntry>)
    requires forall i :: 0 <= i < |entries| ==> entries[i].File? && !IsPersonaFile(entries[i])
    ensures Load(entries) == Success(map[])
  {
    if entries != [] {
      NoPersonaFilesLoadNothing(entries[..|entries| - 1]);
    }
  }

  /** The post-load rule: an empty registry receives the fallback under "default". */
  function WithFallback(loaded: map<string, Persona>): (r: map<string, Persona>)
    ensures |r| > 0
    ensures |loaded| == 0 ==> r == map["default" := Fallback]
    ensures |loaded| > 0 ==> r == loaded
  {
    if |loaded| == 0 then map["default" := Fallback] else loaded
  }

  /**
   * `PersonaManager`. Besides the map and the default name it records
   * `firstKey`, the key whose entry `HashMap` iteration yields first: an
   * existing key, otherwise unspecified.
   */
  datatype PersonaManager = PersonaManager(personas: map<string, Persona>, defaultPersona: string, firstKey: string)
  {
    /** What construction guarantees: the map is not empty. */
    predicate Valid() {
      firstKey in personas
    }

    /** The entry under the default name, else some existing entry; never panics on a valid registry. */
    function GetDefaultPersona(): (p: Persona)
      requires Valid()
      ensures p in personas.Values
      ensures defaultPersona in personas ==> p == personas[defaultPersona]
      ensures defaultPersona !in personas ==> p == personas[firstKey]
    {
      if defaultPersona in personas then personas[defaultPersona] else personas[firstKey]
    }
  }

  /**
   * `PersonaManager::new` over an already listed directory. A listing error or
   * an error on any entry or persona file aborts construction with that error.
   */
  method New(listing: Result<seq<DirEntry>>, defaultName: string) returns (r: Result<PersonaManager>)
    ensures listing.Failure? ==> r == Failure(listing.error)
    ensures listing.Success? && Load(listing.value).Failure? ==> r == Failure(Load(listing.value).error)
    ensures listing.Success? && Load(listing.value).Success? ==>
              && r.Success?
              && r.value.Valid()
              && r.value.personas == WithFallback(Load(listing.value).value)
              && r.value.defaultPersona == defaultName
  {
    if listing.Failure? {
      return Failure(listing.error);
    }
    var entries := listing.value;
    var personas: map<string, Persona> := map[];
    for i := 0 to |entries|
      invariant Load(entries[..i]) == Success(personas)
    {
      assert entries[..i + 1][..i] == entries[..i];
      match entries[i]
      case Unreadable(err) =>
        LoadFailurePersists(entries, i + 1);
        return Failure(err);
      case File(ext, stem, contents) =>
        if ext == Some("json") {
          match contents
          case Failure(err) =>
            LoadFailurePersists(entries, i + 1);
            return Failure(err);
          case Success(p) =>
            personas := personas[EntryKey(stem, p) := p];
        }
    }
    assert entries[..|entries|] == entries;
    if |personas| == 0 {
      personas := personas["default" := Fallback];
    }
    var first :| first in personas;
    r := Success(PersonaManager(personas, defaultName, first));
  }

  /** With no persona file, the registry is exactly the fallback, whatever default name was asked for. */
  lemma EmptyDirectoryFallback(entries: seq<DirEntry>, pm: PersonaManager)
    requires forall i :: 0 <= i < |entries| ==> entries[i].File? && !IsPersonaFile(entries[i])
    requires Load(entries).Success? && pm.Valid() && pm.personas == WithFallback(Load(entries).value)
    ensures pm.personas == map["default" := Fallback]
    ensures pm.GetDefaultPersona() == Fallback
  {
    NoPersonaFilesLoadNothing(entries);
    var empty: map<string, Persona> := map[];
    assert |empty| == 0;
    assert pm.personas == map["default" := Fallback];
    assert pm.firstKey == "default";
  }
}

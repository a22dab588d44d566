/**
 * Mod manifests and the jar-file manifest locator (src-tauri/src/fs/metadata.rs).
 *
 * A jar is modelled as a finite map from entry name to what reading that entry yields; the
 * JSON and TOML parsers are abstract partial functions from text to the parsed manifest record,
 * carried in a `Parsers` value.
 */
module Metadata {
  import opened Wrappers

  /** The packaging convention a manifest follows. */
  datatype ModKind = Fabric | Forge | Quilt

  /** The canonical metadata record every conversion produces. */
  datatype ModMetadata = ModMetadata(
    kind: ModKind,
    id: string,
    name: string,
    description: Option<string>,
    version: string)

  /** Errors of `read_jar_file`; the payloads of the I/O and zip errors are not modelled. */
  datatype ManifestError =
    | IoError
    | JairUnzipFail
    | MissingMetadataFile
    | DeserializeError
    | EmptyForgeManifest

  /** `fabric.mod.json`: a flat record. */
  datatype FabricManifest = FabricManifest(
    id: string,
    version: string,
    name: Option<string>,
    description: Option<string>)

  /** One `[[mods]]` entry of `META-INF/mods.toml`. */
  datatype ForgeMod = ForgeMod(
    modId: string,
    version: string,
    displayName: Option<string>,
    description: Option<string>)

  /** `META-INF/mods.toml`: the list of mods contained in the jar. */
  datatype ForgeManifest = ForgeManifest(mods: seq<ForgeMod>)

  /** The optional `metadata` section of a Quilt loader record (QuiltMC RFC 0002). */
  datatype QuiltModMetadata = QuiltModMetadata(name: string, description: string)

  /** The `quilt_loader` section; `group` is required by the parser but unused afterwards. */
  datatype QuiltManifestLoader = QuiltManifestLoader(
    id: string,
    group: string,
    version: string,
    metadata: Option<QuiltModMetadata>)

  /** `quilt.mod.json`. */
  datatype QuiltManifest = QuiltManifest(quiltLoader: QuiltManifestLoader)

  /**
   * The rule every convention follows: `md` is the record of a mod of convention `kind` whose
   * manifest gives `id`, an optional display `name`, an optional `description` and `version`.
   * The name falls back to the identifier; everything else is carried over unchanged.
   */
  predicate Describes(md: ModMetadata, kind: ModKind, id: string, name: Option<string>,
                      description: Option<string>, version: string)
  {
    && md.kind == kind
    && md.id == id
    && md.name == (if name.Some? then name.value else id)
    && md.description == description
    && md.version == version
  }

  /** Fabric conversion; its error type is `Infallible`, so it is a total function here. */
  function FabricInto(m: FabricManifest): (r: ModMetadata)
    ensures Describes(r, Fabric, m.id, m.name, m.description, m.version)
  {
    ModMetadata(Fabric, m.id, m.name.GetOr(m.id), m.description, m.version)
  }

  /** Forge conversion: only the first mod entry is used, and an empty list is an error. */
  function ForgeInto(m: ForgeManifest): (r: Result<ModMetadata, ManifestError>)
    ensures r.Err? <==> m.mods == []
    ensures r.Err? ==> r.error == EmptyForgeManifest
    ensures r.Ok? ==> Describes(r.value, Forge, m.mods[0].modId, m.mods[0].displayName,
                                m.mods[0].description, m.mods[0].version)
  {
    if m.mods == [] then Err(EmptyForgeManifest)
    else
      var modData := m.mods[0];
      Ok(ModMetadata(Forge, modData.modId, modData.displayName.GetOr(modData.modId),
                     modData.description, modData.version))
  }

  /** Quilt conversion; `Infallible` here as well. */
  function QuiltInto(m: QuiltManifest): (r: ModMetadata)
    ensures r.kind == Quilt && r.id == m.quiltLoader.id && r.version == m.quiltLoader.version
    ensures r.description.Some? <==> m.quiltLoader.metadata.Some?
    ensures m.quiltLoader.metadata.Some? ==>
              r.name == m.quiltLoader.metadata.value.name
              && r.description == Some(m.quiltLoader.metadata.value.description)
    ensures m.quiltLoader.metadata.None? ==> r.name == r.id
  {
    var loader := m.quiltLoader;
    ModMetadata(
      Quilt,
      loader.id,
      match loader.metadata { case Some(md) => md.name case None => loader.id },
      match loader.metadata { case Some(md) => Some(md.description) case None => None },
      loader.version)
  }

  /** The Fabric conversion loses exactly one thing: whether an absent name was spelled out as the id. */
  lemma FabricIntoEqual(a: FabricManifest, b: FabricManifest)
    ensures FabricInto(a) == FabricInto(b) <==>
              && a.id == b.id && a.version == b.version && a.description == b.description
              && a.name.GetOr(a.id) == b.name.GetOr(b.id)
  {
  }

  /** Forge entries after the first have no influence on the result. */
  lemma ForgeIgnoresLaterMods(first: ForgeMod, rest: seq<ForgeMod>, rest': seq<ForgeMod>)
    ensures ForgeInto(ForgeManifest([first] + rest)) == ForgeInto(ForgeManifest([first] + rest'))
  {
  }

  /** A Forge entry carrying the same fields as a Fabric manifest yields the same record, up to `kind`. */
  lemma ForgeAgreesWithFabric(first: ForgeMod, rest: seq<ForgeMod>)
    ensures ForgeInto(ForgeManifest([first] + rest))
            == Ok(FabricInto(FabricManifest(first.modId, first.version, first.displayName, first.description))
                  .(kind := Forge))
  {
  }

  /**
   * A Quilt manifest yields the record of the Fabric manifest with the same identifier and
   * version whose name and description are both present or both absent; `group` is ignored.
   */
  lemma QuiltAgreesWithFabric(m: QuiltManifest)
    ensures var loader := m.quiltLoader;
            QuiltInto(m) == FabricInto(FabricManifest(
                              loader.id, loader.version,
                              if loader.metadata.Some? then Some(loader.metadata.value.name) else None,
                              if loader.metadata.Some? then Some(loader.metadata.value.description) else None))
                            .(kind := Quilt)
  {
  }

  // ---------------------------------------------------------------------------------------------
  // The jar file and its manifest locator

  /**
   * What the zip archive yields for one entry name. A name that is not a key of the archive's
   * map is one `by_name` reports as not found.
   */
  datatype Entry =
    | Readable(text: string)  // found and read to a string
    | Unreadable              // found, but reading it as a UTF-8 string fails
    | Unopenable              // `by_name` itself fails for it (an encrypted or unsupported entry)

  /** The outcome of opening the file at the given path as a zip archive. */
  datatype JarFile =
    | CannotOpen                          // `File::open` fails
    | NotAZip                             // `ZipArchive::new` fails
    | Archive(entries: map<string, Entry>)

  /** The JSON and TOML parsers: `None` when the text is malformed or lacks a required field. */
  datatype Parsers = Parsers(
    fabric: string -> Option<FabricManifest>,
    forge: string -> Option<ForgeManifest>,
    quilt: string -> Option<QuiltManifest>)

  const QuiltJson: string := "quilt.mod.json"
  const FabricJson: string := "fabric.mod.json"
  const ModsToml: string := "META-INF/mods.toml"

  /** The candidate manifest names, in the order they are probed. */
  const Identifiers: seq<string> := [QuiltJson, FabricJson, ModsToml]

  /** The convention each candidate name stands for. */
  const KindOf: map<string, ModKind> := map[QuiltJson := Quilt, FabricJson := Fabric, ModsToml := Forge]

  /** `by_name` succeeds for `name`: any lookup error counts as absence. */
  predicate Found(entries: map<string, Entry>, name: string) {
    name in entries && !entries[name].Unopenable?
  }

  /** The position of the first name of `names` that is found in the archive, if any. */
  function FirstFound(names: seq<string>, entries: map<string, Entry>): (r: Option<nat>)
    ensures r.Some? ==> r.value < |names| && Found(entries, names[r.value])
    ensures r.Some? ==> forall j :: 0 <= j < r.value ==> !Found(entries, names[j])
    ensures r.None? <==> forall j :: 0 <= j < |names| ==> !Found(entries, names[j])
  {
    if names == [] then None
    else if Found(entries, names[0]) then Some(0)
    else
      match FirstFound(names[1..], entries)
      case None => None
      case Some(k) => Some(k + 1)
  }

  /** Parses the text of the matched candidate with that candidate's parser and converts it. */
  function DecodeManifest(identifier: string, text: string, parsers: Parsers): (r: Result<ModMetadata, ManifestError>)
    requires identifier in Identifiers
    ensures r.Err? ==> r.error == DeserializeError
    ensures r.Ok? ==> r.value.kind == KindOf[identifier]
    ensures identifier == FabricJson ==>
              r == (if parsers.fabric(text).Some? then Ok(FabricInto(parsers.fabric(text).value)) else Err(DeserializeError))
    ensures identifier == QuiltJson ==>
              r == (if parsers.quilt(text).Some? then Ok(QuiltInto(parsers.quilt(text).value)) else Err(DeserializeError))
    ensures identifier == ModsToml ==>
              (r.Ok? <==> parsers.forge(text).Some? && parsers.forge(text).value.mods != [])
    ensures identifier == ModsToml && r.Ok? ==> Ok(r.value) == ForgeInto(parsers.forge(text).value)
  {
    if identifier == FabricJson then
      match parsers.fabric(text)
      case None => Err(DeserializeError)
      case Some(m) => Ok(FabricInto(m))
    else if identifier == QuiltJson then
      match parsers.quilt(text)
      case None => Err(DeserializeError)
      case Some(m) => Ok(QuiltInto(m))
    else
      assert identifier == ModsToml;
      match parsers.forge(text)
      case None => Err(DeserializeError)
      case Some(m) =>
        match ForgeInto(m)
        case Ok(md) => Ok(md)
        case Err(_) => Err(DeserializeError)
  }

  /** Reads the matched entry; a read failure aborts with `IoError`. */
  function ReadEntry(identifier: string, entry: Entry, parsers: Parsers): Result<ModMetadata, ManifestError>
    requires identifier in Identifiers && !entry.Unopenable?
  {
    match entry
    case Readable(text) => DecodeManifest(identifier, text, parsers)
    case Unreadable => Err(IoError)
  }

  /** What `read_jar_file` returns, stated as a function of the jar and the parsers. */
  function ReadJar(file: JarFile, parsers: Parsers): Result<ModMetadata, ManifestError> {
    match file
    case CannotOpen => Err(IoError)
    case NotAZip => Err(JairUnzipFail)
    case Archive(entries) =>
      match FirstFound(Identifiers, entries)
      case None => Err(MissingMetadataFile)
      case Some(k) => ReadEntry(Identifiers[k], entries[Identifiers[k]], parsers)
  }

  /**
   * `read_jar_file`: probe the candidates in order, skip any whose lookup fails, and decode the
   * first one found with the converter its name selects.
   */
  method ReadJarFile(file: JarFile, parsers: Parsers) returns (r: Result<ModMetadata, ManifestError>)
    ensures r == ReadJar(file, parsers)
  {
    if file.CannotOpen? {
      return Err(IoError);
    }
    if file.NotAZip? {
      return Err(JairUnzipFail);
    }
    var zip := file.entries;
    for i := 0 to |Identifiers|
      invariant forall j :: 0 <= j < i ==> !Found(zip, Identifiers[j])
    {
      var identifier := Identifiers[i];
      if identifier !in zip || zip[identifier].Unopenable? {
        continue;
      }
      var entry := zip[identifier];
      if entry.Unreadable? {
        return Err(IoError);
      }
      var entryContents := entry.text;
      var metadata: ModMetadata;
      if identifier == FabricJson {
        var manifest := parsers.fabric(entryContents);
        if manifest.None? {
          return Err(DeserializeError);
        }
        metadata := FabricInto(manifest.value);
      } else if identifier == QuiltJson {
        var manifest := parsers.quilt(entryContents);
        if manifest.None? {
          return Err(DeserializeError);
        }
        metadata := QuiltInto(manifest.value);
      } else {
        assert identifier == ModsToml;
        var manifest := parsers.forge(entryContents);
        if manifest.None? {
          return Err(DeserializeError);
        }
        var converted := ForgeInto(manifest.value);
        if converted.Err? {
          return Err(DeserializeError);
        }
        metadata := converted.value;
      }
      return Ok(metadata);
    }
    return Err(MissingMetadataFile);
  }

  // ---------------------------------------------------------------------------------------------
  // Properties of the locator

  /**
   * `MissingMetadataFile` is returned exactly when the archive opens and no candidate is found;
   * the two ways opening can fail have their own errors.
   */
  lemma MissingIffNoCandidate(file: JarFile, parsers: Parsers)
    ensures ReadJar(file, parsers) == Err(MissingMetadataFile) <==>
              file.Archive? && forall j :: 0 <= j < |Identifiers| ==> !Found(file.entries, Identifiers[j])
    ensures ReadJar(CannotOpen, parsers) == Err(IoError) && ReadJar(NotAZip, parsers) == Err(JairUnzipFail)
  {
  }

  /**
   * The first candidate found is the only one read: the result is that entry's outcome, whether
   * a record, an `IoError` or a `DeserializeError`.
   */
  lemma FirstCandidateDecides(entries: map<string, Entry>, parsers: Parsers, k: nat)
    requires k < |Identifiers| && Found(entries, Identifiers[k])
    requires forall j :: 0 <= j < k ==> !Found(entries, Identifiers[j])
    ensures ReadJar(Archive(entries), parsers) == ReadEntry(Identifiers[k], entries[Identifiers[k]], parsers)
  {
  }

  /** Only the entries at or before the first candidate found influence the result. */
  lemma LaterCandidatesIgnored(entries: map<string, Entry>, entries': map<string, Entry>, parsers: Parsers, k: nat)
    requires k < |Identifiers| && Found(entries, Identifiers[k])
    requires forall j :: 0 <= j < k ==> !Found(entries, Identifiers[j]) && !Found(entries', Identifiers[j])
    requires Identifiers[k] in entries' && entries'[Identifiers[k]] == entries[Identifiers[k]]
    ensures ReadJar(Archive(entries), parsers) == ReadJar(Archive(entries'), parsers)
  {
  }

  /** An entry whose lookup fails is treated exactly as a missing entry. */
  lemma LookupErrorIsAbsence(entries: map<string, Entry>, name: string, parsers: Parsers)
    ensures ReadJar(Archive(entries[name := Unopenable]), parsers) == ReadJar(Archive(entries - {name}), parsers)
  {
  }

  /** On success the record's kind is the convention of the candidate that was found first. */
  lemma KindMatchesFoundCandidate(file: JarFile, parsers: Parsers)
    requires ReadJar(file, parsers).Ok?
    ensures file.Archive?
    ensures var k := FirstFound(Identifiers, file.entries);
            k.Some? && ReadJar(file, parsers).value.kind == KindOf[Identifiers[k.value]]
  {
  }

  /** The conversion's `EmptyForgeManifest` is remapped, so `read_jar_file` never returns it. */
  lemma NeverEmptyForgeManifest(file: JarFile, parsers: Parsers)
    ensures ReadJar(file, parsers) != Err(EmptyForgeManifest)
  {
  }

  /** A `mods.toml` with no mod entries, found first, yields `DeserializeError`. */
  lemma EmptyForgeManifestIsDeserializeError(entries: map<string, Entry>, parsers: Parsers, text: string)
    requires !Found(entries, QuiltJson) && !Found(entries, FabricJson)
    requires ModsToml in entries && entries[ModsToml] == Readable(text)
    requires parsers.forge(text) == Some(ForgeManifest([]))
    ensures ReadJar(Archive(entries), parsers) == Err(DeserializeError)
  {
    FirstCandidateDecides(entries, parsers, 2);
  }

  /**
   * With a Quilt manifest present, the Quilt parser alone decides the result, whatever other
   * manifests the archive holds; a success is a Quilt record.
   */
  lemma QuiltTakesPrecedence(entries: map<string, Entry>, parsers: Parsers, text: string)
    requires QuiltJson in entries && entries[QuiltJson] == Readable(text)
    ensures ReadJar(Archive(entries), parsers)
            == if parsers.quilt(text).Some? then Ok(QuiltInto(parsers.quilt(text).value)) else Err(DeserializeError)
  {
    FirstCandidateDecides(entries, parsers, 0);
  }
}

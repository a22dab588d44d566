/**
 * The older manifest module (src-tauri/src/jar.rs). Its manifest records, `ModMetadata` and
 * `ModKind` are field-for-field those of metadata.rs and are shared with module Metadata, and so
 * is its Fabric conversion, whose struct literal is the same. What differs is the error type,
 * which has no archive errors, and the signatures of the Forge and Quilt conversions.
 */
module Jar {
  import opened Wrappers
  import M = Metadata

  /** Errors of jar.rs; the payload of the read error is not modelled. */
  datatype ManifestError = ReadError | DeserializeError | EmptyForgeManifest

  /** Forge conversion: the first mod entry, or `EmptyForgeManifest` when there is none. */
  function ForgeInto(m: M.ForgeManifest): (r: Result<M.ModMetadata, ManifestError>)
    ensures r.Err? <==> m.mods == []
    ensures r.Err? ==> r.error == EmptyForgeManifest
    ensures r.Ok? ==> M.Describes(r.value, M.Forge, m.mods[0].modId, m.mods[0].displayName,
                                  m.mods[0].description, m.mods[0].version)
  {
    if m.mods == [] then Err(EmptyForgeManifest)
    else
      var modData := m.mods[0];
      Ok(M.ModMetadata(M.Forge, modData.modId, modData.displayName.GetOr(modData.modId),
                       modData.description, modData.version))
  }

  /** Quilt conversion: declared fallible, but every path returns a record. */
  function QuiltInto(m: M.QuiltManifest): (r: Result<M.ModMetadata, ManifestError>)
    ensures r.Ok?
    ensures r.value.kind == M.Quilt && r.value.id == m.quiltLoader.id && r.value.version == m.quiltLoader.version
    ensures r.value.description.Some? <==> m.quiltLoader.metadata.Some?
    ensures m.quiltLoader.metadata.Some? ==>
              r.value.name == m.quiltLoader.metadata.value.name
              && r.value.description == Some(m.quiltLoader.metadata.value.description)
    ensures m.quiltLoader.metadata.None? ==> r.value.name == r.value.id
  {
    var loader := m.quiltLoader;
    Ok(M.ModMetadata(
      M.Quilt,
      loader.id,
      match loader.metadata { case Some(md) => md.name case None => loader.id },
      match loader.metadata { case Some(md) => Some(md.description) case None => None },
      loader.version))
  }

  /**
   * `ForgeManifest::from_str` followed by `try_into`, as the tests chain them: a parse failure is
   * `DeserializeError`, and an empty mod list stays `EmptyForgeManifest`.
   */
  function LoadForge(parse: string -> Option<M.ForgeManifest>, text: string): (r: Result<M.ModMetadata, ManifestError>)
    ensures r == Err(DeserializeError) <==> parse(text).None?
    ensures r == Err(EmptyForgeManifest) <==> parse(text) == Some(M.ForgeManifest([]))
    ensures r.Ok? ==> parse(text).Some? && r == ForgeInto(parse(text).value)
  {
    match parse(text)
    case None => Err(DeserializeError)
    case Some(m) => ForgeInto(m)
  }

  /** The two Forge conversions agree on every manifest with a mod entry and both reject the empty one. */
  lemma ForgeAgreesWithMetadata(m: M.ForgeManifest)
    ensures ForgeInto(m).Ok? == M.ForgeInto(m).Ok?
    ensures ForgeInto(m).Ok? ==> ForgeInto(m).value == M.ForgeInto(m).value
    ensures ForgeInto(m).Err? ==> ForgeInto(m).error == EmptyForgeManifest && M.ForgeInto(m).error == M.EmptyForgeManifest
  {
  }

  /** The two Quilt conversions agree; only the declared error type differs. */
  lemma QuiltAgreesWithMetadata(m: M.QuiltManifest)
    ensures QuiltInto(m) == Ok(M.QuiltInto(m))
  {
  }

  /**
   * The manifest of the Fabric test: the version is copied verbatim, so a `${version}` template
   * placeholder is not expanded.
   */
  lemma FabricKeepsVersionPlaceholder()
    ensures var md := M.FabricInto(M.FabricManifest("fabric-api-base", "${version}", Some("Fabric API Base"), None));
            md.kind == M.Fabric && md.id == "fabric-api-base" && md.name == "Fabric API Base" && md.version == "${version}"
  {
  }

  /**
   * The same empty `mods.toml` that `read_jar_file` reports as `DeserializeError` is reported here
   * as `EmptyForgeManifest`.
   */
  lemma EmptyForgeManifestReachable(entries: map<string, M.Entry>, parsers: M.Parsers, text: string)
    requires !M.Found(entries, M.QuiltJson) && !M.Found(entries, M.FabricJson)
    requires M.ModsToml in entries && entries[M.ModsToml] == M.Readable(text)
    requires parsers.forge(text) == Some(M.ForgeManifest([]))
    ensures LoadForge(parsers.forge, text) == Err(EmptyForgeManifest)
    ensures M.ReadJar(M.Archive(entries), parsers) == Err(M.DeserializeError)
  {
    M.EmptyForgeManifestIsDeserializeError(entries, parsers, text);
  }
}

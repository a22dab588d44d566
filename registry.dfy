/**
 * The canonical records of the mod-registry abstraction (apps/desktop/src-tauri/src/registry/mod.rs).
 */
module Registry {

  /** Rust's `u64`: a download count is never negative. */
  newtype u64 = x: int | 0 <= x < 0x1_0000_0000_0000_0000

  /** `time::OffsetDateTime`, abstracted to an instant and an offset; only instants are compared here. */
  datatype OffsetDateTime = OffsetDateTime(unixTimestampNanos: int, offsetSeconds: int)

  /** The kind of content a registry file holds: a closed set of four cases. */
  datatype ModFileType = Mod | Modpack | ResourcePack | World

  datatype ModFile = ModFile(
    id: string,
    name: string,
    downloadUrl: string,
    datePublished: string,  // provider-specific format, not normalised
    gameVersions: seq<string>,
    fileType: ModFileType)

  datatype ModVersion = ModVersion(
    id: string,
    name: string,
    description: string,
    downloads: u64,
    datePublished: OffsetDateTime,
    files: seq<ModFile>)

  /** A mod from a registry; `versions` is in whatever order the provider returned. */
  datatype Mod = Mod(
    id: string,
    name: string,
    description: string,
    authors: seq<string>,
    versions: seq<ModVersion>)

  /** Registry errors; the payloads of the transport and JSON errors are not modelled. */
  datatype ModRegistryError = RequestError | ParseError | Unknown

  /**
   * `Mod::get_latest_version`: the first stored version, taken as the latest without looking at
   * dates. The `unwrap` panics on a mod without versions, so callers must not pass one.
   */
  function GetLatestVersion(m: Mod): (r: ModVersion)
    requires m.versions != []
    ensures r == m.versions[0]
  {
    m.versions[0]
  }

  /**
   * No sorting takes place: a mod whose first version was published before its second still
   * reports the first as its latest.
   */
  lemma LatestVersionIsNotTheNewest()
    ensures exists m: Mod ::
              && |m.versions| == 2
              && m.versions[0].datePublished.unixTimestampNanos < m.versions[1].datePublished.unixTimestampNanos
              && GetLatestVersion(m) == m.versions[0] != m.versions[1]
  {
    var older := ModVersion("a", "1.0", "", 0, OffsetDateTime(0, 0), []);
    var newer := ModVersion("b", "2.0", "", 0, OffsetDateTime(1, 0), []);
    var m := Mod.Mod("m", "M", "", [], [older, newer]);
    assert |m.versions| == 2 && m.versions[0] == older && m.versions[1] == newer;
  }

  /** Putting a version in front of a mod's list makes it the latest, whatever the rest holds. */
  lemma PrependedVersionIsLatest(m: Mod, v: ModVersion)
    ensures GetLatestVersion(m.(versions := [v] + m.versions)) == v
  {
  }
}

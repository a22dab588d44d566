# Mod manifest locator, registry mapping and theme slice: a Dafny model

This project models the three pieces of decision logic in the zono Minecraft launcher:

- **The jar manifest locator** (`src-tauri/src/fs/metadata.rs`, module `Metadata`). A jar is
  opened as a zip archive. The locator probes `quilt.mod.json`, `fabric.mod.json` and
  `META-INF/mods.toml`, in that order. The first entry whose lookup succeeds is read and parsed.
  The converter its name selects turns it into the canonical `ModMetadata`. The archive is a
  finite map from entry name to what reading the entry yields (text, a read failure, or a lookup
  failure). The JSON and TOML parsers are abstract partial functions, passed in as a `Parsers`
  value. `ReadJarFile` is the imperative probe loop. It is proved equal to the functional
  specification `ReadJar` (with `ReadEntry` for the matched entry), and the probing rules are
  lemmas about `ReadJar`.
- **The older manifest module** (`src-tauri/src/jar.rs`, module `Jar`). Its record types and
  its Fabric conversion are the same as metadata.rs's and are shared with `Metadata`. Its own
  error type keeps `EmptyForgeManifest`. Its Quilt conversion is declared fallible but never
  fails.
- **The registry records and the Modrinth mapping**
  (`apps/desktop/src-tauri/src/registry/mod.rs` and `modrinth.rs`, modules `Registry` and
  `Modrinth`). These are the canonical `Mod`, `ModVersion`, `ModFile` and `ModFileType`, the
  partial accessor `get_latest_version`, and the Modrinth wire records with their mapping into
  `Mod`. They also cover the two request URLs. `get_mod` and `search_mods` are modelled over an
  abstract HTTP exchange and an abstract JSON decoder.
- **The theme preference slice** (`src/redux/slices/theme.ts`, module `ThemeSlice`). The slice
  is a class with the three reducers as field-updating methods. Each method is proved against
  the pure reducer `Reduce`, the slice's reducers written as one function on a state value.
  Lemmas about `Run`, which applies a sequence of dispatched actions, state the slice's
  invariants. `targetSystem` starts undefined and is an `Option<Theme>`.
  `shouldUseSystemTheme(true)` copies it into `active`, so `active` is an `Option<Theme>` too.
- **The system theme listener's dispatches** (`src/theme/system.tsx`, module `SystemTheme`).
  Only the switch that turns a window theme into slice actions is modelled; see Findings.
  `DispatchedAsWritten` and `Dispatched` list the actions the callback dispatches as written and
  as corrected, and the two methods are proved to apply exactly those.

Two behaviours of the code that its error types do not suggest:

- reqwest's `json()` fails with a `reqwest::Error`, which converts to `RequestError`
  (`modrinth.rs:20`, `modrinth.rs:28`). So a Modrinth body that does not decode is a
  `RequestError`, and `ParseError` and `Unknown` are never produced.
- Both files' Forge conversions return `EmptyForgeManifest` for a manifest with no mod entries
  (`metadata.rs:142`, `jar.rs:92`). Only `read_jar_file` hides it, remapping it to
  `DeserializeError` (`metadata.rs:43-45`).

`ModVersion.downloads` is a `u64` newtype, so it is never negative. `ModFileType` is a closed
datatype of four cases. `ModRegistryError` has the three cases `RequestError`, `ParseError` and
`Unknown`.

## Model

| member | source | states |
|---|---|---|
| `Metadata.FabricInto` | src-tauri/src/fs/metadata.rs:111-122 | also jar.rs's Fabric conversion, whose struct literal (src-tauri/src/jar.rs:61-73) is the same; never fails; kind is Fabric; id, version and description are carried over; the name is the manifest's name, or the id when it has none |
| `Metadata.ForgeInto` | src-tauri/src/fs/metadata.rs:138-150 | fails, with `EmptyForgeManifest`, exactly when the mod list is empty; otherwise the record of the first mod: kind Forge, id = `modId`, name = `displayName` or else `modId`, version and description carried over |
| `Metadata.QuiltInto` | src-tauri/src/fs/metadata.rs:181-201 | never fails; kind Quilt, id and version from the loader section; the description is present exactly when the metadata section is; the name is the metadata name, or the loader id when the section is absent |
| `Metadata.FabricIntoEqual` | src-tauri/src/fs/metadata.rs:114-121 | two Fabric manifests give the same record if and only if they agree on id, version, description and name-or-id: the conversion loses nothing else |
| `Metadata.ForgeIgnoresLaterMods` | src-tauri/src/fs/metadata.rs:142 | mod entries after the first have no influence on the result |
| `Metadata.ForgeAgreesWithFabric` | src-tauri/src/fs/metadata.rs:141-150 | a Forge entry gives the record the Fabric conversion gives for the same fields, except for the kind |
| `Metadata.QuiltAgreesWithFabric` | src-tauri/src/fs/metadata.rs:184-199 | a Quilt manifest gives the Fabric record whose name and description are both the metadata section's or both absent; `group` is ignored |
| `Metadata.FirstFound` | src-tauri/src/fs/metadata.rs:23-27 | returns the position of the first candidate whose lookup succeeds, with none before it found; or nothing, exactly when no candidate is found |
| `Metadata.DecodeManifest` | src-tauri/src/fs/metadata.rs:36-47 | dispatches on the matched name: each name's parser and converter are used; every parse or conversion failure becomes `DeserializeError`; a success has the kind of that name's convention |
| `Metadata.ReadJarFile` | src-tauri/src/fs/metadata.rs:18-53 | the probe loop returns exactly `ReadJar`: open errors first, then the first found candidate's outcome (`ReadEntry`: its read error, or its parser and converter), else `MissingMetadataFile` |
| `Metadata.MissingIffNoCandidate` | src-tauri/src/fs/metadata.rs:18-52 | `MissingMetadataFile` is returned if and only if the archive opened and no candidate was found; a file that cannot be opened gives `IoError`, and one that is not a zip gives `JairUnzipFail` |
| `Metadata.FirstCandidateDecides` | src-tauri/src/fs/metadata.rs:23-49 | the first candidate found alone decides the result: its record, or its read error, or its deserialize error |
| `Metadata.LaterCandidatesIgnored` | src-tauri/src/fs/metadata.rs:23-49 | two archives that agree up to and including the first found candidate give the same result |
| `Metadata.LookupErrorIsAbsence` | src-tauri/src/fs/metadata.rs:24-27 | an entry whose lookup fails is treated exactly as a missing entry |
| `Metadata.KindMatchesFoundCandidate` | src-tauri/src/fs/metadata.rs:36-47 | on success the kind is the convention of the candidate found first: quilt to Quilt, fabric to Fabric, mods.toml to Forge |
| `Metadata.NeverEmptyForgeManifest` | src-tauri/src/fs/metadata.rs:43-45 | `read_jar_file` never returns `EmptyForgeManifest` |
| `Metadata.EmptyForgeManifestIsDeserializeError` | src-tauri/src/fs/metadata.rs:43-45 | a first-found `mods.toml` with no mod entries yields `DeserializeError` |
| `Metadata.QuiltTakesPrecedence` | src-tauri/src/fs/metadata.rs:15 | with a readable `quilt.mod.json` present, the Quilt parser and converter alone decide the result, whatever other manifests the jar holds |
| `Jar.ForgeInto` | src-tauri/src/jar.rs:88-101 | fails with `EmptyForgeManifest` exactly when the mod list is empty; otherwise the first mod's record, kind Forge, name falling back to `modId` |
| `Jar.QuiltInto` | src-tauri/src/jar.rs:131-151 | declared fallible, but always succeeds; description present exactly when metadata is; name falls back to the loader id |
| `Jar.LoadForge` | src-tauri/src/jar.rs:88-107 | parse then convert: `DeserializeError` exactly on a parse failure, `EmptyForgeManifest` exactly on an empty mod list |
| `Jar.ForgeAgreesWithMetadata` | src-tauri/src/jar.rs:88-101 | jar.rs's and metadata.rs's Forge conversions succeed on the same manifests with the same record, and both reject the empty one |
| `Jar.QuiltAgreesWithMetadata` | src-tauri/src/jar.rs:131-151 | jar.rs's Quilt conversion is metadata.rs's, wrapped in `Ok` |
| `Jar.FabricKeepsVersionPlaceholder` | src-tauri/src/jar.rs:189-199 | the Fabric test manifest keeps id, name and the unexpanded `${version}` |
| `Jar.EmptyForgeManifestReachable` | src-tauri/src/jar.rs:92 | the empty `mods.toml` that the jar locator reports as `DeserializeError` is `EmptyForgeManifest` here |
| `Registry.GetLatestVersion` | apps/desktop/src-tauri/src/registry/mod.rs:32-34 | needs a non-empty version list (the `unwrap` panics otherwise) and returns the first stored version |
| `Registry.LatestVersionIsNotTheNewest` | apps/desktop/src-tauri/src/registry/mod.rs:33 | an example of `GetLatestVersion`'s contract: a mod whose second version is newer still reports the first, as the list is not sorted |
| `Registry.PrependedVersionIsLatest` | apps/desktop/src-tauri/src/registry/mod.rs:33 | whatever version comes first in the stored order is the latest, regardless of the rest |
| `Modrinth.ModFromSearchHit` | apps/desktop/src-tauri/src/registry/modrinth.rs:79-89 | id from `project_id`, name from `title`, the description, the author as the only author, and no versions |
| `Modrinth.ModFromProject` | apps/desktop/src-tauri/src/registry/modrinth.rs:140-150 | id from `id` (not the slug), name from `title`, the description, the team as the only author, and no versions |
| `Modrinth.SearchHitFieldsKept` | apps/desktop/src-tauri/src/registry/modrinth.rs:79-89 | two hits give the same `Mod` if and only if they agree on project id, title, description and author: no other wire field has influence |
| `Modrinth.ProjectFieldsKept` | apps/desktop/src-tauri/src/registry/modrinth.rs:140-150 | two projects give the same `Mod` if and only if they agree on id, title, description and team: slug, counts, gallery, license and the rest have no influence |
| `Modrinth.ModsFromHits` | apps/desktop/src-tauri/src/registry/modrinth.rs:29 | the search result has one `Mod` per hit, and element i is the conversion of hit i |
| `Modrinth.ModsFromHitsAppend` | apps/desktop/src-tauri/src/registry/modrinth.rs:29 | the mapping distributes over concatenation, so the provider's order is kept |
| `Modrinth.SearchResultsAreSummaries` | apps/desktop/src-tauri/src/registry/modrinth.rs:82-86 | every searched mod has exactly one author and no versions, so `get_latest_version` may not be called on it |
| `Modrinth.GetModRequest` | apps/desktop/src-tauri/src/registry/modrinth.rs:7-20 | the formatted URL string is `https://api.modrinth.com/v2/project/` followed by the identifier, unescaped, and no query parameters are added |
| `Modrinth.SearchRequest` | apps/desktop/src-tauri/src/registry/modrinth.rs:27 | the URL is the search endpoint and the only query parameter is `query`, set to the input text |
| `Modrinth.GetModRequestRoundTrip` | apps/desktop/src-tauri/src/registry/modrinth.rs:20 | the identifier can be read back from the formatted URL string, so distinct identifiers give distinct URL strings (reqwest's parsing of them is not modelled) |
| `Modrinth.GetModUrlIsNotSearchUrl` | apps/desktop/src-tauri/src/registry/modrinth.rs:20-27 | no identifier makes the formatted project URL string equal to the search URL string |
| `Modrinth.GetMod` | apps/desktop/src-tauri/src/registry/modrinth.rs:18-23 | succeeds exactly when the exchange and the decoding succeed, with the project's `Mod`; every failure is `RequestError` |
| `Modrinth.SearchMods` | apps/desktop/src-tauri/src/registry/modrinth.rs:25-30 | succeeds exactly when the exchange and the decoding succeed, with every hit of the page converted in order; every failure is `RequestError` |
| `Modrinth.GetModIdComesFromResponse` | apps/desktop/src-tauri/src/registry/modrinth.rs:140-150 | the returned id is the provider's `id`, so a lookup by slug can return a different id |
| `ThemeSlice.ThemeState.constructor` | src/redux/slices/theme.ts:16-19 | the initial state is active Light, `useSystem` false and `targetSystem` undefined |
| `ThemeSlice.ThemeState.UpdateTargetSystemTheme` | src/redux/slices/theme.ts:21-23 | sets `targetSystem` and nothing else, even while the system theme is in use |
| `ThemeSlice.ThemeState.ShouldUseSystemTheme` | src/redux/slices/theme.ts:24-30 | sets `useSystem`; when true, `active` takes `targetSystem`; when false, `active` and `targetSystem` are kept |
| `ThemeSlice.ThemeState.SetTheme` | src/redux/slices/theme.ts:31-36 | a complete no-op while the system theme is in use; otherwise sets `active` and nothing else |
| `ThemeSlice.SetThemeIdempotent` | src/redux/slices/theme.ts:31-36 | setting a theme twice is the same as setting it once |
| `ThemeSlice.TargetChangesOnlyByUpdate` | src/redux/slices/theme.ts:20-37 | over any sequence of actions without `updateTargetSystemTheme`, `targetSystem` does not change |
| `ThemeSlice.LastUpdateWins` | src/redux/slices/theme.ts:21-23 | after any sequence of actions, `targetSystem` is the payload of the last `updateTargetSystemTheme` |
| `ThemeSlice.SystemModeFreezesActive` | src/redux/slices/theme.ts:20-37 | while the system theme is in use and not toggled, `active` stays as it is |
| `ThemeSlice.ActiveDoesNotFollowTarget` | src/redux/slices/theme.ts:21-29 | with the system theme in use, `active` need not equal `targetSystem`: the sequence update Light, system on, update Dark leaves `active` Light and `targetSystem` Dark |
| `ThemeSlice.UseSystemBeforeTargetKnown` | src/redux/slices/theme.ts:16-29 | turning the system theme on before one was recorded leaves `active` undefined |
| `SystemTheme.UpdateFromWindowAsWritten` | src/theme/system.tsx:15-34 | the callback as written dispatches Light then Dark for "light", Dark for "dark", and nothing on a failed query |
| `SystemTheme.UpdateFromWindow` | src/theme/system.tsx:15-34 | the corrected callback dispatches exactly one update: the window's theme, or Light on a failed query |
| `SystemTheme.LightWindowRecordsDarkAsWritten` | src/theme/system.tsx:26-33 | as written, a light window theme records Dark |
| `SystemTheme.FailedQueryRecordsNothingAsWritten` | src/theme/system.tsx:19-33 | as written, a failed window query leaves the state unchanged |
| `SystemTheme.RecordsWindowTheme` | src/theme/system.tsx:15-34 | corrected, the window's theme (Light on failure) is recorded and nothing else changes |

## Findings

| source | as written | input that shows it | evidently intended | confidence | as-written member | corrected member |
|---|---|---|---|---|---|---|
| src/theme/system.tsx:26-33 | the `"light"` case has no `break`, so control falls into the `"dark"` case | a window theme of `"light"` | record Light as the system theme | not executed; high | `SystemTheme.LightWindowRecordsDarkAsWritten` | `SystemTheme.RecordsWindowTheme` |
| src/theme/system.tsx:19-33 | a failed window query yields the enum value `Theme.Light`, the number 0, which matches neither string case | `appWindow.theme()` rejects | dispatch Light, the default the warning announces | not executed; medium | `SystemTheme.FailedQueryRecordsNothingAsWritten` | `SystemTheme.RecordsWindowTheme` |

## Left out

- File and zip I/O (`File::open`, `ZipArchive::new`, `by_name`, `read_to_string`): these are OS and library calls. Their outcomes are the cases of `JarFile` and `Entry`. The payloads of `io::Error` and `ZipError` are not modelled.
- The `expect` on an entry's size (metadata.rs:31): it panics only where a `u64` size does not fit a `usize`, and the model has no platform word size.
- `serde_json::from_str` and `toml::from_str`: foreign parsers, modelled as the abstract partial functions in `Parsers`. A missing required field, such as Quilt's `group`, is a parse returning `None`.
- `Manifest::from_path` in both files: file I/O.
- The `IDENTIFIERS` constant of jar.rs (jar.rs:7): nothing reads it. Its order and its bare `mods.toml` differ from metadata.rs, and it is not part of this model.
- The `ModRegistry` trait and the CurseForge registry: the trait's polymorphism has no logic of its own, and both CurseForge methods are `todo!()`. Modrinth's two operations are modelled directly.
- HTTP, async and the shared lazy client: the exchange is the parameter `send`, and reqwest's JSON decoding is the parameter `decode`. Query-string percent-encoding is reqwest's and stays abstract in `Request.query`. The request builder's `build()` failure is not modelled, because the URL is a fixed valid constant.
- `Modrinth.GetModRequest`: the identifier is inserted into the URL string unescaped, and reqwest's parsing of that string before sending (`Url::parse`: dot segments resolved, `?` starting a query, `#…` dropped) is not modelled. The URL lemmas speak of the formatted string, not of the request sent: an identifier such as `../search`, `a?x=1` or `a#1` changes the request.
- The live-API tests (modrinth.rs:183-199): they depend on what Modrinth returns.
- `OffsetDateTime`: abstracted to an instant (Unix nanoseconds) and an offset in seconds; the calendar and formatting are not modelled, and only instants are compared.
- `Registry.GetLatestVersion`: returns the version by value; the Rust borrow is not modelled.
- The `i64` wire fields: bounded by a newtype, but no arithmetic uses them.
- The Redux store wiring, the slice's action creators, the window-event subscription and its cleanup, and logging: UI plumbing.
- All React views and layouts, config.rs, instance.rs and the generated bindings: they hold no decision logic.

/**
 * The Modrinth registry (apps/desktop/src-tauri/src/registry/modrinth.rs): its wire records, their
 * mapping into the canonical `Mod`, and the two requests. The HTTP exchange is a parameter
 * `send` (the response body, or `None` when the request fails in transport), and reqwest's JSON
 * decoding is a parameter `decode` (`None` when the body does not match the wire record).
 */
module Modrinth {
  import opened Wrappers
  import opened Registry

  /** Rust's `i64`. */
  newtype i64 = x: int | -0x8000_0000_0000_0000 <= x < 0x8000_0000_0000_0000

  const BaseUrl: string := "https://api.modrinth.com/v2"

  /** Everything in a project URL before the project identifier. */
  const ProjectUrlPrefix: string := BaseUrl + "/project/"

  datatype SearchResponse = SearchResponse(hits: seq<SearchHit>, offset: i64, limit: i64, totalHits: i64)

  datatype SearchHit = SearchHit(
    projectId: string,
    projectType: string,
    slug: string,
    author: string,
    title: string,
    description: string,
    categories: seq<string>,
    displayCategories: seq<string>,
    versions: seq<string>,
    downloads: i64,
    follows: i64,
    iconUrl: string,
    dateCreated: string,
    dateModified: string,
    latestVersion: string,
    license: string,
    clientSide: string,
    serverSide: string,
    gallery: seq<string>,
    featuredGallery: Option<string>,
    color: Option<i64>)

  datatype DonationUrl = DonationUrl(id: string, platform: string, url: string)

  datatype License = License(id: string, name: string, url: string)

  datatype Gallery = Gallery(url: string, featured: bool, title: string, description: string, created: string, ordering: i64)

  datatype Project = Project(
    slug: string,
    title: string,
    description: string,
    categories: seq<string>,
    clientSide: string,
    serverSide: string,
    body: string,
    additionalCategories: seq<string>,
    issuesUrl: string,
    sourceUrl: string,
    wikiUrl: string,
    discordUrl: string,
    donationUrls: seq<DonationUrl>,
    projectType: string,
    downloads: Option<i64>,
    iconUrl: string,
    color: Option<i64>,
    id: string,
    team: string,
    bodyUrl: Option<string>,
    moderatorMessage: Option<string>,
    published: string,
    updated: string,
    approved: string,
    followers: Option<i64>,
    status: string,
    license: License,
    versions: seq<string>,
    gameVersions: seq<string>,
    loaders: seq<string>,
    gallery: seq<Gallery>)

  /** A search hit as a summary `Mod`: its single author, and no version detail. */
  function ModFromSearchHit(value: SearchHit): (r: Mod)
    ensures r.id == value.projectId && r.name == value.title && r.description == value.description
    ensures r.authors == [value.author] && r.versions == []
  {
    Mod.Mod(value.projectId, value.title, value.description, [value.author], [])
  }

  /** A project as a `Mod`: its team is the single author, and there is no version detail. */
  function ModFromProject(value: Project): (r: Mod)
    ensures r.id == value.id && r.name == value.title && r.description == value.description
    ensures r.authors == [value.team] && r.versions == []
  {
    Mod.Mod(value.id, value.title, value.description, [value.team], [])
  }

  /**
   * Two hits map to the same `Mod` exactly when they agree on identifier, title, description and
   * author: those four fields are kept, and no other field has any influence.
   */
  lemma SearchHitFieldsKept(a: SearchHit, b: SearchHit)
    ensures ModFromSearchHit(a) == ModFromSearchHit(b) <==>
              a.projectId == b.projectId && a.title == b.title && a.description == b.description && a.author == b.author
  {
  }

  /**
   * Two projects map to the same `Mod` exactly when they agree on identifier, title, description
   * and team: the slug, the download and follower counts, the gallery, the license and every
   * other field have no influence.
   */
  lemma ProjectFieldsKept(a: Project, b: Project)
    ensures ModFromProject(a) == ModFromProject(b) <==>
              a.id == b.id && a.title == b.title && a.description == b.description && a.team == b.team
  {
  }

  /** The `hits.into_iter().map(Into::into).collect()` of `search_mods`: element-wise, in order. */
  function ModsFromHits(hits: seq<SearchHit>): (r: seq<Mod>)
    ensures |r| == |hits|
    ensures forall i :: 0 <= i < |hits| ==> r[i] == ModFromSearchHit(hits[i])
  {
    if hits == [] then [] else [ModFromSearchHit(hits[0])] + ModsFromHits(hits[1..])
  }

  /** Mapping the hits distributes over concatenation: the provider's order is preserved. */
  lemma ModsFromHitsAppend(a: seq<SearchHit>, b: seq<SearchHit>)
    ensures ModsFromHits(a + b) == ModsFromHits(a) + ModsFromHits(b)
  {
  }

  /**
   * Every mod of a search result has exactly one author and no versions, so
   * `get_latest_version` may not be called on any of them.
   */
  lemma SearchResultsAreSummaries(hits: seq<SearchHit>)
    ensures forall m :: m in ModsFromHits(hits) ==> |m.authors| == 1 && m.versions == []
  {
  }

  /** An HTTP GET request: a URL and the query parameters reqwest percent-encodes onto it. */
  datatype Request = Request(url: string, query: seq<(string, string)>)

  /**
   * The request of `get_mod`: the `format!`ed URL string, the project prefix with the identifier
   * appended unescaped. reqwest parses this string before sending it; that parsing is not modelled.
   */
  function GetModRequest(id: string): (r: Request)
    ensures r.query == []
    ensures |r.url| == |ProjectUrlPrefix| + |id|
    ensures r.url[..|ProjectUrlPrefix|] == ProjectUrlPrefix && r.url[|ProjectUrlPrefix|..] == id
  {
    Request(BaseUrl + "/project/" + id, [])
  }

  /** The request of `search_mods`: the search endpoint with the single query parameter `query`. */
  function SearchRequest(query: string): (r: Request)
    ensures r.url == BaseUrl + "/search"
    ensures r.query == [("query", query)]
  {
    Request(BaseUrl + "/search", [("query", query)])
  }

  /** Recovers the identifier from a project URL, as a router would. */
  function ProjectIdFromUrl(url: string): Option<string> {
    if |ProjectUrlPrefix| <= |url| && url[..|ProjectUrlPrefix|] == ProjectUrlPrefix
    then Some(url[|ProjectUrlPrefix|..])
    else None
  }

  /**
   * `GetModRequest`'s prefix/suffix contract restated as a round trip: the formatted project URL
   * string carries the identifier unchanged, so distinct identifiers give distinct URL strings
   * (before reqwest parses them).
   */
  lemma GetModRequestRoundTrip(id: string)
    ensures ProjectIdFromUrl(GetModRequest(id).url) == Some(id)
  {
  }

  /**
   * A consequence of `GetModRequest`'s contract and the two URL constants: no identifier makes the
   * formatted `get_mod` URL string equal to the search URL string.
   */
  lemma GetModUrlIsNotSearchUrl(id: string, query: string)
    ensures GetModRequest(id).url != SearchRequest(query).url
  {
  }

  /**
   * `get_mod`: fetch the project and map it. reqwest reports a transport failure and a body that
   * does not decode as the same `reqwest::Error`, so both are `RequestError`.
   */
  function GetMod(send: Request -> Option<string>, decode: string -> Option<Project>, id: string)
    : (r: Result<Mod, ModRegistryError>)
    ensures r.Err? ==> r.error == RequestError
    ensures r.Ok? <==> send(GetModRequest(id)).Some? && decode(send(GetModRequest(id)).value).Some?
    ensures r.Ok? ==> r.value == ModFromProject(decode(send(GetModRequest(id)).value).value)
  {
    match send(GetModRequest(id))
    case None => Err(RequestError)
    case Some(body) =>
      match decode(body)
      case None => Err(RequestError)
      case Some(project) => Ok(ModFromProject(project))
  }

  /**
   * `search_mods`: one request, one page, every hit mapped in the provider's order; failures are
   * `RequestError` as in `get_mod`.
   */
  function SearchMods(send: Request -> Option<string>, decode: string -> Option<SearchResponse>, query: string)
    : (r: Result<seq<Mod>, ModRegistryError>)
    ensures r.Err? ==> r.error == RequestError
    ensures r.Ok? <==> send(SearchRequest(query)).Some? && decode(send(SearchRequest(query)).value).Some?
    ensures r.Ok? ==>
              var hits := decode(send(SearchRequest(query)).value).value.hits;
              |r.value| == |hits| && forall i :: 0 <= i < |hits| ==> r.value[i] == ModFromSearchHit(hits[i])
  {
    match send(SearchRequest(query))
    case None => Err(RequestError)
    case Some(body) =>
      match decode(body)
      case None => Err(RequestError)
      case Some(response) => Ok(ModsFromHits(response.hits))
  }

  /**
   * The identifier `get_mod` returns is the `id` the provider sends back, not the one asked for:
   * a lookup by slug that the provider answers with its project id returns that id.
   */
  lemma GetModIdComesFromResponse(send: Request -> Option<string>, decode: string -> Option<Project>, slug: string, body: string, p: Project)
    requires send(GetModRequest(slug)) == Some(body) && decode(body) == Some(p)
    requires p.slug == slug && p.id != slug
    ensures GetMod(send, decode, slug).Ok? && GetMod(send, decode, slug).value.id != slug
  {
  }
}

/**
  Per-route SEO metadata of the site's single-page application.

  On every completed navigation the manager trims the slashes off the URL,
  skips the routes that manage their own metadata (`blog/`, `studio/`,
  `artifact/`), fetches `assets/data/meta/<path>.json` and turns the fetched
  record into a page title and ten meta-tag entries.

  The HTTP client is an abstract oracle `fetch` from a request key to either
  a JSON payload or an error. Router events, the DOM and logging are not
  modelled; the result of a navigation is the title and the tag list that
  would be handed to the title and meta services.
 */
module MetaTagManager {
  import opened Wrappers

  // ---------------------------------------------------------------------
  // Strings
  // ---------------------------------------------------------------------

  /** JavaScript's `s.startsWith(prefix)`. */
  predicate StartsWith(s: string, prefix: string) {
    |prefix| <= |s| && s[..|prefix|] == prefix
  }

  /** Every character of `s` is a `/`. */
  predicate AllSlashes(s: string) {
    forall k :: 0 <= k < |s| ==> s[k] == '/'
  }

  /** `s` neither starts nor ends with a `/`. */
  predicate NoEdgeSlash(s: string) {
    s == [] || (s[0] != '/' && s[|s| - 1] != '/')
  }

  // ---------------------------------------------------------------------
  // URL normalization: url.replace(/^\/+|\/+$/g, '')
  // ---------------------------------------------------------------------

  /** The length of the run of slashes `^\/+` matches at the start of `s` (0 when it does not match). */
  function LeadingSlashes(s: string): (n: nat)
    ensures n <= |s|
    ensures forall k :: 0 <= k < n ==> s[k] == '/'
    ensures n < |s| ==> s[n] != '/'
  {
    if |s| > 0 && s[0] == '/' then
      var n := 1 + LeadingSlashes(s[1..]);
      assert forall k :: 1 <= k < |s| ==> s[k] == s[1..][k - 1];
      n
    else 0
  }

  /** The length of the run of slashes `\/+$` matches at the end of `s` (0 when it does not match). */
  function TrailingSlashes(s: string): (n: nat)
    ensures n <= |s|
    ensures forall k :: |s| - n <= k < |s| ==> s[k] == '/'
    ensures n < |s| ==> s[|s| - 1 - n] != '/'
  {
    if |s| > 0 && s[|s| - 1] == '/' then
      var n := 1 + TrailingSlashes(s[..|s| - 1]);
      assert forall k :: 0 <= k < |s| - 1 ==> s[k] == s[..|s| - 1][k];
      n
    else 0
  }

  /**
    `u[i..j]` is what is left of `u` once its leading and trailing slashes
    are removed: everything before `i` and from `j` on is a slash, and the
    kept part, when not empty, neither starts nor ends with one. This is the
    reference definition that `Normalize` is proved to meet.
   */
  predicate TrimmedAt(u: string, i: nat, j: nat) {
    && i <= j <= |u|
    && (forall k :: 0 <= k < i ==> u[k] == '/')
    && (forall k :: j <= k < |u| ==> u[k] == '/')
    && (i < j ==> u[i] != '/' && u[j - 1] != '/')
  }

  /** The trailing run of slashes of a suffix `u[i..]`, read back as positions of `u`. */
  lemma {:induction false} TrailingSlashesOfSuffix(u: string, i: nat)
    requires i <= |u|
    ensures var t := TrailingSlashes(u[i..]);
      && t <= |u| - i
      && (forall k :: |u| - t <= k < |u| ==> u[k] == '/')
      && (i < |u| - t ==> u[|u| - t - 1] != '/')
  {
    var tail := u[i..];
    var t := TrailingSlashes(tail);
    forall k | |u| - t <= k < |u| ensures u[k] == '/' {
      assert u[k] == tail[k - i];
    }
    if i < |u| - t {
      assert u[|u| - t - 1] == tail[|tail| - 1 - t];
    }
  }

  /** Where the normalized path ends in `u`: the trailing run is sought after the leading one. */
  function PathEnd(u: string): (j: nat)
    ensures TrimmedAt(u, LeadingSlashes(u), j)
  {
    var i := LeadingSlashes(u);
    TrailingSlashesOfSuffix(u, i);
    |u| - TrailingSlashes(u[i..])
  }

  /**
    The path of a URL, `url.replace(/^\/+|\/+$/g, '')`: the URL with every
    leading and every trailing `/` removed and nothing else touched, so
    interior slashes, a query string or a fragment stay.
   */
  function Normalize(u: string): (r: string)
    ensures NoEdgeSlash(r)
    ensures r == [] <==> AllSlashes(u)
    ensures var i := LeadingSlashes(u); i + |r| <= |u| && TrimmedAt(u, i, i + |r|) && r == u[i..i + |r|]
  {
    var i := LeadingSlashes(u);
    var j := PathEnd(u);
    var r := u[i..j];
    assert i < j ==> r[0] == u[i] && r[|r| - 1] == u[j - 1];
    r
  }

  /**
    Any way of cutting `u` into leading slashes, a kept part without edge
    slashes, and trailing slashes keeps exactly `Normalize(u)`: the
    normalized path is the unique such trim.
   */
  lemma {:induction false} NormalizeIsTheTrim(u: string, i: nat, j: nat)
    requires TrimmedAt(u, i, j)
    ensures Normalize(u) == u[i..j]
  {
    var i0, j0 := LeadingSlashes(u), PathEnd(u);
    if i == j {
      assert AllSlashes(u);
    } else {
      assert u[i] != '/';
      assert i0 == i;
      assert j0 == j;
    }
  }

  /** Normalizing twice is normalizing once. */
  lemma {:induction false} NormalizeIdempotent(u: string)
    ensures Normalize(Normalize(u)) == Normalize(u)
  {
    var r := Normalize(u);
    assert TrimmedAt(r, 0, |r|);
    NormalizeIsTheTrim(r, 0, |r|);
    assert r[0..|r|] == r;
  }

  /** A URL made only of slashes (the site root `/` among them) has the empty path. */
  lemma SlashesNormalizeToEmpty(u: string)
    requires AllSlashes(u)
    ensures Normalize(u) == ""
  {
  }

  // ---------------------------------------------------------------------
  // Excluded routes
  // ---------------------------------------------------------------------

  /** The route prefixes whose pages set their own metadata; each ends with `/`. */
  const ExcludedPrefixes: seq<string> := ["blog/", "studio/", "artifact/"]

  /**
    The test of `setMetaTags`, three `startsWith` calls joined by `||`: the
    path is excluded exactly when it begins with one of the listed prefixes.
   */
  function IsExcluded(path: string): (excluded: bool)
    ensures excluded <==> exists p :: p in ExcludedPrefixes && StartsWith(path, p)
  {
    var blog, studio, artifact := ExcludedPrefixes[0], ExcludedPrefixes[1], ExcludedPrefixes[2];
    assert blog in ExcludedPrefixes && studio in ExcludedPrefixes && artifact in ExcludedPrefixes;
    assert forall p :: p in ExcludedPrefixes ==> p == blog || p == studio || p == artifact;
    StartsWith(path, blog) || StartsWith(path, studio) || StartsWith(path, artifact)
  }

  /** The section roots themselves are not excluded: the prefixes include their trailing slash. */
  lemma SectionRootsAreNotExcluded()
    ensures !IsExcluded("blog") && !IsExcluded("studio") && !IsExcluded("artifact")
  {
    assert |"blog"| < |"blog/"| && |"studio"| < |"studio/"| && |"artifact"| < |"artifact/"|;
    assert "blog"[0] != "studio/"[0] && "blog"[0] != "artifact/"[0];
    assert "studio"[0] != "blog/"[0] && "studio"[0] != "artifact/"[0];
    assert "artifact"[0] != "blog/"[0] && "artifact"[0] != "studio/"[0];
  }

  /** The URL `/blog/` normalizes to `blog`, which is fetched like any other page. */
  lemma BlogRootIsFetched()
    ensures Normalize("/blog/") == "blog"
    ensures RequestedKey("/blog/") == Some(MetaKey("blog"))
  {
    var u := "/blog/";
    assert u[0] == '/' && u[1] == 'b' && u[5] == '/' && u[4] == 'g';
    assert TrimmedAt(u, 1, 5);
    NormalizeIsTheTrim(u, 1, 5);
    assert u[1..5] == "blog";
    SectionRootsAreNotExcluded();
  }

  // ---------------------------------------------------------------------
  // Metadata records and the fetch key
  // ---------------------------------------------------------------------

  /** A fetched JSON object: field name to string value. */
  type Record = map<string, string>

  /**
    A JSON body as the HTTP client hands it over: the literal `null` (also
    what an empty body parses to), which is falsy, or an object, which is
    truthy even when it has no fields.
   */
  datatype Payload = JsonNull | JsonObject(fields: Record)

  /** JavaScript truthiness of a payload, the guard `if (metaTags)`. */
  predicate Truthy(p: Payload) {
    p.JsonObject?
  }

  /** The `{}` the service falls back to for the home route and for a failed fetch. */
  const EmptyObject: Payload := JsonObject(map[])

  const MetaDirectory: string := "assets/data/meta/"
  const MetaExtension: string := ".json"

  /** The address fetched for a path: `assets/data/meta/<path>.json`. */
  function MetaKey(path: string): (key: string)
    ensures StartsWith(key, MetaDirectory)
    ensures |key| == |MetaDirectory| + |path| + |MetaExtension|
    ensures key[|key| - |MetaExtension|..] == MetaExtension
  {
    MetaDirectory + path + MetaExtension
  }

  /** Recovers the path from a fetch key, or `None` when `key` is not one. */
  function PathOfKey(key: string): (path: Option<string>)
    ensures path.Some? ==> MetaKey(path.value) == key
  {
    if |MetaDirectory| + |MetaExtension| <= |key|
       && key[..|MetaDirectory|] == MetaDirectory
       && key[|key| - |MetaExtension|..] == MetaExtension
    then
      var p := key[|MetaDirectory|..|key| - |MetaExtension|];
      assert key == key[..|MetaDirectory|] + p + key[|key| - |MetaExtension|..];
      Some(p)
    else None
  }

  /** The fetch key names its path: `PathOfKey` inverts `MetaKey`. */
  lemma {:induction false} PathOfKeyRoundTrip(path: string)
    ensures PathOfKey(MetaKey(path)) == Some(path)
  {
    var key := MetaKey(path);
    assert key[..|MetaDirectory|] == MetaDirectory;
    assert key[|MetaDirectory|..|key| - |MetaExtension|] == path;
  }

  /** Distinct paths are fetched from distinct addresses. */
  lemma {:induction false} MetaKeyInjective(p: string, q: string)
    requires MetaKey(p) == MetaKey(q)
    ensures p == q
  {
    PathOfKeyRoundTrip(p);
    PathOfKeyRoundTrip(q);
  }

  // ---------------------------------------------------------------------
  // getMetaTags: resolve a URL to a payload
  // ---------------------------------------------------------------------

  /** The key `getMetaTags` fetches for `url`, or `None` for the home route, which fetches nothing. */
  function FetchKey(url: string): (key: Option<string>)
    ensures key.None? <==> AllSlashes(url)
    ensures key.Some? ==> PathOfKey(key.value) == Some(Normalize(url))
  {
    var path := Normalize(url);
    if path == "" then None
    else
      PathOfKeyRoundTrip(path);
      Some(MetaKey(path))
  }

  /**
    `getMetaTags`: the home route resolves to `{}`; any other path is fetched
    by its key, and a failed fetch is caught and replaced by `{}`. The result
    is a payload, never an error.
   */
  function GetMetaTags<E>(url: string, fetch: string -> Result<Payload, E>): (doc: Payload)
    ensures FetchKey(url).None? ==> doc == EmptyObject
    ensures FetchKey(url).Some? && fetch(FetchKey(url).value).Failure? ==> doc == EmptyObject
    ensures FetchKey(url).Some? && fetch(FetchKey(url).value).Success? ==> doc == fetch(FetchKey(url).value).value
  {
    var fullPath := Normalize(url);
    if fullPath == "" then EmptyObject
    else
      match fetch(MetaKey(fullPath))
      case Success(body) => body
      case Failure(_) => EmptyObject
  }

  // ---------------------------------------------------------------------
  // applyMetaTags: a record to a title and ten tags
  // ---------------------------------------------------------------------

  /** Whether a tag is keyed by its `name` or by its `property` attribute. */
  datatype AttrKind = NameAttr | PropertyAttr

  /** One entry handed to `Meta.addTags`: `{ name|property: attr, content }`. */
  datatype MetaTag = MetaTag(kind: AttrKind, attr: string, content: string)

  /** `metaTags[key] || ''`: the field's value, or `''` when it is missing (or already empty). */
  function FieldOrEmpty(m: Record, key: string): (content: string)
    ensures key in m ==> content == m[key]
    ensures key !in m ==> content == ""
  {
    if key in m && m[key] != "" then m[key] else ""
  }

  /** The ten tags in the order they are added, each with its attribute kind. */
  const TagLayout: seq<(AttrKind, string)> := [
    (NameAttr, "description"),
    (NameAttr, "keywords"),
    (PropertyAttr, "og:title"),
    (PropertyAttr, "og:description"),
    (PropertyAttr, "og:image"),
    (PropertyAttr, "og:url"),
    (NameAttr, "twitter:card"),
    (NameAttr, "twitter:title"),
    (NameAttr, "twitter:description"),
    (NameAttr, "twitter:image")
  ]

  /** The argument of `addTags` for record `m`. */
  function TagsFor(m: Record): (tags: seq<MetaTag>)
    ensures |tags| == |TagLayout| == 10
    ensures forall i :: 0 <= i < |tags| ==>
      tags[i].kind == TagLayout[i].0 && tags[i].attr == TagLayout[i].1
    ensures forall i :: 0 <= i < |tags| ==> tags[i].content == FieldOrEmpty(m, tags[i].attr)
  {
    [ MetaTag(NameAttr, "description", FieldOrEmpty(m, "description")),
      MetaTag(NameAttr, "keywords", FieldOrEmpty(m, "keywords")),
      MetaTag(PropertyAttr, "og:title", FieldOrEmpty(m, "og:title")),
      MetaTag(PropertyAttr, "og:description", FieldOrEmpty(m, "og:description")),
      MetaTag(PropertyAttr, "og:image", FieldOrEmpty(m, "og:image")),
      MetaTag(PropertyAttr, "og:url", FieldOrEmpty(m, "og:url")),
      MetaTag(NameAttr, "twitter:card", FieldOrEmpty(m, "twitter:card")),
      MetaTag(NameAttr, "twitter:title", FieldOrEmpty(m, "twitter:title")),
      MetaTag(NameAttr, "twitter:description", FieldOrEmpty(m, "twitter:description")),
      MetaTag(NameAttr, "twitter:image", FieldOrEmpty(m, "twitter:image")) ]
  }

  /** The Open Graph tags, and only they, are keyed by `property`; all others by `name`. */
  lemma {:induction false} PropertyTagsAreOpenGraph()
    ensures forall i :: 0 <= i < |TagLayout| ==> (TagLayout[i].0 == PropertyAttr <==> StartsWith(TagLayout[i].1, "og:"))
  {
    assert "og:title"[..3] == "og:description"[..3] == "og:image"[..3] == "og:url"[..3] == "og:";
    assert "description"[0] == 'd' && "keywords"[0] == 'k';
    assert "twitter:card"[0] == "twitter:title"[0] == "twitter:description"[0] == "twitter:image"[0] == 't';
    forall i | 0 <= i < |TagLayout|
      ensures TagLayout[i].0 == PropertyAttr <==> StartsWith(TagLayout[i].1, "og:")
    {
      if 2 <= i < 6 {
        assert TagLayout[i].0 == PropertyAttr;
      } else {
        assert TagLayout[i].1[0] != 'o';
      }
    }
  }

  /** What one navigation does to the document head. */
  datatype Outcome =
    | Skipped
      /** `setTitle(title)` (`None` is `undefined`) followed by `addTags(tags)`. */
    | Applied(title: Option<string>, tags: seq<MetaTag>)

  /** The ten tags with empty content that a record without fields produces. */
  function BlankTags(): (tags: seq<MetaTag>)
    ensures |tags| == 10
    ensures forall i :: 0 <= i < |tags| ==> tags[i].content == ""
  {
    TagsFor(map[])
  }

  /**
    `applyMetaTags`: a falsy payload changes nothing; an object sets the
    title to its `title` field as it is and adds the ten tags.
   */
  function ApplyMetaTags(doc: Payload): (out: Outcome)
    ensures out.Skipped? <==> !Truthy(doc)
    ensures out.Applied? ==> out.title == Get(doc.fields, "title") && out.tags == TagsFor(doc.fields)
  {
    if !Truthy(doc) then Skipped
    else Applied(Get(doc.fields, "title"), TagsFor(doc.fields))
  }

  /** A title is passed on verbatim, even an empty one; a missing title is passed as `undefined`. */
  lemma TitleVerbatim(m: Record)
    ensures "title" in m ==> ApplyMetaTags(JsonObject(m)).title == Some(m["title"])
    ensures "title" !in m ==> ApplyMetaTags(JsonObject(m)).title == None
  {
  }

  /** Each tag carries the record's same-named field, so the tags only depend on those ten fields. */
  lemma {:induction false} TagsDependOnlyOnTagFields(m1: Record, m2: Record)
    requires forall i :: 0 <= i < |TagLayout| ==> FieldOrEmpty(m1, TagLayout[i].1) == FieldOrEmpty(m2, TagLayout[i].1)
    ensures TagsFor(m1) == TagsFor(m2)
  {
    var t1, t2 := TagsFor(m1), TagsFor(m2);
    forall i | 0 <= i < 10 ensures t1[i] == t2[i] {
      assert t1[i].attr == TagLayout[i].1;
    }
  }

  // ---------------------------------------------------------------------
  // setMetaTags: one navigation
  // ---------------------------------------------------------------------

  /**
    `setMetaTags(url)`: excluded routes are left alone; every other route is
    resolved by `getMetaTags` and the payload, when truthy, applied.

    The source re-derives the path inside `getMetaTags` from the router's
    current URL; this model assumes that URL is the `url` being handled.
   */
  function SetMetaTags<E>(url: string, fetch: string -> Result<Payload, E>): (out: Outcome)
    ensures IsExcluded(Normalize(url)) ==> out == Skipped
    ensures !IsExcluded(Normalize(url)) ==> out == ApplyMetaTags(GetMetaTags(url, fetch))
  {
    var fullPath := Normalize(url);
    if IsExcluded(fullPath) then Skipped
    else
      var metaTags := GetMetaTags(url, fetch);
      if Truthy(metaTags) then ApplyMetaTags(metaTags) else Skipped
  }

  /** The key `setMetaTags` ends up fetching, if any: none for an excluded route or the home route. */
  function RequestedKey(url: string): (key: Option<string>)
    ensures key.Some? <==> !IsExcluded(Normalize(url)) && Normalize(url) != ""
    ensures key.Some? ==> key.value == "assets/data/meta/" + Normalize(url) + ".json"
  {
    if IsExcluded(Normalize(url)) then None else FetchKey(url)
  }

  /**
    The fetch oracle is consulted at the requested key and nowhere else:
    two oracles that agree there, or any two when nothing is requested,
    give the same outcome.
   */
  lemma {:induction false} OnlyRequestedKeyIsFetched<E>(url: string, f: string -> Result<Payload, E>, g: string -> Result<Payload, E>)
    requires RequestedKey(url).Some? ==> f(RequestedKey(url).value) == g(RequestedKey(url).value)
    ensures SetMetaTags(url, f) == SetMetaTags(url, g)
  {
    if !IsExcluded(Normalize(url)) && Normalize(url) != "" {
      assert FetchKey(url) == RequestedKey(url);
    }
  }

  /** An excluded route is neither fetched nor applied. */
  lemma ExcludedRouteIsSkipped<E>(url: string, fetch: string -> Result<Payload, E>)
    requires IsExcluded(Normalize(url))
    ensures RequestedKey(url).None?
    ensures SetMetaTags(url, fetch) == Skipped
  {
  }

  /**
    The home route is not skipped: `{}` is truthy, so the title is set to
    `undefined` and the ten tags are added with empty content.
   */
  lemma HomeRouteAppliesBlankTags<E>(url: string, fetch: string -> Result<Payload, E>)
    requires AllSlashes(url)
    ensures RequestedKey(url).None?
    ensures SetMetaTags(url, fetch) == Applied(None, BlankTags())
  {
  }

  /** A failed fetch is swallowed and, like the home route, blanks the title and the ten tags. */
  lemma FailedFetchAppliesBlankTags<E>(url: string, fetch: string -> Result<Payload, E>)
    requires RequestedKey(url).Some? && fetch(RequestedKey(url).value).Failure?
    ensures SetMetaTags(url, fetch) == Applied(None, BlankTags())
  {
    assert FetchKey(url) == RequestedKey(url);
  }

  /** A fetched object is applied: its title verbatim and the ten tags filled from its fields. */
  lemma FetchedObjectIsApplied<E>(url: string, fetch: string -> Result<Payload, E>, m: Record)
    requires RequestedKey(url).Some? && fetch(RequestedKey(url).value) == Success(JsonObject(m))
    ensures SetMetaTags(url, fetch) == Applied(Get(m, "title"), TagsFor(m))
  {
    assert FetchKey(url) == RequestedKey(url);
  }

  /** A navigation changes nothing exactly when its route is excluded or its file holds `null`. */
  lemma {:induction false} SkippedIff<E>(url: string, fetch: string -> Result<Payload, E>)
    ensures SetMetaTags(url, fetch) == Skipped <==>
      (RequestedKey(url).None? && IsExcluded(Normalize(url)))
      || (RequestedKey(url).Some? && fetch(RequestedKey(url).value) == Success(JsonNull))
  {
    if RequestedKey(url).Some? {
      assert FetchKey(url) == RequestedKey(url);
    }
  }

  // ---------------------------------------------------------------------
  // A sequence of navigations
  // ---------------------------------------------------------------------

  /** The outcomes of navigating to each URL in turn; every navigation is resolved on its own. */
  function Navigate<E>(urls: seq<string>, fetch: string -> Result<Payload, E>): (outs: seq<Outcome>)
    ensures |outs| == |urls|
    ensures forall i :: 0 <= i < |urls| ==> outs[i] == SetMetaTags(urls[i], fetch)
  {
    if urls == [] then []
    else [SetMetaTags(urls[0], fetch)] + Navigate(urls[1..], fetch)
  }

  /** Navigating through `a` then `b` gives the outcomes of `a` followed by those of `b`. */
  lemma NavigateAppend<E>(a: seq<string>, b: seq<string>, fetch: string -> Result<Payload, E>)
    ensures Navigate(a + b, fetch) == Navigate(a, fetch) + Navigate(b, fetch)
  {
    var l, r := Navigate(a + b, fetch), Navigate(a, fetch) + Navigate(b, fetch);
    forall i | 0 <= i < |l| ensures l[i] == r[i] {
      if i < |a| { assert (a + b)[i] == a[i]; } else { assert (a + b)[i] == b[i - |a|]; }
    }
  }

  /** The one metadata file of the walk-through below. */
  function FooStore(key: string): Result<Payload, string> {
    if key == MetaKey("projects/foo")
    then Success(JsonObject(map["title" := "Foo", "description" := "Bar"]))
    else Failure("404 Not Found")
  }

  /** The home page of the walk-through: `{}` is applied, blanking the title and the tags. */
  lemma WalkThroughHome()
    ensures SetMetaTags("/", FooStore) == Applied(None, BlankTags())
  {
    HomeRouteAppliesBlankTags("/", FooStore);
  }

  /** The project page of the walk-through: its file is fetched and applied. */
  lemma WalkThroughProject()
    ensures SetMetaTags("/projects/foo", FooStore) == Applied(Some("Foo"), TagsFor(map["title" := "Foo", "description" := "Bar"]))
  {
    var m := map["title" := "Foo", "description" := "Bar"];
    var u := "/projects/foo";
    assert u[0] == '/' && u[1] == 'p' && u[12] == 'o';
    assert TrimmedAt(u, 1, 13);
    NormalizeIsTheTrim(u, 1, 13);
    assert u[1..13] == "projects/foo";
    assert !IsExcluded("projects/foo") by {
      assert "projects/foo"[0] == 'p';
    }
    assert RequestedKey("/projects/foo") == Some(MetaKey("projects/foo"));
    FetchedObjectIsApplied("/projects/foo", FooStore, m);
  }

  /** The project page gets description `Bar` and nine empty tags. */
  lemma {:induction false} WalkThroughProjectTags()
    ensures var tags := TagsFor(map["title" := "Foo", "description" := "Bar"]);
      tags[0].content == "Bar" && forall i :: 1 <= i < |tags| ==> tags[i].content == ""
  {
    var m := map["title" := "Foo", "description" := "Bar"];
    var tags := TagsFor(m);
    forall i | 1 <= i < |tags| ensures tags[i].content == "" {
      assert |tags[i].attr| != 5 && |tags[i].attr| != 11;
      assert tags[i].attr !in m;
    }
  }

  /** The blog post of the walk-through is skipped. */
  lemma WalkThroughBlogPost()
    ensures SetMetaTags("/blog/post-1", FooStore) == Skipped
  {
    var u := "/blog/post-1";
    assert u[0] == '/' && u[1] == 'b' && u[11] == '1';
    assert TrimmedAt(u, 1, 12);
    NormalizeIsTheTrim(u, 1, 12);
    assert u[1..12] == "blog/post-1";
    assert StartsWith("blog/post-1", "blog/") by {
      assert "blog/post-1"[..5] == "blog/";
    }
    ExcludedRouteIsSkipped("/blog/post-1", FooStore);
  }

  /**
    Navigating `/`, `/projects/foo`, `/blog/post-1`: the home route blanks the
    tags, the project page gets its title and tags, and the blog post is
    left alone.
   */
  lemma WalkThrough()
    ensures Navigate(["/", "/projects/foo", "/blog/post-1"], FooStore) == [
      Applied(None, BlankTags()),
      Applied(Some("Foo"), TagsFor(map["title" := "Foo", "description" := "Bar"])),
      Skipped ]
  {
    var urls := ["/", "/projects/foo", "/blog/post-1"];
    var outs := Navigate(urls, FooStore);
    WalkThroughHome();
    WalkThroughProject();
    WalkThroughBlogPost();
    assert |outs| == 3;
    assert outs[0] == SetMetaTags("/", FooStore);
    assert outs[1] == SetMetaTags("/projects/foo", FooStore);
    assert outs[2] == SetMetaTags("/blog/post-1", FooStore);
  }
}

# jsm33t.me: route metadata and login validation, modelled in Dafny

This project models two small pieces of logic from a personal website.

1. **`MetaTagManagerService`** (Angular, module `MetaTagManager`). On every
   completed navigation it turns the URL into a path. It removes every
   leading and trailing `/` and nothing else. It skips paths under `blog/`,
   `studio/` and `artifact/`. It fetches `assets/data/meta/<path>.json` and
   hands the record to `applyMetaTags`. That call sets the page title and
   adds ten meta tags: description, keywords, four Open Graph tags and four
   Twitter tags. The home route and a failed fetch both yield the empty
   object `{}`. An empty object is truthy in JavaScript, so it is still
   applied: `setTitle` is called with `undefined` and all ten tags get empty
   content.
2. **`User_LoginRequestValidator`** (C# with FluentValidation, module
   `LoginRequestValidator`). The username must not be blank and may have at
   most 128 UTF-16 code units. The password must not be blank and may have at
   most 256 UTF-16 code units. Each failing rule reports a fixed message. The password's
   length message reads "Email too long" in the source, and the model keeps
   that text.

Both modules use `Wrappers` (`Option`, `Result`).

Modelling choices:

- The HTTP client is an abstract oracle `fetch: string -> Result<Payload, E>`.
  A `Payload` is either the JSON literal `null` or an object with string
  fields. The `null` case makes the guards `if (metaTags)` and
  `if (!metaTags)` meaningful. For HTTP GET requests that parse JSON, a `null`
  or empty body arrives as `null`.
- "No fetch" is stated as oracle independence. When nothing is requested,
  any two oracles give the same outcome. Otherwise, any two oracles that
  agree on the requested key give the same outcome.
- **Assumption:** `getMetaTags` re-reads the path from the router's current
  URL (`state.url`), not from the `url` argument of `setMetaTags`. The model
  assumes these are the same URL and passes one `url` to both.
- FluentValidation is not part of this model. Its rule semantics are taken
  as follows:
  - `NotEmpty` on a string fails for `null`, `""` and white-space-only
    strings. White space means .NET's `char.IsWhiteSpace`.
  - `MaximumLength(n)` passes `null` and any string of at most `n` UTF-16
    code units. Code units are what .NET's `String.Length` counts, so a
    character outside the Basic Multilingual Plane counts twice.
  - The default cascade mode runs a property's second rule even when its
    first rule failed. So a username of 129 spaces reports both of its
    messages.

Two behaviours of the code worth stating plainly:

- The home route and a failed fetch are not no-ops: the `{}` they produce is
  truthy and is applied. See `HomeRouteAppliesBlankTags` and
  `FailedFetchAppliesBlankTags`.
- `Meta.addTags` gets or creates each tag; it is not an upsert. The model
  stops at the list of tags handed to it.

## Model

| member | source | states |
|---|---|---|
| `MetaTagManager.LeadingSlashes` | src/ui/src/app/services/metaservice.service.ts:33 | The `^\/+` part of the regex matches exactly the maximal run of slashes at the start. Every counted character is `/`, and the next character, if any, is not. |
| `MetaTagManager.TrailingSlashes` | src/ui/src/app/services/metaservice.service.ts:33 | The `\/+$` part of the regex matches exactly the maximal run of slashes at the end. |
| `MetaTagManager.Normalize` | src/ui/src/app/services/metaservice.service.ts:33 | The path never starts or ends with `/`. It is empty exactly when the URL is made of slashes only. It is an unchanged slice of the URL, with only slashes cut off on either side. |
| `MetaTagManager.NormalizeIsTheTrim` | src/ui/src/app/services/metaservice.service.ts:33 | Any cut of the URL into leading slashes, a part without edge slashes, and trailing slashes keeps exactly `Normalize(u)`. So the normalized path is unique, and interior characters, including queries and fragments, stay. |
| `MetaTagManager.NormalizeIdempotent` | src/ui/src/app/services/metaservice.service.ts:33 | Normalizing twice gives the same result as normalizing once. |
| `MetaTagManager.SlashesNormalizeToEmpty` | src/ui/src/app/services/metaservice.service.ts:67-69 | A URL of slashes only, such as `/`, has the empty path. |
| `MetaTagManager.IsExcluded` | src/ui/src/app/services/metaservice.service.ts:35 | A path is excluded exactly when it starts with one of the listed prefixes `blog/`, `studio/` or `artifact/`. |
| `MetaTagManager.SectionRootsAreNotExcluded` | src/ui/src/app/services/metaservice.service.ts:35 | The bare `blog`, `studio` and `artifact` are not excluded, because each prefix includes its trailing slash. |
| `MetaTagManager.BlogRootIsFetched` | src/ui/src/app/services/metaservice.service.ts:33-39 | The URL `/blog/` normalizes to `blog`, so its metadata file is requested like any other page's. |
| `MetaTagManager.MetaKey` | src/ui/src/app/services/metaservice.service.ts:72 | The fetched address starts with `assets/data/meta/`, ends with `.json`, and is exactly as long as the two of them plus the path. |
| `MetaTagManager.PathOfKeyRoundTrip` | src/ui/src/app/services/metaservice.service.ts:72 | The path can be read back from its fetch address. |
| `MetaTagManager.MetaKeyInjective` | src/ui/src/app/services/metaservice.service.ts:72 | Distinct paths are fetched from distinct addresses. |
| `MetaTagManager.FetchKey` | src/ui/src/app/services/metaservice.service.ts:67-73 | `getMetaTags` requests nothing exactly when the URL is all slashes. Otherwise it requests the address whose path is the normalized URL. |
| `MetaTagManager.GetMetaTags` | src/ui/src/app/services/metaservice.service.ts:66-80 | The home route resolves to `{}`. A failed fetch is caught and replaced by `{}`. A successful fetch yields its body. The result is never an error. |
| `MetaTagManager.FieldOrEmpty` | src/ui/src/app/services/metaservice.service.ts:53 | The JavaScript default to `''` returns the field's value when the field is present and `''` when it is absent. |
| `MetaTagManager.TagsFor` | src/ui/src/app/services/metaservice.service.ts:52-63 | There are exactly ten entries, with the attribute kind and name fixed by the `TagLayout` table. Each entry's content is the record's same-named field, or `''`. |
| `MetaTagManager.PropertyTagsAreOpenGraph` | src/ui/src/app/services/metaservice.service.ts:55-58 | The `og:*` tags, and only they, use the `property` attribute. The rest use `name`. |
| `MetaTagManager.TagsDependOnlyOnTagFields` | src/ui/src/app/services/metaservice.service.ts:52-63 | Two records that agree on the ten tag fields produce the same tags. |
| `MetaTagManager.BlankTags` | src/ui/src/app/services/metaservice.service.ts:52-63 | A record without fields produces ten tags, all with empty content. |
| `MetaTagManager.ApplyMetaTags` | src/ui/src/app/services/metaservice.service.ts:46-64 | A falsy payload does nothing; the truthiness test `Truthy` of :40 and :47 fails only for `null`. An object sets the title from its `title` field and adds the ten tags built from its fields. |
| `MetaTagManager.TitleVerbatim` | src/ui/src/app/services/metaservice.service.ts:51 | The title is passed through unchanged, even when it is empty. A missing title is passed as `undefined`. |
| `MetaTagManager.SetMetaTags` | src/ui/src/app/services/metaservice.service.ts:32-44 | An excluded path is skipped. Any other URL gets `applyMetaTags` of what `getMetaTags` resolves. |
| `MetaTagManager.RequestedKey` | src/ui/src/app/services/metaservice.service.ts:35-73 | A fetch happens exactly when the path is neither excluded nor empty. The fetched address is `"assets/data/meta/" + path + ".json"`. |
| `MetaTagManager.OnlyRequestedKeyIsFetched` | src/ui/src/app/services/metaservice.service.ts:69-73 | The outcome depends on the oracle only at the requested key. When nothing is requested, it does not depend on the oracle at all. |
| `MetaTagManager.ExcludedRouteIsSkipped` | src/ui/src/app/services/metaservice.service.ts:35-37 | An excluded route requests nothing and changes nothing. |
| `MetaTagManager.HomeRouteAppliesBlankTags` | src/ui/src/app/services/metaservice.service.ts:69-70 | The home route requests nothing. Because `{}` is truthy, it still applies a missing title and ten empty tags. |
| `MetaTagManager.FailedFetchAppliesBlankTags` | src/ui/src/app/services/metaservice.service.ts:74-77 | A failed fetch is swallowed and applies a missing title and ten empty tags. |
| `MetaTagManager.FetchedObjectIsApplied` | src/ui/src/app/services/metaservice.service.ts:39-41 | A fetched object is applied: its title is passed through and the ten tags are filled from its fields. |
| `MetaTagManager.SkippedIff` | src/ui/src/app/services/metaservice.service.ts:35-48 | A navigation changes nothing exactly when its path is excluded or its fetched file holds `null`. |
| `MetaTagManager.Navigate` | src/ui/src/app/services/metaservice.service.ts:26-29 | There is one outcome per navigated URL, and each is that URL's own `setMetaTags` outcome. |
| `MetaTagManager.NavigateAppend` | src/ui/src/app/services/metaservice.service.ts:26-29 | Navigating through `a` and then `b` gives `a`'s outcomes followed by `b`'s outcomes. |
| `MetaTagManager.WalkThrough` | src/ui/src/app/services/metaservice.service.ts:21-29 | For `/`, `/projects/foo` and `/blog/post-1`, the outcomes are blank tags, then the project's title and tags, then a skip. |
| `MetaTagManager.WalkThroughProjectTags` | src/ui/src/app/services/metaservice.service.ts:52-63 | The record `{title: Foo, description: Bar}` gives description `Bar` and nine empty tags. |
| `LoginRequestValidator.Utf16LengthBounds` | src/api/Jsm33t.Validators/User_LoginRequestValidator.cs:12 | A string's length in UTF-16 code units is between its character count and twice that count. It equals the character count exactly when no character is supplementary. |
| `LoginRequestValidator.NotEmpty` | src/api/Jsm33t.Validators/User_LoginRequestValidator.cs:11 | The rule reports its message exactly when the value is null, empty or white space, and reports nothing otherwise. |
| `LoginRequestValidator.MaximumLength` | src/api/Jsm33t.Validators/User_LoginRequestValidator.cs:12 | The rule reports its message exactly when a non-null value is longer than the limit. Null passes, and a length equal to the limit passes. |
| `LoginRequestValidator.PropertyErrors` | src/api/Jsm33t.Validators/User_LoginRequestValidator.cs:10-12 | A `RuleFor` chain reports at most two messages. Each is reported exactly when its rule fails, and the `NotEmpty` message comes first. |
| `LoginRequestValidator.Validate` | src/api/Jsm33t.Validators/User_LoginRequestValidator.cs:10-16 | A request is accepted exactly when both fields are present, not blank, and at most 128 and 256 UTF-16 code units long respectively. |
| `LoginRequestValidator.ValidateReportsFailedRules` | src/api/Jsm33t.Validators/User_LoginRequestValidator.cs:10-16 | Each of the four messages appears exactly when its rule fails. |
| `LoginRequestValidator.ValidateRunsRulesInOrder` | src/api/Jsm33t.Validators/User_LoginRequestValidator.cs:10-16 | The errors are what running the four declared rules in order, without stopping, reports. Username messages come before password messages. |
| `LoginRequestValidator.FieldsAreIndependent` | src/api/Jsm33t.Validators/User_LoginRequestValidator.cs:10-16 | The errors are the username's own errors followed by the password's own errors. Each field is judged on its own. |
| `LoginRequestValidator.BlankAndTooLongAreBothReported` | src/api/Jsm33t.Validators/User_LoginRequestValidator.cs:10-12 | A username of 129 spaces reports both "Username or Email is required" and "Username too long". |

## Left out

- Router plumbing is not modelled: subscribing to `NavigationEnd` and the initial-load call in `initializeMetaTags`. The model replaces it with the list of navigated URLs given to `Navigate`.
- `HttpClient` is not modelled. The abstract `fetch` oracle replaces it.
- The `console.error` logging of a failed fetch is not modelled. It is output only.
- The DOM effect of `Title.setTitle` and `Meta.addTags` is not modelled. Those are Angular library behaviour, and `addTags` creates a tag unless one with the same attributes exists. The model stops at the title and tag list handed over.
- Results that complete out of order, and the lack of cancellation of an in-flight fetch, are not modelled. That is asynchronous scheduling, not logic of the service.
- JSON bodies other than `null` or an object with string values are not modelled: numbers, arrays, `false`, `""`, and fields that are not strings.
- `getMetaTags` has an unused `ActivatedRouteSnapshot` argument, which the model drops.
- The home page component (src/ui/src/app/components/about/home/home.component.ts) is not part of this model. It holds static link data and animation hooks.
- FluentValidation internals other than the three rule semantics stated above are not modelled.
- The `User_LoginRequest` DTO is not part of this model. Only its two validated string properties appear, as `LoginRequest`.
- Lone UTF-16 surrogates are not modelled. A Dafny `char` is a Unicode scalar value, so such .NET strings cannot be written.
- `LoginRequestValidator.IsWhiteSpace` follows the documented character set of .NET's `char.IsWhiteSpace`. That code is not visible here.

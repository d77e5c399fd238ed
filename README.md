# Artist site renderers and redirect guard, in Dafny

This project models the two scripts of a static artist website.

- `js/main.js` takes the parsed site document (artist profile, releases, shows, contacts, socials, video and post lists). It fills the page's regions. These are the brand, title, biography and highlights, the hero player, the track, show and release grids, contacts and socials, the YouTube and Instagram grids, and the about-photo carousel.
- `redirect/script.js` reads a `url` query parameter. It sends the browser there only when the parsed hostname ends with an allowed domain.

## Layout

- `js_values.dfy` (module `JsValues`): `Option` for absent JSON keys. It also has JavaScript truthiness of an optional string, where absent and `""` are false, and the `x || fallback` default.
- `site_data.dfy` (module `SiteData`): the parsed site document as datatypes. Keys that the renderers guard with `?.` or `||` are `Option`s. Release and hero ids are a `JsonId`, which keeps `null` apart from an absent key, as `===` does.
- `projection.dfy` (module `Projection`): the selection logic of each renderer as pure functions. This covers the hero release and embed, the flattened and capped track list, the show, release, contact and social cards, the video-id fallback chain, the six-item caps, `"#"` link defaults and the photo filter. It also holds the lemmas about them.
- `render.dfy` (module `Render`): class `Page`, one field per DOM region. `None` is a region absent from the document. There is one method per `render*` function. Each method leaves its absent regions alone, clears the present ones and appends card by card in a loop, as the script does. `View()` gives the page as a `PageView` value grouped by owning renderer. Each method's postcondition ties the new view to a pure "after" function of the old view and the data. `RenderPage` is the boot sequence. `RenderedIdempotent` proves that rendering twice equals rendering once.
- `redirect.dfy` (module `Redirect`): the four-way decision. It covers no URL, invalid format, blocked and navigate, with the message and the destination of each.

Some details of the scripts that the model keeps:

- A present list is always truthy in JavaScript. So `youtube_videos || youtube_recent || []` falls back only when `youtube_videos` is absent; an empty list shows no videos (`EmptyVideoListDoesNotFallBack`).
- The hero lookup compares ids with `===`, so an id is absent (`undefined`), `null` or a string. If the hero record is missing, a release without an id matches, because `undefined === undefined`. A `null` hero id matches only a `null` release id, never a missing one (`NullHeroIdSkipsReleasesWithoutId`).
- With no releases, `renderHero` returns before touching its regions. They keep their previous content.
- When the YouTube or Instagram grid is missing, the channel or profile link beside it is not updated either.
- `if (url)` treats an empty `url` parameter like a missing one.
- The allow-list test is a plain `endsWith`. `notyoutube.com` passes (`LookalikeHostPasses`), and so does any hostname ending in an allowed domain (`AnyPrefixOfAllowedDomainPasses`).

## Model

| member | source | states |
|---|---|---|
| Projection.Take | js/main.js:63 | `slice(0, n)`: the result is the first `min(n, length)` elements of the input |
| Projection.HighlightLinesInOrder | js/main.js:27-33 | one `• `-prefixed item per highlight, in order; none when highlights are absent |
| Projection.FindById | js/main.js:42 | `find` by id: the returned index holds the id and no earlier release does; none means no release has it |
| Projection.HeroIndex | js/main.js:41-43 | the hero is the first release whose id is the hero id; if none matches it is release 0; nothing exactly when there are no releases |
| Projection.NullHeroIdSkipsReleasesWithoutId | js/main.js:41-42 | a `null` hero id, which no release carries, selects release 0 even when some releases have no id, since `null === undefined` is false |
| Projection.HeroEmbedFallback | js/main.js:48-53 | player source is the embed URL of the release's video id, else the artist's embed URL, else `""`; it is `""` exactly when neither is set |
| Projection.SelectedReleaseWithoutVideoFallsBack | js/main.js:40-53 | the first release carrying the hero id, when it has no video, shows the artist's generic embed, which is non-empty |
| Projection.AllTracksLength | js/main.js:60 | the flattened track list has as many entries as all releases have tracks |
| Projection.AllTracksAppend | js/main.js:60 | flattening distributes over concatenation of release lists |
| Projection.AllTracksOrder | js/main.js:60 | track `j` of release `i` sits at position (tracks of releases before `i`) + `j`, paired with release `i` |
| Projection.AllTracksProvenance | js/main.js:60 | every flattened entry is a track of its own release, and that release is one of the site's |
| Projection.TrackTotalAtLeastReleases | js/main.js:60 | when every release has a track, there are at least as many tracks as releases |
| Projection.TrackCardsCapped | js/main.js:60-63 | exactly `min(6, total tracks)` track cards, for the first entries of the flattened list |
| Projection.ManyReleasesListSixTracks | js/main.js:60-63 | six or more releases with tracks give exactly six track cards |
| Projection.TrackCardFields | js/main.js:63-89 | a track card has the track's title, its duration or `""`, and YouTube/SoundCloud buttons exactly when the release has them |
| Projection.ShowCardsFaithful | js/main.js:99-128 | placeholder visible exactly when there are no cards; one card per show in order; `badge-soft` exactly for "On Sale"; ticket link exactly when `ticket_url` is set |
| Projection.ReleaseCardsFaithful | js/main.js:136-164 | one card per release, uncapped, in order; buttons exactly when links are set; one line per track, with `""` for a missing duration |
| Projection.ContactViewDefaults | js/main.js:168-176 | missing contacts or contact fields show as `""` |
| Projection.SocialLinksFaithful | js/main.js:182-186 | one link per social entry, in order, with its URL, icon and name; none when `socials` is absent |
| Projection.VideoEmbedsFaithful | js/main.js:195-211 | ids from `youtube_videos`, else `youtube_recent`, else none; `min(6, ids)` embeds, each the embed URL of the id at that position |
| Projection.EmptyVideoListDoesNotFallBack | js/main.js:195 | a present but empty `youtube_videos` shows no video rather than the recent ones |
| Projection.PostsAndLinksFaithful | js/main.js:196-198 | the first `min(6, posts)` posts; each link is the channel or profile URL when that is non-empty and `"#"` otherwise (record absent, key absent or `""`), so never empty |
| Projection.PhotosKeepTruthy | js/main.js:246 | the filter keeps exactly the non-empty present photo entries and never adds any |
| Projection.PhotosAppend | js/main.js:246 | the filter works entry by entry, so it keeps the photos' order |
| Projection.SlidesFaithful | js/main.js:258-279 | one slide and one dot per photo, in order, for that photo's source and index; only index 0 is active |
| Render.CarouselFaithful | js/main.js:242-285 | no slide container: nothing changes; otherwise slides and dots for the photos, none for zero, and existing controls and indicators hidden exactly for at most one photo |
| Render.RenderedIdempotent | js/main.js:288-300 | rendering the same data onto an already rendered page leaves it unchanged |
| Render.RenderedKeepsRegions | js/main.js:288-300 | rendering never creates or removes any of the page's regions (common, carousel parts, hero, grids, placeholder, contact, socials, links); a missing region stays missing |
| Render.Page.RenderCommon | js/main.js:12-38 | sets the title; brand, footer, year and biography when present; rebuilds highlights; video frame gets the embed URL or `""` |
| Render.Page.RenderHighlights | js/main.js:27-33 | when the list exists it is cleared and gets one bulleted item per highlight |
| Render.Page.RenderHero | js/main.js:40-54 | with a hero release, fills label and player where present; with no release, changes nothing |
| Render.Page.RenderTracks | js/main.js:56-92 | a present track grid is replaced by exactly the capped track cards; an absent one is untouched |
| Render.Page.RenderShows | js/main.js:94-129 | with both regions present, the list becomes one card per show and the placeholder shows exactly when there is none; otherwise nothing changes |
| Render.Page.RenderReleases | js/main.js:131-165 | a present release grid is replaced by one card per release |
| Render.Page.RenderContactSocials | js/main.js:167-188 | contact block and social links are each rebuilt when present, independently |
| Render.Page.RenderYouTubeRecent | js/main.js:190-212 | a present grid gets the capped embeds and the channel link, if present, gets its URL; with no grid, nothing changes |
| Render.Page.RenderInstagram | js/main.js:214-236 | a present grid gets the capped posts and the profile link, if present, gets its URL; with no grid, nothing changes |
| Render.Page.RenderAboutCarousel | js/main.js:238-286 | the carousel becomes what `CarouselAfter` gives for the truthy photos; no carousel, no change |
| Render.Page.RenderPage | js/main.js:288-300 | the boot sequence leaves the page equal to `Rendered` of the old page |
| Render.RenderTwice | js/main.js:288-300 | rendering a page twice gives the same view as rendering it once |
| Redirect.SomeSuffix | redirect/script.js:19-21 | `some(endsWith)` holds exactly when some listed domain is a suffix of the hostname |
| Redirect.Decide | redirect/script.js:11-38 | no URL exactly when the parameter is absent or empty; invalid format exactly when parsing fails; blocked exactly when the parsed hostname has no allowed suffix; navigation otherwise, to the parsed href |
| Redirect.NavigatesOnlyToAllowedHosts | redirect/script.js:19-25 | the browser navigates exactly when the message is "Redirecting...", and only to the parsed href of an allowed hostname |
| Redirect.MessagesDistinguishOutcomes | redirect/script.js:24-37 | the four outcomes have four different messages |
| Redirect.AnyPrefixOfAllowedDomainPasses | redirect/script.js:9-21 | any hostname ending in `youtube.com` or `soundcloud.com` passes, whatever precedes it |
| Redirect.LookalikeHostPasses | redirect/script.js:19-21 | `notyoutube.com` passes the suffix test |
| Redirect.AllowedDomainAsPrefixIsBlocked | redirect/script.js:19-21 | `youtube.com.example` fails the suffix test |
| Redirect.ParsedHrefIsTheTarget | redirect/script.js:16-25 | a non-empty parameter that parses to an allowed host navigates to the parser's href, with "Redirecting..." |

## Left out

- DOM access and markup: `$`, `el`, `innerHTML`, `classList` and attributes. Regions are fields and cards are records of the values the markup interpolates. CSS classes other than `badge-soft`, `active` and `d-none` are not represented.
- `loadData`, `JSON.parse` and the boot `try/catch`. The parsed document is an input. Keys the renderers read without a guard (`artist`, `releases`, names, titles) are assumed present. A renderer that would throw on a malformed document, stopping the rest of the boot, is not modelled.
- Dates. The show date is carried raw, because `toLocaleDateString` depends on the host locale. The footer year is a parameter, because `new Date().getFullYear()` reads the clock.
- The numbered labels "About photo n" and "Slide n", and the `aria-current` attribute. Slides and dots carry their index and active flag instead.
- `window.instgrm.Embeds.process()`: a third-party script.
- The value types JSON allows beyond strings: numeric ids or years, and non-string truthy values. Ids are `undefined`, `null` or a string; years and links are strings. Elsewhere a `null` and an absent key are the same `None`, since `?.` and `||` treat them alike.
- `new URL` parsing: a foreign library, taken as a parameter that returns the hostname and href or nothing.
- The 250 ms `setTimeout`, the assignment to `window.location.href` and the console logging in redirect/script.js. The decision is returned as an `Outcome`, with its message and destination.

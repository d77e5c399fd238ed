/** The parsed site document that every renderer of js/main.js reads.
    Keys that the renderers guard with `?.` or `||` are optional here; the
    others are assumed present, as the renderers themselves assume. */
module SiteData {
  import opened JsValues

  /** A JSON id as `===` sees it: an absent key (`undefined`), an explicit
      `null`, or a string. `null === undefined` is false, so the two are kept apart. */
  datatype JsonId = Undefined | Null | Id(text: string)

  datatype Track = Track(title: string, duration: Option<string>)

  datatype Release = Release(
    id: JsonId,
    title: string,
    year: string,
    kind: string,                 // the JSON key `type`
    cover: string,
    tracks: Option<seq<Track>>,
    youtubeVideoId: Option<string>,
    soundcloudUrl: Option<string>)

  datatype Show = Show(date: string, city: string, venue: string, status: string, ticketUrl: Option<string>)

  datatype Contacts = Contacts(email: Option<string>, manager: Option<string>, location: Option<string>)

  datatype Social = Social(name: string, icon: string, url: string)

  datatype Hero = Hero(latestReleaseId: JsonId)

  datatype Channels = Channels(youtubeChannelUrl: Option<string>, instagramUrl: Option<string>)

  datatype Artist = Artist(
    name: string,
    bio: string,
    highlights: Option<seq<string>>,
    videoEmbedUrl: Option<string>,
    hero: Option<Hero>,
    channels: Option<Channels>,
    aboutPhotos: Option<seq<Option<string>>>)   // entries may be null or ""

  datatype Site = Site(
    artist: Artist,
    releases: seq<Release>,
    shows: Option<seq<Show>>,
    contacts: Option<Contacts>,
    socials: Option<seq<Social>>,
    youtubeVideos: Option<seq<string>>,
    youtubeRecent: Option<seq<string>>,
    instagramPosts: Option<seq<string>>)
}

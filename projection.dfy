/** The selection logic of the renderers in js/main.js, with the DOM taken away:
    which release is the hero, which embed it shows, which tracks, videos and
    posts are listed, and what each card carries. Markup is abstracted to card
    records whose fields are the values the markup interpolates. */
module Projection {
  import opened JsValues
  import opened SiteData

  /** Tracks, videos and Instagram posts are each cut to the first six. */
  const CardLimit: nat := 6
  const EmbedPrefix := "https://www.youtube.com/embed/"
  const WatchPrefix := "https://www.youtube.com/watch?v="
  const Bullet := "• "
  const Separator := " • "
  const OnSale := "On Sale"

  function Min(a: int, b: int): int {
    if a <= b then a else b
  }

  /** `s.slice(0, n)`: the first `n` elements, or all of them when there are fewer. */
  function Take<T>(s: seq<T>, n: nat): (r: seq<T>)
    ensures |r| == Min(n, |s|)
    ensures r == s[..|r|]
  {
    if |s| <= n then s else s[..n]
  }

  /** The document title: `${artist.name} — Official Site`. */
  function PageTitle(name: string): string {
    name + " — Official Site"
  }

  /** `${title} • ${year}`, the label of a release in the hero and on track cards. */
  function TitleAndYear(r: Release): string {
    r.title + Separator + r.year
  }

  /** The link behind a release's YouTube button, when the button is shown. */
  function YouTubeButton(r: Release): Option<string> {
    if Truthy(r.youtubeVideoId) then Some(WatchPrefix + r.youtubeVideoId.value) else None
  }

  /** The link behind a release's SoundCloud button, when the button is shown. */
  function SoundCloudButton(r: Release): Option<string> {
    if Truthy(r.soundcloudUrl) then Some(r.soundcloudUrl.value) else None
  }

  // ---------------------------------------------------------------- common

  /** The highlight list items, each prefixed with a bullet. */
  function HighlightLines(a: Artist): seq<string> {
    var hs := a.highlights.GetOr([]);
    seq(|hs|, k requires 0 <= k < |hs| => Bullet + hs[k])
  }

  lemma HighlightLinesInOrder(a: Artist)
    ensures a.highlights.None? ==> HighlightLines(a) == []
    ensures a.highlights.Some? ==> |HighlightLines(a)| == |a.highlights.value|
    ensures a.highlights.Some? ==>
      forall k :: 0 <= k < |a.highlights.value| ==> HighlightLines(a)[k] == Bullet + a.highlights.value[k]
  {
  }

  // ---------------------------------------------------------------- hero

  /** `artist.hero?.latest_release_id`: `undefined` when the hero record is
      absent or null, otherwise the record's own value for the key. */
  function LatestReleaseId(a: Artist): JsonId {
    if a.hero.Some? then a.hero.value.latestReleaseId else Undefined
  }

  /** `releases.find(r => r.id === id)`, as an index. Two absent ids compare
      equal, as `undefined === undefined` does, and so do two nulls; an absent
      id never equals a null one. */
  function FindById(rs: seq<Release>, id: JsonId): (k: Option<nat>)
    ensures k.Some? ==> k.value < |rs| && rs[k.value].id == id
    ensures k.Some? ==> forall j :: 0 <= j < k.value ==> rs[j].id != id
    ensures k.None? ==> forall j :: 0 <= j < |rs| ==> rs[j].id != id
  {
    if |rs| == 0 then None
    else if rs[0].id == id then Some(0)
    else
      match FindById(rs[1..], id)
      case None => None
      case Some(j) => Some(j + 1)
  }

  /** The index of the hero release: the first release whose id is the hero id,
      otherwise the first release; none when there are no releases. */
  function HeroIndex(data: Site): (k: Option<nat>)
    ensures k.None? <==> |data.releases| == 0
    ensures k.Some? ==> k.value < |data.releases|
    ensures (exists j :: 0 <= j < |data.releases| && data.releases[j].id == LatestReleaseId(data.artist)) ==>
      k.Some? && data.releases[k.value].id == LatestReleaseId(data.artist) &&
      forall j :: 0 <= j < k.value ==> data.releases[j].id != LatestReleaseId(data.artist)
    ensures (forall j :: 0 <= j < |data.releases| ==> data.releases[j].id != LatestReleaseId(data.artist)) ==>
      k == if |data.releases| == 0 then None else Some(0)
  {
    var found := FindById(data.releases, LatestReleaseId(data.artist));
    if found.Some? then found
    else if |data.releases| == 0 then None
    else Some(0)
  }

  /** A hero id given as `null` matches only a release whose id is `null`;
      releases without an id do not match it, so the hero falls back to the
      first release. */
  lemma NullHeroIdSkipsReleasesWithoutId(data: Site)
    requires |data.releases| > 0
    requires LatestReleaseId(data.artist) == Null
    requires forall j :: 0 <= j < |data.releases| ==> data.releases[j].id != Null
    ensures HeroIndex(data) == Some(0)
  {
  }

  function HeroRelease(data: Site): Option<Release> {
    var k := HeroIndex(data);
    if k.Some? then Some(data.releases[k.value]) else None
  }

  /** The hero player's source: the release's own video, else the artist's
      generic embed URL, else the empty string. */
  function HeroEmbed(r: Release, a: Artist): string {
    if Truthy(r.youtubeVideoId) then EmbedPrefix + r.youtubeVideoId.value
    else OrElse(a.videoEmbedUrl, "")
  }

  lemma HeroEmbedFallback(r: Release, a: Artist)
    ensures Truthy(r.youtubeVideoId) ==> HeroEmbed(r, a) == EmbedPrefix + r.youtubeVideoId.value
    ensures !Truthy(r.youtubeVideoId) ==> HeroEmbed(r, a) == a.videoEmbedUrl.GetOr("")
    ensures HeroEmbed(r, a) == "" <==> !Truthy(r.youtubeVideoId) && !Truthy(a.videoEmbedUrl)
  {
  }

  /** A selected release without a video of its own shows the artist's generic
      embed URL, not an empty player. */
  lemma SelectedReleaseWithoutVideoFallsBack(data: Site, a: nat)
    requires a < |data.releases|
    requires data.releases[a].id == LatestReleaseId(data.artist)
    requires forall j :: 0 <= j < a ==> data.releases[j].id != data.releases[a].id
    requires !Truthy(data.releases[a].youtubeVideoId)
    requires Truthy(data.artist.videoEmbedUrl)
    ensures HeroRelease(data) == Some(data.releases[a])
    ensures HeroEmbed(HeroRelease(data).value, data.artist) == data.artist.videoEmbedUrl.value != ""
  {
    var k := HeroIndex(data);
    assert k.Some? && data.releases[k.value].id == data.releases[a].id;
  }

  // ---------------------------------------------------------------- tracks

  /** A track together with the release it comes from (`{ ...t, release: r }`). */
  datatype TrackEntry = TrackEntry(track: Track, release: Release)

  function ReleaseTracks(r: Release): seq<Track> {
    r.tracks.GetOr([])
  }

  /** One release's tracks, each paired with the release. */
  function Entries(r: Release): seq<TrackEntry> {
    var ts := ReleaseTracks(r);
    seq(|ts|, j requires 0 <= j < |ts| => TrackEntry(ts[j], r))
  }

  /** `releases.flatMap(r => (r.tracks || []).map(...))` */
  function AllTracks(rs: seq<Release>): seq<TrackEntry> {
    if rs == [] then [] else Entries(rs[0]) + AllTracks(rs[1..])
  }

  /** The number of tracks over all releases. */
  function TrackTotal(rs: seq<Release>): nat {
    if rs == [] then 0 else |ReleaseTracks(rs[0])| + TrackTotal(rs[1..])
  }

  lemma {:induction false} AllTracksLength(rs: seq<Release>)
    ensures |AllTracks(rs)| == TrackTotal(rs)
  {
    if rs != [] {
      AllTracksLength(rs[1..]);
    }
  }

  lemma {:induction false} AllTracksAppend(a: seq<Release>, b: seq<Release>)
    ensures AllTracks(a + b) == AllTracks(a) + AllTracks(b)
  {
    if a == [] {
      assert a + b == b;
    } else {
      assert (a + b)[1..] == a[1..] + b;
      AllTracksAppend(a[1..], b);
    }
  }

  /** Track `j` of release `i` sits right after all tracks of the releases
      before `i`: the flattened list keeps release order and track order. */
  lemma {:induction false} AllTracksOrder(rs: seq<Release>, i: nat, j: nat)
    requires i < |rs| && j < |ReleaseTracks(rs[i])|
    ensures TrackTotal(rs[..i]) + j < |AllTracks(rs)|
    ensures AllTracks(rs)[TrackTotal(rs[..i]) + j] == TrackEntry(ReleaseTracks(rs[i])[j], rs[i])
  {
    AllTracksLength(rs);
    if i == 0 {
      assert rs[..0] == [];
    } else {
      AllTracksOrder(rs[1..], i - 1, j);
      assert rs[1..][..i - 1] == rs[..i][1..];
      assert rs[..i] != [] && rs[..i][0] == rs[0];
      AllTracksLength(rs[1..]);
    }
  }

  /** Every flattened entry is a track of its own release, and that release is one of the site's. */
  lemma {:induction false} AllTracksProvenance(rs: seq<Release>, k: nat)
    requires k < |AllTracks(rs)|
    ensures AllTracks(rs)[k].release in rs
    ensures AllTracks(rs)[k].track in ReleaseTracks(AllTracks(rs)[k].release)
  {
    var n := |Entries(rs[0])|;
    if k >= n {
      AllTracksProvenance(rs[1..], k - n);
      assert AllTracks(rs)[k] == AllTracks(rs[1..])[k - n];
      assert rs[1..][0] in rs[1..];
    } else {
      assert AllTracks(rs)[k] == Entries(rs[0])[k];
    }
  }

  /** A release that has tracks contributes at least one to the total. */
  lemma {:induction false} TrackTotalAtLeastReleases(rs: seq<Release>)
    requires forall i :: 0 <= i < |rs| ==> |ReleaseTracks(rs[i])| >= 1
    ensures TrackTotal(rs) >= |rs|
  {
    if rs != [] {
      assert forall i :: 0 <= i < |rs[1..]| ==> rs[1..][i] == rs[i + 1];
      TrackTotalAtLeastReleases(rs[1..]);
    }
  }

  /** What a track card shows. */
  datatype TrackCard = TrackCard(
    cover: string,
    releaseLabel: string,
    kind: string,
    title: string,
    duration: string,
    youtube: Option<string>,
    soundcloud: Option<string>)

  function TrackCardOf(e: TrackEntry): TrackCard {
    TrackCard(e.release.cover, TitleAndYear(e.release), e.release.kind, e.track.title,
              OrElse(e.track.duration, ""), YouTubeButton(e.release), SoundCloudButton(e.release))
  }

  /** The listed tracks: the first six of the flattened list. */
  function ShownTracks(data: Site): seq<TrackEntry> {
    Take(AllTracks(data.releases), CardLimit)
  }

  function TrackCards(data: Site): seq<TrackCard> {
    var shown := ShownTracks(data);
    seq(|shown|, k requires 0 <= k < |shown| => TrackCardOf(shown[k]))
  }

  /** Exactly min(6, total) cards, for the first tracks in flattened order. */
  lemma TrackCardsCapped(data: Site)
    ensures |TrackCards(data)| == Min(CardLimit, TrackTotal(data.releases))
    ensures forall k :: 0 <= k < |TrackCards(data)| ==>
      TrackCards(data)[k] == TrackCardOf(AllTracks(data.releases)[k])
  {
    AllTracksLength(data.releases);
  }

  /** With six or more releases that each have a track, exactly six track cards are listed. */
  lemma ManyReleasesListSixTracks(data: Site)
    requires |data.releases| >= CardLimit
    requires forall i :: 0 <= i < |data.releases| ==> |ReleaseTracks(data.releases[i])| >= 1
    ensures |TrackCards(data)| == CardLimit
  {
    TrackTotalAtLeastReleases(data.releases);
    TrackCardsCapped(data);
  }

  /** A track card carries the track's own title and duration ("" when missing)
      and its release's buttons, each present exactly when the release has the link. */
  lemma TrackCardFields(e: TrackEntry)
    ensures TrackCardOf(e).title == e.track.title
    ensures TrackCardOf(e).duration == (if Truthy(e.track.duration) then e.track.duration.value else "")
    ensures TrackCardOf(e).youtube.Some? <==> Truthy(e.release.youtubeVideoId)
    ensures TrackCardOf(e).soundcloud.Some? <==> Truthy(e.release.soundcloudUrl)
  {
  }

  // ---------------------------------------------------------------- shows

  datatype ShowCard = ShowCard(
    city: string,
    venue: string,
    date: string,             // the raw date; its locale formatting is not modelled
    status: string,
    highlighted: bool,        // the chip carries `badge-soft`
    tickets: Option<string>)

  function ShowCardOf(s: Show): ShowCard {
    ShowCard(s.city, s.venue, s.date, s.status, s.status == OnSale,
             if Truthy(s.ticketUrl) then Some(s.ticketUrl.value) else None)
  }

  function ShowList(data: Site): seq<Show> {
    data.shows.GetOr([])
  }

  function ShowCards(data: Site): seq<ShowCard> {
    var shows := ShowList(data);
    seq(|shows|, k requires 0 <= k < |shows| => ShowCardOf(shows[k]))
  }

  /** `data.shows?.length`: the "no shows" placeholder is visible exactly when there is no show. */
  predicate NoShowsVisible(data: Site) {
    data.shows.None? || |data.shows.value| == 0
  }

  lemma ShowCardsFaithful(data: Site)
    ensures NoShowsVisible(data) <==> ShowCards(data) == []
    ensures |ShowCards(data)| == |ShowList(data)|
    ensures forall k :: 0 <= k < |ShowList(data)| ==>
      && ShowCards(data)[k].city == ShowList(data)[k].city
      && ShowCards(data)[k].venue == ShowList(data)[k].venue
      && (ShowCards(data)[k].highlighted <==> ShowList(data)[k].status == "On Sale")
      && (ShowCards(data)[k].tickets.Some? <==> Truthy(ShowList(data)[k].ticketUrl))
  {
  }

  // ---------------------------------------------------------------- releases

  datatype TrackLine = TrackLine(title: string, duration: string)

  datatype ReleaseCard = ReleaseCard(
    cover: string,
    title: string,
    chip: string,             // `${type} • ${year}`
    lines: seq<TrackLine>,
    youtube: Option<string>,
    soundcloud: Option<string>)

  function ReleaseCardOf(r: Release): ReleaseCard {
    var ts := ReleaseTracks(r);
    ReleaseCard(r.cover, r.title, r.kind + Separator + r.year,
                seq(|ts|, j requires 0 <= j < |ts| => TrackLine(ts[j].title, OrElse(ts[j].duration, ""))),
                YouTubeButton(r), SoundCloudButton(r))
  }

  function ReleaseCards(data: Site): seq<ReleaseCard> {
    var rs := data.releases;
    seq(|rs|, k requires 0 <= k < |rs| => ReleaseCardOf(rs[k]))
  }

  /** One card per release, uncapped and in order; buttons exactly when the
      links are set; a line per track with "" for a missing duration. */
  lemma ReleaseCardsFaithful(data: Site)
    ensures |ReleaseCards(data)| == |data.releases|
    ensures forall k :: 0 <= k < |data.releases| ==>
      && ReleaseCards(data)[k].title == data.releases[k].title
      && (ReleaseCards(data)[k].youtube.Some? <==> Truthy(data.releases[k].youtubeVideoId))
      && (ReleaseCards(data)[k].soundcloud.Some? <==> Truthy(data.releases[k].soundcloudUrl))
      && |ReleaseCards(data)[k].lines| == |ReleaseTracks(data.releases[k])|
    ensures forall k, j :: 0 <= k < |data.releases| && 0 <= j < |ReleaseTracks(data.releases[k])| ==>
      ReleaseCards(data)[k].lines[j] ==
        TrackLine(ReleaseTracks(data.releases[k])[j].title,
                  if Truthy(ReleaseTracks(data.releases[k])[j].duration)
                  then ReleaseTracks(data.releases[k])[j].duration.value else "")
  {
  }

  // ---------------------------------------------------------------- contacts and socials

  datatype ContactView = ContactView(email: string, mailto: string, manager: string, location: string)

  function ContactViewOf(data: Site): ContactView {
    var c := data.contacts.GetOr(Contacts(None, None, None));
    var email := OrElse(c.email, "");
    ContactView(email, "mailto:" + email, OrElse(c.manager, ""), OrElse(c.location, ""))
  }

  /** Missing contacts, or missing contact fields, show as "". */
  lemma ContactViewDefaults(data: Site)
    ensures data.contacts.None? ==> ContactViewOf(data) == ContactView("", "mailto:", "", "")
    ensures data.contacts.Some? ==>
      && ContactViewOf(data).email == data.contacts.value.email.GetOr("")
      && ContactViewOf(data).manager == data.contacts.value.manager.GetOr("")
      && ContactViewOf(data).location == data.contacts.value.location.GetOr("")
  {
  }

  datatype SocialLink = SocialLink(url: string, icon: string, name: string)

  function SocialLinks(data: Site): seq<SocialLink> {
    var ss := data.socials.GetOr([]);
    seq(|ss|, k requires 0 <= k < |ss| => SocialLink(ss[k].url, ss[k].icon, ss[k].name))
  }

  /** One link per social entry, in order, carrying its URL, icon and name;
      none when `socials` is absent. */
  lemma SocialLinksFaithful(data: Site)
    ensures data.socials.None? ==> SocialLinks(data) == []
    ensures data.socials.Some? ==> |SocialLinks(data)| == |data.socials.value|
    ensures data.socials.Some? ==> forall k :: 0 <= k < |data.socials.value| ==>
      SocialLinks(data)[k] == SocialLink(data.socials.value[k].url, data.socials.value[k].icon, data.socials.value[k].name)
  {
  }

  // ---------------------------------------------------------------- videos and posts

  /** `data.youtube_videos || data.youtube_recent || []`. A present list is
      truthy even when empty, so only an absent key falls through. */
  function VideoIds(data: Site): seq<string> {
    match data.youtubeVideos
    case Some(v) => v
    case None => data.youtubeRecent.GetOr([])
  }

  function VideoEmbeds(data: Site): seq<string> {
    var ids := Take(VideoIds(data), CardLimit);
    seq(|ids|, k requires 0 <= k < |ids| => EmbedPrefix + ids[k])
  }

  function ChannelUrl(data: Site): string {
    if data.artist.channels.Some? then OrElse(data.artist.channels.value.youtubeChannelUrl, "#") else "#"
  }

  function InstagramPosts(data: Site): seq<string> {
    Take(data.instagramPosts.GetOr([]), CardLimit)
  }

  function ProfileUrl(data: Site): string {
    if data.artist.channels.Some? then OrElse(data.artist.channels.value.instagramUrl, "#") else "#"
  }

  /** Ids come from `youtube_videos`, else `youtube_recent`, else none; at most
      the first six are embedded, in order. */
  lemma VideoEmbedsFaithful(data: Site)
    ensures data.youtubeVideos.Some? ==> VideoIds(data) == data.youtubeVideos.value
    ensures data.youtubeVideos.None? && data.youtubeRecent.Some? ==> VideoIds(data) == data.youtubeRecent.value
    ensures data.youtubeVideos.None? && data.youtubeRecent.None? ==> VideoEmbeds(data) == []
    ensures |VideoEmbeds(data)| == Min(CardLimit, |VideoIds(data)|)
    ensures forall k :: 0 <= k < |VideoEmbeds(data)| ==> VideoEmbeds(data)[k] == EmbedPrefix + VideoIds(data)[k]
  {
  }

  /** An empty `youtube_videos` list hides the recent videos rather than falling back to them. */
  lemma EmptyVideoListDoesNotFallBack(data: Site)
    requires data.youtubeVideos == Some([])
    ensures VideoEmbeds(data) == []
  {
  }

  /** At most six posts, the first ones; channel and profile links default to "#". */
  lemma PostsAndLinksFaithful(data: Site)
    ensures |InstagramPosts(data)| == Min(CardLimit, |data.instagramPosts.GetOr([])|)
    ensures InstagramPosts(data) == data.instagramPosts.GetOr([])[..|InstagramPosts(data)|]
    ensures data.artist.channels.None? ==> ChannelUrl(data) == "#" && ProfileUrl(data) == "#"
    ensures data.artist.channels.Some? && Truthy(data.artist.channels.value.youtubeChannelUrl) ==>
      ChannelUrl(data) == data.artist.channels.value.youtubeChannelUrl.value
    ensures data.artist.channels.Some? && !Truthy(data.artist.channels.value.youtubeChannelUrl) ==>
      ChannelUrl(data) == "#"
    ensures data.artist.channels.Some? && Truthy(data.artist.channels.value.instagramUrl) ==>
      ProfileUrl(data) == data.artist.channels.value.instagramUrl.value
    ensures data.artist.channels.Some? && !Truthy(data.artist.channels.value.instagramUrl) ==>
      ProfileUrl(data) == "#"
    ensures ChannelUrl(data) != ""
    ensures ProfileUrl(data) != ""
  {
  }

  // ---------------------------------------------------------------- about carousel

  /** `(artist.about_photos || []).filter(Boolean)` */
  function Photos(entries: seq<Option<string>>): seq<string> {
    if entries == [] then []
    else (if Truthy(entries[0]) then [entries[0].value] else []) + Photos(entries[1..])
  }

  /** The filter keeps exactly the truthy entries. */
  lemma {:induction false} PhotosKeepTruthy(entries: seq<Option<string>>)
    ensures |Photos(entries)| <= |entries|
    ensures forall p :: p in Photos(entries) <==> p != "" && Some(p) in entries
  {
    if entries != [] {
      PhotosKeepTruthy(entries[1..]);
      assert entries == [entries[0]] + entries[1..];
    }
  }

  /** The filter works entry by entry, so it keeps the entries' order. */
  lemma {:induction false} PhotosAppend(a: seq<Option<string>>, b: seq<Option<string>>)
    ensures Photos(a + b) == Photos(a) + Photos(b)
  {
    if a == [] {
      assert a + b == b;
    } else {
      assert (a + b)[1..] == a[1..] + b;
      PhotosAppend(a[1..], b);
    }
  }

  /** One slide per photo; only the first is active. */
  datatype Slide = Slide(src: string, index: nat, active: bool)

  /** One indicator dot per photo; only the first is active. */
  datatype Dot = Dot(slideTo: nat, active: bool)

  function Slides(photos: seq<string>): seq<Slide> {
    seq(|photos|, i requires 0 <= i < |photos| => Slide(photos[i], i, i == 0))
  }

  function Dots(photos: seq<string>): seq<Dot> {
    seq(|photos|, i requires 0 <= i < |photos| => Dot(i, i == 0))
  }

  /** Prev/next controls and indicators are hidden for no photo and for a single one. */
  predicate ControlsHidden(photos: seq<string>) {
    |photos| <= 1
  }

  lemma SlidesFaithful(photos: seq<string>)
    ensures |Slides(photos)| == |photos| && |Dots(photos)| == |photos|
    ensures forall i :: 0 <= i < |photos| ==>
      Slides(photos)[i].src == photos[i] && (Slides(photos)[i].active <==> i == 0)
    ensures forall i :: 0 <= i < |photos| ==>
      Dots(photos)[i].slideTo == i && (Dots(photos)[i].active <==> i == 0)
  {
  }
}

/** The renderers of js/main.js acting on the page. Each DOM region a renderer
    looks up by id is a field of `Page`; `None` stands for a region missing from
    the document. A renderer whose region is missing leaves it alone; otherwise
    it clears the region and appends one card per item, in order. */
module Render {
  import opened JsValues
  import opened SiteData
  import opened Projection

  /** A region after a renderer that rebuilds it from `content`: untouched when
      the region is absent, replaced outright when present. */
  function Fill<T>(region: Option<T>, content: T): (r: Option<T>)
    ensures r.Some? <==> region.Some?
    ensures r.Some? ==> r.value == content
  {
    match region
    case None => None
    case Some(_) => Some(content)
  }

  /** The indicator strip of the about carousel. */
  datatype Indicators = Indicators(dots: seq<Dot>, hidden: bool)

  /** The about carousel: its slide container, its indicator strip and its
      prev/next controls (each control as its `d-none` flag), each possibly missing. */
  datatype Carousel = Carousel(
    inner: Option<seq<Slide>>,
    indicators: Option<Indicators>,
    prevHidden: Option<bool>,
    nextHidden: Option<bool>)

  /** The carousel after renderAboutCarousel with the given (already filtered) photos. */
  function CarouselAfter(c: Carousel, photos: seq<string>): Carousel {
    if c.inner.None? then c
    else
      var hidden := ControlsHidden(photos);
      Carousel(Some(Slides(photos)),
               if c.indicators.Some? then Some(Indicators(Dots(photos), hidden)) else None,
               Fill(c.prevHidden, hidden),
               Fill(c.nextHidden, hidden))
  }

  /** Without a slide container nothing changes; otherwise there is a slide
      (and, with an indicator strip, a dot) per photo, none for no photo, and
      the controls and indicators that exist are hidden exactly when there is
      at most one photo. */
  lemma CarouselFaithful(c: Carousel, photos: seq<string>)
    ensures c.inner.None? ==> CarouselAfter(c, photos) == c
    ensures c.inner.Some? ==>
      var k := CarouselAfter(c, photos);
      && k.inner == Some(Slides(photos))
      && (|photos| == 0 ==> k.inner == Some([]))
      && (k.indicators.Some? <==> c.indicators.Some?)
      && (k.indicators.Some? ==> k.indicators.value.dots == Dots(photos))
      && (k.indicators.Some? ==> (k.indicators.value.hidden <==> |photos| <= 1))
      && (k.prevHidden.Some? <==> c.prevHidden.Some?)
      && (k.prevHidden.Some? ==> (k.prevHidden.value <==> |photos| <= 1))
      && (k.nextHidden.Some? <==> c.nextHidden.Some?)
      && (k.nextHidden.Some? ==> (k.nextHidden.value <==> |photos| <= 1))
  {
    if |photos| == 0 {
      assert Slides(photos) == [];
    }
  }

  /** The regions renderCommon writes: the document title is always there. */
  datatype CommonRegions = CommonRegions(
    title: string,
    brandName: Option<string>,
    footerArtist: Option<string>,
    year: Option<int>,
    bio: Option<string>,
    highlights: Option<seq<string>>,
    videoEmbed: Option<string>)

  /** The release label and the player frame of the hero. */
  datatype HeroRegions = HeroRegions(meta: Option<string>, player: Option<string>)

  /** The show list and the visibility of its "no shows" placeholder. */
  datatype ShowsRegions = ShowsRegions(list: Option<seq<ShowCard>>, placeholderVisible: Option<bool>)

  /** The contact block and the social links. */
  datatype ContactRegions = ContactRegions(info: Option<ContactView>, socials: Option<seq<SocialLink>>)

  /** An embed grid (videos or posts) and the link to the channel or profile beside it. */
  datatype FeedRegions = FeedRegions(grid: Option<seq<string>>, link: Option<string>)

  /** Everything the renderers can write, grouped by the renderer that owns it. */
  datatype PageView = PageView(
    common: CommonRegions,
    carousel: Option<Carousel>,
    hero: HeroRegions,
    tracks: Option<seq<TrackCard>>,
    shows: ShowsRegions,
    releases: Option<seq<ReleaseCard>>,
    contact: ContactRegions,
    youtube: FeedRegions,
    instagram: FeedRegions)

  /** renderCommon */
  function CommonAfter(c: CommonRegions, data: Site, currentYear: int): CommonRegions {
    CommonRegions(PageTitle(data.artist.name),
                  Fill(c.brandName, data.artist.name),
                  Fill(c.footerArtist, data.artist.name),
                  Fill(c.year, currentYear),
                  Fill(c.bio, data.artist.bio),
                  Fill(c.highlights, HighlightLines(data.artist)),
                  Fill(c.videoEmbed, OrElse(data.artist.videoEmbedUrl, "")))
  }

  /** renderAboutCarousel, on the truthy photo entries; a missing carousel stays missing. */
  function CarouselRegionAfter(c: Option<Carousel>, data: Site): Option<Carousel> {
    match c
    case None => None
    case Some(k) => Some(CarouselAfter(k, Photos(data.artist.aboutPhotos.GetOr([]))))
  }

  /** renderHero: with no release at all, nothing changes. */
  function HeroAfter(h: HeroRegions, data: Site): HeroRegions {
    match HeroRelease(data)
    case None => h
    case Some(r) => HeroRegions(Fill(h.meta, TitleAndYear(r)), Fill(h.player, HeroEmbed(r, data.artist)))
  }

  /** renderShows: does nothing unless both the list and the placeholder exist. */
  function ShowsAfter(s: ShowsRegions, data: Site): ShowsRegions {
    if s.list.None? || s.placeholderVisible.None? then s
    else ShowsRegions(Some(ShowCards(data)), Some(NoShowsVisible(data)))
  }

  /** renderContactSocials: the two regions are filled independently. */
  function ContactAfter(c: ContactRegions, data: Site): ContactRegions {
    ContactRegions(Fill(c.info, ContactViewOf(data)), Fill(c.socials, SocialLinks(data)))
  }

  /** renderYouTubeRecent and renderInstagram: the link is only touched when the grid exists. */
  function FeedAfter(f: FeedRegions, items: seq<string>, link: string): FeedRegions {
    if f.grid.None? then f else FeedRegions(Some(items), Fill(f.link, link))
  }

  /** The page after the boot sequence renders `data` onto `v`, with
      `currentYear` read from the clock. Each renderer writes only its own
      regions, so the script's order does not show in the result. */
  function Rendered(v: PageView, data: Site, currentYear: int): PageView {
    PageView(CommonAfter(v.common, data, currentYear),
             CarouselRegionAfter(v.carousel, data),
             HeroAfter(v.hero, data),
             Fill(v.tracks, TrackCards(data)),
             ShowsAfter(v.shows, data),
             Fill(v.releases, ReleaseCards(data)),
             ContactAfter(v.contact, data),
             FeedAfter(v.youtube, VideoEmbeds(data), ChannelUrl(data)),
             FeedAfter(v.instagram, InstagramPosts(data), ProfileUrl(data)))
  }

  /** Rendering the same data twice leaves the page as rendering it once:
      every renderer rebuilds its region from the data alone. */
  lemma RenderedIdempotent(v: PageView, data: Site, currentYear: int)
    ensures Rendered(Rendered(v, data, currentYear), data, currentYear) == Rendered(v, data, currentYear)
  {
  }

  /** Rendering never adds or removes a region: which regions exist is the document's business. */
  lemma RenderedKeepsRegions(v: PageView, data: Site, currentYear: int)
    ensures var w := Rendered(v, data, currentYear);
      && (w.common.brandName.Some? <==> v.common.brandName.Some?)
      && (w.common.footerArtist.Some? <==> v.common.footerArtist.Some?)
      && (w.common.year.Some? <==> v.common.year.Some?)
      && (w.common.bio.Some? <==> v.common.bio.Some?)
      && (w.common.highlights.Some? <==> v.common.highlights.Some?)
      && (w.common.videoEmbed.Some? <==> v.common.videoEmbed.Some?)
      && (w.carousel.Some? <==> v.carousel.Some?)
      && (w.carousel.Some? ==>
            && (w.carousel.value.inner.Some? <==> v.carousel.value.inner.Some?)
            && (w.carousel.value.indicators.Some? <==> v.carousel.value.indicators.Some?)
            && (w.carousel.value.prevHidden.Some? <==> v.carousel.value.prevHidden.Some?)
            && (w.carousel.value.nextHidden.Some? <==> v.carousel.value.nextHidden.Some?))
      && (w.hero.meta.Some? <==> v.hero.meta.Some?)
      && (w.hero.player.Some? <==> v.hero.player.Some?)
      && (w.tracks.Some? <==> v.tracks.Some?)
      && (w.shows.list.Some? <==> v.shows.list.Some?)
      && (w.shows.placeholderVisible.Some? <==> v.shows.placeholderVisible.Some?)
      && (w.releases.Some? <==> v.releases.Some?)
      && (w.contact.info.Some? <==> v.contact.info.Some?)
      && (w.contact.socials.Some? <==> v.contact.socials.Some?)
      && (w.youtube.grid.Some? <==> v.youtube.grid.Some?)
      && (w.youtube.link.Some? <==> v.youtube.link.Some?)
      && (w.instagram.grid.Some? <==> v.instagram.grid.Some?)
      && (w.instagram.link.Some? <==> v.instagram.link.Some?)
  {
  }

  class Page {
    var title: string
    var brandName: Option<string>
    var footerArtist: Option<string>
    var year: Option<int>
    var bio: Option<string>
    var highlights: Option<seq<string>>
    var videoEmbed: Option<string>
    var latestReleaseMeta: Option<string>
    var latestYouTube: Option<string>
    var tracks: Option<seq<TrackCard>>
    var showsList: Option<seq<ShowCard>>
    var noShowsVisible: Option<bool>
    var releases: Option<seq<ReleaseCard>>
    var contactInfo: Option<ContactView>
    var socials: Option<seq<SocialLink>>
    var ytGrid: Option<seq<string>>
    var youtubeChannelLink: Option<string>
    var igGrid: Option<seq<string>>
    var instagramProfileLink: Option<string>
    var aboutCarousel: Option<Carousel>

    function View(): PageView
      reads this
    {
      PageView(CommonRegions(title, brandName, footerArtist, year, bio, highlights, videoEmbed),
               aboutCarousel,
               HeroRegions(latestReleaseMeta, latestYouTube),
               tracks,
               ShowsRegions(showsList, noShowsVisible),
               releases,
               ContactRegions(contactInfo, socials),
               FeedRegions(ytGrid, youtubeChannelLink),
               FeedRegions(igGrid, instagramProfileLink))
    }

    /** A document whose regions are as given. */
    constructor (v: PageView)
      ensures View() == v
    {
      var c := v.common;
      title, brandName, footerArtist, year, bio := c.title, c.brandName, c.footerArtist, c.year, c.bio;
      highlights, videoEmbed := c.highlights, c.videoEmbed;
      aboutCarousel := v.carousel;
      latestReleaseMeta, latestYouTube := v.hero.meta, v.hero.player;
      tracks := v.tracks;
      showsList, noShowsVisible := v.shows.list, v.shows.placeholderVisible;
      releases := v.releases;
      contactInfo, socials := v.contact.info, v.contact.socials;
      ytGrid, youtubeChannelLink := v.youtube.grid, v.youtube.link;
      igGrid, instagramProfileLink := v.instagram.grid, v.instagram.link;
    }

    /** renderCommon: title, brand, footer, year, biography, highlights and the legacy video frame. */
    method RenderCommon(data: Site, currentYear: int)
      modifies this`title, this`brandName, this`footerArtist, this`year, this`bio, this`highlights, this`videoEmbed
      ensures title == PageTitle(data.artist.name)
      ensures brandName == Fill(old(brandName), data.artist.name)
      ensures footerArtist == Fill(old(footerArtist), data.artist.name)
      ensures year == Fill(old(year), currentYear)
      ensures bio == Fill(old(bio), data.artist.bio)
      ensures highlights == Fill(old(highlights), HighlightLines(data.artist))
      ensures videoEmbed == Fill(old(videoEmbed), OrElse(data.artist.videoEmbedUrl, ""))
    {
      title := PageTitle(data.artist.name);
      brandName, footerArtist := Fill(brandName, data.artist.name), Fill(footerArtist, data.artist.name);
      year, bio := Fill(year, currentYear), Fill(bio, data.artist.bio);
      RenderHighlights(data);
      videoEmbed := Fill(videoEmbed, OrElse(data.artist.videoEmbedUrl, ""));
    }

    /** The highlights list of renderCommon: cleared, then one bulleted item per highlight. */
    method RenderHighlights(data: Site)
      modifies this`highlights
      ensures highlights == Fill(old(highlights), HighlightLines(data.artist))
    {
      if highlights.None? { return; }
      highlights := Some([]);
      var hs := data.artist.highlights.GetOr([]);
      var i := 0;
      while i < |hs|
        invariant 0 <= i <= |hs|
        invariant highlights == Some(HighlightLines(data.artist)[..i])
      {
        assert HighlightLines(data.artist)[..i + 1] == HighlightLines(data.artist)[..i] + [Bullet + hs[i]];
        highlights := Some(highlights.value + [Bullet + hs[i]]);
        i := i + 1;
      }
      assert HighlightLines(data.artist)[..i] == HighlightLines(data.artist);
    }

    /** renderHero: the hero release's label and player; with no release at all, nothing changes. */
    method RenderHero(data: Site)
      modifies this`latestReleaseMeta, this`latestYouTube
      ensures View() == old(View()).(hero := HeroAfter(old(View()).hero, data))
    {
      var latest := HeroRelease(data);
      if latest.None? { return; }
      if latestReleaseMeta.Some? { latestReleaseMeta := Some(TitleAndYear(latest.value)); }
      if latestYouTube.Some? { latestYouTube := Some(HeroEmbed(latest.value, data.artist)); }
    }

    /** renderTracks: a card for each of the first six tracks over all releases. */
    method RenderTracks(data: Site)
      modifies this`tracks
      ensures View() == old(View()).(tracks := Fill(old(tracks), TrackCards(data)))
    {
      if tracks.None? { return; }
      var shown := Take(AllTracks(data.releases), CardLimit);
      tracks := Some([]);
      var i := 0;
      while i < |shown|
        invariant 0 <= i <= |shown|
        invariant tracks == Some(TrackCards(data)[..i])
      {
        assert TrackCards(data)[..i + 1] == TrackCards(data)[..i] + [TrackCardOf(shown[i])];
        tracks := Some(tracks.value + [TrackCardOf(shown[i])]);
        i := i + 1;
      }
      assert TrackCards(data)[..i] == TrackCards(data);
    }

    /** renderShows: needs both the list and the placeholder; the placeholder
        shows exactly when there is no show, and the list gets a card per show. */
    method RenderShows(data: Site)
      modifies this`showsList, this`noShowsVisible
      ensures View() == old(View()).(shows := ShowsAfter(old(View()).shows, data))
    {
      if showsList.None? || noShowsVisible.None? { return; }
      showsList := Some([]);
      if data.shows.Some? && |data.shows.value| > 0 {
        noShowsVisible := Some(false);
        var shows := data.shows.value;
        var i := 0;
        while i < |shows|
          invariant 0 <= i <= |shows|
          invariant showsList == Some(ShowCards(data)[..i])
          modifies this`showsList
        {
          assert ShowCards(data)[..i + 1] == ShowCards(data)[..i] + [ShowCardOf(shows[i])];
          showsList := Some(showsList.value + [ShowCardOf(shows[i])]);
          i := i + 1;
        }
        assert ShowCards(data)[..i] == ShowCards(data);
      } else {
        noShowsVisible := Some(true);
        assert ShowCards(data) == [];
      }
    }

    /** renderReleases: a card per release, uncapped. */
    method RenderReleases(data: Site)
      modifies this`releases
      ensures View() == old(View()).(releases := Fill(old(releases), ReleaseCards(data)))
    {
      if releases.None? { return; }
      releases := Some([]);
      var i := 0;
      while i < |data.releases|
        invariant 0 <= i <= |data.releases|
        invariant releases == Some(ReleaseCards(data)[..i])
      {
        assert ReleaseCards(data)[..i + 1] == ReleaseCards(data)[..i] + [ReleaseCardOf(data.releases[i])];
        releases := Some(releases.value + [ReleaseCardOf(data.releases[i])]);
        i := i + 1;
      }
      assert ReleaseCards(data)[..i] == ReleaseCards(data);
    }

    /** renderContactSocials: the contact block and one link per social profile, independently. */
    method RenderContactSocials(data: Site)
      modifies this`contactInfo, this`socials
      ensures View() == old(View()).(contact := ContactAfter(old(View()).contact, data))
    {
      if contactInfo.Some? { contactInfo := Some(ContactViewOf(data)); }
      if socials.Some? {
        socials := Some([]);
        var ss := data.socials.GetOr([]);
        var i := 0;
        while i < |ss|
          invariant 0 <= i <= |ss|
          invariant socials == Some(SocialLinks(data)[..i])
          modifies this`socials
        {
          assert SocialLinks(data)[..i + 1] == SocialLinks(data)[..i] + [SocialLink(ss[i].url, ss[i].icon, ss[i].name)];
          socials := Some(socials.value + [SocialLink(ss[i].url, ss[i].icon, ss[i].name)]);
          i := i + 1;
        }
        assert SocialLinks(data)[..i] == SocialLinks(data);
      }
    }

    /** renderYouTubeRecent: up to six embeds; the channel link is only set when the grid exists. */
    method RenderYouTubeRecent(data: Site)
      modifies this`ytGrid, this`youtubeChannelLink
      ensures View() == old(View()).(youtube := FeedAfter(old(View()).youtube, VideoEmbeds(data), ChannelUrl(data)))
    {
      if ytGrid.None? { return; }
      ytGrid := Some([]);
      var ids := VideoIds(data);
      if youtubeChannelLink.Some? { youtubeChannelLink := Some(ChannelUrl(data)); }
      var shown := Take(ids, CardLimit);
      var i := 0;
      while i < |shown|
        invariant 0 <= i <= |shown|
        invariant ytGrid == Some(VideoEmbeds(data)[..i])
        modifies this`ytGrid
      {
        assert VideoEmbeds(data)[..i + 1] == VideoEmbeds(data)[..i] + [EmbedPrefix + shown[i]];
        ytGrid := Some(ytGrid.value + [EmbedPrefix + shown[i]]);
        i := i + 1;
      }
      assert VideoEmbeds(data)[..i] == VideoEmbeds(data);
    }

    /** renderInstagram: up to six post embeds; the profile link is only set when the grid exists. */
    method RenderInstagram(data: Site)
      modifies this`igGrid, this`instagramProfileLink
      ensures View() == old(View()).(instagram := FeedAfter(old(View()).instagram, InstagramPosts(data), ProfileUrl(data)))
    {
      if igGrid.None? { return; }
      igGrid := Some([]);
      var posts := data.instagramPosts.GetOr([]);
      if instagramProfileLink.Some? { instagramProfileLink := Some(ProfileUrl(data)); }
      var shown := Take(posts, CardLimit);
      var i := 0;
      while i < |shown|
        invariant 0 <= i <= |shown|
        invariant igGrid == Some(shown[..i])
        modifies this`igGrid
      {
        assert shown[..i + 1] == shown[..i] + [shown[i]];
        igGrid := Some(igGrid.value + [shown[i]]);
        i := i + 1;
      }
      assert shown[..i] == shown;
    }

    /** renderAboutCarousel: a slide and a dot per truthy photo, only the first
        active; controls and indicators hidden for no photo or a single one. */
    method RenderAboutCarousel(data: Site)
      modifies this`aboutCarousel
      ensures View() == old(View()).(carousel := CarouselRegionAfter(old(aboutCarousel), data))
    {
      if aboutCarousel.None? { return; }
      var c := aboutCarousel.value;
      if c.inner.None? { return; }
      var photos := Photos(data.artist.aboutPhotos.GetOr([]));
      c := c.(inner := Some([]));
      if c.indicators.Some? { c := c.(indicators := Some(c.indicators.value.(dots := []))); }
      if |photos| == 0 {
        c := c.(prevHidden := Fill(c.prevHidden, true), nextHidden := Fill(c.nextHidden, true));
        if c.indicators.Some? { c := c.(indicators := Some(c.indicators.value.(hidden := true))); }
        assert Slides(photos) == [] && Dots(photos) == [];
        aboutCarousel := Some(c);
        return;
      }
      var i := 0;
      while i < |photos|
        invariant 0 <= i <= |photos|
        invariant c.inner == Some(Slides(photos)[..i])
        invariant c.indicators.Some? <==> old(aboutCarousel).value.indicators.Some?
        invariant c.indicators.Some? ==> c.indicators.value.dots == Dots(photos)[..i]
        invariant c.prevHidden == old(aboutCarousel).value.prevHidden
        invariant c.nextHidden == old(aboutCarousel).value.nextHidden
      {
        assert Slides(photos)[..i + 1] == Slides(photos)[..i] + [Slide(photos[i], i, i == 0)];
        assert Dots(photos)[..i + 1] == Dots(photos)[..i] + [Dot(i, i == 0)];
        c := c.(inner := Some(c.inner.value + [Slide(photos[i], i, i == 0)]));
        if c.indicators.Some? {
          var ind := c.indicators.value;
          c := c.(indicators := Some(ind.(dots := ind.dots + [Dot(i, i == 0)])));
        }
        i := i + 1;
      }
      assert Slides(photos)[..i] == Slides(photos) && Dots(photos)[..i] == Dots(photos);
      var single := |photos| == 1;
      c := c.(prevHidden := Fill(c.prevHidden, single), nextHidden := Fill(c.nextHidden, single));
      if c.indicators.Some? { c := c.(indicators := Some(c.indicators.value.(hidden := single))); }
      aboutCarousel := Some(c);
    }

    /** The boot sequence: every renderer once, in the script's order. */
    method RenderPage(data: Site, currentYear: int)
      modifies this
      ensures View() == Rendered(old(View()), data, currentYear)
    {
      ghost var before := View();
      RenderCommon(data, currentYear);
      assert View() == before.(common := CommonAfter(before.common, data, currentYear));
      RenderAboutCarousel(data);
      RenderHero(data);
      RenderTracks(data);
      RenderShows(data);
      RenderReleases(data);
      RenderContactSocials(data);
      RenderYouTubeRecent(data);
      RenderInstagram(data);
    }
  }

  /** Re-rendering a page that has already been rendered changes nothing. */
  method RenderTwice(v: PageView, data: Site, currentYear: int) returns (once: PageView, twice: PageView)
    ensures once == twice == Rendered(v, data, currentYear)
  {
    var page := new Page(v);
    page.RenderPage(data, currentYear);
    once := page.View();
    page.RenderPage(data, currentYear);
    twice := page.View();
    RenderedIdempotent(v, data, currentYear);
  }
}

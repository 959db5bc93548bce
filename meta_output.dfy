/**
 * includes/meta-output.php: the Open Graph and Twitter tags, the document
 * title parts, the robots meta tag, the canonical link and the prev/next
 * pagination links printed into the document head.
 */
module MetaOutput {
  import opened PhpValues
  import opened WpHost

  /** `! is_wp_error($term) && $term` on a category, tag or taxonomy archive. */
  predicate HasQueriedTerm(q: Query) {
    IsTermArchive(q) && q.queriedTerm.Some?
  }

  // ---------------------------------------------------------------------
  // seo_wp_output_social_meta

  /** The resolved title, description and image of the social tags. */
  datatype SocialFields = SocialFields(title: Value, description: Value, image: Value)

  /** The values before the settings fallback: post meta on singular pages (null elsewhere),
      overridden by term meta on term archives; the image never comes from term meta. */
  function OwnSocialFields(p: Page): SocialFields {
    var title := if p.query.isSingular then PostMeta(p, SeoTitleMeta) else Null;
    var description := if p.query.isSingular then PostMeta(p, SeoDescriptionMeta) else Null;
    var image := if p.query.isSingular then PostMeta(p, SeoImageMeta) else Null;
    if HasQueriedTerm(p.query) then
      var id := p.query.queriedTerm.value.termId;
      SocialFields(TermMeta(p, id, MetaTitle), TermMeta(p, id, MetaDescription), image)
    else
      SocialFields(title, description, image)
  }

  /** `$a ?: $b`. */
  function Elvis(a: Value, b: Value): (r: Value)
    ensures Truthy(a) ==> r == a
    ensures !Truthy(a) ==> r == b
  {
    if Truthy(a) then a else b
  }

  /** The fallback chain: an own value if truthy, else the `seo_wp_settings` entry if set
      (even to the empty string), else the blog's name or description. */
  function ResolveSocialFields(p: Page): SocialFields {
    var own := OwnSocialFields(p);
    var s := GetOption(p.options, SeoWpSettings);
    SocialFields(
      Elvis(own.title, Coalesce(s, SocialTitle, Str(p.blogName))),
      Elvis(own.description, Coalesce(s, SocialDescription, Str(p.blogDescription))),
      Elvis(own.image, Coalesce(s, SocialImage, Str(""))))
  }

  /** The site-wide fallback of one field: the setting when set and not null, else `dflt`. */
  function SettingOr(p: Page, k: SettingKey, dflt: string): Value {
    var s := GetOption(p.options, SeoWpSettings);
    if k in s && s[k] != Null then s[k] else Str(dflt)
  }

  /** Where the title comes from, case by case: the term's `meta_title` on a valid term
      archive, the post's SEO title on a singular page, nothing of its own elsewhere; an own
      value that is not truthy falls back to `social_title`, then to the blog name. */
  lemma SocialTitleSources(p: Page)
    ensures var r := ResolveSocialFields(p).title;
      var fallback := SettingOr(p, SocialTitle, p.blogName);
      && (HasQueriedTerm(p.query) ==>
            var own := TermMeta(p, p.query.queriedTerm.value.termId, MetaTitle);
            r == if Truthy(own) then own else fallback)
      && (!HasQueriedTerm(p.query) && p.query.isSingular ==>
            var own := PostMeta(p, SeoTitleMeta);
            r == if Truthy(own) then own else fallback)
      && (!HasQueriedTerm(p.query) && !p.query.isSingular ==> r == fallback)
  {
  }

  /** The description follows the same cases, with `social_description` and the blog description. */
  lemma SocialDescriptionSources(p: Page)
    ensures var r := ResolveSocialFields(p).description;
      var fallback := SettingOr(p, SocialDescription, p.blogDescription);
      && (HasQueriedTerm(p.query) ==>
            var own := TermMeta(p, p.query.queriedTerm.value.termId, MetaDescription);
            r == if Truthy(own) then own else fallback)
      && (!HasQueriedTerm(p.query) && p.query.isSingular ==>
            var own := PostMeta(p, SeoDescriptionMeta);
            r == if Truthy(own) then own else fallback)
      && (!HasQueriedTerm(p.query) && !p.query.isSingular ==> r == fallback)
  {
  }

  /** The image never comes from term meta: the post's SEO image on a singular page,
      whether or not a term is queried, else `social_image`, else the empty string. */
  lemma SocialImageSources(p: Page)
    ensures var r := ResolveSocialFields(p).image;
      var fallback := SettingOr(p, SocialImage, "");
      && (p.query.isSingular ==>
            var own := PostMeta(p, SeoImageMeta);
            r == if Truthy(own) then own else fallback)
      && (!p.query.isSingular ==> r == fallback)
  {
  }

  /** A set but empty `social_title` setting wins over the blog name: `??` tests only for null. */
  lemma EmptySocialTitleSettingWins(p: Page)
    requires !p.query.isSingular && !HasQueriedTerm(p.query)
    requires GetOption(p.options, SeoWpSettings) == map[SocialTitle := Str("")]
    ensures ResolveSocialFields(p).title == Str("")
  {
  }

  /** The Open Graph block: comment, title, description, URL, the image if truthy, the type. */
  function OpenGraphTags(p: Page, f: SocialFields, h: Helpers): seq<Tag> {
    [Comment("Open Graph Meta Tags"),
     Meta(OgTitle, h.escAttr(ToStr(f.title))),
     Meta(OgDescription, h.escAttr(ToStr(f.description))),
     Meta(OgUrl, h.escUrl(p.permalink))]
    + (if Truthy(f.image) then [Meta(OgImage, h.escUrl(ToStr(f.image)))] else [])
    + [Meta(OgType, if p.query.isSingular then "article" else "website")]
  }

  /** The Twitter block: comment, card, title, description, the image if truthy. */
  function TwitterTags(f: SocialFields, h: Helpers): seq<Tag> {
    [Comment("Twitter Card Meta Tags"),
     Meta(TwitterCard, "summary_large_image"),
     Meta(TwitterTitle, h.escAttr(ToStr(f.title))),
     Meta(TwitterDescription, h.escAttr(ToStr(f.description)))]
    + (if Truthy(f.image) then [Meta(TwitterImage, h.escUrl(ToStr(f.image)))] else [])
  }

  /** The tags `seo_wp_output_social_meta` echoes, in order. */
  function SocialMetaTags(p: Page, h: Helpers): (tags: seq<Tag>)
    ensures var f := ResolveSocialFields(p);
      var n := if Truthy(f.image) then 6 else 5;
      && |tags| == n + (if Truthy(f.image) then 5 else 4)
      && tags[0] == Comment("Open Graph Meta Tags")
      && tags[1] == Meta(OgTitle, h.escAttr(ToStr(f.title)))
      && tags[2] == Meta(OgDescription, h.escAttr(ToStr(f.description)))
      && tags[3] == Meta(OgUrl, h.escUrl(p.permalink))
      && (Truthy(f.image) ==> tags[4] == Meta(OgImage, h.escUrl(ToStr(f.image))))
      && tags[n - 1] == Meta(OgType, if p.query.isSingular then "article" else "website")
      && tags[n] == Comment("Twitter Card Meta Tags")
      && tags[n + 1] == Meta(TwitterCard, "summary_large_image")
      && tags[n + 2] == Meta(TwitterTitle, h.escAttr(ToStr(f.title)))
      && tags[n + 3] == Meta(TwitterDescription, h.escAttr(ToStr(f.description)))
      && (Truthy(f.image) ==> tags[n + 4] == Meta(TwitterImage, h.escUrl(ToStr(f.image))))
  {
    var f := ResolveSocialFields(p);
    OpenGraphTags(p, f, h) + TwitterTags(f, h)
  }

  /** The Twitter card repeats the Open Graph title, description and image. */
  lemma TwitterMirrorsOpenGraph(p: Page, h: Helpers)
    ensures var tags := SocialMetaTags(p, h);
      var n := if Truthy(ResolveSocialFields(p).image) then 6 else 5;
      && tags[n + 2].Meta? && tags[n + 2].content == tags[1].content
      && tags[n + 3].Meta? && tags[n + 3].content == tags[2].content
      && (Truthy(ResolveSocialFields(p).image) ==> tags[n + 4].Meta? && tags[n + 4].content == tags[4].content)
  {
  }

  /** The echoed text opens with the Open Graph comment line and the `og:title` line. */
  lemma SocialEchoOpening(p: Page, h: Helpers)
    ensures var e := Echo(SocialMetaTags(p, h));
      var head := Render(Comment("Open Graph Meta Tags")) + "\n"
        + Render(Meta(OgTitle, h.escAttr(ToStr(ResolveSocialFields(p).title)))) + "\n";
      |head| <= |e| && e[..|head|] == head
  {
    var tags := SocialMetaTags(p, h);
    EchoPrefix(tags, 2);
    EchoPair(tags[0], tags[1]);
    assert tags[..2] == [tags[0], tags[1]];
  }

  /** Which fields carry a tag: one image tag in each block iff the image is truthy, and
      `og:type` is `article` exactly on singular pages. */
  lemma SocialImageTags(p: Page, h: Helpers)
    ensures var f := ResolveSocialFields(p);
      var tags := SocialMetaTags(p, h);
      && ((exists i :: 0 <= i < |tags| && tags[i].Meta? && tags[i].field == OgImage) <==> Truthy(f.image))
      && ((exists i :: 0 <= i < |tags| && tags[i].Meta? && tags[i].field == TwitterImage) <==> Truthy(f.image))
  {
    var f := ResolveSocialFields(p);
    var og := OpenGraphTags(p, f, h);
    var tw := TwitterTags(f, h);
    var tags := og + tw;
    assert tags == SocialMetaTags(p, h);
    if Truthy(f.image) {
      assert tags[4].field == OgImage;
      assert tags[|og| + 4].field == TwitterImage;
    } else {
      assert |og| == 5 && |tw| == 4;
      forall i | 0 <= i < |tags|
        ensures !(tags[i].Meta? && tags[i].field in {OgImage, TwitterImage})
      {
        if i < |og| {
          assert tags[i] == og[i];
        } else {
          assert tags[i] == tw[i - |og|];
        }
      }
    }
  }

  lemma SocialTypeAndCard(p: Page, h: Helpers)
    ensures var tags := SocialMetaTags(p, h);
      && (exists i :: 0 <= i < |tags| && tags[i] == Meta(OgType, "article")) == p.query.isSingular
      && (exists i :: 0 <= i < |tags| && tags[i] == Meta(TwitterCard, "summary_large_image"))
  {
    var f := ResolveSocialFields(p);
    var og := OpenGraphTags(p, f, h);
    var tw := TwitterTags(f, h);
    var tags := og + tw;
    assert tags == SocialMetaTags(p, h);
    var typeAt := |og| - 1;
    assert tags[typeAt] == Meta(OgType, if p.query.isSingular then "article" else "website");
    assert tags[|og| + 1] == Meta(TwitterCard, "summary_large_image");
    if !p.query.isSingular {
      assert "website"[0] != "article"[0];
      forall i | 0 <= i < |tags|
        ensures tags[i] != Meta(OgType, "article")
      {
        if i < |og| {
          assert tags[i] == og[i];
        } else {
          assert tags[i] == tw[i - |og|];
        }
      }
    }
  }

  // ---------------------------------------------------------------------
  // seo_wp_replace_title (the `document_title_parts` filter)

  /** The keys of `$title_parts`. */
  datatype TitlePart = TitleKey | TaglineKey | PageKey | SiteKey | OtherPart(name: string)

  type TitleParts = map<TitlePart, string>

  /** On term archives with a valid term, a truthy `meta_title` overrides the title. */
  predicate TermTitleOverride(p: Page) {
    HasQueriedTerm(p.query) && Truthy(TermMeta(p, p.query.queriedTerm.value.termId, MetaTitle))
  }

  method ReplaceTitle(p: Page, parts: TitleParts, h: Helpers) returns (result: TitleParts)
    ensures var s := GetOption(p.options, SeoWpSettings);
      var seoTitle := PostMeta(p, SeoTitleMeta);
      var name := Coalesce(s, WebsiteName, Str(""));
      var tagline := Coalesce(s, WebsiteTagline, Str(""));
      var separator := Coalesce(s, TitleSeparator, Str("-"));
      && (TermTitleOverride(p) ==>
            TitleKey in result && result[TitleKey] == h.escHtml(ToStr(TermMeta(p, p.query.queriedTerm.value.termId, MetaTitle))))
      && (!TermTitleOverride(p) && p.query.isSingular && Truthy(seoTitle) ==>
            TitleKey in result && result[TitleKey] == ToStr(seoTitle))
      && (!TermTitleOverride(p) && p.query.isSingular && !Truthy(seoTitle) && Truthy(name) ==>
            TitleKey in result && result[TitleKey] == ToStr(name))
      && (p.query.isSingular && !Truthy(seoTitle) && Truthy(name) && Truthy(tagline) ==>
            TaglineKey in result && result[TaglineKey] == ToStr(separator) + " " + ToStr(tagline))
      && (forall k :: k != TitleKey && k != TaglineKey ==> (k in result <==> k in parts) && (k in parts ==> result[k] == parts[k]))
      && (!(p.query.isSingular && !Truthy(seoTitle) && Truthy(name) && Truthy(tagline)) ==>
            (TaglineKey in result <==> TaglineKey in parts) && (TaglineKey in parts ==> result[TaglineKey] == parts[TaglineKey]))
      && (!TermTitleOverride(p) && !(p.query.isSingular && (Truthy(seoTitle) || Truthy(name))) ==>
            (TitleKey in result <==> TitleKey in parts) && (TitleKey in parts ==> result[TitleKey] == parts[TitleKey]))
  {
    result := parts;
    if p.query.isSingular {
      var seoTitle := PostMeta(p, SeoTitleMeta);
      var settings := GetOption(p.options, SeoWpSettings);
      var defaultTitle := Coalesce(settings, WebsiteName, Str(""));
      var defaultTagline := Coalesce(settings, WebsiteTagline, Str(""));
      var titleSeparator := Coalesce(settings, TitleSeparator, Str("-"));
      if Truthy(seoTitle) {
        result := result[TitleKey := ToStr(seoTitle)];
      } else if Truthy(defaultTitle) {
        result := result[TitleKey := ToStr(defaultTitle)];
        if Truthy(defaultTagline) {
          result := result[TaglineKey := ToStr(titleSeparator) + " " + ToStr(defaultTagline)];
        }
      }
    }
    if IsTermArchive(p.query) && p.query.queriedTerm.Some? {
      var metaTitle := TermMeta(p, p.query.queriedTerm.value.termId, MetaTitle);
      if Truthy(metaTitle) {
        result := result[TitleKey := h.escHtml(ToStr(metaTitle))];
      }
    }
  }

  // ---------------------------------------------------------------------
  // seo_wp_output_robots_meta

  /** The two flags: post meta on singular pages, else term meta on term archives, else false. */
  function RobotsFlags(p: Page): (flags: (bool, bool))
    ensures p.query.isSingular ==>
      flags == (Truthy(PostMeta(p, NoindexMeta)), Truthy(PostMeta(p, NofollowMeta)))
    ensures !p.query.isSingular && HasQueriedTerm(p.query) ==>
      var id := p.query.queriedTerm.value.termId;
      flags == (Truthy(TermMeta(p, id, TermNoindex)), Truthy(TermMeta(p, id, TermNofollow)))
    ensures !p.query.isSingular && !HasQueriedTerm(p.query) ==> flags == (false, false)
  {
    if p.query.isSingular then
      (Truthy(PostMeta(p, NoindexMeta)), Truthy(PostMeta(p, NofollowMeta)))
    else if HasQueriedTerm(p.query) then
      var id := p.query.queriedTerm.value.termId;
      (Truthy(TermMeta(p, id, TermNoindex)), Truthy(TermMeta(p, id, TermNofollow)))
    else
      (false, false)
  }

  /** The `$robots` list the callback builds, one push per set flag. */
  method RobotsDirectives(noindex: bool, nofollow: bool) returns (robots: seq<string>)
    ensures "noindex" in robots <==> noindex
    ensures "nofollow" in robots <==> nofollow
    ensures forall i :: 0 <= i < |robots| ==> robots[i] == "noindex" || robots[i] == "nofollow"
    ensures |robots| == (if noindex then 1 else 0) + (if nofollow then 1 else 0)
    ensures noindex && nofollow ==> robots == ["noindex", "nofollow"]
  {
    robots := [];
    if noindex {
      robots := robots + ["noindex"];
    }
    if nofollow {
      robots := robots + ["nofollow"];
    }
  }

  /** The tags echoed: none when neither flag is set, else one robots tag whose content is
      `noindex`, `nofollow` or `noindex,nofollow`. */
  method OutputRobotsMeta(p: Page, h: Helpers) returns (tags: seq<Tag>)
    ensures var (noindex, nofollow) := RobotsFlags(p);
      && (tags == [] <==> !noindex && !nofollow)
      && (noindex && nofollow ==> tags == [Meta(Robots, h.escAttr("noindex,nofollow"))])
      && (noindex && !nofollow ==> tags == [Meta(Robots, h.escAttr("noindex"))])
      && (!noindex && nofollow ==> tags == [Meta(Robots, h.escAttr("nofollow"))])
  {
    var (noindex, nofollow) := RobotsFlags(p);
    var robots := RobotsDirectives(noindex, nofollow);
    tags := [];
    if robots != [] {
      if noindex && nofollow {
        assert robots[..1] == ["noindex"];
        assert Join(",", robots) == "noindex,nofollow";
      } else {
        assert |robots| == 1 && robots[0] in robots;
        assert robots == [if noindex then "noindex" else "nofollow"];
      }
      tags := [Meta(Robots, h.escAttr(Join(",", robots)))];
    }
  }

  // ---------------------------------------------------------------------
  // seo_wp_output_canonical_tag

  /** The per-object canonical URL, before the fallback. */
  function OwnCanonicalUrl(p: Page): Value {
    if p.query.isSingular then PostMeta(p, CanonicalUrlMeta)
    else if HasQueriedTerm(p.query) then TermMeta(p, p.query.queriedTerm.value.termId, TermCanonicalUrl)
    else Str("")
  }

  /** Exactly one canonical link: the per-object URL when truthy, else the current request URL. */
  function CanonicalTag(p: Page, h: Helpers): (tags: seq<Tag>)
    ensures |tags| == 1 && tags[0].Link? && tags[0].rel == Canonical
    ensures Truthy(OwnCanonicalUrl(p)) ==> tags[0].href == h.escUrl(ToStr(OwnCanonicalUrl(p)))
    ensures !Truthy(OwnCanonicalUrl(p)) ==> tags[0].href == h.escUrl(h.homeUrl(p.requestUri))
  {
    var own := OwnCanonicalUrl(p);
    var url := if Truthy(own) then own else Str(h.homeUrl(p.requestUri));
    [Link(Canonical, h.escUrl(ToStr(url)))]
  }

  // ---------------------------------------------------------------------
  // seo_wp_output_pagination_meta

  /** `$paged > 1 ? $paged - 1 : null` and `$paged < max_num_pages ? $paged + 1 : null`. */
  function Neighbours(paged: nat, maxNumPages: int): (r: (Option<nat>, Option<nat>))
    ensures r.0.Some? <==> paged > 1
    ensures r.0.Some? ==> r.0.value == paged - 1
    ensures r.1.Some? <==> paged < maxNumPages
    ensures r.1.Some? ==> r.1.value == paged + 1
  {
    (if paged > 1 then Some(paged - 1) else None,
     if paged < maxNumPages then Some(paged + 1) else None)
  }

  /** The globals the callback reads and writes: `$paged` and `$wp_query->max_num_pages`. */
  class PagingGlobals {
    var paged: nat
    const maxNumPages: int

    constructor (paged0: nat, maxNumPages0: int)
      ensures paged == paged0 && maxNumPages == maxNumPages0
    {
      paged := paged0;
      maxNumPages := maxNumPages0;
    }

    /** Nothing happens off singular, archive and paged views; otherwise an unset page becomes 1,
        and a prev link exists iff the page is past the first, a next link iff before the last. */
    method OutputPaginationMeta(q: Query, pagenumLink: nat -> string, h: Helpers) returns (tags: seq<Tag>)
      modifies this
      ensures !(q.isSingular || q.isArchive || q.isPaged) ==> tags == [] && paged == old(paged)
      ensures (q.isSingular || q.isArchive || q.isPaged) ==>
        && paged == (if old(paged) == 0 then 1 else old(paged))
        && (Link(Prev, h.escUrl(pagenumLink(paged - 1))) in tags <==> paged > 1)
        && (Link(Next, h.escUrl(pagenumLink(paged + 1))) in tags <==> paged < maxNumPages)
        && |tags| == (if paged > 1 then 1 else 0) + (if paged < maxNumPages then 1 else 0)
        && tags == (if paged > 1 then [Link(Prev, h.escUrl(pagenumLink(paged - 1)))] else [])
                   + (if paged < maxNumPages then [Link(Next, h.escUrl(pagenumLink(paged + 1)))] else [])
    {
      tags := [];
      if !q.isSingular && !q.isArchive && !q.isPaged {
        return;
      }
      if paged == 0 {
        paged := 1;
      }
      var (prevPage, nextPage) := Neighbours(paged, maxNumPages);
      if prevPage.Some? {
        tags := tags + [Link(Prev, h.escUrl(pagenumLink(prevPage.value)))];
      }
      if nextPage.Some? {
        tags := tags + [Link(Next, h.escUrl(pagenumLink(nextPage.value)))];
      }
    }
  }
}

/**
 * includes/sitemap.php: the XML sitemaps (the sitemaps.org protocol,
 * schema 0.9), their dispatch, the rewrite rules and the query vars.
 */
module Sitemap {
  import opened PhpValues
  import opened WpHost

  const XmlDeclaration := "<?xml version=\"1.0\" encoding=\"UTF-8\"?>"
  const UrlsetOpen := "<urlset xmlns=\"http://www.sitemaps.org/schemas/sitemap/0.9\">"
  const UrlsetClose := "</urlset>"

  /** One `<url>` element. */
  datatype UrlEntry = UrlEntry(loc: string, lastmod: string, changefreq: string, priority: string)

  function LocElement(loc: string): string { "<loc>" + loc + "</loc>" }
  function LastmodElement(lastmod: string): string { "<lastmod>" + lastmod + "</lastmod>" }
  function ChangefreqElement(changefreq: string): string { "<changefreq>" + changefreq + "</changefreq>" }
  function PriorityElement(priority: string): string { "<priority>" + priority + "</priority>" }

  function RenderEntry(e: UrlEntry): string {
    "<url>" + LocElement(e.loc) + LastmodElement(e.lastmod) + ChangefreqElement(e.changefreq)
    + PriorityElement(e.priority) + "</url>"
  }

  /** The entries one after another. */
  function RenderEntries(es: seq<UrlEntry>): string
    decreases |es|
  {
    if es == [] then "" else RenderEntries(es[..|es| - 1]) + RenderEntry(es[|es| - 1])
  }

  /** A sitemap document: declaration, `<urlset>`, the entries, `</urlset>`. */
  function Document(es: seq<UrlEntry>): string {
    XmlDeclaration + UrlsetOpen + RenderEntries(es) + UrlsetClose
  }

  lemma RenderEntriesAppend(es: seq<UrlEntry>, e: UrlEntry)
    ensures RenderEntries(es + [e]) == RenderEntries(es) + RenderEntry(e)
  {
    assert (es + [e])[..|es|] == es;
  }

  /** Every document starts with the declaration and `<urlset>` and ends with `</urlset>`. */
  lemma DocumentFrame(es: seq<UrlEntry>)
    ensures var d := Document(es);
      && |d| >= |XmlDeclaration| + |UrlsetOpen| + |UrlsetClose|
      && d[..|XmlDeclaration|] == XmlDeclaration
      && d[|XmlDeclaration|..|XmlDeclaration| + |UrlsetOpen|] == UrlsetOpen
      && d[|d| - |UrlsetClose|..] == UrlsetClose
  {
    var d := Document(es);
    assert d == XmlDeclaration + (UrlsetOpen + RenderEntries(es) + UrlsetClose);
  }

  // ---------------------------------------------------------------------
  // seo_wp_generate_main_sitemap

  /** The home entry: `home_url('/')`, changed daily, priority 1.0. */
  function HomeEntry(now: string, h: Helpers): UrlEntry {
    UrlEntry(h.escUrl(h.homeUrl("/")), h.escHtml(now), "daily", "1.0")
  }

  /** The entry of one public post type: `/sitemap-{name}.xml`, weekly, priority 0.8. */
  function PostTypeEntry(name: string, now: string, h: Helpers): UrlEntry {
    UrlEntry(h.escUrl(h.homeUrl("/sitemap-" + name + ".xml")), h.escHtml(now), "weekly", "0.8")
  }

  /** One entry per public post type, in the order `get_post_types` lists them. */
  function PostTypeEntries(postTypes: seq<string>, now: string, h: Helpers): (es: seq<UrlEntry>)
    ensures |es| == |postTypes|
    ensures forall i :: 0 <= i < |postTypes| ==> es[i] == PostTypeEntry(postTypes[i], now, h)
  {
    seq(|postTypes|, i requires 0 <= i < |postTypes| => PostTypeEntry(postTypes[i], now, h))
  }

  /** The main sitemap's entries: home first, then one per public post type, in order. */
  function MainEntries(postTypes: seq<string>, now: string, h: Helpers): (es: seq<UrlEntry>)
    ensures |es| == 1 + |postTypes|
    ensures es[0] == HomeEntry(now, h)
    ensures forall i :: 0 <= i < |postTypes| ==> es[i + 1] == PostTypeEntry(postTypes[i], now, h)
  {
    [HomeEntry(now, h)] + PostTypeEntries(postTypes, now, h)
  }

  /** The main sitemap lists the homepage daily at priority 1.0, and each post type's own sitemap weekly at 0.8. */
  lemma MainEntriesSchedule(postTypes: seq<string>, now: string, h: Helpers)
    ensures var es := MainEntries(postTypes, now, h);
      && es[0].loc == h.escUrl(h.homeUrl("/")) && es[0].changefreq == "daily" && es[0].priority == "1.0"
      && forall i :: 1 <= i < |es| ==>
           es[i].loc == h.escUrl(h.homeUrl("/sitemap-" + postTypes[i - 1] + ".xml"))
           && es[i].changefreq == "weekly" && es[i].priority == "0.8"
  {
    var es := MainEntries(postTypes, now, h);
    forall i | 1 <= i < |es|
      ensures es[i] == PostTypeEntry(postTypes[i - 1], now, h)
    {
      assert es[(i - 1) + 1] == PostTypeEntry(postTypes[i - 1], now, h);
    }
  }

  /** Every entry of a post-type sitemap is its post's permalink, weekly at priority 0.8. */
  lemma PostEntriesSchedule(posts: seq<PublishedPost>, h: Helpers)
    ensures var es := PostEntries(posts, h);
      forall i :: 0 <= i < |es| ==>
        es[i].loc == h.escUrl(posts[i].permalink) && es[i].lastmod == h.escHtml(posts[i].modified)
        && es[i].changefreq == "weekly" && es[i].priority == "0.8"
  {
  }

  lemma MainEntriesRender(postTypes: seq<string>, now: string, h: Helpers)
    ensures RenderEntries(MainEntries(postTypes, now, h))
         == RenderEntry(HomeEntry(now, h)) + RenderEntries(PostTypeEntries(postTypes, now, h))
  {
    RenderEntriesCons(HomeEntry(now, h), PostTypeEntries(postTypes, now, h));
  }

  lemma {:induction false} RenderEntriesCons(e: UrlEntry, es: seq<UrlEntry>)
    ensures RenderEntries([e] + es) == RenderEntry(e) + RenderEntries(es)
    decreases |es|
  {
    if es == [] {
      assert [e] + es == [e];
      assert [e][..0] == [];
    } else {
      var init := es[..|es| - 1];
      var last := es[|es| - 1];
      assert ([e] + es)[..|es|] == [e] + init;
      RenderEntriesCons(e, init);
      assert RenderEntry(e) + RenderEntries(init) + RenderEntry(last) == RenderEntry(e) + (RenderEntries(init) + RenderEntry(last));
    }
  }

  /** One loop step: appending the next entry's element extends the rendered prefix by one entry. */
  lemma Step(head: string, es: seq<UrlEntry>, i: nat, before: string, after: string)
    requires i < |es|
    requires before == head + RenderEntries(es[..i])
    requires after == before + RenderEntry(es[i])
    ensures after == head + RenderEntries(es[..i + 1])
  {
    assert es[..i + 1] == es[..i] + [es[i]];
    RenderEntriesAppend(es[..i], es[i]);
    assert head + RenderEntries(es[..i]) + RenderEntry(es[i]) == head + (RenderEntries(es[..i]) + RenderEntry(es[i]));
  }

  /** Appends one `<url>` element, child by child. */
  method AppendUrl(sitemap: string, e: UrlEntry) returns (result: string)
    ensures result == sitemap + RenderEntry(e)
  {
    result := sitemap + "<url>";
    ghost var acc := "<url>";
    result := result + LocElement(e.loc);
    assert sitemap + acc + LocElement(e.loc) == sitemap + (acc + LocElement(e.loc));
    acc := acc + LocElement(e.loc);
    result := result + LastmodElement(e.lastmod);
    assert sitemap + acc + LastmodElement(e.lastmod) == sitemap + (acc + LastmodElement(e.lastmod));
    acc := acc + LastmodElement(e.lastmod);
    result := result + ChangefreqElement(e.changefreq);
    assert sitemap + acc + ChangefreqElement(e.changefreq) == sitemap + (acc + ChangefreqElement(e.changefreq));
    acc := acc + ChangefreqElement(e.changefreq);
    result := result + PriorityElement(e.priority);
    assert sitemap + acc + PriorityElement(e.priority) == sitemap + (acc + PriorityElement(e.priority));
    acc := acc + PriorityElement(e.priority);
    result := result + "</url>";
    assert sitemap + acc + "</url>" == sitemap + (acc + "</url>");
  }

  /** The `foreach` over the public post types of the main sitemap. */
  method AppendPostTypeEntries(sitemap: string, postTypes: seq<string>, now: string, h: Helpers) returns (result: string)
    ensures result == sitemap + RenderEntries(PostTypeEntries(postTypes, now, h))
  {
    ghost var es := PostTypeEntries(postTypes, now, h);
    result := sitemap;
    assert es[..0] == [];
    for i := 0 to |postTypes|
      invariant result == sitemap + RenderEntries(es[..i])
    {
      var e := UrlEntry(h.escUrl(h.homeUrl("/sitemap-" + postTypes[i] + ".xml")), h.escHtml(now), "weekly", "0.8");
      ghost var before := result;
      result := AppendUrl(result, e);
      Step(sitemap, es, i, before, result);
    }
    assert es[..|postTypes|] == es;
  }

  /** Regrouping three concatenated strings; stated apart because, next to the sitemap's literal
      strings, the solver does not find it cheaply. */
  lemma ConcatAssoc(a: string, b: string, c: string)
    ensures a + b + c == a + (b + c)
  {
  }

  /** `date('c')` is read as one timestamp `now` for the whole document. */
  method GenerateMainSitemap(postTypes: seq<string>, now: string, h: Helpers) returns (sitemap: string)
    ensures sitemap == Document(MainEntries(postTypes, now, h))
  {
    var homeUrl := h.escUrl(h.homeUrl("/"));
    sitemap := XmlDeclaration;
    sitemap := sitemap + UrlsetOpen;
    ghost var head := sitemap;
    ghost var home := HomeEntry(now, h);
    ghost var rest := PostTypeEntries(postTypes, now, h);
    sitemap := AppendUrl(sitemap, UrlEntry(homeUrl, h.escHtml(now), "daily", "1.0"));
    assert sitemap == head + RenderEntry(home);
    ghost var withHome := sitemap;
    sitemap := AppendPostTypeEntries(sitemap, postTypes, now, h);
    assert sitemap == withHome + RenderEntries(rest);
    ghost var body := RenderEntries(MainEntries(postTypes, now, h));
    MainEntriesRender(postTypes, now, h);
    assert body == RenderEntry(home) + RenderEntries(rest);
    ConcatAssoc(head, RenderEntry(home), RenderEntries(rest));
    assert sitemap == head + body;
    sitemap := sitemap + UrlsetClose;
  }

  // ---------------------------------------------------------------------
  // seo_wp_generate_post_type_sitemap

  /** What the generator reads of a published post: `get_permalink` and `get_the_modified_date('c')`. */
  datatype PublishedPost = PublishedPost(permalink: string, modified: string)

  function PostEntry(p: PublishedPost, h: Helpers): UrlEntry {
    UrlEntry(h.escUrl(p.permalink), h.escHtml(p.modified), "weekly", "0.8")
  }

  /** One weekly, priority 0.8 entry per post, in query order. */
  function PostEntries(posts: seq<PublishedPost>, h: Helpers): (es: seq<UrlEntry>)
    ensures |es| == |posts|
    ensures forall i :: 0 <= i < |posts| ==> es[i] == PostEntry(posts[i], h)
  {
    seq(|posts|, i requires 0 <= i < |posts| => PostEntry(posts[i], h))
  }

  /** `posts` is what `get_posts` returns for the type: all its published posts. */
  method GeneratePostTypeSitemap(posts: seq<PublishedPost>, h: Helpers) returns (sitemap: string)
    ensures sitemap == Document(PostEntries(posts, h))
  {
    sitemap := XmlDeclaration;
    sitemap := sitemap + UrlsetOpen;
    ghost var head := sitemap;
    ghost var es := PostEntries(posts, h);
    assert es[..0] == [];
    for i := 0 to |posts|
      invariant sitemap == head + RenderEntries(es[..i])
    {
      var e := UrlEntry(h.escUrl(posts[i].permalink), h.escHtml(posts[i].modified), "weekly", "0.8");
      ghost var before := sitemap;
      sitemap := AppendUrl(sitemap, e);
      Step(head, es, i, before, sitemap);
    }
    assert es[..|posts|] == es;
    sitemap := sitemap + UrlsetClose;
  }

  // ---------------------------------------------------------------------
  // seo_wp_render_sitemap, seo_wp_register_sitemap, seo_wp_add_sitemap_query_vars

  /** Which document a request gets. */
  datatype SitemapChoice = NoSitemap | MainSitemap | PostTypeSitemap(postType: string)

  /** Disabled sitemaps (read from `seo_wp_settings`) or a falsy `sitemap` var serve nothing;
      otherwise a truthy `post_type` var selects that type's sitemap, a falsy one the main one. */
  function SitemapDispatch(options: OptionStore, sitemapVar: string, postTypeVar: string, h: Helpers): (c: SitemapChoice)
    ensures Empty(GetOption(options, SeoWpSettings), EnableSitemaps) ==> c == NoSitemap
    ensures c == NoSitemap <==> Empty(GetOption(options, SeoWpSettings), EnableSitemaps) || !StrTruthy(sitemapVar)
    ensures c.MainSitemap? <==>
      !Empty(GetOption(options, SeoWpSettings), EnableSitemaps) && StrTruthy(sitemapVar) && !StrTruthy(postTypeVar)
    ensures c.PostTypeSitemap? ==> StrTruthy(postTypeVar) && c.postType == h.sanitizeText(postTypeVar)
  {
    if Empty(GetOption(options, SeoWpSettings), EnableSitemaps) then NoSitemap
    else if !StrTruthy(sitemapVar) then NoSitemap
    else if StrTruthy(postTypeVar) then PostTypeSitemap(h.sanitizeText(postTypeVar))
    else MainSitemap
  }

  /** The body echoed before `exit`, if any; `postsOf` stands for `get_posts` of a type. */
  method RenderSitemap(options: OptionStore, sitemapVar: string, postTypeVar: string,
                       postTypes: seq<string>, postsOf: string -> seq<PublishedPost>, now: string, h: Helpers)
    returns (body: Option<string>)
    ensures var c := SitemapDispatch(options, sitemapVar, postTypeVar, h);
      && (body.None? <==> c == NoSitemap)
      && (c == MainSitemap ==> body == Some(Document(MainEntries(postTypes, now, h))))
      && (c.PostTypeSitemap? ==> body == Some(Document(PostEntries(postsOf(c.postType), h))))
  {
    var settings := GetOption(options, SeoWpSettings);
    if Empty(settings, EnableSitemaps) {
      return None;
    }
    if StrTruthy(sitemapVar) {
      if StrTruthy(postTypeVar) {
        var xml := GeneratePostTypeSitemap(postsOf(h.sanitizeText(postTypeVar)), h);
        body := Some(xml);
      } else {
        var xml := GenerateMainSitemap(postTypes, now, h);
        body := Some(xml);
      }
    } else {
      body := None;
    }
  }

  /** An `add_rewrite_rule($regex, $query, $after)` call. */
  datatype RewriteRule = RewriteRule(regex: string, query: string, after: string)

  const SitemapRules: seq<RewriteRule> := [
    RewriteRule("^sitemap\\.xml$", "index.php?sitemap=1", "top"),
    RewriteRule("^sitemap-([^/]+)\\.xml$", "index.php?sitemap=1&post_type=$matches[1]", "top")]

  /** The rules registered: none when sitemaps are disabled, else the two sitemap rules. */
  function RegisterSitemap(options: OptionStore): (rules: seq<RewriteRule>)
    ensures Empty(GetOption(options, SeoWpSettings), EnableSitemaps) <==> rules == []
    ensures rules != [] ==> rules == SitemapRules
  {
    if Empty(GetOption(options, SeoWpSettings), EnableSitemaps) then [] else SitemapRules
  }

  /** The `query_vars` filter keeps the existing vars and appends `sitemap` then `post_type`. */
  method AddSitemapQueryVars(vars: seq<string>) returns (result: seq<string>)
    ensures |result| == |vars| + 2
    ensures result[..|vars|] == vars
    ensures result[|vars|] == "sitemap" && result[|vars| + 1] == "post_type"
  {
    result := vars;
    result := result + ["sitemap"];
    result := result + ["post_type"];
  }
}

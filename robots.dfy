/**
 * includes/robots.php: the `robots_txt` filter. A `Sitemap:` record (a
 * non-standard record that section 2.2.4 of RFC 9309 allows) and the custom
 * rules are appended to the text WordPress generated.
 */
module Robots {
  import opened PhpValues
  import opened WpHost
  import Sitemap

  /** `"Sitemap: $sitemap_url\n"` with the escaped `home_url('/sitemap.xml')`. */
  function SitemapRecord(h: Helpers): string {
    "Sitemap: " + h.escUrl(h.homeUrl("/sitemap.xml")) + "\n"
  }

  /** The custom rules block: nothing when `custom_robots_txt` is empty, else the sanitised rules between newlines. */
  function CustomRulesBlock(settings: SettingsMap, h: Helpers): (block: string)
    ensures Empty(settings, CustomRobotsTxt) <==> block == ""
    ensures block != "" ==> block == "\n" + h.sanitizeTextarea(ToStr(settings[CustomRobotsTxt])) + "\n"
  {
    if Empty(settings, CustomRobotsTxt) then "" else "\n" + h.sanitizeTextarea(ToStr(settings[CustomRobotsTxt])) + "\n"
  }

  /**
   * The filtered robots.txt. A site that is not public gets `output` back;
   * a public one gets `output`, then the sitemap record, then the rules block,
   * so the filter only ever appends.
   */
  function RobotsTxt(output: string, public: Value, options: OptionStore, h: Helpers): (r: string)
    ensures !Truthy(public) ==> r == output
    ensures Truthy(public) ==>
      && |r| == |output| + |SitemapRecord(h)| + |CustomRulesBlock(GetOption(options, SeoWpSettings), h)|
      && r[..|output|] == output
      && r[|output|..|output| + |SitemapRecord(h)|] == SitemapRecord(h)
      && r[|output| + |SitemapRecord(h)|..] == CustomRulesBlock(GetOption(options, SeoWpSettings), h)
  {
    if !Truthy(public) then output
    else
      var line := SitemapRecord(h);
      var block := CustomRulesBlock(GetOption(options, SeoWpSettings), h);
      var r := output + line + block;
      assert r[..|output|] == output;
      assert r[|output|..|output| + |line|] == line;
      assert r[|output| + |line|..] == block;
      r
  }

  /** `seo_wp_dynamic_robots_txt`; `public` is the `blog_public` option WordPress passes. */
  method DynamicRobotsTxt(output: string, public: Value, options: OptionStore, h: Helpers) returns (result: string)
    ensures result == RobotsTxt(output, public, options, h)
  {
    if !Truthy(public) {
      return output;
    }
    var settings := GetOption(options, SeoWpSettings);
    var sitemapUrl := h.escUrl(h.homeUrl("/sitemap.xml"));
    result := output + ("Sitemap: " + sitemapUrl + "\n");
    if !Empty(settings, CustomRobotsTxt) {
      var customRules := h.sanitizeTextarea(ToStr(settings[CustomRobotsTxt]));
      result := result + ("\n" + customRules + "\n");
    }
  }

  /** Without custom rules a public site gets exactly the original text plus the sitemap record. */
  lemma NoRulesOnlySitemapRecord(output: string, public: Value, options: OptionStore, h: Helpers)
    requires Truthy(public) && Empty(GetOption(options, SeoWpSettings), CustomRobotsTxt)
    ensures RobotsTxt(output, public, options, h) == output + SitemapRecord(h)
  {
    var r := RobotsTxt(output, public, options, h);
    assert r == r[..|output|] + r[|output|..];
  }

  /**
   * The record is written whether or not sitemaps are enabled: with
   * `enable_sitemaps` empty no sitemap rewrite rule is registered, yet a
   * public site's robots.txt still points at `/sitemap.xml`.
   */
  lemma RecordIgnoresSitemapToggle(output: string, public: Value, options: OptionStore, h: Helpers)
    requires Truthy(public) && Empty(GetOption(options, SeoWpSettings), EnableSitemaps)
    ensures Sitemap.RegisterSitemap(options) == []
    ensures var r := RobotsTxt(output, public, options, h);
      r[|output|..|output| + |SitemapRecord(h)|] == SitemapRecord(h)
  {
  }
}

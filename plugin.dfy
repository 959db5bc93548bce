/**
 * seo-for-wordpress.php: the activation defaults and their merge with the
 * stored settings, the choice between the site and the network option
 * store, and the admin pages that get the media-uploader assets.
 */
module Plugin {
  import opened PhpValues
  import opened WpHost
  import Settings

  /** The settings written on activation when none are stored. */
  const Defaults: SettingsMap := map[
    WebsiteName := Str(""),
    WebsiteTagline := Str(""),
    TitleSeparator := Str("-"),
    WebsiteImage := Str(""),
    SocialTitle := Str(""),
    SocialDescription := Str(""),
    SocialImage := Str(""),
    RemoveShortlinks := Bool(false),
    RemoveRestLinks := Bool(false),
    RemoveRsdLinks := Bool(false),
    RemoveOembedLinks := Bool(false),
    BreadcrumbsSeparator := Str(">"),
    BreadcrumbsHome := Str("Home"),
    BreadcrumbsPrefix := Str(""),
    BreadcrumbsBold := Bool(false),
    RssBefore := Str(""),
    RssAfter := Str(""),
    RssFeaturedImage := Bool(false),
    EnableSitemaps := Bool(true),
    CustomRobotsTxt := Str("")]

  /** The defaults name exactly the keys the two settings sanitisers produce. */
  lemma DefaultsCoverSanitisedKeys()
    ensures Defaults.Keys == Settings.GeneralKeys + Settings.AdvancedKeys
  {
    assert Settings.GeneralKeys == {WebsiteName, WebsiteTagline, TitleSeparator, WebsiteImage, SocialTitle, SocialDescription, SocialImage};
    assert Settings.AdvancedKeys == {RemoveShortlinks, RemoveRestLinks, RemoveRsdLinks, RemoveOembedLinks, BreadcrumbsBold,
                                     RssFeaturedImage, EnableSitemaps, BreadcrumbsSeparator, BreadcrumbsHome, BreadcrumbsPrefix,
                                     RssBefore, RssAfter, CustomRobotsTxt};
  }

  /** The documented default values: separators, home text, and sitemaps on. */
  lemma DefaultValues()
    ensures Defaults[TitleSeparator] == Str("-") && Defaults[BreadcrumbsSeparator] == Str(">")
    ensures Defaults[BreadcrumbsHome] == Str("Home") && Defaults[EnableSitemaps] == Bool(true)
    ensures !Empty(Defaults, EnableSitemaps) && Empty(Defaults, CustomRobotsTxt)
  {
  }

  /** `array_merge($defaults, $current)` on string keys: the later array's value wins. */
  function Merge(defaults: SettingsMap, current: SettingsMap): (merged: SettingsMap)
    ensures merged.Keys == defaults.Keys + current.Keys
    ensures forall k :: k in current ==> merged[k] == current[k]
    ensures forall k :: k in defaults && k !in current ==> merged[k] == defaults[k]
  {
    map k | k in defaults.Keys + current.Keys :: if k in current then current[k] else defaults[k]
  }

  /** What activation stores: the defaults when nothing is stored, else the defaults merged under the current values. */
  function Activated(current: SettingsMap): SettingsMap {
    if current == map[] then Defaults else Merge(Defaults, current)
  }

  /** Activation with no stored settings stores exactly the defaults. */
  lemma ActivateFresh()
    ensures Activated(map[]) == Defaults
  {
  }

  /** Otherwise the current values are kept and the defaults fill only the keys that are missing. */
  lemma ActivateKeepsCurrent(current: SettingsMap)
    ensures Activated(current).Keys == Defaults.Keys + current.Keys
    ensures forall k :: k in current ==> Activated(current)[k] == current[k]
    ensures forall k :: k in Defaults && k !in current ==> Activated(current)[k] == Defaults[k]
  {
    if current == map[] {
      assert Defaults.Keys + current.Keys == Defaults.Keys;
    }
  }

  /** The empty-settings branch is the merge with nothing: both branches agree. */
  lemma ActivateBranchesAgree()
    ensures Merge(Defaults, map[]) == Defaults
  {
    var m := Merge(Defaults, map[]);
    assert m.Keys == Defaults.Keys;
    forall k | k in m
      ensures m[k] == Defaults[k]
    {
    }
  }

  /** Activating again after an activation stores the same map. */
  lemma ActivateIdempotent(current: SettingsMap)
    ensures Activated(Activated(current)) == Activated(current)
  {
    var once := Activated(current);
    ActivateKeepsCurrent(current);
    ActivateKeepsCurrent(once);
    var twice := Activated(once);
    assert twice.Keys == once.Keys;
    forall k | k in twice
      ensures twice[k] == once[k]
    {
    }
  }

  /**
   * The two option stores the plugin can use; `networkSettings` is the
   * `SEO_WP_NETWORK_SETTINGS` constant, which selects the site-wide
   * (network) store.
   */
  class OptionTables {
    const networkSettings: bool
    /** `get_option` / `update_option`. */
    var options: OptionStore
    /** `get_site_option` / `update_site_option`. */
    var siteOptions: OptionStore

    constructor(networkSettings: bool, options: OptionStore, siteOptions: OptionStore)
      ensures this.networkSettings == networkSettings
      ensures this.options == options && this.siteOptions == siteOptions
    {
      this.networkSettings := networkSettings;
      this.options := options;
      this.siteOptions := siteOptions;
    }

    /** `seo_wp_get_settings`: `seo_wp_settings` from the selected store, `[]` when missing. */
    function GetSettings(): (s: SettingsMap)
      reads this
      ensures networkSettings ==> s == GetOption(siteOptions, SeoWpSettings)
      ensures !networkSettings ==> s == GetOption(options, SeoWpSettings)
    {
      GetOption(if networkSettings then siteOptions else options, SeoWpSettings)
    }

    /** `seo_wp_update_settings`: writes `seo_wp_settings` in the selected store only. */
    method UpdateSettings(settings: SettingsMap)
      modifies this
      ensures networkSettings ==> siteOptions == old(siteOptions)[SeoWpSettings := settings] && options == old(options)
      ensures !networkSettings ==> options == old(options)[SeoWpSettings := settings] && siteOptions == old(siteOptions)
      ensures GetSettings() == settings
    {
      if networkSettings {
        siteOptions := siteOptions[SeoWpSettings := settings];
      } else {
        options := options[SeoWpSettings := settings];
      }
    }

    /** `seo_wp_activate`: store the defaults, or the defaults merged under the current settings. */
    method Activate()
      modifies this
      ensures GetSettings() == Activated(old(GetSettings()))
      ensures networkSettings ==> siteOptions == old(siteOptions)[SeoWpSettings := Activated(old(GetSettings()))] && options == old(options)
      ensures !networkSettings ==> options == old(options)[SeoWpSettings := Activated(old(GetSettings()))] && siteOptions == old(siteOptions)
    {
      var current := GetSettings();
      if current == map[] {
        UpdateSettings(Defaults);
      } else {
        var merged := Merge(Defaults, current);
        UpdateSettings(merged);
      }
    }
  }

  /**
   * Whatever was stored before, the settings after activation hold every
   * default key, and sitemaps end up disabled exactly when the stored
   * settings already had `enable_sitemaps` set to an empty value.
   */
  lemma ActivatedHasDefaultKeys(current: SettingsMap)
    ensures Defaults.Keys <= Activated(current).Keys
    ensures Empty(Activated(current), EnableSitemaps) <==> EnableSitemaps in current && Empty(current, EnableSitemaps)
  {
    ActivateKeepsCurrent(current);
  }

  // ---------------------------------------------------------------------
  // seo_wp_enqueue_media_uploader

  const AssetHooks: seq<string> := ["settings_page_seo-for-wordpress", "post.php", "edit-tags.php"]
  const Version := "1.0.1"

  /** What the admin page gets: `wp_enqueue_media`, the uploader script, the admin stylesheet. */
  datatype Asset =
    | MediaLibrary
    | Script(handle: string, src: string, deps: seq<string>, ver: string, inFooter: bool)
    | Style(handle: string, src: string, deps: seq<string>, ver: string)

  /** The assets enqueued for an admin page hook; `pluginUrl` is `SEO_WP_PLUGIN_URL`. */
  function EnqueueMediaUploader(hook: string, pluginUrl: string): (assets: seq<Asset>)
    ensures assets != [] <==> hook in AssetHooks
    ensures assets != [] ==> (
      && |assets| == 3 && assets[0] == MediaLibrary
      && assets[1].Script? && assets[1].handle == "seo-wp-media-uploader" && assets[1].deps == ["jquery"] && assets[1].inFooter
      && assets[2].Style? && assets[2].handle == "seo-wp-admin-styles")
  {
    if hook in AssetHooks then
      [MediaLibrary,
       Script("seo-wp-media-uploader", pluginUrl + "js/media-uploader.js", ["jquery"], Version, true),
       Style("seo-wp-admin-styles", pluginUrl + "css/admin-styles.css", [], Version)]
    else []
  }

  /** Only the plugin's settings page, the post editor and the term editor get the assets. */
  lemma EnqueueOnlyOnListedHooks(hook: string, pluginUrl: string)
    ensures EnqueueMediaUploader(hook, pluginUrl) != [] <==>
      hook == "settings_page_seo-for-wordpress" || hook == "post.php" || hook == "edit-tags.php"
  {
  }
}

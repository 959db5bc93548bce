/**
 * includes/settings.php: the two settings sanitisers, the RSS feed wrapper,
 * the custom robots.txt rules printer, the "flush on sitemap toggle" test,
 * the choice of `wp_head` actions to remove and the active settings tab.
 */
module Settings {
  import opened PhpValues
  import opened WpHost

  // ---------------------------------------------------------------------
  // Key sets of the two option arrays

  const GeneralTextKeys: set<SettingKey> := {WebsiteName, WebsiteTagline, TitleSeparator, SocialTitle}
  const GeneralUrlKeys: set<SettingKey> := {WebsiteImage, SocialImage}
  /** The keys `seo_wp_sanitize_general_settings` emits. */
  const GeneralKeys: set<SettingKey> := GeneralTextKeys + GeneralUrlKeys + {SocialDescription}

  const CheckboxKeys: set<SettingKey> :=
    {RemoveShortlinks, RemoveRestLinks, RemoveRsdLinks, RemoveOembedLinks,
     BreadcrumbsBold, RssFeaturedImage, EnableSitemaps}
  const AdvancedTextKeys: set<SettingKey> := {BreadcrumbsSeparator, BreadcrumbsHome, BreadcrumbsPrefix}
  const AdvancedTextareaKeys: set<SettingKey> := {RssBefore, RssAfter, CustomRobotsTxt}
  /** The keys `seo_wp_sanitize_advanced_settings` emits. */
  const AdvancedKeys: set<SettingKey> := CheckboxKeys + AdvancedTextKeys + AdvancedTextareaKeys

  /** `$input[$k] ?? ''`, as the string the sanitising helper receives. */
  function Field(input: SettingsMap, k: SettingKey): string {
    ToStr(Coalesce(input, k, Str("")))
  }

  /** `! empty($input[$k]) ? 1 : 0`. */
  function Checkbox(input: SettingsMap, k: SettingKey): Value {
    if Empty(input, k) then Int(0) else Int(1)
  }

  // ---------------------------------------------------------------------
  // seo_wp_sanitize_general_settings

  /** The value the general sanitiser stores under `k`. */
  function GeneralValue(input: SettingsMap, k: SettingKey, h: Helpers): Value {
    if k in GeneralTextKeys then Str(h.sanitizeText(Field(input, k)))
    else if k in GeneralUrlKeys then Str(h.escUrlRaw(Field(input, k)))
    else Str(h.sanitizeTextarea(Field(input, k)))
  }

  function SanitizeGeneral(input: SettingsMap, h: Helpers): (sanitized: SettingsMap)
    ensures sanitized.Keys == GeneralKeys
    ensures forall k :: k in GeneralTextKeys ==> sanitized[k] == Str(h.sanitizeText(Field(input, k)))
    ensures sanitized[SocialDescription] == Str(h.sanitizeTextarea(Field(input, SocialDescription)))
    ensures forall k :: k in GeneralUrlKeys ==> sanitized[k] == Str(h.escUrlRaw(Field(input, k)))
  {
    map k | k in GeneralKeys :: GeneralValue(input, k, h)
  }

  /** Every emitted value is a string, and one that depends on its own input key only. */
  lemma GeneralIsLocal(a: SettingsMap, b: SettingsMap, h: Helpers, k: SettingKey)
    requires k in GeneralKeys
    requires IsSet(a, k) <==> IsSet(b, k)
    requires IsSet(a, k) ==> a[k] == b[k]
    ensures SanitizeGeneral(a, h)[k].Str? && SanitizeGeneral(a, h)[k] == SanitizeGeneral(b, h)[k]
  {
  }

  /** A key missing from the input is sanitised as the empty string. */
  lemma GeneralMissingIsEmpty(input: SettingsMap, h: Helpers, k: SettingKey)
    requires k in GeneralKeys && !IsSet(input, k)
    ensures ToStr(SanitizeGeneral(input, h)[k]) ==
      if k in GeneralTextKeys then h.sanitizeText("")
      else if k in GeneralUrlKeys then h.escUrlRaw("")
      else h.sanitizeTextarea("")
  {
  }

  // ---------------------------------------------------------------------
  // seo_wp_sanitize_advanced_settings

  /** The value the advanced sanitiser stores under `k`. */
  function AdvancedValue(input: SettingsMap, k: SettingKey, h: Helpers): Value {
    if k in CheckboxKeys then Checkbox(input, k)
    else if k in AdvancedTextKeys then Str(h.sanitizeText(Field(input, k)))
    else Str(h.sanitizeTextarea(Field(input, k)))
  }

  function SanitizeAdvanced(input: SettingsMap, h: Helpers): (sanitized: SettingsMap)
    ensures sanitized.Keys == AdvancedKeys
    ensures forall k :: k in CheckboxKeys ==> sanitized[k] == Int(0) || sanitized[k] == Int(1)
    ensures forall k :: k in CheckboxKeys ==> (sanitized[k] == Int(1) <==> !Empty(input, k))
  {
    map k | k in AdvancedKeys :: AdvancedValue(input, k, h)
  }

  /** The text keys go through `sanitize_text_field`, the textareas through `sanitize_textarea_field`, missing ones as `''`. */
  lemma AdvancedTextValues(input: SettingsMap, h: Helpers)
    ensures var sanitized := SanitizeAdvanced(input, h);
      && (forall k :: k in AdvancedTextKeys ==> sanitized[k] == Str(h.sanitizeText(Field(input, k))))
      && (forall k :: k in AdvancedTextareaKeys ==> sanitized[k] == Str(h.sanitizeTextarea(Field(input, k))))
  {
  }

  /** Sanitising is stable on checkboxes: a sanitised array sanitises to the same bits. */
  lemma AdvancedCheckboxesIdempotent(input: SettingsMap, h: Helpers, k: SettingKey)
    requires k in CheckboxKeys
    ensures SanitizeAdvanced(SanitizeAdvanced(input, h), h)[k] == SanitizeAdvanced(input, h)[k]
  {
  }

  // ---------------------------------------------------------------------
  // seo_wp_add_custom_robots_rules (the `do_robots` action)

  const CustomRulesHeader := "\n# Custom robots.txt rules added via SEO Settings\n"

  /** What the action echoes, reading `seo_wp_advanced_settings`. */
  function CustomRobotsRules(options: OptionStore, h: Helpers): (out: string)
    ensures var s := GetOption(options, AdvancedSettings);
      && (out == "" <==> Empty(s, CustomRobotsTxt))
      && (!Empty(s, CustomRobotsTxt) ==>
            out == CustomRulesHeader + h.escTextarea(ToStr(s[CustomRobotsTxt])) + "\n")
  {
    var s := GetOption(options, AdvancedSettings);
    if !Empty(s, CustomRobotsTxt) then
      CustomRulesHeader + h.escTextarea(ToStr(s[CustomRobotsTxt])) + "\n"
    else ""
  }

  // ---------------------------------------------------------------------
  // seo_wp_flush_rewrite_rules_on_sitemap_toggle

  /** Whether the hook calls `flush_rewrite_rules()`: it compares `isset`, so presence only. */
  predicate FlushOnSitemapToggle(oldValue: SettingsMap, value: SettingsMap) {
    IsSet(oldValue, EnableSitemaps) != IsSet(value, EnableSitemaps)
  }

  /** A toggle present on both sides never flushes, whatever its values. */
  lemma FlushIgnoresValue(oldValue: SettingsMap, value: SettingsMap)
    requires IsSet(oldValue, EnableSitemaps) && IsSet(value, EnableSitemaps)
    ensures !FlushOnSitemapToggle(oldValue, value)
  {
  }

  /** Switching sitemaps off (true to false, as the default array stores it) does not
      flush as written, and is a change of state for the corrected test. */
  lemma FlushMissesToggleOff()
    ensures !FlushOnSitemapToggle(map[EnableSitemaps := Bool(true)], map[EnableSitemaps := Bool(false)])
    ensures SitemapToggleChanged(map[EnableSitemaps := Bool(true)], map[EnableSitemaps := Bool(false)])
  {
  }

  /** The test the hook's documentation describes: the sitemap toggle changed its state. */
  predicate SitemapToggleChanged(oldValue: SettingsMap, value: SettingsMap) {
    Empty(oldValue, EnableSitemaps) != Empty(value, EnableSitemaps)
  }

  /** For two arrays the advanced sanitiser produced, the as-written test never fires,
      while the corrected one fires exactly when the posted checkbox state differs. */
  lemma SanitizedToggle(oldInput: SettingsMap, input: SettingsMap, h: Helpers)
    ensures !FlushOnSitemapToggle(SanitizeAdvanced(oldInput, h), SanitizeAdvanced(input, h))
    ensures SitemapToggleChanged(SanitizeAdvanced(oldInput, h), SanitizeAdvanced(input, h))
      <==> Empty(oldInput, EnableSitemaps) != Empty(input, EnableSitemaps)
  {
    assert EnableSitemaps in CheckboxKeys;
  }

  /** Where the as-written test does fire on truthy values, the corrected one fires too. */
  lemma ToggleChangedCoversPresence(oldValue: SettingsMap, value: SettingsMap)
    requires FlushOnSitemapToggle(oldValue, value)
    requires IsSet(oldValue, EnableSitemaps) ==> Truthy(oldValue[EnableSitemaps])
    requires IsSet(value, EnableSitemaps) ==> Truthy(value[EnableSitemaps])
    ensures SitemapToggleChanged(oldValue, value)
  {
  }

  // ---------------------------------------------------------------------
  // seo_wp_remove_metadata_links

  /** The `wp_head` callbacks the plugin may unhook. */
  datatype HeadAction =
    | ShortlinkWpHead          // wp_shortlink_wp_head
    | RestOutputLinkWpHead     // rest_output_link_wp_head
    | OembedAddDiscoveryLinks  // wp_oembed_add_discovery_links
    | RsdLink                  // rsd_link
    | WlwmanifestLink          // wlwmanifest_link
    | OembedAddHostJs          // wp_oembed_add_host_js

  /** The set of actions `remove_action('wp_head', …)` is called for. */
  method RemoveMetadataLinks(options: OptionStore) returns (removed: set<HeadAction>)
    ensures var s := GetOption(options, AdvancedSettings);
      && (ShortlinkWpHead in removed <==> !Empty(s, RemoveShortlinks))
      && (RestOutputLinkWpHead in removed <==> !Empty(s, RemoveRestLinks))
      && (OembedAddDiscoveryLinks in removed <==>
            !Empty(s, RemoveRestLinks) || !Empty(s, RemoveOembedLinks))
      && (RsdLink in removed <==> !Empty(s, RemoveRsdLinks))
      && (WlwmanifestLink in removed <==> !Empty(s, RemoveRsdLinks))
      && (OembedAddHostJs in removed <==> !Empty(s, RemoveOembedLinks))
  {
    var s := GetOption(options, AdvancedSettings);
    removed := {};
    if !Empty(s, RemoveShortlinks) {
      removed := removed + {ShortlinkWpHead};
    }
    if !Empty(s, RemoveRestLinks) {
      removed := removed + {RestOutputLinkWpHead, OembedAddDiscoveryLinks};
    }
    if !Empty(s, RemoveRsdLinks) {
      removed := removed + {RsdLink, WlwmanifestLink};
    }
    if !Empty(s, RemoveOembedLinks) {
      removed := removed + {OembedAddDiscoveryLinks, OembedAddHostJs};
    }
  }

  // ---------------------------------------------------------------------
  // seo_wp_add_rss_custom_content (the `the_content_feed` filter)

  /** `! empty($settings[$k]) ? wp_kses_post($settings[$k]) : ''`. */
  function RssInsert(s: SettingsMap, k: SettingKey, h: Helpers): (r: string)
    ensures Empty(s, k) ==> r == ""
    ensures !Empty(s, k) ==> r == h.ksesPost(ToStr(s[k]))
  {
    if !Empty(s, k) then h.ksesPost(ToStr(s[k])) else ""
  }

  method AddRssCustomContent(options: OptionStore, content: string, feedType: string, h: Helpers)
    returns (result: string)
    ensures var s := GetOption(options, AdvancedSettings);
      feedType == "rss2" ==> result == RssInsert(s, RssBefore, h) + content + RssInsert(s, RssAfter, h)
    ensures feedType != "rss2" ==> result == content
  {
    var s := GetOption(options, AdvancedSettings);
    var before := if !Empty(s, RssBefore) then h.ksesPost(ToStr(s[RssBefore])) else "";
    var after := if !Empty(s, RssAfter) then h.ksesPost(ToStr(s[RssAfter])) else "";
    result := content;
    if feedType == "rss2" {
      result := before + result + after;
    }
  }

  /** The wrapped content always contains the original post content, unchanged, as a slice. */
  lemma RssKeepsContent(s: SettingsMap, content: string, h: Helpers)
    ensures var r := RssInsert(s, RssBefore, h) + content + RssInsert(s, RssAfter, h);
      var n := |RssInsert(s, RssBefore, h)|;
      n + |content| <= |r| && r[n..n + |content|] == content
  {
  }

  // ---------------------------------------------------------------------
  // Active tab of seo_wp_render_settings_page

  /** `isset($_GET['tab']) ? sanitize_text_field($_GET['tab']) : 'general'`. */
  function ActiveTab(tabParam: Option<string>, h: Helpers): (tab: string)
    ensures tabParam.None? ==> tab == "general"
    ensures tabParam.Some? ==> tab == h.sanitizeText(tabParam.value)
  {
    if tabParam.Some? then h.sanitizeText(tabParam.value) else "general"
  }

  /** The settings group and section page the form prints for a tab, if any. */
  function SettingsGroup(tab: string): (r: Option<(string, string)>)
    ensures r.Some? <==> tab == "general" || tab == "advanced"
    ensures tab == "general" ==> r == Some(("seo_wp_general_settings_group", "seo_wp_general"))
    ensures tab == "advanced" ==> r == Some(("seo_wp_advanced_settings_group", "seo_wp_advanced"))
  {
    if tab == "general" then Some(("seo_wp_general_settings_group", "seo_wp_general"))
    else if tab == "advanced" then Some(("seo_wp_advanced_settings_group", "seo_wp_advanced"))
    else None
  }

  /** Without a tab parameter the page shows the general group. */
  lemma DefaultTabIsGeneral(h: Helpers)
    ensures SettingsGroup(ActiveTab(None, h)) == Some(("seo_wp_general_settings_group", "seo_wp_general"))
  {
  }
}

# SEO for WordPress, modelled in Dafny

This project models the core of the WordPress plugin "SEO for WordPress" (version 1.0.1):

- **Settings** (`includes/settings.php`): the two settings sanitisers, the custom robots rules action, the rewrite-flush hook, the `wp_head` clean-up, the RSS content filter and the tab selection of the settings page.
- **Meta box** (`includes/metabox.php`): the post meta save handler and its guard, the term (archive) meta save handler, and the archive `wp_head` output.
- **Front-end meta output** (`includes/meta-output.php`): the Open Graph and Twitter tags with their fallback chain, the document-title filter, the robots meta tag, the canonical link and the pagination links.
- **Breadcrumbs** (`includes/breadcrumbs.php`): the trail for singular pages, term archives, other archives, search and 404 pages, and its markup.
- **XML sitemaps** (`includes/sitemap.php`): the rewrite rules, the query vars, the dispatch, the main sitemap and the per-post-type sitemap.
- **robots.txt** (`includes/robots.php`): the `robots_txt` filter.
- **Plugin bootstrap** (`seo-for-wordpress.php`): activation defaults and their merge with the current settings, the choice between the site and the network option store, and the admin asset enqueueing.
- **Character counter** (`js/seo-character-counter.js`): the live counters under the SEO title and description fields.

The modules follow those files one to one: `Settings`, `Metabox`, `MetaOutput`, `Breadcrumbs`, `Sitemap`, `Robots`, `Plugin` and `CharacterCounter`. Two shared modules support them:

- `PhpValues` holds the PHP semantics the plugin relies on:
  - a `Value` type (string, int, bool, null);
  - `empty()`, `isset()`, truthiness, `??` and `?:`;
  - the string cast, with a proved round trip and injectivity for natural numbers printed in decimal;
  - `implode`, `trim` and `array_reverse`.
- `WpHost` holds the WordPress side:
  - option names, setting keys, post and term meta keys as enumerations, with the PHP names they stand for;
  - the option store, read with `get_option`'s default of `[]`;
  - the query flags (`is_singular()`, `is_tax()` and so on) and the page facts a request exposes;
  - the echoed `<meta>`/`<link>` tags as a `Tag` datatype, with `Render` and `Echo` giving the lines printed for them;
  - escaping and sanitising helpers as uninterpreted parameters (a `Helpers` record of string functions).

The model keeps the option names each callback actually reads:

- the two sanitisers are the sanitise callbacks registered for `seo_wp_general_settings` and `seo_wp_advanced_settings` (they read no option themselves);
- the custom robots rules action, the `wp_head` clean-up, the RSS filter and the breadcrumbs read `seo_wp_advanced_settings`;
- the sitemap, robots.txt, the social tags, the title filter and activation read `seo_wp_settings`.

Mutable state is a class where the source updates it in place:

- `Metabox.PostMetaTable` and `Metabox.TermMetaTable`: one object's meta rows;
- `Plugin.OptionTables`: `get_option` and `get_site_option` stores;
- `MetaOutput.PagingGlobals`: the `$paged` global;
- `CharacterCounter.Counter`: a counter `<p>` element.

Loops that build strings or lists are methods with loop invariants, each proved equal to a declarative specification function. The concatenated sitemap is one example (`Sitemap.GenerateMainSitemap` equals `Sitemap.Document(Sitemap.MainEntries(...))`). The crumb list is another (`Breadcrumbs.GenerateBreadcrumbs` equals `Breadcrumbs.Markup`). The properties that matter are then lemmas about those functions.

## Model

| member | source | states |
|---|---|---|
| PhpValues.Coalesce | includes/meta-output.php:36-38 | `$a[$k] ?? $d`: the stored value when set and non-null, else the default |
| PhpValues.NatToStringRoundTrip | js/seo-character-counter.js:43 | the decimal text of a length reads back as that length |
| PhpValues.NatToStringInjective | js/seo-character-counter.js:43 | two different lengths never print the same |
| PhpValues.JoinLength | includes/breadcrumbs.php:93 | `implode`: the parts' total length plus one separator between each pair |
| PhpValues.JoinAppend | includes/breadcrumbs.php:93 | joining one more part appends the separator and that part |
| PhpValues.TrimEmptyIffBlank | includes/breadcrumbs.php:25 | `trim($s)` is empty exactly when `$s` is all whitespace |
| PhpValues.ReverseAt | includes/breadcrumbs.php:43 | `array_reverse` keeps the length and mirrors each index |
| Settings.SanitizeGeneral | includes/settings.php:303-318 | exactly the seven general keys; text keys use `sanitize_text_field`, the description `sanitize_textarea_field`, image keys `esc_url_raw`; a missing key counts as `''` |
| Settings.GeneralIsLocal | includes/settings.php:303-318 | each sanitised value is a string that depends only on the same input key |
| Settings.GeneralMissingIsEmpty | includes/settings.php:307-315 | a key missing from the input is sanitised from the empty string |
| Settings.SanitizeAdvanced | includes/settings.php:331-358 | exactly the thirteen advanced keys; each checkbox is `1` or `0`, and `1` exactly when the input is not `empty()` |
| Settings.AdvancedTextValues | includes/settings.php:339-357 | the three breadcrumb texts use `sanitize_text_field`; `rss_before`, `rss_after` and `custom_robots_txt` use `sanitize_textarea_field`; a missing key counts as `''` |
| Settings.AdvancedCheckboxesIdempotent | includes/settings.php:335-338 | sanitising a sanitised array leaves every checkbox bit unchanged |
| Settings.CustomRobotsRules | includes/settings.php:454-461 | echoes nothing exactly when `custom_robots_txt` in `seo_wp_advanced_settings` is empty; otherwise the comment header, then the `esc_textarea` of the rules and a newline |
| Settings.FlushOnSitemapToggle | includes/settings.php:542-546 | the as-written flush test: `isset()` of `enable_sitemaps` differs before and after; its consequences are stated by `Settings.FlushIgnoresValue`, `Settings.FlushMissesToggleOff` and `Settings.SanitizedToggle` |
| Settings.SitemapToggleChanged | includes/settings.php:543-546 | the corrected flush test: `empty()` of `enable_sitemaps` differs before and after; `Settings.SanitizedToggle` and `Settings.ToggleChangedCoversPresence` state that it fires on every real change |
| Settings.FlushIgnoresValue | includes/settings.php:542-546 | as written: when the toggle is present before and after, the rules are never flushed, whatever its values |
| Settings.FlushMissesToggleOff | includes/settings.php:543-545 | as written: switching `enable_sitemaps` from true to false changes the toggle's state but does not flush |
| Settings.SanitizedToggle | includes/settings.php:543-547 | for two arrays the advanced sanitiser produced, the as-written test never fires; the corrected state test does fire whenever the two checkbox bits differ |
| Settings.ToggleChangedCoversPresence | includes/settings.php:543 | where the as-written test fires on truthy values, the corrected test fires too |
| Settings.RemoveMetadataLinks | includes/settings.php:558-583 | a `wp_head` action is unhooked exactly when its setting is not empty; the oEmbed setting unhooks both of its actions |
| Settings.RssInsert | includes/settings.php:601-602 | an empty setting inserts nothing; otherwise the `wp_kses_post` of its text |
| Settings.AddRssCustomContent | includes/settings.php:598-610 | RSS2 feeds get before + content + after; any other feed gets the content unchanged |
| Settings.RssKeepsContent | includes/settings.php:605-606 | the wrapped text holds the original content as a slice, after the before-text |
| Settings.ActiveTab | includes/settings.php:32 | the sanitised `tab` parameter, or `general` when it is absent |
| Settings.SettingsGroup | includes/settings.php:57-63 | a settings group and section only for the `general` and `advanced` tabs, each with its own |
| Settings.DefaultTabIsGeneral | includes/settings.php:32-63 | without a tab parameter the page shows the general group |
| Metabox.SaveTextFieldsAt | includes/metabox.php:96-103 | the field loop writes each visited field's key (sanitised when posted, deleted when not) and leaves every other key alone |
| Metabox.SavedPostMeta | includes/metabox.php:96-121 | the post meta after a save that passed the guard; its contents are stated by `Metabox.SavedTextField`, `Metabox.SavedFlagsAndCanonical` and `Metabox.SavedPostMetaFrame` |
| Metabox.SavedTextField | includes/metabox.php:96-103 | after a save, each text field's key holds the sanitised posted value, or is gone when the field was not posted |
| Metabox.SavedFlagsAndCanonical | includes/metabox.php:105-121 | noindex and nofollow hold `1` when their boxes were posted and are deleted otherwise; the canonical URL is stored through `esc_url_raw` exactly when it was posted |
| Metabox.SavedPostMetaFrame | includes/metabox.php:96-121 | the save changes no meta key outside the seven it manages |
| Metabox.PostMetaTable.SetOrDeleteMeta | includes/metabox.php:98-102 | `update_post_meta` when posted, else `delete_post_meta` |
| Metabox.PostMetaTable.SaveSeoMeta | includes/metabox.php:83-123 | nonce failure, autosave or missing capability leaves the meta unchanged; otherwise the meta becomes the saved map described above |
| Metabox.SavedTermMeta | includes/metabox.php:209-238 | the term meta after the archive save; its contents are stated by `Metabox.SavedTermTextField`, `Metabox.SavedTermFlags` and `Metabox.SavedTermMetaFrame` |
| Metabox.SavedTermTextField | includes/metabox.php:210-218 | the term title, description and image are written sanitised when posted and kept as they were otherwise |
| Metabox.SavedTermFlags | includes/metabox.php:220-236 | term noindex, nofollow and canonical URL are written when posted and deleted when not |
| Metabox.SavedTermMetaFrame | includes/metabox.php:209-238 | the archive save changes no term meta key outside the six it manages |
| Metabox.TermMetaTable.UpdateIfPosted | includes/metabox.php:210-218 | `update_term_meta` only when the field was posted, with no delete branch |
| Metabox.TermMetaTable.SetOrDeleteMeta | includes/metabox.php:220-236 | `update_term_meta` when posted, else `delete_term_meta` |
| Metabox.TermMetaTable.SaveArchiveMetaFields | includes/metabox.php:209-238 | the term meta becomes the saved term map |
| Metabox.ArchiveMeta | includes/metabox.php:244-261 | on a term archive, a title filter exactly when the term's meta title is not empty, and one description tag exactly when its meta description is not empty; nothing off term archives |
| MetaOutput.Elvis | includes/meta-output.php:36-38 | `?:` returns the first operand when truthy, else the second |
| MetaOutput.ResolveSocialFields | includes/meta-output.php:22-38 | the resolved title, description and image: each page's own value when truthy, otherwise the `seo_wp_settings` value when set and not null, otherwise the blog name, the blog description or `''`; stated case by case by `MetaOutput.SocialTitleSources`, `MetaOutput.SocialDescriptionSources` and `MetaOutput.SocialImageSources` |
| MetaOutput.SocialTitleSources | includes/meta-output.php:22-36 | the social title, for every kind of page: on a valid term archive the term's `meta_title`, on a singular page the post's SEO title, elsewhere nothing of its own; an own value that is not truthy falls back to `social_title` when set and not null, then to the blog name |
| MetaOutput.SocialDescriptionSources | includes/meta-output.php:23-37 | the same cases for the description, with the term's `meta_description`, the post's SEO description, `social_description` and the blog description |
| MetaOutput.SocialImageSources | includes/meta-output.php:24-38 | the image never comes from term meta: the post's SEO image on a singular page if truthy, otherwise `social_image` when set and not null, otherwise `''` |
| MetaOutput.EmptySocialTitleSettingWins | includes/meta-output.php:36 | an empty but set `social_title` setting beats the blog name, because `??` tests only for null |
| MetaOutput.SocialMetaTags | includes/meta-output.php:40-57 | every tag in its place: the Open Graph comment, title, description and URL, the image only when truthy, the type; then the Twitter comment, card, title, description, and the image only when truthy |
| MetaOutput.TwitterMirrorsOpenGraph | includes/meta-output.php:42-56 | the Twitter title, description and image carry the same content as their Open Graph counterparts |
| WpHost.EchoAppend | includes/meta-output.php:41-56 | echoing two tag lists one after the other prints their texts one after the other |
| MetaOutput.SocialEchoOpening | includes/meta-output.php:41-42 | the echoed text starts with the Open Graph comment line and then the `og:title` line carrying the escaped resolved title |
| MetaOutput.SocialImageTags | includes/meta-output.php:45-56 | an `og:image` and a `twitter:image` tag are present exactly when the resolved image is truthy |
| MetaOutput.SocialTypeAndCard | includes/meta-output.php:48-52 | `og:type` is `article` exactly on singular pages, and a Twitter card tag is always present |
| MetaOutput.ReplaceTitle | includes/meta-output.php:68-103 | on singular pages the title becomes the post's SEO title when truthy, else `website_name` when truthy; the tagline becomes `separator tagline` only on singular pages where the SEO title is falsy and both `website_name` and `website_tagline` are truthy; on a term archive with a queried term, a truthy term `meta_title` (escaped) sets the title last and so wins over both; every other part, and the title and tagline wherever no branch sets them, is kept |
| MetaOutput.RobotsFlags | includes/meta-output.php:113-126 | noindex and nofollow come from post meta on singular pages, from term meta on term archives, and are false elsewhere |
| MetaOutput.RobotsDirectives | includes/meta-output.php:128-134 | `noindex` is listed iff its flag is set, `nofollow` likewise, nothing else, `noindex` first |
| MetaOutput.OutputRobotsMeta | includes/meta-output.php:112-139 | no tag unless a flag is set; otherwise one robots tag whose content is the directives joined by `,` (`noindex,nofollow` when both are set) |
| MetaOutput.CanonicalTag | includes/meta-output.php:148-167 | exactly one canonical link: the escaped per-object URL when truthy, else the escaped URL of the current request |
| MetaOutput.Neighbours | includes/meta-output.php:187-188 | a previous page exactly when `$paged > 1`, a next page exactly when `$paged < max_num_pages`, one step each way |
| MetaOutput.PagingGlobals.OutputPaginationMeta | includes/meta-output.php:176-197 | off singular, archive and paged views nothing happens; otherwise an unset `$paged` becomes 1, and the tags are the prev link (only past the first page) followed by the next link (only before the last page) |
| Breadcrumbs.SeparatorDefault | includes/breadcrumbs.php:25-27 | the default ` - ` exactly when the separator setting is missing or blank; otherwise the escaped setting between spaces |
| Breadcrumbs.PageCrumbs | includes/breadcrumbs.php:41-86 | the crumbs after home, by page kind; stated per kind by `Breadcrumbs.SingularTrail`, `Breadcrumbs.TermTrail` and `Breadcrumbs.OtherTrails` |
| Breadcrumbs.Markup | includes/breadcrumbs.php:19-97 | the breadcrumb markup, declaratively; its shape is stated by `Breadcrumbs.MarkupShape`, and `Breadcrumbs.GenerateBreadcrumbs` is proved to build it |
| Breadcrumbs.HomeComesFirst | includes/breadcrumbs.php:28-39 | the first crumb is always the home link, its text the setting when not empty, else `Home` |
| Breadcrumbs.PostAncestorCrumbsAt | includes/breadcrumbs.php:43-51 | one crumb per post ancestor, the farthest first |
| Breadcrumbs.TermParentCrumbsAt | includes/breadcrumbs.php:64-73 | when every ancestor id resolves to a term, one crumb per ancestor, root first: crumb k is the link and escaped name of the ancestor k places from the root |
| Breadcrumbs.UnresolvedParentSkipped | includes/breadcrumbs.php:64-73 | an ancestor id `get_term` does not resolve, at any position in the list, adds no crumb: the crumbs equal those of the list with that id removed |
| Breadcrumbs.TermParentCrumbsCount | includes/breadcrumbs.php:64-73 | at most one crumb per ancestor id, and exactly one each when every id resolves to a term |
| Breadcrumbs.SingularTrail | includes/breadcrumbs.php:41-57 | singular pages: home, the ancestors root first, then the current title, bold exactly when `breadcrumbs_bold` is set |
| Breadcrumbs.TermTrail | includes/breadcrumbs.php:58-76 | term archives: home, then for a valid term with a parent exactly the parent-term crumbs of its reversed ancestors, then the term title; no parent crumbs otherwise |
| Breadcrumbs.OtherTrails | includes/breadcrumbs.php:77-86 | off singular pages and term archives, tested in the generator's order: other archives add exactly the escaped archive title after home, then search pages their search crumb, then 404 pages theirs; any other page shows only home |
| Breadcrumbs.PrefixSpan | includes/breadcrumbs.php:90-92 | the prefix span is empty exactly when the prefix is not truthy; otherwise the span around the escaped prefix, followed by a space |
| Breadcrumbs.MarkupShape | includes/breadcrumbs.php:88-96 | off the front page: the opening nav tag, then the prefix span, then the crumbs joined by the separator, then the closing nav tag, with the total length that implies |
| Breadcrumbs.AppendPostAncestors | includes/breadcrumbs.php:43-51 | the loop over the reversed post ancestors appends exactly their crumbs |
| Breadcrumbs.AppendTermParent | includes/breadcrumbs.php:65-72 | one parent: its link when `get_term` finds it, nothing otherwise |
| Breadcrumbs.AppendTermParents | includes/breadcrumbs.php:62-73 | the loop over the reversed term ancestors appends exactly their crumbs |
| Breadcrumbs.GenerateBreadcrumbs | includes/breadcrumbs.php:19-97 | the string built equals the declarative markup, and is empty on the front page and the blog home |
| Sitemap.DocumentFrame | includes/sitemap.php:84-106 | every sitemap starts with the XML declaration and `<urlset>` and ends with `</urlset>` |
| Sitemap.PostTypeEntries | includes/sitemap.php:96-104 | one entry per public post type, in order |
| Sitemap.MainEntries | includes/sitemap.php:88-104 | the home entry first, then one entry per public post type, in order |
| Sitemap.MainEntriesSchedule | includes/sitemap.php:88-104 | the homepage at `home_url('/')`, daily, priority 1.0; each type at `/sitemap-{type}.xml`, weekly, 0.8 |
| Sitemap.AppendUrl | includes/sitemap.php:98-103 | appending a `<url>` child by child adds exactly that entry's rendering |
| Sitemap.AppendPostTypeEntries | includes/sitemap.php:96-104 | the post-type loop appends exactly the rendered post-type entries |
| Sitemap.GenerateMainSitemap | includes/sitemap.php:82-108 | the string built is the document of the main entries |
| Sitemap.PostEntries | includes/sitemap.php:130-137 | one entry per published post, in query order |
| Sitemap.PostEntriesSchedule | includes/sitemap.php:130-137 | each post's entry is its escaped permalink and modified date, weekly, 0.8 |
| Sitemap.GeneratePostTypeSitemap | includes/sitemap.php:120-141 | the string built is the document of the post entries |
| Sitemap.SitemapDispatch | includes/sitemap.php:53-71 | nothing when sitemaps are disabled or `sitemap` is falsy; the main sitemap exactly when `post_type` is also falsy; else the sanitised type's sitemap |
| Sitemap.RenderSitemap | includes/sitemap.php:53-71 | the echoed body is the document the dispatch chose, and none when it chose nothing |
| Sitemap.RegisterSitemap | includes/sitemap.php:18-27 | no rewrite rule exactly when `enable_sitemaps` is empty; otherwise the two sitemap rules |
| Sitemap.AddSitemapQueryVars | includes/sitemap.php:38-42 | the existing query vars kept in place, then `sitemap` and `post_type` |
| Robots.CustomRulesBlock | includes/robots.php:32-35 | no block exactly when `custom_robots_txt` is empty; otherwise the sanitised rules between newlines |
| Robots.RobotsTxt | includes/robots.php:18-38 | a non-public site gets WordPress's text back; a public one gets that text, then the sitemap record, then the rules block |
| Robots.DynamicRobotsTxt | includes/robots.php:18-38 | the filter returns the text described above |
| Robots.NoRulesOnlySitemapRecord | includes/robots.php:28-37 | with no custom rules, a public site gets exactly the original text plus the sitemap record |
| Robots.RecordIgnoresSitemapToggle | includes/robots.php:25-29 | with sitemaps disabled no sitemap rule is registered, yet robots.txt still advertises `/sitemap.xml` |
| Plugin.DefaultsCoverSanitisedKeys | seo-for-wordpress.php:97-118 | the default keys are exactly the keys the two sanitisers emit |
| Plugin.DefaultValues | seo-for-wordpress.php:97-118 | the defaults' separators, home text and sitemap toggle (on) |
| Plugin.Merge | seo-for-wordpress.php:125 | `array_merge` on string keys: key union, the current value wins, defaults fill the gaps |
| Plugin.Activated | seo-for-wordpress.php:120-127 | the settings activation stores; stated by `Plugin.ActivateFresh`, `Plugin.ActivateKeepsCurrent`, `Plugin.ActivateIdempotent` and `Plugin.ActivatedHasDefaultKeys` |
| Plugin.ActivateFresh | seo-for-wordpress.php:121-122 | with nothing stored, activation stores exactly the defaults |
| Plugin.ActivateKeepsCurrent | seo-for-wordpress.php:123-126 | otherwise the current values are kept and the defaults fill only missing keys |
| Plugin.ActivateBranchesAgree | seo-for-wordpress.php:121-126 | the empty-settings branch agrees with merging into nothing |
| Plugin.ActivateIdempotent | seo-for-wordpress.php:92-128 | activating a second time stores the same settings |
| Plugin.ActivatedHasDefaultKeys | seo-for-wordpress.php:92-128 | after activation every default key is present, and sitemaps are off exactly when they were already off in the stored settings |
| Plugin.OptionTables.GetSettings | seo-for-wordpress.php:173-177 | `seo_wp_settings` from the network store when `SEO_WP_NETWORK_SETTINGS` is set, else from the site store |
| Plugin.OptionTables.UpdateSettings | seo-for-wordpress.php:190-196 | writes `seo_wp_settings` to the selected store only, so it reads back |
| Plugin.OptionTables.Activate | seo-for-wordpress.php:92-128 | the stored settings become the activated settings of what was stored, in the selected store only |
| Plugin.EnqueueMediaUploader | seo-for-wordpress.php:142-161 | assets only on the listed hooks: the media library, the uploader script (jQuery, in the footer) and the admin stylesheet |
| Plugin.EnqueueOnlyOnListedHooks | seo-for-wordpress.php:144 | the settings page, the post editor and the term editor, and no other page, get the assets |
| CharacterCounter.CounterTextShowsLength | js/seo-character-counter.js:43 | two different lengths never show the same counter text |
| CharacterCounter.BandOf | js/seo-character-counter.js:45-51 | the colour band of a length; `CharacterCounter.BandRanges` states the range each band holds |
| CharacterCounter.BandRanges | js/seo-character-counter.js:45-51 | red exactly above the limit, orange within ten of it, grey below that |
| CharacterCounter.Counter.UpdateCounter | js/seo-character-counter.js:41-52 | the text shows the value's length and the limit, and the colour is that length's band (red exactly when over the limit) |
| CharacterCounter.Counter.constructor | js/seo-character-counter.js:11-19 | a new counter reads `0 / max characters`, in grey, 12px, with a 5px top margin |

## Left out

- Admin HTML: the settings page forms, field callbacks and meta box markup (`includes/settings.php` rendering, `includes/metabox.php` form output). Only the decisions they feed are modelled: the tab, its group and what gets saved.
- `js/media-uploader.js` is not part of this model (a jQuery dialog wrapper with no logic of its own).
- Hook registration and dispatch order (`add_action`, `add_filter`, priorities). Each callback is modelled as the function it is.
- Escaping and sanitising (`esc_html`, `esc_url`, `esc_url_raw`, `esc_attr`, `sanitize_text_field`, `sanitize_textarea_field`, `wp_kses_post`) are uninterpreted string functions. Properties that depend on their meaning are out of reach. An example is the home crumb being escaped twice at `includes/breadcrumbs.php:29` and `:38`.
- Translation (`__`, `esc_html__`) is the identity.
- `header()` and `exit` in the sitemap callback: the model returns the body that would be echoed.
- `date('c')` is one `now` parameter shared by every entry of a document.
- Post-type and post queries (`get_post_types`, `get_posts`, `get_post_ancestors`, `get_ancestors`, `get_term`) are inputs.
- Sitemap.GenerateMainSitemap: follows the code, which lists the per-type sitemaps as `<url>` entries of a `<urlset>`. The Sitemaps protocol's `<sitemapindex>` form is not modelled.
- The effects of `flush_rewrite_rules`, `add_rewrite_rule` and `remove_action`: the model states which calls are made with which arguments.
- Plugin.Merge: models `array_merge` on the string-keyed settings only. Renumbering of numeric keys and key order are not represented.
- Plugin.OptionTables.UpdateSettings: does not model `update_option`'s early return when the value is unchanged, because the stored value is the same either way.
- The catch-all keys `OtherSetting`, `OtherPostMeta`, `OtherTermMeta` and `OtherPostField` are taken to carry names different from the named keys. WordPress's key space allows such a spelling, and the frame lemmas do not cover it.
- Metabox.PostMetaTable: holds one post's meta rows. Other posts' meta and the meta cache are not represented.
- Settings.SanitizeGeneral and Settings.SanitizeAdvanced are functions building the whole sanitised array at once, not key-by-key updates of a PHP array.
- MetaOutput.SocialMetaTags, MetaOutput.OutputRobotsMeta, MetaOutput.CanonicalTag and MetaOutput.PagingGlobals.OutputPaginationMeta return the tags echoed, as `Tag` values. `WpHost.Echo` gives the printed text of a tag list; of that text, only the opening of the social tags is proved.
- CharacterCounter.Counter.UpdateCounter: the length is the value's length in characters. JavaScript counts UTF-16 code units, so characters outside the Basic Multilingual Plane count twice there.
- The DOM lookups, `appendChild` and the `input` listeners of the counter script.
- The featured-image RSS option (`seo_wp_add_featured_image_to_feed`), the network settings page and the bundled update checker are outside the modelled core.

## Findings

| source | as written | input that shows it | evidently intended | confidence | as-written member | corrected member |
|---|---|---|---|---|---|---|
| includes/settings.php:543 | the flush test (`Settings.FlushOnSitemapToggle`) compares `isset()` of `enable_sitemaps` before and after, so it fires only when the key appears or disappears | old `enable_sitemaps => true`, new `enable_sitemaps => false`: the toggle is switched off but no flush happens. The advanced sanitiser always emits the key, so for sanitised arrays the test can never fire (`Settings.SanitizedToggle`) | flush when the toggle's state (empty or not) differs between the old and new value (`Settings.SitemapToggleChanged`), as the function's own comment says | not executed | Settings.FlushMissesToggleOff | Settings.SanitizedToggle |

The hook is attached to `update_option_seo_wp_settings` (`includes/settings.php:547`), while the sanitiser writes `seo_wp_advanced_settings`. The model keeps that option name as written.

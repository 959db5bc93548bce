/**
 * The WordPress host reduced to inputs: the query-context flags of the
 * current request, the option store and the meta of the current post and of
 * terms, and the sanitising, escaping and URL helpers, which are opaque
 * string functions here.
 */
module WpHost {
  import opened PhpValues

  datatype Option<T> = None | Some(value: T)

  /** The plugin's option names. */
  datatype OptionName =
    | SeoWpSettings      // 'seo_wp_settings'
    | GeneralSettings    // 'seo_wp_general_settings'
    | AdvancedSettings   // 'seo_wp_advanced_settings'

  function OptionNameOf(o: OptionName): string {
    match o
    case SeoWpSettings => "seo_wp_settings"
    case GeneralSettings => "seo_wp_general_settings"
    case AdvancedSettings => "seo_wp_advanced_settings"
  }

  /** The keys of the plugin's settings arrays; any other key is kept by name. */
  datatype SettingKey =
    | WebsiteName | WebsiteTagline | TitleSeparator | WebsiteImage
    | SocialTitle | SocialDescription | SocialImage
    | RemoveShortlinks | RemoveRestLinks | RemoveRsdLinks | RemoveOembedLinks
    | BreadcrumbsSeparator | BreadcrumbsHome | BreadcrumbsPrefix | BreadcrumbsBold
    | RssBefore | RssAfter | RssFeaturedImage | EnableSitemaps | CustomRobotsTxt
    /** Any other key; `name` is taken to differ from every key named above. */
    | OtherSetting(name: string)

  /** The PHP array key each setting is stored under. */
  function SettingName(k: SettingKey): string {
    match k
    case WebsiteName => "website_name"
    case WebsiteTagline => "website_tagline"
    case TitleSeparator => "title_separator"
    case WebsiteImage => "website_image"
    case SocialTitle => "social_title"
    case SocialDescription => "social_description"
    case SocialImage => "social_image"
    case RemoveShortlinks => "remove_shortlinks"
    case RemoveRestLinks => "remove_rest_links"
    case RemoveRsdLinks => "remove_rsd_links"
    case RemoveOembedLinks => "remove_oembed_links"
    case BreadcrumbsSeparator => "breadcrumbs_separator"
    case BreadcrumbsHome => "breadcrumbs_home"
    case BreadcrumbsPrefix => "breadcrumbs_prefix"
    case BreadcrumbsBold => "breadcrumbs_bold"
    case RssBefore => "rss_before"
    case RssAfter => "rss_after"
    case RssFeaturedImage => "rss_featured_image"
    case EnableSitemaps => "enable_sitemaps"
    case CustomRobotsTxt => "custom_robots_txt"
    case OtherSetting(n) => n
  }

  /** One settings array. */
  type SettingsMap = map<SettingKey, Value>

  /** The option table, restricted to the plugin's options. */
  type OptionStore = map<OptionName, SettingsMap>

  /** `get_option($name, [])` for an array-valued option. */
  function GetOption(store: OptionStore, name: OptionName): SettingsMap {
    if name in store then store[name] else map[]
  }

  /** The post meta keys the plugin writes and reads. */
  datatype PostMetaKey =
    | SeoTitleMeta        // '_seo_wp_seo_title'
    | SeoDescriptionMeta  // '_seo_wp_seo_description'
    | SeoKeywordsMeta     // '_seo_wp_seo_keywords'
    | SeoImageMeta        // '_seo_wp_seo_image'
    | NoindexMeta         // '_seo_wp_noindex'
    | NofollowMeta        // '_seo_wp_nofollow'
    | CanonicalUrlMeta    // '_seo_wp_canonical_url'
    /** Any other key; `name` is taken to differ from every key named above. */
    | OtherPostMeta(name: string)

  /** The term meta keys, which are also the names of the term form's fields. */
  datatype TermMetaKey =
    | MetaTitle           // 'meta_title'
    | MetaDescription     // 'meta_description'
    | MetaImage           // 'meta_image'
    | TermNoindex         // 'noindex'
    | TermNofollow        // 'nofollow'
    | TermCanonicalUrl    // 'canonical_url'
    /** Any other key; `name` is taken to differ from every key named above. */
    | OtherTermMeta(name: string)

  type PostMetaMap = map<PostMetaKey, Value>
  type TermMetaMap = map<TermMetaKey, Value>

  /** `get_post_meta($id, $key, true)` / `get_term_meta($id, $key, true)`: '' when missing. */
  function GetMeta<K>(meta: map<K, Value>, key: K): Value {
    if key in meta then meta[key] else Str("")
  }

  /**
   * The host's helpers, whose semantics are not modelled: `sanitize_text_field`,
   * `sanitize_textarea_field`, `esc_url_raw`, `esc_url`, `esc_html`,
   * `esc_attr`, `esc_textarea`, `wp_kses_post` and `home_url($path)`.
   */
  datatype Helpers = Helpers(
    sanitizeText: string -> string,
    sanitizeTextarea: string -> string,
    escUrlRaw: string -> string,
    escUrl: string -> string,
    escHtml: string -> string,
    escAttr: string -> string,
    escTextarea: string -> string,
    ksesPost: string -> string,
    homeUrl: string -> string)

  /** A term object as `get_queried_object()` / `get_term()` return it. */
  datatype Term = Term(termId: int, parent: int, taxonomy: string, name: string)

  /** The conditional tags of the main query for the current request. */
  datatype Query = Query(
    isSingular: bool,
    isCategory: bool,
    isTag: bool,
    isTax: bool,
    isArchive: bool,
    isSearch: bool,
    is404: bool,
    isFrontPage: bool,
    isHome: bool,
    isPaged: bool,
    /** `get_queried_object()`: None stands for null or a WP_Error. */
    queriedTerm: Option<Term>)

  /** `is_category() || is_tag() || is_tax()`. */
  predicate IsTermArchive(q: Query) {
    q.isCategory || q.isTag || q.isTax
  }

  /** What a front-end request lets the plugin read. */
  datatype Page = Page(
    query: Query,
    options: OptionStore,
    /** The meta of the global `$post`. */
    postMeta: PostMetaMap,
    /** Term meta by term id. */
    termMeta: map<int, TermMetaMap>,
    /** `get_bloginfo('name')` and `get_bloginfo('description')`. */
    blogName: string,
    blogDescription: string,
    /** `get_permalink()` of the current post. */
    permalink: string,
    /** `add_query_arg(null, null)`: the current request URI. */
    requestUri: string,
    /** `get_pagenum_link($n)`. */
    pagenumLink: nat -> string)

  /** `get_term_meta($term_id, $key, true)`. */
  function TermMeta(p: Page, termId: int, key: TermMetaKey): Value {
    GetMeta(if termId in p.termMeta then p.termMeta[termId] else map[], key)
  }

  /** `get_post_meta($post->ID, $key, true)`. */
  function PostMeta(p: Page, key: PostMetaKey): Value {
    GetMeta(p.postMeta, key)
  }

  /** The `<meta>` tags the plugin prints: Open Graph ones by `property`, the rest by `name`. */
  datatype MetaField =
    | OgTitle | OgDescription | OgUrl | OgImage | OgType
    | TwitterCard | TwitterTitle | TwitterDescription | TwitterImage
    | Robots | Description

  predicate IsOpenGraph(f: MetaField) {
    f in {OgTitle, OgDescription, OgUrl, OgImage, OgType}
  }

  function MetaFieldName(f: MetaField): string {
    match f
    case OgTitle => "og:title"
    case OgDescription => "og:description"
    case OgUrl => "og:url"
    case OgImage => "og:image"
    case OgType => "og:type"
    case TwitterCard => "twitter:card"
    case TwitterTitle => "twitter:title"
    case TwitterDescription => "twitter:description"
    case TwitterImage => "twitter:image"
    case Robots => "robots"
    case Description => "description"
  }

  datatype LinkRelation = Canonical | Prev | Next

  function RelName(r: LinkRelation): string {
    match r
    case Canonical => "canonical"
    case Prev => "prev"
    case Next => "next"
  }

  /** A tag echoed into the document head, one per line. */
  datatype Tag =
    | Comment(text: string)
    | Meta(field: MetaField, content: string)
    | Link(rel: LinkRelation, href: string)

  function Render(t: Tag): string {
    match t
    case Comment(text) => "<!-- " + text + " -->"
    case Meta(f, c) =>
      if IsOpenGraph(f) then "<meta property=\"" + MetaFieldName(f) + "\" content=\"" + c + "\">"
      else "<meta name=\"" + MetaFieldName(f) + "\" content=\"" + c + "\">"
    case Link(r, h) => "<link rel=\"" + RelName(r) + "\" href=\"" + h + "\">"
  }

  /** The text echoed for a list of tags: each rendered tag followed by a newline. */
  function Echo(tags: seq<Tag>): string
    decreases |tags|
  {
    if tags == [] then "" else Render(tags[0]) + "\n" + Echo(tags[1..])
  }

  /** Echoing two lists of tags one after the other prints the two texts one after the other. */
  lemma {:induction false} EchoAppend(a: seq<Tag>, b: seq<Tag>)
    ensures Echo(a + b) == Echo(a) + Echo(b)
    decreases |a|
  {
    if a == [] {
      assert a + b == b;
    } else {
      var ab := a + b;
      assert ab[0] == a[0];
      assert ab[1..] == a[1..] + b;
      EchoAppend(a[1..], b);
    }
  }

  /** The text echoed for the first k tags is a prefix of the text echoed for all of them. */
  lemma EchoPrefix(tags: seq<Tag>, k: nat)
    requires k <= |tags|
    ensures var pre := Echo(tags[..k]);
      |pre| <= |Echo(tags)| && Echo(tags)[..|pre|] == pre
  {
    assert tags == tags[..k] + tags[k..];
    EchoAppend(tags[..k], tags[k..]);
  }

  /** Two tags echo as two lines. */
  lemma EchoPair(x: Tag, y: Tag)
    ensures Echo([x, y]) == Render(x) + "\n" + Render(y) + "\n"
  {
    assert [x, y][1..] == [y];
    assert [y][1..] == [];
    assert Echo([y]) == Render(y) + "\n" + "";
    assert Echo([x, y]) == Render(x) + "\n" + Echo([y]);
    assert Render(y) + "\n" + "" == Render(y) + "\n";
  }
}

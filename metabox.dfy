/**
 * includes/metabox.php: saving the post SEO meta box, saving the archive
 * (term) SEO fields, and the head output of an archive's own title and
 * description.
 */
module Metabox {
  import opened PhpValues
  import opened WpHost

  // ---------------------------------------------------------------------
  // The post edit form

  /** The fields of the post meta box, as posted in `$_POST`. */
  datatype PostField =
    | SeoTitleField        // 'seo_wp_seo_title'
    | SeoDescriptionField  // 'seo_wp_seo_description'
    | SeoKeywordsField     // 'seo_wp_seo_keywords'
    | SeoImageField        // 'seo_wp_seo_image'
    | NoindexField         // 'seo_wp_noindex'
    | NofollowField        // 'seo_wp_nofollow'
    | CanonicalUrlField    // 'seo_wp_canonical_url'
    | NonceField           // 'seo_wp_seo_meta_nonce'
    /** Any other field; `name` is taken to differ from every field named above, so its
        meta key `_name` differs from the named meta keys too. */
    | OtherPostField(name: string)

  /** `$_POST` as the save handler sees it; a posted value is always a string. */
  type PostForm = map<PostField, string>

  /** The four text fields, in the order the save handler walks them. */
  const TextFields: seq<PostField> := [SeoTitleField, SeoDescriptionField, SeoKeywordsField, SeoImageField]

  /** The meta key a field is stored under: the field name with a leading `_`. */
  function MetaKeyOf(f: PostField): PostMetaKey {
    match f
    case SeoTitleField => SeoTitleMeta
    case SeoDescriptionField => SeoDescriptionMeta
    case SeoKeywordsField => SeoKeywordsMeta
    case SeoImageField => SeoImageMeta
    case NoindexField => NoindexMeta
    case NofollowField => NofollowMeta
    case CanonicalUrlField => CanonicalUrlMeta
    case NonceField => OtherPostMeta("_seo_wp_seo_meta_nonce")
    case OtherPostField(n) => OtherPostMeta("_" + n)
  }

  /** The seven post meta keys the save handler writes or deletes. */
  const ManagedPostKeys: set<PostMetaKey> :=
    {SeoTitleMeta, SeoDescriptionMeta, SeoKeywordsMeta, SeoImageMeta, NoindexMeta, NofollowMeta, CanonicalUrlMeta}

  /** The request facts the guard of the save handler consults. */
  datatype SaveContext = SaveContext(
    /** `wp_verify_nonce($nonce, 'seo_wp_save_seo_meta')`. */
    verifyNonce: string -> bool,
    /** `defined('DOING_AUTOSAVE') && DOING_AUTOSAVE`. */
    doingAutosave: bool,
    /** `current_user_can('edit_post', $post_id)`. */
    canEditPost: int -> bool)

  /** The three early returns of `seo_wp_save_seo_meta`, negated. */
  predicate SaveAllowed(postId: int, post: PostForm, ctx: SaveContext) {
    && NonceField in post && ctx.verifyNonce(post[NonceField])
    && !ctx.doingAutosave
    && ctx.canEditPost(postId)
  }

  // ---------------------------------------------------------------------
  // Specification of the post save, on one post's meta map

  /** The posted string of a field, read only when the field is present. */
  function Posted(post: PostForm, f: PostField): string {
    if f in post then post[f] else ""
  }

  /** One step of the `foreach ($fields …)` loop. */
  function SaveTextField(m: PostMetaMap, post: PostForm, f: PostField, h: Helpers): PostMetaMap {
    SetOrDelete(m, f in post, MetaKeyOf(f), Str(h.sanitizeText(Posted(post, f))))
  }

  /** The loop over a prefix of the text fields. */
  function SaveTextFields(m: PostMetaMap, post: PostForm, fields: seq<PostField>, h: Helpers): PostMetaMap
    decreases |fields|
  {
    if fields == [] then m
    else SaveTextField(SaveTextFields(m, post, fields[..|fields| - 1], h), post, fields[|fields| - 1], h)
  }

  /** `update_post_meta($id, $key, $v)` when the field was posted, `delete_post_meta` otherwise. */
  function SetOrDelete<K(==)>(m: map<K, Value>, present: bool, key: K, v: Value): map<K, Value> {
    if present then m[key := v] else m - {key}
  }

  /** The meta map of a post after a save that passed the guard. */
  function SavedPostMeta(m: PostMetaMap, post: PostForm, h: Helpers): PostMetaMap {
    var afterText := SaveTextFields(m, post, TextFields, h);
    var afterNoindex := SetOrDelete(afterText, NoindexField in post, NoindexMeta, Int(1));
    var afterNofollow := SetOrDelete(afterNoindex, NofollowField in post, NofollowMeta, Int(1));
    SetOrDelete(afterNofollow, CanonicalUrlField in post, CanonicalUrlMeta, Str(h.escUrlRaw(Posted(post, CanonicalUrlField))))
  }

  /** The text-field loop writes each listed field's key from the form and leaves every other key alone. */
  lemma {:induction false} SaveTextFieldsAt(m: PostMetaMap, post: PostForm, fields: seq<PostField>, h: Helpers,
                                            k: PostMetaKey)
    requires forall i :: 0 <= i < |fields| ==> fields[i] in TextFields
    ensures var r := SaveTextFields(m, post, fields, h);
      && (forall f :: f in fields && MetaKeyOf(f) == k ==>
            (k in r <==> f in post) && (f in post ==> r[k] == Str(h.sanitizeText(post[f]))))
      && ((forall f :: f in fields ==> MetaKeyOf(f) != k) ==> (k in r <==> k in m) && (k in m ==> r[k] == m[k]))
    decreases |fields|
  {
    if fields != [] {
      var init := fields[..|fields| - 1];
      var last := fields[|fields| - 1];
      SaveTextFieldsAt(m, post, init, h, k);
      assert forall f :: f in fields <==> f in init || f == last;
      forall f | f in fields && MetaKeyOf(f) == k && f != last
        ensures MetaKeyOf(last) != k
      {
        TextKeysDistinct(f, last);
      }
    }
  }

  /** Distinct text fields are stored under distinct keys. */
  lemma TextKeysDistinct(f: PostField, g: PostField)
    requires f in TextFields && g in TextFields && f != g
    ensures MetaKeyOf(f) != MetaKeyOf(g)
  {
  }

  /** After a save that passed the guard: each text field's key holds the sanitised posted
      value, and is absent when the field was not posted. */
  lemma SavedTextField(m: PostMetaMap, post: PostForm, h: Helpers, f: PostField)
    requires f in TextFields
    ensures var r := SavedPostMeta(m, post, h);
      && (MetaKeyOf(f) in r <==> f in post)
      && (f in post ==> r[MetaKeyOf(f)] == Str(h.sanitizeText(post[f])))
  {
    SaveTextFieldsAt(m, post, TextFields, h, MetaKeyOf(f));
    var afterText := SaveTextFields(m, post, TextFields, h);
    assert MetaKeyOf(f) in afterText <==> f in post;
    assert MetaKeyOf(f) != NoindexMeta && MetaKeyOf(f) != NofollowMeta && MetaKeyOf(f) != CanonicalUrlMeta;
  }

  /** The noindex and nofollow keys hold 1 exactly when their boxes were posted, and the
      canonical key holds the `esc_url_raw` of the posted URL exactly when it was posted. */
  lemma SavedFlagsAndCanonical(m: PostMetaMap, post: PostForm, h: Helpers)
    ensures var r := SavedPostMeta(m, post, h);
      && (NoindexMeta in r <==> NoindexField in post) && (NoindexMeta in r ==> r[NoindexMeta] == Int(1))
      && (NofollowMeta in r <==> NofollowField in post) && (NofollowMeta in r ==> r[NofollowMeta] == Int(1))
      && (CanonicalUrlMeta in r <==> CanonicalUrlField in post)
      && (CanonicalUrlField in post ==> r[CanonicalUrlMeta] == Str(h.escUrlRaw(post[CanonicalUrlField])))
  {
  }

  /** The save touches no key outside the seven it lists. */
  lemma SavedPostMetaFrame(m: PostMetaMap, post: PostForm, h: Helpers, k: PostMetaKey)
    requires k !in ManagedPostKeys
    ensures var r := SavedPostMeta(m, post, h);
      (k in r <==> k in m) && (k in m ==> r[k] == m[k])
  {
    SaveTextFieldsAt(m, post, TextFields, h, k);
  }

  // ---------------------------------------------------------------------
  // The archive (term) form

  /** `$_POST` of the term edit form; its field names are the term meta keys. */
  type TermForm = map<TermMetaKey, string>

  /** The term meta keys the archive save handler writes or deletes. */
  const ManagedTermKeys: set<TermMetaKey> :=
    {MetaTitle, MetaDescription, MetaImage, TermNoindex, TermNofollow, TermCanonicalUrl}

  function PostedTerm(post: TermForm, k: TermMetaKey): string {
    if k in post then post[k] else ""
  }

  /** `update_term_meta` when the field was posted; nothing otherwise. */
  function SetIfPosted(m: TermMetaMap, post: TermForm, key: TermMetaKey, clean: string -> string): TermMetaMap {
    if key in post then m[key := Str(clean(post[key]))] else m
  }

  /** The meta map of a term after `seo_wp_save_archive_meta_fields`. */
  function SavedTermMeta(m: TermMetaMap, post: TermForm, h: Helpers): TermMetaMap {
    var t1 := SetIfPosted(m, post, MetaTitle, h.sanitizeText);
    var t2 := SetIfPosted(t1, post, MetaDescription, h.sanitizeTextarea);
    var t3 := SetIfPosted(t2, post, MetaImage, h.sanitizeText);
    var t4 := SetOrDelete(t3, TermNoindex in post, TermNoindex, Int(1));
    var t5 := SetOrDelete(t4, TermNofollow in post, TermNofollow, Int(1));
    SetOrDelete(t5, TermCanonicalUrl in post, TermCanonicalUrl, Str(h.escUrlRaw(PostedTerm(post, TermCanonicalUrl))))
  }

  /** The sanitiser of a text field of the term form: `sanitize_textarea_field` for the description. */
  function TermTextCleaner(k: TermMetaKey, h: Helpers): string -> string {
    if k == MetaDescription then h.sanitizeTextarea else h.sanitizeText
  }

  /** Title, description and image are written when posted and otherwise left as they were:
      never deleted. */
  lemma SavedTermTextField(m: TermMetaMap, post: TermForm, h: Helpers, k: TermMetaKey)
    requires k == MetaTitle || k == MetaDescription || k == MetaImage
    ensures var r := SavedTermMeta(m, post, h);
      && (k in post ==> k in r && r[k] == Str(TermTextCleaner(k, h)(post[k])))
      && (k !in post ==> (k in r <==> k in m) && (k in m ==> r[k] == m[k]))
  {
    var t1 := SetIfPosted(m, post, MetaTitle, h.sanitizeText);
    var t2 := SetIfPosted(t1, post, MetaDescription, h.sanitizeTextarea);
    var t3 := SetIfPosted(t2, post, MetaImage, h.sanitizeText);
    assert k in post ==> k in t3 && t3[k] == Str(TermTextCleaner(k, h)(post[k]));
    assert k !in post ==> (k in t3 <==> k in m) && (k in m ==> t3[k] == m[k]);
  }

  /** Noindex, nofollow and the canonical URL are deleted when not posted. */
  lemma SavedTermFlags(m: TermMetaMap, post: TermForm, h: Helpers)
    ensures var r := SavedTermMeta(m, post, h);
      && (TermNoindex in r <==> TermNoindex in post) && (TermNoindex in r ==> r[TermNoindex] == Int(1))
      && (TermNofollow in r <==> TermNofollow in post) && (TermNofollow in r ==> r[TermNofollow] == Int(1))
      && (TermCanonicalUrl in r <==> TermCanonicalUrl in post)
      && (TermCanonicalUrl in post ==> r[TermCanonicalUrl] == Str(h.escUrlRaw(post[TermCanonicalUrl])))
  {
  }

  /** The archive save touches no key outside the six it lists. */
  lemma SavedTermMetaFrame(m: TermMetaMap, post: TermForm, h: Helpers, k: TermMetaKey)
    requires k !in ManagedTermKeys
    ensures var r := SavedTermMeta(m, post, h);
      (k in r <==> k in m) && (k in m ==> r[k] == m[k])
  {
  }

  // ---------------------------------------------------------------------
  // The meta rows of the object being saved, updated in place

  /** The post meta rows of one post. */
  class PostMetaTable {
    const postId: int
    var meta: PostMetaMap

    constructor (id: int, meta0: PostMetaMap)
      ensures postId == id && meta == meta0
    {
      postId := id;
      meta := meta0;
    }

    /** `if (isset(…)) update_post_meta(…) else delete_post_meta(…)`. */
    method SetOrDeleteMeta(present: bool, key: PostMetaKey, v: Value)
      modifies this
      ensures meta == SetOrDelete(old(meta), present, key, v)
    {
      if present {
        meta := meta[key := v];
      } else {
        meta := meta - {key};
      }
    }

    /** `seo_wp_save_seo_meta`: nothing changes unless the guard passes; then the meta
        becomes `SavedPostMeta` of what it was. */
    method SaveSeoMeta(post: PostForm, ctx: SaveContext, h: Helpers)
      modifies this
      ensures !SaveAllowed(postId, post, ctx) ==> meta == old(meta)
      ensures SaveAllowed(postId, post, ctx) ==> meta == SavedPostMeta(old(meta), post, h)
    {
      if !(NonceField in post && ctx.verifyNonce(post[NonceField])) {
        return;
      }
      if ctx.doingAutosave {
        return;
      }
      if !ctx.canEditPost(postId) {
        return;
      }
      for i := 0 to |TextFields|
        invariant meta == SaveTextFields(old(meta), post, TextFields[..i], h)
      {
        var field := TextFields[i];
        assert TextFields[..i + 1][..i] == TextFields[..i];
        SetOrDeleteMeta(field in post, MetaKeyOf(field), Str(h.sanitizeText(Posted(post, field))));
      }
      assert TextFields[..|TextFields|] == TextFields;
      SetOrDeleteMeta(NoindexField in post, NoindexMeta, Int(1));
      SetOrDeleteMeta(NofollowField in post, NofollowMeta, Int(1));
      SetOrDeleteMeta(CanonicalUrlField in post, CanonicalUrlMeta, Str(h.escUrlRaw(Posted(post, CanonicalUrlField))));
    }
  }

  /** The term meta rows of one term. */
  class TermMetaTable {
    const termId: int
    var meta: TermMetaMap

    constructor (id: int, meta0: TermMetaMap)
      ensures termId == id && meta == meta0
    {
      termId := id;
      meta := meta0;
    }

    /** `if (isset(…)) update_term_meta(…) else delete_term_meta(…)`. */
    method SetOrDeleteMeta(present: bool, key: TermMetaKey, v: Value)
      modifies this
      ensures meta == SetOrDelete(old(meta), present, key, v)
    {
      if present {
        meta := meta[key := v];
      } else {
        meta := meta - {key};
      }
    }

    /** `if (isset(…)) update_term_meta(…)`, with no else branch. */
    method UpdateIfPosted(post: TermForm, key: TermMetaKey, clean: string -> string)
      modifies this
      ensures meta == SetIfPosted(old(meta), post, key, clean)
    {
      if key in post {
        meta := meta[key := Str(clean(post[key]))];
      }
    }

    /** `seo_wp_save_archive_meta_fields`: the meta becomes `SavedTermMeta` of what it was. */
    method SaveArchiveMetaFields(post: TermForm, h: Helpers)
      modifies this
      ensures meta == SavedTermMeta(old(meta), post, h)
    {
      UpdateIfPosted(post, MetaTitle, h.sanitizeText);
      UpdateIfPosted(post, MetaDescription, h.sanitizeTextarea);
      UpdateIfPosted(post, MetaImage, h.sanitizeText);
      SetOrDeleteMeta(TermNoindex in post, TermNoindex, Int(1));
      SetOrDeleteMeta(TermNofollow in post, TermNofollow, Int(1));
      SetOrDeleteMeta(TermCanonicalUrl in post, TermCanonicalUrl, Str(h.escUrlRaw(PostedTerm(post, TermCanonicalUrl))));
    }
  }

  // ---------------------------------------------------------------------
  // seo_wp_output_archive_meta

  /** What the `wp_head` callback decides: a document-title filter and the tags it echoes. */
  datatype ArchiveHead = ArchiveHead(titleFilter: Option<string>, tags: seq<Tag>)

  function ArchiveMeta(p: Page, h: Helpers): (r: ArchiveHead)
    ensures |r.tags| <= 1
    ensures r.titleFilter.Some? <==>
      IsTermArchive(p.query) && p.query.queriedTerm.Some?
      && Truthy(TermMeta(p, p.query.queriedTerm.value.termId, MetaTitle))
    ensures r.titleFilter.Some? ==>
      r.titleFilter.value == h.escHtml(ToStr(TermMeta(p, p.query.queriedTerm.value.termId, MetaTitle)))
    ensures r.tags != [] <==>
      IsTermArchive(p.query) && p.query.queriedTerm.Some?
      && Truthy(TermMeta(p, p.query.queriedTerm.value.termId, MetaDescription))
    ensures r.tags != [] ==>
      r.tags == [Meta(Description, h.escAttr(ToStr(TermMeta(p, p.query.queriedTerm.value.termId, MetaDescription))))]
  {
    if IsTermArchive(p.query) && p.query.queriedTerm.Some? then
      var id := p.query.queriedTerm.value.termId;
      var title := TermMeta(p, id, MetaTitle);
      var description := TermMeta(p, id, MetaDescription);
      ArchiveHead(
        if Truthy(title) then Some(h.escHtml(ToStr(title))) else None,
        if Truthy(description) then [Meta(Description, h.escAttr(ToStr(description)))] else [])
    else
      ArchiveHead(None, [])
  }
}

/**
 * includes/breadcrumbs.php: the breadcrumb trail of the current page, as the
 * HTML string `seo_wp_generate_breadcrumbs` returns.
 */
module Breadcrumbs {
  import opened PhpValues
  import opened WpHost

  /** What the generator asks the host about the current page beyond the query flags. */
  datatype Trail = Trail(
    /** `get_post_ancestors($post)`: nearest parent first. */
    postAncestors: seq<int>,
    /** `get_permalink($id)` and `get_the_title($id)`. */
    permalinkOf: int -> string,
    titleOf: int -> string,
    /** `get_the_title()` of the current post. */
    currentTitle: string,
    /** `get_ancestors($term->term_id, $term->taxonomy)`: nearest parent first. */
    termAncestors: seq<int>,
    /** `get_term($id)`: a missing id stands for null or a WP_Error. */
    terms: map<int, Term>,
    /** `get_term_link($term)`. */
    termLinkOf: Term -> string,
    /** `single_term_title('', false)`, `get_the_archive_title()`, `get_search_query()`. */
    singleTermTitle: string,
    archiveTitle: string,
    searchQuery: string)

  function Anchor(href: string, text: string): string {
    "<a href=\"" + href + "\">" + text + "</a>"
  }

  const NavOpen := "<nav class=\"seo-wp-breadcrumbs\" aria-label=\"breadcrumb\">"
  const NavClose := "</nav>"
  const DefaultSeparator := " - "

  // ---------------------------------------------------------------------
  // The settings-driven pieces

  /** `' ' . esc_html($sep) . ' '` when the setting is set and not blank after `trim`, else `' - '`. */
  function Separator(s: SettingsMap, h: Helpers): string {
    if IsSet(s, BreadcrumbsSeparator) && Trim(ToStr(s[BreadcrumbsSeparator])) != "" then
      " " + h.escHtml(ToStr(s[BreadcrumbsSeparator])) + " "
    else DefaultSeparator
  }

  /** The default separator is used exactly when the setting is missing, null or all whitespace. */
  lemma SeparatorDefault(s: SettingsMap, h: Helpers)
    ensures !IsSet(s, BreadcrumbsSeparator) || Blank(ToStr(s[BreadcrumbsSeparator])) ==>
      Separator(s, h) == DefaultSeparator
    ensures IsSet(s, BreadcrumbsSeparator) && !Blank(ToStr(s[BreadcrumbsSeparator])) ==>
      Separator(s, h) == " " + h.escHtml(ToStr(s[BreadcrumbsSeparator])) + " "
  {
    if IsSet(s, BreadcrumbsSeparator) {
      TrimEmptyIffBlank(ToStr(s[BreadcrumbsSeparator]));
    }
  }

  /** The home crumb's text before its second `esc_html`: the setting if non-empty, else "Home". */
  function HomeText(s: SettingsMap, h: Helpers): string {
    if !Empty(s, BreadcrumbsHome) then h.escHtml(ToStr(s[BreadcrumbsHome])) else "Home"
  }

  /** `esc_html($settings['breadcrumbs_prefix'])` if set, else ''. */
  function Prefix(s: SettingsMap, h: Helpers): string {
    if IsSet(s, BreadcrumbsPrefix) then h.escHtml(ToStr(s[BreadcrumbsPrefix])) else ""
  }

  /** The prefix span, printed only for a truthy prefix. */
  function PrefixSpan(prefix: string, h: Helpers): (span: string)
    ensures span == "" <==> !StrTruthy(prefix)
    ensures StrTruthy(prefix) ==> span == "<span class=\"breadcrumbs-prefix\">" + h.escHtml(prefix) + "</span> "
  {
    if StrTruthy(prefix) then "<span class=\"breadcrumbs-prefix\">" + h.escHtml(prefix) + "</span> " else ""
  }

  function HomeCrumb(s: SettingsMap, h: Helpers): string {
    Anchor(h.escUrl(h.homeUrl("")), h.escHtml(HomeText(s, h)))
  }

  // ---------------------------------------------------------------------
  // The crumbs, declaratively

  function PostAncestorCrumb(t: Trail, id: int, h: Helpers): string {
    Anchor(h.escUrl(t.permalinkOf(id)), h.escHtml(t.titleOf(id)))
  }

  /** The crumbs of a nearest-first ancestor list, root first. */
  function PostAncestorCrumbs(t: Trail, ids: seq<int>, h: Helpers): seq<string>
    decreases |ids|
  {
    if ids == [] then [] else PostAncestorCrumbs(t, ids[1..], h) + [PostAncestorCrumb(t, ids[0], h)]
  }

  /** One crumb per ancestor, the farthest first: crumb k belongs to the ancestor k places from the root. */
  lemma {:induction false} PostAncestorCrumbsAt(t: Trail, ids: seq<int>, h: Helpers)
    ensures |PostAncestorCrumbs(t, ids, h)| == |ids|
    ensures forall k :: 0 <= k < |ids| ==> PostAncestorCrumbs(t, ids, h)[k] == PostAncestorCrumb(t, ids[|ids| - 1 - k], h)
    decreases |ids|
  {
    if ids != [] {
      PostAncestorCrumbsAt(t, ids[1..], h);
    }
  }

  /** The crumb of a parent term, when `get_term` finds it. */
  function TermParentCrumb(t: Trail, id: int, h: Helpers): seq<string> {
    if id in t.terms then [Anchor(h.escUrl(t.termLinkOf(t.terms[id])), h.escHtml(t.terms[id].name))] else []
  }

  /** The crumbs of a nearest-first ancestor list, root first, skipping ids that are not terms. */
  function TermParentCrumbs(t: Trail, ids: seq<int>, h: Helpers): seq<string>
    decreases |ids|
  {
    if ids == [] then [] else TermParentCrumbs(t, ids[1..], h) + TermParentCrumb(t, ids[0], h)
  }

  /** Exactly the ids that resolve to terms produce a crumb. */
  lemma {:induction false} TermParentCrumbsCount(t: Trail, ids: seq<int>, h: Helpers)
    ensures |TermParentCrumbs(t, ids, h)| <= |ids|
    ensures (forall i :: 0 <= i < |ids| ==> ids[i] in t.terms) ==> |TermParentCrumbs(t, ids, h)| == |ids|
    decreases |ids|
  {
    if ids != [] {
      AllTermsTail(t, ids, h);
      TermParentCrumbsCount(t, ids[1..], h);
    }
  }

  /** When every ancestor id resolves to a term, crumb k is the link of the ancestor k places from the root. */
  lemma {:induction false} TermParentCrumbsAt(t: Trail, ids: seq<int>, h: Helpers)
    requires forall i :: 0 <= i < |ids| ==> ids[i] in t.terms
    ensures |TermParentCrumbs(t, ids, h)| == |ids|
    ensures forall k :: 0 <= k < |ids| ==>
      TermParentCrumbs(t, ids, h)[k] == Anchor(h.escUrl(t.termLinkOf(t.terms[ids[|ids| - 1 - k]])), h.escHtml(t.terms[ids[|ids| - 1 - k]].name))
    decreases |ids|
  {
    if ids != [] {
      AllTermsTail(t, ids, h);
      TermParentCrumbsAt(t, ids[1..], h);
      assert ids[0] in t.terms;
      var rest := TermParentCrumbs(t, ids[1..], h);
      assert TermParentCrumbs(t, ids, h) == rest + TermParentCrumb(t, ids[0], h);
      forall k | 0 <= k < |ids|
        ensures TermParentCrumbs(t, ids, h)[k] == Anchor(h.escUrl(t.termLinkOf(t.terms[ids[|ids| - 1 - k]])), h.escHtml(t.terms[ids[|ids| - 1 - k]].name))
      {
        if k < |rest| {
          assert ids[1..][|ids[1..]| - 1 - k] == ids[|ids| - 1 - k];
        }
      }
    }
  }

  /** An ancestor id that is not a term, at any position, contributes no crumb: the crumbs are
      those of the list without it. */
  lemma {:induction false} UnresolvedParentSkipped(t: Trail, ids: seq<int>, j: nat, h: Helpers)
    requires j < |ids| && ids[j] !in t.terms
    ensures TermParentCrumbs(t, ids, h) == TermParentCrumbs(t, ids[..j] + ids[j + 1..], h)
    decreases |ids|
  {
    if j == 0 {
      assert ids[..0] + ids[1..] == ids[1..];
    } else {
      var r := ids[..j] + ids[j + 1..];
      UnresolvedParentSkipped(t, ids[1..], j - 1, h);
      assert r[0] == ids[0];
      assert r[1..] == ids[1..][..j - 1] + ids[1..][j..];
    }
  }

  lemma AllTermsTail(t: Trail, ids: seq<int>, h: Helpers)
    requires ids != []
    ensures (forall i :: 0 <= i < |ids| ==> ids[i] in t.terms) ==> (forall i :: 0 <= i < |ids[1..]| ==> ids[1..][i] in t.terms)
  {
    if forall i :: 0 <= i < |ids| ==> ids[i] in t.terms {
      forall i | 0 <= i < |ids[1..]| ensures ids[1..][i] in t.terms {
        assert ids[1..][i] == ids[i + 1];
      }
    }
  }

  /** The crumbs after the home crumb, by page kind, in the generator's order of tests. */
  function PageCrumbs(p: Page, t: Trail, h: Helpers): seq<string> {
    var s := GetOption(p.options, AdvancedSettings);
    var q := p.query;
    if q.isSingular then
      var current := h.escHtml(t.currentTitle);
      PostAncestorCrumbs(t, t.postAncestors, h)
      + [if !Empty(s, BreadcrumbsBold) then "<strong>" + current + "</strong>" else current]
    else if IsTermArchive(q) then
      (if q.queriedTerm.Some? && q.queriedTerm.value.parent != 0 then TermParentCrumbs(t, t.termAncestors, h) else [])
      + [h.escHtml(t.singleTermTitle)]
    else if q.isArchive then [h.escHtml(t.archiveTitle)]
    else if q.isSearch then ["Search Results for: " + h.escHtml(t.searchQuery)]
    else if q.is404 then ["404 Not Found"]
    else []
  }

  function Crumbs(p: Page, t: Trail, h: Helpers): seq<string> {
    [HomeCrumb(GetOption(p.options, AdvancedSettings), h)] + PageCrumbs(p, t, h)
  }

  /** The markup as a whole, declaratively. */
  function Markup(p: Page, t: Trail, h: Helpers): string {
    var s := GetOption(p.options, AdvancedSettings);
    if p.query.isFrontPage || p.query.isHome then ""
    else NavOpen + PrefixSpan(Prefix(s, h), h) + Join(Separator(s, h), Crumbs(p, t, h)) + NavClose
  }

  // ---------------------------------------------------------------------
  // Properties of the trail

  /** The first crumb is always the home link, whose text defaults to "Home". */
  lemma HomeComesFirst(p: Page, t: Trail, h: Helpers)
    ensures var s := GetOption(p.options, AdvancedSettings);
      && Crumbs(p, t, h)[0] == Anchor(h.escUrl(h.homeUrl("")), h.escHtml(HomeText(s, h)))
      && (Empty(s, BreadcrumbsHome) ==> Crumbs(p, t, h)[0] == Anchor(h.escUrl(h.homeUrl("")), h.escHtml("Home")))
  {
  }

  /** On singular pages: home, the ancestors root first, then the current title, bold iff set. */
  lemma SingularTrail(p: Page, t: Trail, h: Helpers)
    requires p.query.isSingular
    ensures var c := Crumbs(p, t, h);
      var n := |t.postAncestors|;
      var current := h.escHtml(t.currentTitle);
      var bold := !Empty(GetOption(p.options, AdvancedSettings), BreadcrumbsBold);
      && |c| == n + 2
      && (forall k :: 1 <= k <= n ==> c[k] == PostAncestorCrumb(t, t.postAncestors[n - k], h))
      && c[n + 1] == if bold then "<strong>" + current + "</strong>" else current
  {
    PostAncestorCrumbsAt(t, t.postAncestors, h);
  }

  /** On term archives: parents only for a term with a parent, at most one per ancestor,
      and the term's own title last. */
  lemma TermTrail(p: Page, t: Trail, h: Helpers)
    requires !p.query.isSingular && IsTermArchive(p.query)
    ensures var c := Crumbs(p, t, h);
      && 2 <= |c| <= |t.termAncestors| + 2
      && c[|c| - 1] == h.escHtml(t.singleTermTitle)
      && (p.query.queriedTerm.None? || p.query.queriedTerm.value.parent == 0 ==> |c| == 2)
      && (p.query.queriedTerm.Some? && p.query.queriedTerm.value.parent != 0 ==>
            c[1..|c| - 1] == TermParentCrumbs(t, t.termAncestors, h))
  {
    TermParentCrumbsCount(t, t.termAncestors, h);
    var c := Crumbs(p, t, h);
    var parents := if p.query.queriedTerm.Some? && p.query.queriedTerm.value.parent != 0 then TermParentCrumbs(t, t.termAncestors, h) else [];
    assert c == [c[0]] + parents + [h.escHtml(t.singleTermTitle)];
    assert c[1..|c| - 1] == parents;
  }

  /** Other archives, search and 404 pages add exactly one crumb after home, tested in
      that order; any other page shows only home. */
  lemma OtherTrails(p: Page, t: Trail, h: Helpers)
    requires !p.query.isSingular && !IsTermArchive(p.query)
    ensures p.query.isArchive ==> Crumbs(p, t, h)[1..] == [h.escHtml(t.archiveTitle)]
    ensures !p.query.isArchive && p.query.isSearch ==> Crumbs(p, t, h)[1..] == ["Search Results for: " + h.escHtml(t.searchQuery)]
    ensures !p.query.isArchive && !p.query.isSearch && p.query.is404 ==> Crumbs(p, t, h)[1..] == ["404 Not Found"]
    ensures !p.query.isArchive && !p.query.isSearch && !p.query.is404 ==> |Crumbs(p, t, h)| == 1
  {
  }

  /** Off the front page, n crumbs are joined with n - 1 separators between the nav tags. */
  lemma MarkupShape(p: Page, t: Trail, h: Helpers)
    requires !p.query.isFrontPage && !p.query.isHome
    ensures var s := GetOption(p.options, AdvancedSettings);
      var m := Markup(p, t, h);
      var c := Crumbs(p, t, h);
      var span := PrefixSpan(Prefix(s, h), h);
      && |m| == |NavOpen| + |span| + TotalLength(c) + (|c| - 1) * |Separator(s, h)| + |NavClose|
      && m[..|NavOpen|] == NavOpen
      && m[|NavOpen|..|NavOpen| + |span|] == span
      && m[|NavOpen| + |span|..|m| - |NavClose|] == Join(Separator(s, h), c)
      && m[|m| - |NavClose|..] == NavClose
  {
    var s := GetOption(p.options, AdvancedSettings);
    var span := PrefixSpan(Prefix(s, h), h);
    var joined := Join(Separator(s, h), Crumbs(p, t, h));
    JoinLength(Separator(s, h), Crumbs(p, t, h));
    var m := Markup(p, t, h);
    assert m == NavOpen + span + joined + NavClose;
    assert m[..|NavOpen|] == NavOpen;
    assert m[|NavOpen|..|NavOpen| + |span|] == span;
    assert m[|NavOpen| + |span|..|m| - |NavClose|] == joined;
  }

  // ---------------------------------------------------------------------
  // seo_wp_generate_breadcrumbs, step by step

  /** One loop step: the crumb of ancestor `j` follows those of the ancestors beyond it. */
  lemma PostAncestorStep(t: Trail, ids: seq<int>, j: nat, h: Helpers, head: seq<string>, before: seq<string>, after: seq<string>)
    requires j < |ids|
    requires before == head + PostAncestorCrumbs(t, ids[j + 1..], h)
    requires after == before + [PostAncestorCrumb(t, ids[j], h)]
    ensures after == head + PostAncestorCrumbs(t, ids[j..], h)
  {
    assert ids[j..][1..] == ids[j + 1..];
    assert after == head + (PostAncestorCrumbs(t, ids[j + 1..], h) + [PostAncestorCrumb(t, ids[j], h)]);
  }

  /** The same step for parent terms, where an id that is not a term adds nothing. */
  lemma TermParentStep(t: Trail, ids: seq<int>, j: nat, h: Helpers, head: seq<string>, before: seq<string>, after: seq<string>)
    requires j < |ids|
    requires before == head + TermParentCrumbs(t, ids[j + 1..], h)
    requires after == before + TermParentCrumb(t, ids[j], h)
    ensures after == head + TermParentCrumbs(t, ids[j..], h)
  {
    assert ids[j..][1..] == ids[j + 1..];
    assert after == head + (TermParentCrumbs(t, ids[j + 1..], h) + TermParentCrumb(t, ids[j], h));
  }

  /** The `foreach` over `array_reverse(get_post_ancestors($post))`. */
  method AppendPostAncestors(breadcrumbs: seq<string>, t: Trail, h: Helpers) returns (out: seq<string>)
    ensures out == breadcrumbs + PostAncestorCrumbs(t, t.postAncestors, h)
  {
    var ancestors := Reverse(t.postAncestors);
    ReverseLength(t.postAncestors);
    var n := |ancestors|;
    out := breadcrumbs;
    for i := 0 to n
      invariant out == breadcrumbs + PostAncestorCrumbs(t, t.postAncestors[n - i..], h)
    {
      ReverseAt(t.postAncestors, i);
      var id := ancestors[i];
      ghost var before := out;
      out := out + [Anchor(h.escUrl(t.permalinkOf(id)), h.escHtml(t.titleOf(id)))];
      PostAncestorStep(t, t.postAncestors, n - i - 1, h, breadcrumbs, before, out);
    }
    assert t.postAncestors[0..] == t.postAncestors;
  }

  /** One iteration: `get_term` the parent and, unless it fails, append its link. */
  method AppendTermParent(breadcrumbs: seq<string>, t: Trail, id: int, h: Helpers) returns (out: seq<string>)
    ensures out == breadcrumbs + TermParentCrumb(t, id, h)
  {
    out := breadcrumbs;
    if id in t.terms {
      var parent := t.terms[id];
      out := out + [Anchor(h.escUrl(t.termLinkOf(parent)), h.escHtml(parent.name))];
    }
  }

  /** The `foreach` over `array_reverse(get_ancestors(…))`, skipping ids `get_term` rejects. */
  method AppendTermParents(breadcrumbs: seq<string>, t: Trail, h: Helpers) returns (out: seq<string>)
    ensures out == breadcrumbs + TermParentCrumbs(t, t.termAncestors, h)
  {
    var parents := Reverse(t.termAncestors);
    ReverseLength(t.termAncestors);
    var n := |parents|;
    out := breadcrumbs;
    for i := 0 to n
      invariant out == breadcrumbs + TermParentCrumbs(t, t.termAncestors[n - i..], h)
    {
      ReverseAt(t.termAncestors, i);
      var id := parents[i];
      ghost var before := out;
      out := AppendTermParent(out, t, id, h);
      TermParentStep(t, t.termAncestors, n - i - 1, h, breadcrumbs, before, out);
    }
    assert t.termAncestors[0..] == t.termAncestors;
  }

  method GenerateBreadcrumbs(p: Page, t: Trail, h: Helpers) returns (output: string)
    ensures output == Markup(p, t, h)
    ensures p.query.isFrontPage || p.query.isHome ==> output == ""
  {
    if p.query.isFrontPage || p.query.isHome {
      return "";
    }
    var settings := GetOption(p.options, AdvancedSettings);
    var separator := Separator(settings, h);
    var homeText := HomeText(settings, h);
    var prefix := Prefix(settings, h);
    var boldCurrent := !Empty(settings, BreadcrumbsBold);

    var breadcrumbs: seq<string> := [Anchor(h.escUrl(h.homeUrl("")), h.escHtml(homeText))];
    if p.query.isSingular {
      breadcrumbs := AppendPostAncestors(breadcrumbs, t, h);
      if boldCurrent {
        breadcrumbs := breadcrumbs + ["<strong>" + h.escHtml(t.currentTitle) + "</strong>"];
      } else {
        breadcrumbs := breadcrumbs + [h.escHtml(t.currentTitle)];
      }
    } else if IsTermArchive(p.query) {
      if p.query.queriedTerm.Some? && p.query.queriedTerm.value.parent != 0 {
        breadcrumbs := AppendTermParents(breadcrumbs, t, h);
      }
      breadcrumbs := breadcrumbs + [h.escHtml(t.singleTermTitle)];
    } else if p.query.isArchive {
      breadcrumbs := breadcrumbs + [h.escHtml(t.archiveTitle)];
    } else if p.query.isSearch {
      breadcrumbs := breadcrumbs + ["Search Results for: " + h.escHtml(t.searchQuery)];
    } else if p.query.is404 {
      breadcrumbs := breadcrumbs + ["404 Not Found"];
    }
    assert breadcrumbs == Crumbs(p, t, h);

    output := NavOpen;
    if StrTruthy(prefix) {
      output := output + "<span class=\"breadcrumbs-prefix\">" + h.escHtml(prefix) + "</span> ";
    }
    ghost var head := NavOpen + PrefixSpan(prefix, h);
    assert output == head;
    output := output + Join(separator, breadcrumbs);
    output := output + NavClose;
    assert output == head + Join(separator, breadcrumbs) + NavClose;
  }
}

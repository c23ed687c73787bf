/**
 * src/pages/Blog.tsx: the article page. The route parameter selects a post by
 * exact slug comparison (the first match in collection order); a miss asks
 * the router for "/404" and renders nothing. Inside the article, a code
 * block's language is read from its class name by `/language-(\w+)/` and a
 * highlighted block loses one trailing newline.
 */
module BlogPage {
  import opened Wrappers
  import opened BlogData

  /** `posts.findIndex(p => p.slug === slug)`: an absent parameter equals no slug. */
  function FindIndex(posts: seq<BlogPost>, slug: Option<string>): (r: Option<nat>)
    ensures r.Some? ==> r.value < |posts| && slug == Some(posts[r.value].slug)
    ensures r.Some? ==> forall k :: 0 <= k < r.value ==> slug != Some(posts[k].slug)
    ensures r.None? ==> forall k :: 0 <= k < |posts| ==> slug != Some(posts[k].slug)
  {
    if |posts| == 0 then None
    else if slug == Some(posts[0].slug) then Some(0)
    else match FindIndex(posts[1..], slug)
      case None => None
      case Some(i) => Some(i + 1)
  }

  /** `blogPosts.find((post) => post.slug === slug)` */
  function Find(posts: seq<BlogPost>, slug: Option<string>): Option<BlogPost> {
    match FindIndex(posts, slug)
    case None => None
    case Some(i) => Some(posts[i])
  }

  /** A found post carries the parameter as its slug, character for character. */
  lemma FoundHasSlug(posts: seq<BlogPost>, slug: Option<string>)
    requires Find(posts, slug).Some?
    ensures slug == Some(Find(posts, slug).value.slug)
    ensures Find(posts, slug).value in posts
  {
  }

  /** With several posts of the same slug, the earliest one is found. */
  lemma EarliestWins(posts: seq<BlogPost>, slug: string, i: nat)
    requires i < |posts| && posts[i].slug == slug
    requires forall k :: 0 <= k < i ==> posts[k].slug != slug
    ensures Find(posts, Some(slug)) == Some(posts[i])
  {
  }

  /** An absent parameter and a slug no post has both find nothing. */
  lemma MissFindsNothing(posts: seq<BlogPost>, slug: Option<string>)
    requires slug.None? || forall k :: 0 <= k < |posts| ==> posts[k].slug != slug.value
    ensures Find(posts, slug) == None
  {
  }

  /** The header fields the article shows, and the markdown body it renders. */
  datatype Article = Article(
    date: string, tags: seq<string>, title: string,
    image: string, imageAlt: string, body: string)

  /**
   * What the page produces: the path it asks the router to go to, if any,
   * and the article, if any (`return null` shows nothing).
   */
  datatype Page = Page(navigateTo: Option<string>, article: Option<Article>)

  const NotFoundPath := "/404"

  /** The article for a found post: its date, its tags in stored order, its title, its image with the title as alt text. */
  function ArticleOf(post: BlogPost): Article {
    Article(post.date, post.tags, post.title, post.image, post.title, post.content)
  }

  /** The `Blog` component for route parameter `slug`. */
  function BlogView(posts: seq<BlogPost>, slug: Option<string>): Page {
    match Find(posts, slug)
    case None => Page(Some(NotFoundPath), None)
    case Some(post) => Page(None, Some(ArticleOf(post)))
  }

  /**
   * The page shows an article exactly when a post has the slug, and then it is
   * that post's; otherwise it navigates to "/404" and shows nothing.
   */
  lemma BlogViewCases(posts: seq<BlogPost>, slug: Option<string>)
    ensures BlogView(posts, slug).article.Some?
        <==> exists k :: 0 <= k < |posts| && slug == Some(posts[k].slug)
    ensures BlogView(posts, slug).article.Some? ==> BlogView(posts, slug).navigateTo == None
    ensures BlogView(posts, slug).article.Some? ==>
      exists k :: 0 <= k < |posts| && slug == Some(posts[k].slug) && ShowsPost(BlogView(posts, slug).article.value, posts[k])
    ensures BlogView(posts, slug).article.None? ==> BlogView(posts, slug).navigateTo == Some(NotFoundPath)
  {
    match FindIndex(posts, slug) {
      case None =>
      case Some(i) => assert 0 <= i < |posts| && slug == Some(posts[i].slug);
    }
  }

  /**
   * The article header and body come from the post: its date, its tags in
   * stored order, its title, its image with the title as alt text, and its
   * markdown content.
   */
  predicate ShowsPost(a: Article, post: BlogPost) {
    && a.date == post.date && a.tags == post.tags && a.title == post.title
    && a.image == post.image && a.imageAlt == post.title && a.body == post.content
  }

  const BlogPrefix := "/blog/"

  /** `` `/blog/${slug}` ``: the link the cards and the listing give each post. */
  function LinkTo(slug: string): string {
    BlogPrefix + slug
  }

  /** An ASCII capital as its small letter; every other character as it is. */
  function FoldCase(c: char): char {
    if 'A' <= c <= 'Z' then (c as int + 32) as char else c
  }

  /** `a` and `b` agree up to the case of ASCII letters. */
  predicate SameIgnoringCase(a: string, b: string) {
    |a| == |b| && forall i :: 0 <= i < |a| ==> FoldCase(a[i]) == FoldCase(b[i])
  }

  /**
   * The `/blog/:slug` route, matched case-insensitively as the router does by
   * default: a path that is "/blog/" in any letter case followed by one
   * non-empty segment (no '/') gives that segment, case kept, as the parameter.
   */
  function MatchBlogRoute(path: string): (r: Option<string>)
    ensures r.Some? ==>
      && |path| == |BlogPrefix| + |r.value|
      && SameIgnoringCase(path[..|BlogPrefix|], BlogPrefix)
      && path[|BlogPrefix|..] == r.value
      && |r.value| >= 1 && '/' !in r.value
  {
    if |path| > |BlogPrefix| && SameIgnoringCase(path[..|BlogPrefix|], BlogPrefix) && '/' !in path[|BlogPrefix|..]
    then Some(path[|BlogPrefix|..])
    else None
  }

  /** After "/blog/" written in any letter case, a one-segment slug is given back unchanged. */
  lemma MatchLink(prefix: string, slug: string)
    requires SameIgnoringCase(prefix, BlogPrefix)
    requires |slug| >= 1 && '/' !in slug
    ensures MatchBlogRoute(prefix + slug) == Some(slug)
  {
    var path := prefix + slug;
    assert path[..|BlogPrefix|] == prefix;
    assert path[|BlogPrefix|..] == slug;
  }

  /** "/Blog/x" reaches the page with the parameter "x"; "/blogs/x" does not. */
  lemma RouteIgnoresCase()
    ensures MatchBlogRoute("/Blog/x") == Some("x")
    ensures MatchBlogRoute("/blogs/x") == None
  {
    assert SameIgnoringCase("/Blog/", BlogPrefix);
    MatchLink("/Blog/", "x");
    assert "/blogs/x"[..|BlogPrefix|] == "/blogs";
    assert FoldCase("/blogs"[5]) != FoldCase(BlogPrefix[5]);
  }

  /** A slug character is never '/'. */
  lemma SlugHasNoSlash(s: string)
    requires IsSlug(s)
    ensures |s| >= 1 && '/' !in s
  {
  }

  /** Following the link of any post of the site opens that post's article. */
  lemma LinkRoundTrip(posts: seq<BlogPost>, i: nat)
    requires posts == BlogPosts() && i < |posts|
    ensures MatchBlogRoute(LinkTo(posts[i].slug)) == Some(posts[i].slug)
    ensures Find(posts, MatchBlogRoute(LinkTo(posts[i].slug))) == Some(posts[i])
    ensures BlogView(posts, MatchBlogRoute(LinkTo(posts[i].slug))) == Page(None, Some(ArticleOf(posts[i])))
  {
    SlugsUrlSafe(posts);
    SlugHasNoSlash(posts[i].slug);
    assert SameIgnoringCase(BlogPrefix, BlogPrefix);
    MatchLink(BlogPrefix, posts[i].slug);
    SlugsDistinct(posts);
    EarliestWins(posts, posts[i].slug, i);
  }

  /** The route "/blog/building-enterprise-nodejs-apps" shows the Node.js article. */
  lemma NodeArticleFound(posts: seq<BlogPost>)
    requires posts == BlogPosts()
    ensures Find(posts, Some("building-enterprise-nodejs-apps")) == Some(NodePost())
    ensures NodePost().title == "Building Enterprise-grade Node.js Applications"
  {
    assert NodeSlug() == "building-enterprise-nodejs-apps";
    EarliestWins(posts, NodeSlug(), 0);
  }

  /** `\w`: an ASCII letter, digit or underscore. */
  predicate IsWordChar(c: char) {
    ('a' <= c <= 'z') || ('A' <= c <= 'Z') || ('0' <= c <= '9') || c == '_'
  }

  /** The length of the run of word characters `s` starts with (`\w+` is greedy). */
  function WordRun(s: string): (n: nat)
    ensures n <= |s|
    ensures forall k :: 0 <= k < n ==> IsWordChar(s[k])
    ensures n < |s| ==> !IsWordChar(s[n])
  {
    if |s| > 0 && IsWordChar(s[0]) then 1 + WordRun(s[1..]) else 0
  }

  const LanguagePrefix := "language-"

  /** The pattern `language-\w` matches at position `p` of `s`. */
  predicate MatchesAt(s: string, p: nat) {
    p + |LanguagePrefix| < |s|
    && s[p..p + |LanguagePrefix|] == LanguagePrefix
    && IsWordChar(s[p + |LanguagePrefix|])
  }

  /** The leftmost position at or after `from` where the pattern matches, as `exec` scans. */
  function FirstMatch(s: string, from: nat): (r: Option<nat>)
    ensures r.Some? ==> from <= r.value && MatchesAt(s, r.value)
    ensures r.Some? ==> forall q :: from <= q < r.value ==> !MatchesAt(s, q)
    ensures r.None? ==> forall q :: from <= q ==> !MatchesAt(s, q)
    decreases |s| - from
  {
    if from + |LanguagePrefix| >= |s| then None
    else if MatchesAt(s, from) then Some(from)
    else FirstMatch(s, from + 1)
  }

  /** `/language-(\w+)/.exec(className || '')`, reduced to its capture group. */
  function Language(className: Option<string>): Option<string> {
    var s := className.GetOr("");
    match FirstMatch(s, 0)
    case None => None
    case Some(p) =>
      var start := p + |LanguagePrefix|;
      Some(s[start..start + WordRun(s[start..])])
  }

  /** An absent or empty class name never gives a language. */
  lemma NoClassNoLanguage()
    ensures Language(None) == None && Language(Some("")) == None
  {
  }

  /** A language is found exactly when "language-" followed by a word character occurs somewhere. */
  lemma LanguageFoundIff(className: Option<string>)
    ensures Language(className).Some? <==> exists p: nat :: MatchesAt(className.GetOr(""), p)
  {
    var s := className.GetOr("");
    if FirstMatch(s, 0).Some? {
      assert MatchesAt(s, FirstMatch(s, 0).value);
    }
  }

  /**
   * The language found is the whole run of word characters after the leftmost
   * "language-" that a word character follows: non-empty, all word
   * characters, and not followed by another one.
   */
  lemma LanguageSpec(className: Option<string>)
    requires Language(className).Some?
    ensures var s := className.GetOr("");
      && FirstMatch(s, 0).Some?
      && var start := FirstMatch(s, 0).value + |LanguagePrefix|;
         var lang := Language(className).value;
         && 1 <= |lang| && start + |lang| <= |s|
         && lang == s[start..start + |lang|]
         && (forall k :: start <= k < start + |lang| ==> IsWordChar(s[k]))
         && (start + |lang| == |s| || !IsWordChar(s[start + |lang|]))
  {
    var s := className.GetOr("");
    var start := FirstMatch(s, 0).value + |LanguagePrefix|;
    WordRunAt(s, start);
  }

  /** The run of word characters starting at a word character of `s`, stated on `s` itself. */
  lemma WordRunAt(s: string, start: nat)
    requires start < |s| && IsWordChar(s[start])
    ensures var n := WordRun(s[start..]);
      && 1 <= n && start + n <= |s|
      && (forall k :: start <= k < start + n ==> IsWordChar(s[k]))
      && (start + n == |s| || !IsWordChar(s[start + n]))
  {
    var t := s[start..];
    var n := WordRun(t);
    assert IsWordChar(t[0]);
    assert forall k :: start <= k < start + n ==> s[k] == t[k - start];
    assert start + n < |s| ==> s[start + n] == t[n];
  }

  /** `String(children).replace(/\n$/, '')`: one newline at the very end is dropped. */
  function StripTrailingNewline(s: string): (r: string)
    ensures |r| <= |s| && r == s[..|r|]
    ensures |s| - |r| <= 1
  {
    if |s| > 0 && s[|s| - 1] == '\n' then s[..|s| - 1] else s
  }

  /** Exactly one final newline is removed, whatever precedes it. */
  lemma StripRemovesOne(t: string)
    ensures StripTrailingNewline(t + "\n") == t
  {
  }

  /** A string not ending in a newline is left as it is, interior newlines included. */
  lemma StripKeepsOthers(s: string)
    requires |s| == 0 || s[|s| - 1] != '\n'
    ensures StripTrailingNewline(s) == s
  {
  }

  /** What a markdown `code` element becomes. */
  datatype CodeView =
    | Highlighted(language: string, text: string)
    | PlainCode(className: Option<string>, children: string)

  /** The `code` renderer given to the markdown component. */
  function RenderCode(inline: bool, className: Option<string>, children: string): (v: CodeView)
    ensures v.Highlighted? <==> !inline && Language(className).Some?
    ensures v.Highlighted? ==>
      Language(className) == Some(v.language) && v.text == StripTrailingNewline(children)
    ensures v.PlainCode? ==> v.className == className && v.children == children
  {
    if !inline then
      match Language(className)
      case Some(lang) => Highlighted(lang, StripTrailingNewline(children))
      case None => PlainCode(className, children)
    else PlainCode(className, children)
  }
}

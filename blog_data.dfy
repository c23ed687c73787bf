/**
 * src/data/blog.ts: the `BlogPost` record and the fixed `blogPosts`
 * collection, in declaration order. Each post's markdown body is kept only
 * as its opening heading; titles, dates, excerpts, images, tags and slugs
 * are the stored ones (long texts are written as concatenated pieces).
 */
module BlogData {

  datatype BlogPost = BlogPost(
    title: string,
    date: string,
    excerpt: string,
    content: string,
    image: string,
    tags: seq<string>,
    slug: string)

  function NodeTitle(): string {
    "Building Enterprise-grade " + "Node.js Applications"
  }

  function NodeSlug(): string {
    "building-enterprise-" + "nodejs-apps"
  }

  function NodePost(): BlogPost {
    BlogPost(
      NodeTitle(),
      "March 15, 2024",
      "A comprehensive guide to " + "structuring large-scale "
        + "Node.js applications with " + "best practices, folder "
        + "organization, and " + "architectural patterns.",
      "\n# " + NodeTitle() + "\n",
      "/public/Node.webp",
      ["Node.js", "Architecture", "Backend", "Enterprise"],
      NodeSlug())
  }

  function CloudTitle(): string {
    "Deploying Full-Stack " + "Applications to the Cloud: "
    + "A Guide to AWS/GCP/Azure"
  }

  function CloudSlug(): string {
    "cloud-deployment-guide"
  }

  function CloudPost(): BlogPost {
    BlogPost(
      CloudTitle(),
      "March 25, 2024",
      "A comprehensive guide to " + "deploying full-stack "
        + "applications on major cloud " + "platforms, covering "
        + "infrastructure setup, CI/CD " + "pipelines, and best "
        + "practices for production " + "deployment.",
      "\n# " + CloudTitle() + "\n",
      "/public/cloud-deployment.jpeg",
      ["Cloud", "DevOps", "AWS", "GCP", "Azure", "CI/CD"],
      CloudSlug())
  }

  function ReactTitle(): string {
    "Building Large-scale React " + "Applications"
  }

  function ReactSlug(): string {
    "building-large-scale-" + "react-apps"
  }

  function ReactPost(): BlogPost {
    BlogPost(
      ReactTitle(),
      "March 20, 2024",
      "A comprehensive guide to " + "architecting scalable React "
        + "applications with best " + "practices, state " + "management, performance "
        + "optimization, and component " + "organization.",
      "\n# " + ReactTitle() + "\n",
      "/public/React.webp",
      ["React", "Architecture", "Frontend", "TypeScript"],
      ReactSlug())
  }

  /** `blogPosts`, in the order the file declares them. */
  function BlogPosts(): seq<BlogPost> {
    [NodePost(), CloudPost(), ReactPost()]
  }

  /** A character a slug may hold: a lower-case ASCII letter, a digit or '-'. */
  predicate IsSlugChar(c: char) {
    ('a' <= c <= 'z') || ('0' <= c <= '9') || c == '-'
  }

  /** No two posts share a slug, so a lookup by slug never has to break a tie. */
  lemma SlugsDistinct(posts: seq<BlogPost>)
    requires posts == BlogPosts()
    ensures forall i, j :: 0 <= i < j < |posts| ==> posts[i].slug != posts[j].slug
  {
    assert posts[0].slug[9] != posts[2].slug[9];
    assert posts[0].slug[0] != posts[1].slug[0];
    assert posts[1].slug[0] != posts[2].slug[0];
  }

  /** Every post has a first tag (the listing shows `tags[0]`). */
  lemma TagsNonEmpty(posts: seq<BlogPost>)
    requires posts == BlogPosts()
    ensures forall i :: 0 <= i < |posts| ==> |posts[i].tags| >= 1
  {
  }

  /** A non-empty run of slug characters: one URL path segment as it stands. */
  predicate IsSlug(s: string) {
    |s| >= 1 && forall k :: 0 <= k < |s| ==> IsSlugChar(s[k])
  }

  lemma NodeSlugIsSlug()
    ensures IsSlug(NodeSlug())
  {
  }

  lemma CloudSlugIsSlug()
    ensures IsSlug(CloudSlug())
  {
  }

  lemma ReactSlugIsSlug()
    ensures IsSlug(ReactSlug())
  {
  }

  /** Every slug is URL-safe. */
  lemma SlugsUrlSafe(posts: seq<BlogPost>)
    requires posts == BlogPosts()
    ensures forall i :: 0 <= i < |posts| ==> IsSlug(posts[i].slug)
  {
    NodeSlugIsSlug();
    CloudSlugIsSlug();
    ReactSlugIsSlug();
  }

  /** The collection is in declaration order, which is not date order: March 15, 25, then 20. */
  lemma DeclarationOrder(posts: seq<BlogPost>)
    requires posts == BlogPosts()
    ensures |posts| == 3
    ensures posts[0].title == NodeTitle() && posts[0].date == "March 15, 2024"
    ensures posts[1].title == CloudTitle() && posts[1].date == "March 25, 2024"
    ensures posts[2].title == ReactTitle() && posts[2].date == "March 20, 2024"
  {
  }
}

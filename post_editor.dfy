/**
 * The blog post editor's form state (client/src/pages/admin/PostEditor.tsx):
 * the default values, loading an existing post, the title handler that
 * derives the slug while creating, and the request a valid form is saved with.
 */
module PostEditor {
  import opened Wrappers
  import Schema
  import Slug
  import JsText

  /** A route parameter used as a condition (`if (postId)`): present and non-empty. */
  predicate Truthy(s: Option<string>) {
    s.Some? && s.value != ""
  }

  /** `a || ""` on an optional string. */
  function OrEmpty(s: Option<string>): (r: string)
    ensures Truthy(s) ==> r == s.value
    ensures !Truthy(s) ==> r == ""
  {
    if s.Some? then s.value else ""
  }

  const PostsPath := "/api/admin/posts"
  const DashboardPath := "/admin/dashboard"

  datatype Verb = Put | Post

  datatype SaveRequest = SaveRequest(verb: Verb, path: string, body: Schema.InsertBlogPost)

  /** A post as `GET /api/admin/posts/:id` returns it. */
  datatype StoredPost = StoredPost(
    title: string,
    slug: string,
    content: string,
    excerpt: Option<string>,
    author: string,
    featuredImageUrl: Option<string>,
    status: string)

  /** The form's values when it opens (`defaultValues`). */
  function DefaultValues(): (r: Schema.BlogPostInput)
    ensures r.title == "" && r.slug == "" && r.content == ""
    ensures r.author == Some("von AI Team") && r.status == Some("draft")
    ensures r.excerpt == Some("") && r.featuredImageUrl == Some("")
  {
    Schema.BlogPostInput("", "", "", Some(""), Some(Schema.DefaultAuthor), Some(""), Some(Schema.DefaultPostStatus))
  }

  /** The form as it opens cannot be saved: title, slug and content all fail,
      the empty slug under both of its rules. */
  lemma DefaultsRejected(isUrl: Schema.FormatCheck)
    ensures Schema.ParseBlogPost(DefaultValues(), isUrl) == Failure([
      Schema.Issue("title", Schema.TitleTooShort),
      Schema.Issue("slug", Schema.SlugTooShort),
      Schema.Issue("slug", Schema.SlugBadChars),
      Schema.Issue("content", Schema.ContentTooShort)])
  {
    var i := DefaultValues();
    assert !Schema.MatchesSlugPattern(i.slug);
    assert Schema.ImageUrlAccepted(i.featuredImageUrl, isUrl);
    assert Schema.ParseStatus(i.status) == Some(Schema.Draft);
    assert Schema.BlogPostIssues(i, isUrl) == [
      Schema.Issue("title", Schema.TitleTooShort),
      Schema.Issue("slug", Schema.SlugTooShort),
      Schema.Issue("slug", Schema.SlugBadChars),
      Schema.Issue("content", Schema.ContentTooShort)];
  }

  /** The request that saves a parsed post: an update of the post being edited,
      or the creation of a new one. */
  function SaveRequestFor(postId: Option<string>, data: Schema.InsertBlogPost): (r: SaveRequest)
    ensures r.body == data
    ensures r.verb == Put <==> Truthy(postId)
    ensures r.verb == Put ==> r.path == PostsPath + "/" + postId.value
    ensures r.verb == Post ==> r.path == PostsPath
    ensures |r.path| >= |PostsPath| && r.path[..|PostsPath|] == PostsPath
  {
    if Truthy(postId) then SaveRequest(Put, PostsPath + "/" + postId.value, data)
    else SaveRequest(Post, PostsPath, data)
  }

  /** The toast shown once the save has succeeded. */
  function SavedMessage(postId: Option<string>): (r: string)
    ensures r == "Post updated successfully" <==> Truthy(postId)
    ensures r == "Post created successfully" <==> !Truthy(postId)
  {
    if Truthy(postId) then "Post updated successfully" else "Post created successfully"
  }

  /** The update path names the edited post: the id is what follows the collection path and a slash. */
  lemma UpdatePathNamesPost(postId: Option<string>, data: Schema.InsertBlogPost)
    requires Truthy(postId)
    ensures var p := SaveRequestFor(postId, data).path;
      |p| > |PostsPath| + 1 && p[|PostsPath|] == '/' && p[|PostsPath| + 1..] == postId.value
  {
    var p := SaveRequestFor(postId, data).path;
    assert p == PostsPath + "/" + postId.value;
    assert p[|PostsPath| + 1..] == postId.value;
  }

  class PostForm {
    /** The `:id` of `/admin/posts/edit/:id`, absent when creating. */
    const postId: Option<string>

    var title: string
    var slug: string
    var content: string
    var excerpt: string
    var author: string
    var featuredImageUrl: string
    var status: string

    /** The values the form submits. */
    function Values(): Schema.BlogPostInput
      reads this
    {
      Schema.BlogPostInput(title, slug, content, Some(excerpt), Some(author), Some(featuredImageUrl), Some(status))
    }

    constructor (postId: Option<string>)
      ensures this.postId == postId
      ensures Values() == DefaultValues()
    {
      this.postId := postId;
      title, slug, content, excerpt := "", "", "", "";
      author, featuredImageUrl, status := Schema.DefaultAuthor, "", Schema.DefaultPostStatus;
    }

    /** `form.reset` with the loaded post: absent excerpt and image URL become "". */
    method Load(post: StoredPost)
      modifies this
      ensures Values() == Schema.BlogPostInput(post.title, post.slug, post.content,
        Some(OrEmpty(post.excerpt)), Some(post.author), Some(OrEmpty(post.featuredImageUrl)), Some(post.status))
    {
      title, slug, content := post.title, post.slug, post.content;
      excerpt := OrEmpty(post.excerpt);
      author := post.author;
      featuredImageUrl := OrEmpty(post.featuredImageUrl);
      status := post.status;
    }

    /** `handleTitleChange`: the title is set; the slug follows it only while creating. */
    method HandleTitleChange(value: string)
      modifies this
      ensures title == value
      ensures !Truthy(postId) ==> slug == Slug.Slugify(value)
      ensures Truthy(postId) ==> slug == old(slug)
      ensures content == old(content) && excerpt == old(excerpt) && author == old(author)
      ensures featuredImageUrl == old(featuredImageUrl) && status == old(status)
    {
      title := value;
      if !Truthy(postId) {
        slug := Slug.Slugify(value);
      }
    }

    /** `form.handleSubmit(onSubmit)`: the values are parsed by the insert
        schema, and only a parsed post is sent. */
    function Submit(isUrl: Schema.FormatCheck): (r: Result<SaveRequest, seq<Schema.Issue>>)
      reads this
      ensures r.Success? <==> Schema.BlogPostRules(Values(), isUrl)
      ensures r.Failure? ==> r.error != []
      ensures r.Success? ==>
        && r.value.body.title == title && r.value.body.slug == slug && r.value.body.content == content
        && r.value.body.author == author
        && Schema.StatusName(r.value.body.status) == status
        && (r.value.verb == Put <==> Truthy(postId))
    {
      match Schema.ParseBlogPost(Values(), isUrl)
      case Failure(issues) => Failure(issues)
      case Success(data) => Success(SaveRequestFor(postId, data))
    }
  }

  /** While creating, a title with at least one letter or digit gives a slug
      that passes the slug's character-class rule. */
  lemma CreatedSlugMatchesPattern(title: string)
    requires Slug.AlnumOf(JsText.ToLower(title)) != []
    ensures Schema.MatchesSlugPattern(Slug.Slugify(title))
  {
    Slug.SlugEmptyIffNoAlnum(title);
    Slug.SlugMatchesPatternIffNonEmpty(title);
  }
}

/**
 * Table rows, column defaults and the insert/login validation schemas
 * (shared/schema.ts).
 *
 * A schema either accepts its input, producing the parsed value with defaults
 * filled in, or rejects it with the list of every failing check in field
 * order, as zod does. zod's `.email()` and `.url()` checks are oracles.
 */
module Schema {
  import opened Wrappers

  /** zod's format checks (`.email()`, `.url()`), taken as given. */
  type FormatCheck = string -> bool

  /** One failing check: the field and its message. */
  datatype Issue = Issue(field: string, message: string)

  // ---------------------------------------------------------------------------
  // Column defaults

  const DefaultSubscriberStatus := "active"
  const DefaultLeadStatus := "new"
  const DefaultPostStatus := "draft"
  const DefaultAuthor := "von AI Team"
  const DefaultFeatured := "false"

  /** A `newsletter_subscribers` row (id omitted; the email is the key of the table). */
  datatype SubscriberRow = SubscriberRow(subscribedAt: int, status: string)

  /** A `contact_leads` row as inserted. */
  datatype LeadRow = LeadRow(
    name: string,
    email: string,
    company: Option<string>,
    phone: Option<string>,
    message: string,
    serviceInterest: Option<string>,
    submittedAt: int,
    status: string)

  /** A `testimonials` row. */
  datatype TestimonialRow = TestimonialRow(
    name: string,
    title: string,
    company: string,
    quote: string,
    avatarUrl: Option<string>,
    companyLogoUrl: Option<string>,
    featured: string)

  /** A row inserted with only `email` given: `subscribed_at` and `status` take their defaults. */
  function NewSubscriber(now: int): (r: SubscriberRow)
    ensures r.status == "active" && r.subscribedAt == now
  {
    SubscriberRow(now, DefaultSubscriberStatus)
  }

  /** A lead inserted without `status` or `submitted_at`. */
  function NewLead(name: string, email: string, company: Option<string>, phone: Option<string>,
                   message: string, serviceInterest: Option<string>, now: int): (r: LeadRow)
    ensures r.status == "new" && r.submittedAt == now
    ensures (r.name, r.email, r.company, r.phone, r.message, r.serviceInterest)
         == (name, email, company, phone, message, serviceInterest)
  {
    LeadRow(name, email, company, phone, message, serviceInterest, now, DefaultLeadStatus)
  }

  /** A testimonial inserted without `featured`. */
  function NewTestimonial(name: string, title: string, company: string, quote: string,
                          avatarUrl: Option<string>, companyLogoUrl: Option<string>): (r: TestimonialRow)
    ensures r.featured == "false"
    ensures r.companyLogoUrl == companyLogoUrl && r.company == company && r.name == name
  {
    TestimonialRow(name, title, company, quote, avatarUrl, companyLogoUrl, DefaultFeatured)
  }

  // ---------------------------------------------------------------------------
  // Blog posts

  datatype PostStatus = Draft | Published

  function StatusName(s: PostStatus): string {
    match s
    case Draft => "draft"
    case Published => "published"
  }

  /** The body given to `insertBlogPostSchema` (absent optional keys are `None`). */
  datatype BlogPostInput = BlogPostInput(
    title: string,
    slug: string,
    content: string,
    excerpt: Option<string>,
    author: Option<string>,
    featuredImageUrl: Option<string>,
    status: Option<string>)

  /** The parsed `InsertBlogPost`. */
  datatype InsertBlogPost = InsertBlogPost(
    title: string,
    slug: string,
    content: string,
    excerpt: Option<string>,
    author: string,
    featuredImageUrl: Option<string>,
    status: PostStatus)

  predicate IsSlugChar(c: char) {
    ('a' <= c <= 'z') || ('0' <= c <= '9') || c == '-'
  }

  /** `/^[a-z0-9-]+$/` */
  predicate MatchesSlugPattern(s: string) {
    |s| >= 1 && forall i :: 0 <= i < |s| ==> IsSlugChar(s[i])
  }

  const TitleTooShort := "Title must be at least 5 characters"
  const SlugTooShort := "Slug must be at least 3 characters"
  const SlugBadChars := "Slug must only contain lowercase letters, numbers, and hyphens"
  const ContentTooShort := "Content must be at least 50 characters"
  const InvalidUrl := "Invalid url"

  function InvalidStatus(received: string): string {
    "Invalid enum value. Expected 'draft' | 'published', received '" + received + "'"
  }

  /** `z.string().url().optional().or(z.literal(""))` */
  predicate ImageUrlAccepted(u: Option<string>, isUrl: FormatCheck) {
    u.None? || u.value == "" || isUrl(u.value)
  }

  /** `z.enum(["draft", "published"]).default("draft")` */
  function ParseStatus(s: Option<string>): Option<PostStatus> {
    if s.None? || s.value == "draft" then Some(Draft)
    else if s.value == "published" then Some(Published)
    else None
  }

  function Check(ok: bool, field: string, message: string): seq<Issue> {
    if ok then [] else [Issue(field, message)]
  }

  /** Every failing check of `insertBlogPostSchema`, in field order. */
  function BlogPostIssues(i: BlogPostInput, isUrl: FormatCheck): seq<Issue> {
    Check(|i.title| >= 5, "title", TitleTooShort)
    + Check(|i.slug| >= 3, "slug", SlugTooShort)
    + Check(MatchesSlugPattern(i.slug), "slug", SlugBadChars)
    + Check(|i.content| >= 50, "content", ContentTooShort)
    + Check(ImageUrlAccepted(i.featuredImageUrl, isUrl), "featuredImageUrl", InvalidUrl)
    + Check(ParseStatus(i.status).Some?, "status", InvalidStatus(if i.status.Some? then i.status.value else ""))
  }

  /** The rules a blog post must meet, stated positively. */
  predicate BlogPostRules(i: BlogPostInput, isUrl: FormatCheck) {
    && |i.title| >= 5
    && |i.slug| >= 3 && (forall k :: 0 <= k < |i.slug| ==> IsSlugChar(i.slug[k]))
    && |i.content| >= 50
    && (i.featuredImageUrl.None? || i.featuredImageUrl.value == "" || isUrl(i.featuredImageUrl.value))
    && (i.status.None? || i.status.value in {"draft", "published"})
  }

  /** `insertBlogPostSchema.safeParse`. */
  function ParseBlogPost(i: BlogPostInput, isUrl: FormatCheck): (r: Result<InsertBlogPost, seq<Issue>>)
    ensures r.Success? <==> BlogPostRules(i, isUrl)
    ensures r.Failure? ==> r.error != []
    ensures r.Success? ==>
      && (r.value.title, r.value.slug, r.value.content, r.value.excerpt, r.value.featuredImageUrl)
         == (i.title, i.slug, i.content, i.excerpt, i.featuredImageUrl)
      && r.value.author == (if i.author.Some? then i.author.value else "von AI Team")
      && StatusName(r.value.status) == (if i.status.Some? then i.status.value else "draft")
  {
    var issues := BlogPostIssues(i, isUrl);
    if issues != [] then Failure(issues)
    else
      var author := if i.author.Some? then i.author.value else DefaultAuthor;
      Success(InsertBlogPost(i.title, i.slug, i.content, i.excerpt, author, i.featuredImageUrl, ParseStatus(i.status).value))
  }

  /** A slug that is too short and has a bad character is reported twice, under both rules. */
  lemma SlugChecksBothReported(i: BlogPostInput, isUrl: FormatCheck)
    requires |i.title| >= 5 && |i.content| >= 50 && i.featuredImageUrl.None? && i.status.None?
    requires |i.slug| < 3 && !MatchesSlugPattern(i.slug)
    ensures ParseBlogPost(i, isUrl) == Failure([Issue("slug", SlugTooShort), Issue("slug", SlugBadChars)])
  {
    assert Check(|i.title| >= 5, "title", TitleTooShort) == [];
    assert Check(|i.content| >= 50, "content", ContentTooShort) == [];
    assert Check(ImageUrlAccepted(i.featuredImageUrl, isUrl), "featuredImageUrl", InvalidUrl) == [];
    assert BlogPostIssues(i, isUrl) == [Issue("slug", SlugTooShort), Issue("slug", SlugBadChars)];
  }

  // ---------------------------------------------------------------------------
  // Contact leads

  /** The body given to `insertContactLeadSchema`; `None` stands for null or absent. */
  datatype ContactLeadInput = ContactLeadInput(
    name: string,
    email: string,
    company: Option<string>,
    phone: Option<string>,
    message: string,
    serviceInterest: Option<string>)

  const InvalidEmail := "Please enter a valid email address"
  const NameTooShort := "Name must be at least 2 characters"
  const MessageTooShort := "Please provide more details (at least 10 characters)"

  function ContactLeadIssues(i: ContactLeadInput, isEmail: FormatCheck): seq<Issue> {
    Check(|i.name| >= 2, "name", NameTooShort)
    + Check(isEmail(i.email), "email", InvalidEmail)
    + Check(|i.message| >= 10, "message", MessageTooShort)
  }

  /** `insertContactLeadSchema.safeParse`: the parsed lead is the input itself. */
  function ParseContactLead(i: ContactLeadInput, isEmail: FormatCheck): (r: Result<ContactLeadInput, seq<Issue>>)
    ensures r.Success? <==> |i.name| >= 2 && isEmail(i.email) && |i.message| >= 10
    ensures r.Success? ==> r.value == i
    ensures r.Failure? ==> r.error != [] && forall k :: 0 <= k < |r.error| ==> r.error[k].field in {"name", "email", "message"}
  {
    var issues := ContactLeadIssues(i, isEmail);
    if issues != [] then Failure(issues) else Success(i)
  }

  // ---------------------------------------------------------------------------
  // Newsletter subscribers and login

  /** `insertNewsletterSubscriberSchema.safeParse`. */
  function ParseSubscriber(email: string, isEmail: FormatCheck): (r: Result<string, seq<Issue>>)
    ensures r.Success? <==> isEmail(email)
    ensures r.Success? ==> r.value == email
    ensures r.Failure? ==> r.error == [Issue("email", "Please enter a valid email address")]
  {
    if isEmail(email) then Success(email) else Failure([Issue("email", InvalidEmail)])
  }

  const UsernameTooShort := "Username must be at least 3 characters"
  const PasswordTooShort := "Password must be at least 6 characters"

  /** `loginSchema.safeParse`. */
  function ParseLogin(username: string, password: string): (r: Result<(string, string), seq<Issue>>)
    ensures r.Success? <==> |username| >= 3 && |password| >= 6
    ensures r.Success? ==> r.value == (username, password)
    ensures r.Failure? ==> 1 <= |r.error| <= 2
  {
    var issues := Check(|username| >= 3, "username", UsernameTooShort)
                + Check(|password| >= 6, "password", PasswordTooShort);
    if issues != [] then Failure(issues) else Success((username, password))
  }
}

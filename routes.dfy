/**
 * The public API routes (server/routes.ts): the blog listing, a post by its
 * slug, newsletter subscription and contact-form intake.
 *
 * A `Registry` holds the three tables the routes touch. Each call into the
 * database is an oracle given as a parameter: whether it answered, returned
 * an error or threw. Where the database computes the answer (filtering,
 * ordering, a single row), the model computes it from the table. Every
 * handler is a method whose response and new tables are those of a
 * specification function; the properties are proved about those functions.
 */
module Routes {
  import opened Wrappers
  import Schema

  /** A `blog_posts` row (id, timestamps other than `published_date` and the
      optional display fields are left out). */
  datatype Post = Post(title: string, slug: string, content: string, status: string, publishedDate: Option<int>)

  datatype Body =
    | ErrorJson(error: string)
    | MessageJson(message: string)
    /** `{ error: fromError(result.error).toString() }`, kept as the issues it renders. */
    | ValidationJson(issues: seq<Schema.Issue>)
    | PostsJson(posts: seq<Post>)
    | PostJson(post: Post)

  datatype Response = Response(status: int, body: Body)

  const Unavailable := Response(503, ErrorJson("Database service unavailable"))
  const InternalError := Response(500, ErrorJson("Internal server error"))
  const AlreadySubscribed := "Email already subscribed"
  const FailedToSubscribe := "Failed to subscribe"
  const Published := "published"
  /** PostgREST's code when `.single()` does not find exactly one row. */
  const NotExactlyOneRow := "PGRST116"

  /** How a select whose result the handler reads came back. */
  datatype Query = Answered | AnsweredNull | QueryFailed(code: Option<string>) | QueryThrew

  /** How the `existing` lookup of the subscribe handler came back: `Seen`
      gives the row if there is one; `Missed` stands for an error, which the
      handler does not look at, so `existing` is null. */
  datatype Lookup = Seen | Missed | LookupThrew

  /** How an insert or update came back. */
  datatype Write = Written | WriteFailed | WriteThrew

  // ---------------------------------------------------------------------------
  // GET /api/blog/posts

  /** `a` may come before `b` in `ORDER BY published_date DESC`: PostgreSQL
      puts nulls first when ordering descending. */
  predicate ComesBefore(a: Option<int>, b: Option<int>) {
    a.None? || (b.Some? && a.value >= b.value)
  }

  ghost predicate NewestFirst(ps: seq<Post>) {
    forall i, j :: 0 <= i < j < |ps| ==> ComesBefore(ps[i].publishedDate, ps[j].publishedDate)
  }

  /** `.eq("status", "published")` */
  function PublishedOf(ps: seq<Post>): (r: seq<Post>)
    ensures forall p :: p in r <==> p in ps && p.status == Published
    decreases |ps|
  {
    if ps == [] then []
    else (if ps[0].status == Published then [ps[0]] else []) + PublishedOf(ps[1..])
  }

  function InsertByDate(p: Post, ps: seq<Post>): (r: seq<Post>)
    requires NewestFirst(ps)
    ensures NewestFirst(r)
    ensures multiset(r) == multiset(ps) + multiset{p}
    decreases |ps|
  {
    if ps == [] then [p]
    else if ComesBefore(p.publishedDate, ps[0].publishedDate) then
      InsertFront(p, ps);
      [p] + ps
    else
      var rest := InsertByDate(p, ps[1..]);
      assert ps == [ps[0]] + ps[1..];
      InsertBehind(ps[0], p, ps[1..], rest);
      [ps[0]] + rest
  }

  lemma InsertFront(p: Post, ps: seq<Post>)
    requires ps != [] && NewestFirst(ps) && ComesBefore(p.publishedDate, ps[0].publishedDate)
    ensures NewestFirst([p] + ps)
  {
    var r := [p] + ps;
    forall i, j | 0 <= i < j < |r| ensures ComesBefore(r[i].publishedDate, r[j].publishedDate) {
      if i == 0 && j > 1 {
        assert ComesBefore(ps[0].publishedDate, ps[j - 1].publishedDate);
      }
    }
  }

  lemma InsertBehind(head: Post, p: Post, tail: seq<Post>, rest: seq<Post>)
    requires NewestFirst([head] + tail) && NewestFirst(rest)
    requires !ComesBefore(p.publishedDate, head.publishedDate)
    requires multiset(rest) == multiset(tail) + multiset{p}
    ensures NewestFirst([head] + rest)
  {
    var r := [head] + rest;
    forall j | 0 < j < |r| ensures ComesBefore(head.publishedDate, r[j].publishedDate) {
      assert r[j] in multiset(rest);
      if r[j] != p {
        assert r[j] in tail;
        var k :| 0 <= k < |tail| && tail[k] == r[j];
        assert ([head] + tail)[0] == head && ([head] + tail)[k + 1] == r[j];
      }
    }
  }

  /** `.order("published_date", { ascending: false })`, ties kept in table order. */
  function NewestFirstOrder(ps: seq<Post>): (r: seq<Post>)
    ensures NewestFirst(r)
    ensures multiset(r) == multiset(ps)
    decreases |ps|
  {
    if ps == [] then [] else
      assert ps == [ps[0]] + ps[1..];
      InsertByDate(ps[0], NewestFirstOrder(ps[1..]))
  }

  function ListPostsSpec(dbAvailable: bool, table: seq<Post>, query: Query): (r: Response)
    ensures !dbAvailable ==> r == Unavailable
    ensures dbAvailable && query.QueryFailed? ==> r == Response(500, ErrorJson("Failed to fetch blog posts"))
    ensures dbAvailable && query == QueryThrew ==> r == InternalError
    ensures dbAvailable && query == AnsweredNull ==> r == Response(200, PostsJson([]))
    ensures r.status == 200 ==> r.body.PostsJson? && NewestFirst(r.body.posts)
    ensures dbAvailable && query == Answered ==>
      && r.status == 200 && r.body.PostsJson?
      && multiset(r.body.posts) == multiset(PublishedOf(table))
      && (forall p :: p in r.body.posts <==> p in table && p.status == Published)
  {
    if !dbAvailable then Unavailable
    else match query
      case QueryThrew => InternalError
      case QueryFailed(_) => Response(500, ErrorJson("Failed to fetch blog posts"))
      case AnsweredNull => Response(200, PostsJson([]))
      case Answered =>
        var r := NewestFirstOrder(PublishedOf(table));
        assert forall p :: p in r <==> p in multiset(PublishedOf(table));
        Response(200, PostsJson(r))
  }

  // ---------------------------------------------------------------------------
  // GET /api/blog/posts/:slug

  /** `.eq("slug", slug).eq("status", "published")` */
  function MatchingPosts(ps: seq<Post>, slug: string): (r: seq<Post>)
    ensures forall p :: p in r <==> p in ps && p.slug == slug && p.status == Published
    decreases |ps|
  {
    if ps == [] then []
    else (if ps[0].slug == slug && ps[0].status == Published then [ps[0]] else []) + MatchingPosts(ps[1..], slug)
  }

  function PostBySlugSpec(dbAvailable: bool, table: seq<Post>, slug: string, query: Query): (r: Response)
    ensures !dbAvailable ==> r == Unavailable
    ensures r.status == 200 ==>
      && r.body.PostJson? && r.body.post in table
      && r.body.post.slug == slug && r.body.post.status == Published
    ensures dbAvailable && query.QueryFailed? ==>
      r == if query.code == Some(NotExactlyOneRow) then Response(404, ErrorJson("Blog post not found"))
           else Response(500, ErrorJson("Failed to fetch blog post"))
    ensures dbAvailable && query == QueryThrew ==> r == InternalError
    ensures dbAvailable && query == Answered ==>
      (r.status == 404 <==> |MatchingPosts(table, slug)| != 1)
    ensures dbAvailable && query == Answered && |MatchingPosts(table, slug)| == 1 ==>
      r == Response(200, PostJson(MatchingPosts(table, slug)[0]))
    ensures dbAvailable && query == Answered && (forall p :: p in table ==> p.slug != slug || p.status != Published)
      ==> r == Response(404, ErrorJson("Blog post not found"))
  {
    if !dbAvailable then Unavailable
    else match query
      case QueryThrew => InternalError
      case QueryFailed(code) =>
        if code == Some(NotExactlyOneRow) then Response(404, ErrorJson("Blog post not found"))
        else Response(500, ErrorJson("Failed to fetch blog post"))
      case _ =>
        // `.single()` answers with the one matching row, or fails with PGRST116.
        var m := MatchingPosts(table, slug);
        if |m| == 1 then
          assert m[0] in m;
          Response(200, PostJson(m[0]))
        else
          assert m == [] ==> |m| != 1;
          Response(404, ErrorJson("Blog post not found"))
  }

  // ---------------------------------------------------------------------------
  // POST /api/newsletter/subscribe

  type Subscribers = map<string, Schema.SubscriberRow>

  function SubscribeSpec(dbAvailable: bool, store: Subscribers, email: string, isEmail: Schema.FormatCheck,
                         now: int, lookup: Lookup, write: Write): (r: (Response, Subscribers))
    ensures !dbAvailable ==> r == (Unavailable, store)
    ensures dbAvailable && !isEmail(email) ==> r.0.status == 400 && r.1 == store
    ensures r.0.status != 200 ==> r.1 == store
    ensures r.0.status == 200 ==>
      && dbAvailable && isEmail(email) && write == Written
      && (email in store ==> store[email].status != "active")
      && r.1 == store[email := Schema.NewSubscriber(now)]
    ensures dbAvailable && isEmail(email) && lookup == Seen && email in store && store[email].status == "active"
      ==> r == (Response(400, ErrorJson(AlreadySubscribed)), store)
    ensures dbAvailable && isEmail(email) && lookup != LookupThrew && email !in store && write == Written
      ==> r == (Response(200, MessageJson("Successfully subscribed!")), store[email := Schema.NewSubscriber(now)])
    ensures dbAvailable && isEmail(email) && lookup == Seen && email in store && store[email].status != "active" && write == Written
      ==> r == (Response(200, MessageJson("Successfully resubscribed!")), store[email := Schema.NewSubscriber(now)])
    ensures store.Keys <= r.1.Keys && |r.1.Keys| <= |store.Keys| + 1
  {
    if !dbAvailable then (Unavailable, store)
    else match Schema.ParseSubscriber(email, isEmail)
      case Failure(issues) => (Response(400, ValidationJson(issues)), store)
      case Success(email) =>
        if lookup == LookupThrew then (InternalError, store)
        else if lookup == Seen && email in store then
          if store[email].status == Schema.DefaultSubscriberStatus then (Response(400, ErrorJson(AlreadySubscribed)), store)
          else if write == WriteThrew then (InternalError, store)
          else if write == WriteFailed then (Response(500, ErrorJson(FailedToSubscribe)), store)
          else
            // The update sets `status` to "active" and `subscribed_at` to now: the row a fresh insert gets.
            assert write == Written;
            (Response(200, MessageJson("Successfully resubscribed!")), store[email := Schema.SubscriberRow(now, "active")])
        else if write == WriteThrew then (InternalError, store)
        // An insert of an address the table has breaks its unique constraint.
        else if write == WriteFailed || email in store then (Response(500, ErrorJson(FailedToSubscribe)), store)
        else
          assert write == Written;
          (Response(200, MessageJson("Successfully subscribed!")), store[email := Schema.NewSubscriber(now)])
  }

  /** Subscribing an address that has just been subscribed is refused and changes nothing. */
  lemma SubscribeTwiceRefused(store: Subscribers, email: string, isEmail: Schema.FormatCheck,
                              now: int, later: int, lookup: Lookup, write: Write, write': Write)
    requires SubscribeSpec(true, store, email, isEmail, now, lookup, write).0.status == 200
    ensures var s' := SubscribeSpec(true, store, email, isEmail, now, lookup, write).1;
      SubscribeSpec(true, s', email, isEmail, later, Seen, write') == (Response(400, ErrorJson(AlreadySubscribed)), s')
  {
    var s' := SubscribeSpec(true, store, email, isEmail, now, lookup, write).1;
    assert s'[email].status == "active";
  }

  /** A subscription never touches another address's row. */
  lemma SubscribeLeavesOthers(dbAvailable: bool, store: Subscribers, email: string, isEmail: Schema.FormatCheck,
                              now: int, lookup: Lookup, write: Write, other: string)
    requires other != email
    ensures var s' := SubscribeSpec(dbAvailable, store, email, isEmail, now, lookup, write).1;
      (other in s' <==> other in store) && (other in store ==> s'[other] == store[other])
  {
  }

  // ---------------------------------------------------------------------------
  // POST /api/contact/submit

  /** `value || null` */
  function NullIfEmpty(v: Option<string>): (r: Option<string>)
    ensures r.None? <==> v.None? || v.value == ""
    ensures r.Some? ==> r == v
  {
    if v.Some? && v.value != "" then v else None
  }

  function SubmitContactSpec(dbAvailable: bool, leads: seq<Schema.LeadRow>, input: Schema.ContactLeadInput,
                             isEmail: Schema.FormatCheck, now: int, write: Write): (r: (Response, seq<Schema.LeadRow>))
    ensures !dbAvailable ==> r == (Unavailable, leads)
    ensures r.0.status != 200 ==> r.1 == leads
    ensures dbAvailable && !(|input.name| >= 2 && isEmail(input.email) && |input.message| >= 10) ==> r.0.status == 400
    ensures r.0.status == 200 <==> dbAvailable && |input.name| >= 2 && isEmail(input.email) && |input.message| >= 10 && write == Written
    ensures r.0.status == 200 ==>
      && |r.1| == |leads| + 1 && r.1[..|leads|] == leads
      && var lead := r.1[|leads|];
      && lead.name == input.name && lead.email == input.email && lead.message == input.message
      && lead.company == NullIfEmpty(input.company) && lead.phone == NullIfEmpty(input.phone)
      && lead.serviceInterest == NullIfEmpty(input.serviceInterest)
      && lead.status == "new" && lead.submittedAt == now
  {
    if !dbAvailable then (Unavailable, leads)
    else match Schema.ParseContactLead(input, isEmail)
      case Failure(issues) => (Response(400, ValidationJson(issues)), leads)
      case Success(d) =>
        if write == WriteThrew then (InternalError, leads)
        else if write == WriteFailed then (Response(500, ErrorJson("Failed to submit contact form")), leads)
        else
          var lead := Schema.NewLead(d.name, d.email, NullIfEmpty(d.company), NullIfEmpty(d.phone),
                                     d.message, NullIfEmpty(d.serviceInterest), now);
          assert (leads + [lead])[..|leads|] == leads;
          assert write == Written && d == input;
          (Response(200, MessageJson("Message sent successfully!")), leads + [lead])
  }

  // ---------------------------------------------------------------------------
  // The handlers

  class Registry {
    /** `isSupabaseAvailable && supabase` */
    const dbAvailable: bool
    /** `newsletter_subscribers`, keyed by its unique `email`. */
    var subscribers: Subscribers
    /** `contact_leads`, in insertion order. */
    var leads: seq<Schema.LeadRow>
    /** `blog_posts`, in table order. */
    var posts: seq<Post>

    constructor (dbAvailable: bool, subscribers: Subscribers, leads: seq<Schema.LeadRow>, posts: seq<Post>)
      ensures this.dbAvailable == dbAvailable && this.subscribers == subscribers
      ensures this.leads == leads && this.posts == posts
    {
      this.dbAvailable := dbAvailable;
      this.subscribers, this.leads, this.posts := subscribers, leads, posts;
    }

    method ListPosts(query: Query) returns (res: Response)
      ensures res == ListPostsSpec(dbAvailable, posts, query)
    {
      if !dbAvailable {
        return Unavailable;
      }
      match query {
        case QueryThrew => res := InternalError;
        case QueryFailed(_) => res := Response(500, ErrorJson("Failed to fetch blog posts"));
        case AnsweredNull => res := Response(200, PostsJson([]));
        case Answered => res := Response(200, PostsJson(NewestFirstOrder(PublishedOf(posts))));
      }
    }

    method GetPostBySlug(slug: string, query: Query) returns (res: Response)
      ensures res == PostBySlugSpec(dbAvailable, posts, slug, query)
    {
      if !dbAvailable {
        return Unavailable;
      }
      if query == QueryThrew {
        return InternalError;
      }
      if query.QueryFailed? {
        if query.code == Some(NotExactlyOneRow) {
          return Response(404, ErrorJson("Blog post not found"));
        }
        return Response(500, ErrorJson("Failed to fetch blog post"));
      }
      var m := MatchingPosts(posts, slug);
      if |m| == 1 {
        res := Response(200, PostJson(m[0]));
      } else {
        res := Response(404, ErrorJson("Blog post not found"));
      }
    }

    method Subscribe(email: string, isEmail: Schema.FormatCheck, now: int, lookup: Lookup, write: Write)
      returns (res: Response)
      modifies this
      ensures (res, subscribers) == SubscribeSpec(dbAvailable, old(subscribers), email, isEmail, now, lookup, write)
      ensures leads == old(leads) && posts == old(posts)
    {
      if !dbAvailable {
        return Unavailable;
      }
      var parsed := Schema.ParseSubscriber(email, isEmail);
      if parsed.Failure? {
        return Response(400, ValidationJson(parsed.error));
      }
      var email := parsed.value;
      if lookup == LookupThrew {
        return InternalError;
      }
      var existing: Option<Schema.SubscriberRow> := if lookup == Seen && email in subscribers then Some(subscribers[email]) else None;
      if existing.Some? {
        if existing.value.status == Schema.DefaultSubscriberStatus {
          return Response(400, ErrorJson(AlreadySubscribed));
        }
        if write == WriteThrew {
          return InternalError;
        }
        if write == WriteFailed {
          return Response(500, ErrorJson(FailedToSubscribe));
        }
        subscribers := subscribers[email := Schema.SubscriberRow(now, "active")];
        return Response(200, MessageJson("Successfully resubscribed!"));
      }
      if write == WriteThrew {
        return InternalError;
      }
      if write == WriteFailed || email in subscribers {
        return Response(500, ErrorJson(FailedToSubscribe));
      }
      subscribers := subscribers[email := Schema.NewSubscriber(now)];
      res := Response(200, MessageJson("Successfully subscribed!"));
    }

    method SubmitContact(input: Schema.ContactLeadInput, isEmail: Schema.FormatCheck, now: int, write: Write)
      returns (res: Response)
      modifies this
      ensures (res, leads) == SubmitContactSpec(dbAvailable, old(leads), input, isEmail, now, write)
      ensures subscribers == old(subscribers) && posts == old(posts)
    {
      if !dbAvailable {
        return Unavailable;
      }
      var parsed := Schema.ParseContactLead(input, isEmail);
      if parsed.Failure? {
        return Response(400, ValidationJson(parsed.error));
      }
      var d := parsed.value;
      if write == WriteThrew {
        return InternalError;
      }
      if write == WriteFailed {
        return Response(500, ErrorJson("Failed to submit contact form"));
      }
      leads := leads + [Schema.NewLead(d.name, d.email, NullIfEmpty(d.company), NullIfEmpty(d.phone),
                                       d.message, NullIfEmpty(d.serviceInterest), now)];
      res := Response(200, MessageJson("Message sent successfully!"));
    }
  }
}

/** The forum handlers: query values read with `parseInt(x) || default`
    (no radix), the post's author taken from the authenticated user, and
    the service's results mapped onto status codes. */
module CommunauteController {
  import opened Common
  import opened Json
  import opened Http
  import opened Postgres
  import opened Pagination
  import opened CommunauteService

  const InvalidCategory := "Catégorie invalide."
  const PostNotFound := "Post non trouvé."
  const PostNotFoundForComment := "Post non trouvé pour commenter."

  /** `res.json(x)` of a listing, or the global handler. */
  function Listing<T>(r: Result<Page<T>, DbError>): (a: Reply<Page<T>>)
    ensures r.Ok? ==> a == Data(200, r.value)
    ensures r.Err? ==> a == GlobalHandler(Database(r.error)) && a.status == 500
  {
    match r
    case Ok(page) => Data(200, page)
    case Err(e) => GlobalHandler(Database(e))
  }

  /** `getCategories`: page 1 and limit 20 unless the query says
      otherwise. */
  function GetCategories(forum: Forum, page: Option<string>, limit: Option<string>): (a: Reply<Page<Category>>)
    reads forum
    ensures var p, l := QueryIntAuto(page, 1), QueryIntAuto(limit, 20);
      (a.status == 200 <==> Pageable(p, l)) &&
      (a.status == 200 ==> a == Data(200, forum.GetCategories(Some(p), Some(l)).value)) &&
      (a.status != 200 ==> a.status == 500)
  {
    Listing(forum.GetCategories(Some(QueryIntAuto(page, 1)), Some(QueryIntAuto(limit, 20))))
  }

  /** `createPost`: 201 with the post; any foreign-key violation (an
      unknown category, or an unknown author) is the 400 about the
      category; other errors go to the global handler. */
  method CreatePost(forum: Forum, user: nat, body: Json, now: int, engine: Post -> Option<DbError>)
    returns (a: Reply<Post>)
    requires forum.Valid()
    modifies forum
    ensures forum.Valid()
    ensures IntegerColumn(Get(body, "categorie_id")).Refused? ==>
      a == GlobalHandler(Database(IntegerColumn(Get(body, "categorie_id")).e)) && forum.posts == old(forum.posts)
    ensures !IntegerColumn(Get(body, "categorie_id")).Refused? ==>
      var p := NewPost(old(forum.nextPostId), user, body, now);
      match old(forum.PostVerdict(p, engine))
      case None => a == Data(201, p) && forum.posts == old(forum.posts)[p.id := p]
      case Some(e) =>
        forum.posts == old(forum.posts) &&
        a == if e.code == ForeignKeyViolation then Message(400, InvalidCategory) else GlobalHandler(Database(e))
  {
    var r := forum.CreatePost(user, body, now, engine);
    match r
    case Ok(p) =>
      a := Data(201, p);
    case Err(e) =>
      a := if e.code == ForeignKeyViolation then Message(400, InvalidCategory) else GlobalHandler(Database(e));
  }

  /** `getPosts`: the category's posts, page 1 and limit 10 by default. */
  function GetPosts(forum: Forum, categoryId: string, page: Option<string>, limit: Option<string>): (a: Reply<Page<PostView>>)
    reads forum
    ensures var p, l := QueryIntAuto(page, 1), QueryIntAuto(limit, 10);
      (a.status == 200 <==> IntegerParam(categoryId).Ok? && Pageable(p, l)) &&
      (a.status == 200 ==> a == Data(200, forum.GetPostsByCategorie(categoryId, Some(p), Some(l)).value)) &&
      (a.status != 200 ==> a.status == 500)
  {
    Listing(forum.GetPostsByCategorie(categoryId, Some(QueryIntAuto(page, 1)), Some(QueryIntAuto(limit, 10))))
  }

  /** `getPostDetails`: 200 with the post, 404 when there is none. */
  function GetPostDetails(forum: Forum, postId: string): (a: Reply<PostView>)
    reads forum
    ensures forum.GetPostById(postId) == Ok(None) <==> a == Message(404, PostNotFound)
    ensures a.status == 200 <==> forum.GetPostById(postId).Ok? && forum.GetPostById(postId).value.Some?
    ensures a.status == 200 ==> a == Data(200, forum.GetPostById(postId).value.value)
    ensures forum.GetPostById(postId).Err? ==> a.status == 500
  {
    match forum.GetPostById(postId)
    case Err(e) => GlobalHandler(Database(e))
    case Ok(None) => Message(404, PostNotFound)
    case Ok(Some(v)) => Data(200, v)
  }

  /** `addCommentToPost`: the post is looked up first; when it is
      missing, the answer is 404 and nothing is written. */
  method AddCommentToPost(forum: Forum, postId: string, user: nat, body: Json, now: int, engine: Comment -> Option<DbError>)
    returns (a: Reply<Comment>)
    requires forum.Valid()
    modifies forum
    ensures forum.Valid()
    ensures old(forum.GetPostById(postId)).Err? ==>
      a.status == 500 && forum.posts == old(forum.posts) && forum.comments == old(forum.comments)
    ensures old(forum.GetPostById(postId)) == Ok(None) ==>
      a == Message(404, PostNotFoundForComment) && forum.posts == old(forum.posts) && forum.comments == old(forum.comments)
    ensures old(forum.GetPostById(postId)).Ok? && old(forum.GetPostById(postId)).value.Some? ==>
      var i := IntegerParam(postId).value;
      var c := Comment(old(forum.nextCommentId), i, user, Field(body, "contenu_commentaire"), now);
      forum.posts == Stamped(old(forum.posts), i, now) &&
      match old(forum.CommentVerdict(c, engine))
      case None => a == Data(201, c) && forum.comments == old(forum.comments)[c.id := c]
      case Some(e) => a == GlobalHandler(Database(e)) && forum.comments == old(forum.comments)
  {
    var existing := forum.GetPostById(postId);
    if existing.Err? {
      return GlobalHandler(Database(existing.error));
    }
    if existing.value.None? {
      return Message(404, PostNotFoundForComment);
    }
    var r := forum.AddComment(postId, user, Get(body, "contenu_commentaire"), now, engine);
    match r
    case Ok(c) =>
      a := Data(201, c);
    case Err(e) =>
      a := GlobalHandler(Database(e));
  }

  /** `getCommentsForPost`: the post's comments, page 1 and limit 10 by
      default. */
  function GetCommentsForPost(forum: Forum, postId: string, page: Option<string>, limit: Option<string>): (a: Reply<Page<CommentView>>)
    reads forum
    ensures var p, l := QueryIntAuto(page, 1), QueryIntAuto(limit, 10);
      (a.status == 200 <==> IntegerParam(postId).Ok? && Pageable(p, l)) &&
      (a.status == 200 ==> a == Data(200, forum.GetCommentsByPost(postId, Some(p), Some(l)).value)) &&
      (a.status != 200 ==> a.status == 500)
  {
    Listing(forum.GetCommentsByPost(postId, Some(QueryIntAuto(page, 1)), Some(QueryIntAuto(limit, 10))))
  }
}

/** The forum: categories (read only), posts and comments, each post and
    comment joined with its author from `utilisateurs` when listed or
    shown. Route parameters reach the queries as strings, which
    PostgreSQL reads as integers. */
module CommunauteService {
  import opened Common
  import opened Json
  import opened Http
  import opened Postgres
  import opened Sorting
  import opened Pagination
  import opened Tables

  /** The error of a row whose category, post or author does not exist. */
  const MissingReference := DbError(ForeignKeyViolation, "violates foreign key constraint")

  datatype Category = Category(id: nat, name: string, description: Json)

  /** The columns of `utilisateurs` the forum shows. */
  datatype Author = Author(name: Json, email: string)

  /** A post; `lastComment` is `dernier_commentaire_date`, NULL until the
      first comment. */
  datatype Post = Post(id: nat, author: nat, categoryId: Option<int>, title: Json, content: Json,
                       createdAt: int, lastComment: Option<int>)

  datatype Comment = Comment(id: nat, postId: int, author: nat, content: Json, createdAt: int)

  /** `fp.*` with `auteur_nom` and `auteur_email`. */
  datatype PostView = PostView(post: Post, authorName: Json, authorEmail: string)

  /** `fc.*` with `auteur_nom` and `auteur_email`. */
  datatype CommentView = CommentView(comment: Comment, authorName: Json, authorEmail: string)

  /** `ORDER BY nom_categorie`, in code-point order. */
  predicate ByName(a: Category, b: Category)
  {
    StrLe(a.name, b.name)
  }

  lemma ByNameIsTotalPreorder()
    ensures TotalPreorder(ByName)
  {
    forall a: Category, b: Category
      ensures ByName(a, b) || ByName(b, a)
    {
      StrLeTotal(a.name, b.name);
    }
    forall a: Category, b: Category, c: Category | ByName(a, b) && ByName(b, c)
      ensures ByName(a, c)
    {
      StrLeTransitive(a.name, b.name, c.name);
    }
  }

  /** `ORDER BY dernier_commentaire_date DESC, date_creation DESC`: posts
      never commented come first, then the most recently commented. */
  predicate LatestActivityFirst(a: PostView, b: PostView)
  {
    DescNullsFirst(a.post.lastComment, b.post.lastComment) ||
    (a.post.lastComment == b.post.lastComment && a.post.createdAt >= b.post.createdAt)
  }

  lemma LatestActivityFirstIsTotalPreorder()
    ensures TotalPreorder(LatestActivityFirst)
  {
  }

  /** A post that was never commented precedes every commented post. */
  lemma UncommentedFirst(a: PostView, b: PostView)
    requires a.post.lastComment.None? && b.post.lastComment.Some?
    ensures LatestActivityFirst(a, b) && !LatestActivityFirst(b, a)
  {
  }

  /** `ORDER BY fc.date_creation ASC`. */
  predicate OldestFirst(a: CommentView, b: CommentView)
  {
    a.comment.createdAt <= b.comment.createdAt
  }

  class Forum {
    var categories: seq<Category>
    var authors: map<nat, Author>
    var posts: map<nat, Post>
    var comments: map<nat, Comment>
    var nextPostId: nat
    var nextCommentId: nat

    /** Rows are keyed by their id below their sequence's next value, and
        the foreign keys hold: authors exist, a post's category exists, a
        comment's post exists. */
    ghost predicate Valid()
      reads this
    {
      (forall id :: id in posts ==>
        id < nextPostId && posts[id].id == id && posts[id].author in authors &&
        (posts[id].categoryId.Some? ==> HasCategory(categories, posts[id].categoryId.value))) &&
      (forall id :: id in comments ==>
        id < nextCommentId && comments[id].id == id && comments[id].author in authors &&
        comments[id].postId >= 0 && comments[id].postId as nat in posts)
    }

    constructor (categories: seq<Category>, authors: map<nat, Author>)
      ensures Valid() && this.categories == categories && this.authors == authors
      ensures posts == map[] && comments == map[] && nextPostId == 1 && nextCommentId == 1
    {
      this.categories := categories;
      this.authors := authors;
      posts := map[];
      comments := map[];
      nextPostId := 1;
      nextCommentId := 1;
    }

    /** `getCategories`: by name, page 1 and limit 20 when not given. */
    function GetCategories(page: Option<int>, limit: Option<int>): (r: Result<Page<Category>, DbError>)
      reads this
      requires limit != Some(0)
      ensures var p, l := OrDefault(page, 1), OrDefault(limit, 20);
        (r.Ok? <==> Pageable(p, l)) &&
        (r.Ok? ==>
          var sorted := SortBy(categories, ByName);
          r.value.pagination == PageInfo(p, CeilDiv(|categories|, l), |categories|, l) &&
          0 <= Min(|sorted|, (p - 1) * l) <= Min(|sorted|, p * l) <= |sorted| &&
          r.value.data == sorted[Min(|sorted|, (p - 1) * l)..Min(|sorted|, p * l)] &&
          |r.value.data| <= l &&
          SortedBy(r.value.data, ByName) &&
          forall c :: c in r.value.data ==> c in categories)
    {
      var p, l := OrDefault(page, 1), OrDefault(limit, 20);
      var sorted := SortBy(categories, ByName);
      var r := Paginate(sorted, |categories|, p, l);
      if r.Ok? then
        ByNameIsTotalPreorder();
        SortBySorted(categories, ByName);
        PageOfSorted(sorted, |categories|, ByName, p, l);
        assert forall c :: c in sorted ==> c in multiset(categories);
        r
      else r
    }

    /** `createPost`: a category the column cannot read is refused before
        the sequence moves; otherwise the post takes the next id, the
        caller as author, no comment date, and is stored unless the
        database refuses it (`engine`: the constraints other than the
        foreign keys) or its category or author does not exist. */
    method CreatePost(user: nat, data: Json, now: int, engine: Post -> Option<DbError>)
      returns (r: Result<Post, DbError>)
      requires Valid()
      modifies this
      ensures Valid() && unchanged(this`categories, this`authors, this`comments, this`nextCommentId)
      ensures IntegerColumn(Get(data, "categorie_id")).Refused? ==>
        r == Err(IntegerColumn(Get(data, "categorie_id")).e) && posts == old(posts) && nextPostId == old(nextPostId)
      ensures !IntegerColumn(Get(data, "categorie_id")).Refused? ==>
        nextPostId == old(nextPostId) + 1 &&
        var p := NewPost(old(nextPostId), user, data, now);
        match PostVerdict(p, engine)
        case Some(e) => r == Err(e) && posts == old(posts)
        case None => r == Ok(p) && posts == old(posts)[p.id := p]
    {
      var column := IntegerColumn(Get(data, "categorie_id"));
      if column.Refused? {
        return Err(column.e);
      }
      var p := NewPost(nextPostId, user, data, now);
      nextPostId := nextPostId + 1;
      var failure := PostVerdict(p, engine);
      if failure.Some? {
        return Err(failure.value);
      }
      posts := posts[p.id := p];
      r := Ok(p);
    }

    /** The database's verdict on a new post: its other constraints, then
        the foreign keys to the category and to the author. */
    function PostVerdict(p: Post, engine: Post -> Option<DbError>): (e: Option<DbError>)
      reads this
      ensures e.None? <==>
        engine(p).None? && p.author in authors &&
        (p.categoryId.Some? ==> HasCategory(categories, p.categoryId.value))
      ensures engine(p).None? && e.Some? ==> e.value.code == ForeignKeyViolation
    {
      if engine(p).Some? then engine(p)
      else if !(p.author in authors) || (p.categoryId.Some? && !HasCategory(categories, p.categoryId.value)) then
        Some(MissingReference)
      else None
    }

    /** The category's posts joined with their authors, in id order. */
    function CategoryPosts(c: int): (vs: seq<PostView>)
      reads this
      ensures forall v :: v in vs ==> PostOfCategory(v, c)
    {
      var table := authors;
      var vs := Select(posts, nextPostId, (id: nat, p: Post) => if p.categoryId == Some(c) && p.author in table then Some(PostView(p, table[p.author].name, table[p.author].email)) else None);
      vs
    }

    /** `v` shows a stored post of category `c` with its author. */
    ghost predicate PostOfCategory(v: PostView, c: int)
      reads this
    {
      exists id: nat :: id in posts && posts[id] == v.post && v.post.categoryId == Some(c) &&
        v.post.author in authors && v.authorName == authors[v.post.author].name &&
        v.authorEmail == authors[v.post.author].email
    }

    /** `SELECT COUNT(*) FROM forum_posts WHERE categorie_id = $1`. */
    function CategoryCount(c: int): nat
      reads this
    {
      Count(posts, nextPostId, (p: Post) => p.categoryId == Some(c))
    }

    /** Under the author foreign key the join drops nothing: the count is
        the number of rows listed. */
    lemma CountMatchesPosts(c: int)
      requires Valid()
      ensures CategoryCount(c) == |CategoryPosts(c)|
    {
      var table := authors;
      SelectCounted(posts, nextPostId,
        (id: nat, p: Post) => if p.categoryId == Some(c) && p.author in table then Some(PostView(p, table[p.author].name, table[p.author].email)) else None,
        (p: Post) => p.categoryId == Some(c));
    }

    /** `getPostsByCategorie`: the category's posts newest activity first,
        page 1 and limit 10 when not given, and their count; a category
        parameter that is not an integer is refused. */
    function GetPostsByCategorie(category: string, page: Option<int>, limit: Option<int>): (r: Result<Page<PostView>, DbError>)
      reads this
      requires limit != Some(0)
      ensures IntegerParam(category).Err? ==> r == Err(IntegerParam(category).error)
      ensures IntegerParam(category).Ok? ==>
        var c, p, l := IntegerParam(category).value, OrDefault(page, 1), OrDefault(limit, 10);
        (r.Ok? <==> Pageable(p, l)) &&
        (r.Ok? ==>
          var sorted := SortBy(CategoryPosts(c), LatestActivityFirst);
          r.value.pagination == PageInfo(p, CeilDiv(CategoryCount(c), l), CategoryCount(c), l) &&
          0 <= Min(|sorted|, (p - 1) * l) <= Min(|sorted|, p * l) <= |sorted| &&
          r.value.data == sorted[Min(|sorted|, (p - 1) * l)..Min(|sorted|, p * l)] &&
          |r.value.data| <= l &&
          SortedBy(r.value.data, LatestActivityFirst) &&
          forall v :: v in r.value.data ==> PostOfCategory(v, c))
    {
      match IntegerParam(category)
      case Err(e) => Err(e)
      case Ok(c) =>
        var p, l := OrDefault(page, 1), OrDefault(limit, 10);
        var views := CategoryPosts(c);
        var sorted := SortBy(views, LatestActivityFirst);
        var r := Paginate(sorted, CategoryCount(c), p, l);
        if r.Ok? then
          LatestActivityFirstIsTotalPreorder();
          SortBySorted(views, LatestActivityFirst);
          PageOfSorted(sorted, CategoryCount(c), LatestActivityFirst, p, l);
          assert forall v :: v in sorted ==> v in multiset(views);
          r
        else r
    }

    /** `getPostById`: the post with its author, or `None`. */
    function GetPostById(postId: string): (r: Result<Option<PostView>, DbError>)
      reads this
      ensures IntegerParam(postId).Err? ==> r == Err(IntegerParam(postId).error)
      ensures IntegerParam(postId).Ok? ==>
        var i := IntegerParam(postId).value;
        r.Ok? &&
        (r.value.Some? <==> i >= 0 && i as nat in posts && posts[i as nat].author in authors) &&
        (r.value.Some? ==> r.value.value.post == posts[i as nat] &&
                           r.value.value.authorName == authors[posts[i as nat].author].name &&
                           r.value.value.authorEmail == authors[posts[i as nat].author].email)
    {
      match IntegerParam(postId)
      case Err(e) => Err(e)
      case Ok(i) =>
        if i >= 0 && i as nat in posts && posts[i as nat].author in authors then
          var p := posts[i as nat];
          Ok(Some(PostView(p, authors[p.author].name, authors[p.author].email)))
        else Ok(None)
    }

    /** `addComment`: two statements, not a transaction. The first stamps
        the post's `dernier_commentaire_date` (when the post exists); the
        second inserts the comment with the next comment id. When the
        insert fails, the stamp stays. */
    method AddComment(postId: string, user: nat, content: Option<Json>, now: int, engine: Comment -> Option<DbError>)
      returns (r: Result<Comment, DbError>)
      requires Valid()
      modifies this
      ensures Valid() && unchanged(this`categories, this`authors, this`nextPostId)
      ensures IntegerParam(postId).Err? ==>
        r == Err(IntegerParam(postId).error) && posts == old(posts) && comments == old(comments) &&
        nextCommentId == old(nextCommentId)
      ensures IntegerParam(postId).Ok? ==>
        var i := IntegerParam(postId).value;
        var c := Comment(old(nextCommentId), i, user, if content.Some? then content.value else JNull, now);
        nextCommentId == old(nextCommentId) + 1 &&
        posts == Stamped(old(posts), i, now) &&
        match CommentVerdict(c, engine)
        case Some(e) => r == Err(e) && comments == old(comments)
        case None => r == Ok(c) && comments == old(comments)[c.id := c]
    {
      var param := IntegerParam(postId);
      if param.Err? {
        return Err(param.error);
      }
      var i := param.value;
      posts := Stamped(posts, i, now);
      var c := Comment(nextCommentId, i, user, if content.Some? then content.value else JNull, now);
      nextCommentId := nextCommentId + 1;
      var failure := CommentVerdict(c, engine);
      if failure.Some? {
        return Err(failure.value);
      }
      comments := comments[c.id := c];
      r := Ok(c);
    }

    /** The database's verdict on a new comment: its other constraints,
        then the foreign keys to the post and to the author. */
    function CommentVerdict(c: Comment, engine: Comment -> Option<DbError>): (e: Option<DbError>)
      reads this
      ensures e.None? <==> engine(c).None? && c.author in authors && c.postId >= 0 && c.postId as nat in posts
      ensures engine(c).None? && e.Some? ==> e.value.code == ForeignKeyViolation
    {
      if engine(c).Some? then engine(c)
      else if !(c.author in authors && c.postId >= 0 && c.postId as nat in posts) then Some(MissingReference)
      else None
    }

    /** The post's comments joined with their authors, in id order. */
    function PostComments(i: int): (vs: seq<CommentView>)
      reads this
      ensures forall v :: v in vs ==> CommentOfPost(v, i)
    {
      var table := authors;
      Select(comments, nextCommentId, (id: nat, c: Comment) => if c.postId == i && c.author in table then Some(CommentView(c, table[c.author].name, table[c.author].email)) else None)
    }

    /** `v` shows a stored comment of post `i` with its author. */
    ghost predicate CommentOfPost(v: CommentView, i: int)
      reads this
    {
      exists id: nat :: id in comments && comments[id] == v.comment && v.comment.postId == i &&
        v.comment.author in authors && v.authorName == authors[v.comment.author].name &&
        v.authorEmail == authors[v.comment.author].email
    }

    /** `SELECT COUNT(*) FROM forum_commentaires WHERE post_id = $1`. */
    function CommentCount(i: int): nat
      reads this
    {
      Count(comments, nextCommentId, (c: Comment) => c.postId == i)
    }

    /** Under the author foreign key the count is the number of comments
        listed. */
    lemma CountMatchesComments(i: int)
      requires Valid()
      ensures CommentCount(i) == |PostComments(i)|
    {
      var table := authors;
      SelectCounted(comments, nextCommentId,
        (id: nat, c: Comment) => if c.postId == i && c.author in table then Some(CommentView(c, table[c.author].name, table[c.author].email)) else None,
        (c: Comment) => c.postId == i);
    }

    /** `getCommentsByPost`: the post's comments oldest first, page 1 and
        limit 10 when not given, and their count. */
    function GetCommentsByPost(postId: string, page: Option<int>, limit: Option<int>): (r: Result<Page<CommentView>, DbError>)
      reads this
      requires limit != Some(0)
      ensures IntegerParam(postId).Err? ==> r == Err(IntegerParam(postId).error)
      ensures IntegerParam(postId).Ok? ==>
        var i, p, l := IntegerParam(postId).value, OrDefault(page, 1), OrDefault(limit, 10);
        (r.Ok? <==> Pageable(p, l)) &&
        (r.Ok? ==>
          var sorted := SortBy(PostComments(i), OldestFirst);
          r.value.pagination == PageInfo(p, CeilDiv(CommentCount(i), l), CommentCount(i), l) &&
          0 <= Min(|sorted|, (p - 1) * l) <= Min(|sorted|, p * l) <= |sorted| &&
          r.value.data == sorted[Min(|sorted|, (p - 1) * l)..Min(|sorted|, p * l)] &&
          |r.value.data| <= l &&
          SortedBy(r.value.data, OldestFirst) &&
          forall v :: v in r.value.data ==> CommentOfPost(v, i))
    {
      match IntegerParam(postId)
      case Err(e) => Err(e)
      case Ok(i) =>
        var p, l := OrDefault(page, 1), OrDefault(limit, 10);
        var views := PostComments(i);
        var sorted := SortBy(views, OldestFirst);
        var r := Paginate(sorted, CommentCount(i), p, l);
        if r.Ok? then
          SortBySorted(views, OldestFirst);
          PageOfSorted(sorted, CommentCount(i), OldestFirst, p, l);
          assert forall v :: v in sorted ==> v in multiset(views);
          r
        else r
    }
  }

  predicate HasCategory(categories: seq<Category>, id: int)
  {
    exists k :: 0 <= k < |categories| && categories[k].id == id
  }

  /** The post as `createPost` inserts it. */
  function NewPost(id: nat, user: nat, data: Json, now: int): (p: Post)
    ensures p.id == id && p.author == user && p.lastComment.None? && p.createdAt == now
    ensures p.categoryId == Stored(IntegerColumn(Get(data, "categorie_id")), None)
  {
    Post(id, user, Stored(IntegerColumn(Get(data, "categorie_id")), None),
         Field(data, "titre_post"), Field(data, "contenu_post"), now, None)
  }

  /** `UPDATE forum_posts SET dernier_commentaire_date = NOW() WHERE id = $1`:
      the post with that id, if any, gets the date; nothing else changes. */
  function Stamped(posts: map<nat, Post>, i: int, now: int): (r: map<nat, Post>)
    ensures r.Keys == posts.Keys
    ensures forall id :: id in posts && id != i ==> r[id] == posts[id]
    ensures forall id :: id in posts ==> r[id] == posts[id].(lastComment := r[id].lastComment)
    ensures i >= 0 && i as nat in posts ==> r[i as nat] == posts[i as nat].(lastComment := Some(now))
  {
    if i >= 0 && i as nat in posts then posts[i as nat := posts[i as nat].(lastComment := Some(now))] else posts
  }
}

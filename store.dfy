/**
 * The article store: three tables (articles, comments, likes) kept in the
 * order the browser storage holds them. Every change rewrites a table, and
 * the derived like and comment counts of an article are recomputed from the
 * tables after each change that can move them.
 *
 * Ids are the millisecond clock at creation and the display timestamps are
 * the locale rendering of the clock; both are passed in.
 */
module Store {
  import opened Common

  datatype Article = Article(
    id: int, title: string, author: string, content: string, status: string, category: string,
    tags: seq<string>, createTime: string, updateTime: string,
    viewCount: nat, likeCount: nat, commentCount: nat)

  /** The fields a caller supplies for a new article. */
  datatype ArticleDraft = ArticleDraft(
    title: string, author: string, content: string, status: string, category: string, tags: seq<string>)

  /** The fields an update supplies; an absent one keeps its value. */
  datatype ArticleUpdate = ArticleUpdate(
    title: Option<string>, author: Option<string>, content: Option<string>, status: Option<string>,
    category: Option<string>, tags: Option<seq<string>>,
    viewCount: Option<nat>, likeCount: Option<nat>, commentCount: Option<nat>)

  const NoChange: ArticleUpdate := ArticleUpdate(None, None, None, None, None, None, None, None, None)

  datatype Comment = Comment(
    id: int, articleId: int, author: string, email: string, content: string,
    createTime: string, status: string, likes: nat, parentId: Option<int>)

  datatype CommentDraft = CommentDraft(
    articleId: int, author: string, email: string, content: string, parentId: Option<int>)

  datatype Like = Like(id: int, articleId: int, userIp: string, createTime: string)

  /** The answer of a like or unlike. */
  datatype Outcome = Outcome(success: bool, message: string)

  // ------------------------------------------------------------ articles

  /** findIndex by id: the first article with that id. */
  function IndexOf(articles: seq<Article>, id: int): (r: Option<nat>)
    ensures r.Some? ==> r.value < |articles| && articles[r.value].id == id
    ensures r.Some? ==> forall k :: 0 <= k < r.value ==> articles[k].id != id
    ensures r.None? ==> forall k :: 0 <= k < |articles| ==> articles[k].id != id
  {
    if articles == [] then None
    else if articles[0].id == id then Some(0)
    else
      var rest := IndexOf(articles[1..], id);
      if rest.Some? then Some(rest.value + 1) else None
  }

  /** Two tables with the same ids position by position find every id at the same place. */
  lemma {:induction false} IndexOfSameIds(a: seq<Article>, b: seq<Article>, id: int)
    requires |a| == |b| && forall k :: 0 <= k < |a| ==> a[k].id == b[k].id
    ensures IndexOf(a, id) == IndexOf(b, id)
  {
    if a != [] {
      IndexOfSameIds(a[1..], b[1..], id);
    }
  }

  /** `{ ...article, ...updateData, updateTime }`. */
  function Patched(a: Article, p: ArticleUpdate, stamp: string): Article
  {
    Article(
      a.id,
      if p.title.Some? then p.title.value else a.title,
      if p.author.Some? then p.author.value else a.author,
      if p.content.Some? then p.content.value else a.content,
      if p.status.Some? then p.status.value else a.status,
      if p.category.Some? then p.category.value else a.category,
      if p.tags.Some? then p.tags.value else a.tags,
      a.createTime, stamp,
      if p.viewCount.Some? then p.viewCount.value else a.viewCount,
      if p.likeCount.Some? then p.likeCount.value else a.likeCount,
      if p.commentCount.Some? then p.commentCount.value else a.commentCount)
  }

  /**
   * The articles table after updateArticle: the first article with the id
   * merged with the update, every other row as it was; no change when the
   * id is absent.
   */
  function Updated(articles: seq<Article>, id: int, p: ArticleUpdate, stamp: string): (r: seq<Article>)
    ensures |r| == |articles|
    ensures forall k :: 0 <= k < |r| ==> r[k].id == articles[k].id
    ensures IndexOf(articles, id).None? ==> r == articles
    ensures IndexOf(articles, id).Some? ==>
      var i := IndexOf(articles, id).value;
      r[i] == Patched(articles[i], p, stamp) && forall k :: 0 <= k < |r| && k != i ==> r[k] == articles[k]
    ensures IndexOf(r, id) == IndexOf(articles, id)
  {
    var i := IndexOf(articles, id);
    var r := if i.Some? then articles[i.value := Patched(articles[i.value], p, stamp)] else articles;
    IndexOfSameIds(r, articles, id);
    r
  }

  /** comments.find by id: the first comment with that id. */
  function FindComment(comments: seq<Comment>, id: int): (r: Option<Comment>)
    ensures r.Some? <==> exists k :: 0 <= k < |comments| && comments[k].id == id
    ensures r.Some? ==> r.value in comments && r.value.id == id
  {
    if comments == [] then None
    else if comments[0].id == id then Some(comments[0])
    else
      var rest := FindComment(comments[1..], id);
      assert rest.Some? <==> exists k :: 0 <= k < |comments| && comments[k].id == id by {
        if exists k :: 0 <= k < |comments| && comments[k].id == id {
          var k :| 0 <= k < |comments| && comments[k].id == id;
          assert comments[1..][k - 1] == comments[k];
        }
      }
      rest
  }

  // -------------------------------------------------------- table filters

  function ArticleIdIsNot(id: int): Article -> bool { (a: Article) => a.id != id }
  function CommentIdIsNot(id: int): Comment -> bool { (c: Comment) => c.id != id }
  function CommentOn(articleId: int): Comment -> bool { (c: Comment) => c.articleId == articleId }
  function CommentNotOn(articleId: int): Comment -> bool { (c: Comment) => c.articleId != articleId }
  function LikeOn(articleId: int): Like -> bool { (l: Like) => l.articleId == articleId }
  function LikeNotOn(articleId: int): Like -> bool { (l: Like) => l.articleId != articleId }

  /** The like of one visitor for one article. */
  predicate SamePair(l: Like, articleId: int, userIp: string) {
    l.articleId == articleId && l.userIp == userIp
  }

  function NotPair(articleId: int, userIp: string): Like -> bool { (l: Like) => !SamePair(l, articleId, userIp) }

  /** getCommentsByArticleId(id).length. */
  function CommentCount(comments: seq<Comment>, articleId: int): nat {
    Count(comments, CommentOn(articleId))
  }

  /** getLikesByArticleId(id).length. */
  function LikeCount(likes: seq<Like>, articleId: int): nat {
    Count(likes, LikeOn(articleId))
  }

  /** hasUserLiked. */
  predicate HasLike(likes: seq<Like>, articleId: int, userIp: string) {
    exists k :: 0 <= k < |likes| && SamePair(likes[k], articleId, userIp)
  }

  /** No visitor has two likes on one article. */
  predicate OneLikePerPair(likes: seq<Like>) {
    forall i, j :: 0 <= i < j < |likes| ==> !SamePair(likes[j], likes[i].articleId, likes[i].userIp)
  }

  /** Removing rows keeps the likes one per pair. */
  lemma {:induction false} FilterKeepsOneLikePerPair(likes: seq<Like>, p: Like -> bool)
    requires OneLikePerPair(likes)
    ensures OneLikePerPair(Filter(likes, p))
  {
    if likes != [] {
      var rest := likes[1..];
      assert OneLikePerPair(rest) by {
        forall i, j | 0 <= i < j < |rest| ensures !SamePair(rest[j], rest[i].articleId, rest[i].userIp) {
          assert rest[i] == likes[i + 1] && rest[j] == likes[j + 1];
        }
      }
      FilterKeepsOneLikePerPair(rest, p);
      if p(likes[0]) {
        var r := Filter(likes, p);
        var fr := Filter(rest, p);
        assert r == [likes[0]] + fr;
        forall j | 0 < j < |r| ensures !SamePair(r[j], r[0].articleId, r[0].userIp) {
          assert r[j] == fr[j - 1];
          assert fr[j - 1] in rest;
          var k :| 0 <= k < |rest| && rest[k] == fr[j - 1];
          assert likes[k + 1] == rest[k];
        }
      }
    }
  }

  /** Adding a like for a pair that has none keeps the likes one per pair. */
  lemma AppendNewPair(likes: seq<Like>, l: Like)
    requires OneLikePerPair(likes) && !HasLike(likes, l.articleId, l.userIp)
    ensures OneLikePerPair(likes + [l])
  {
    var r := likes + [l];
    forall i, j | 0 <= i < j < |r| ensures !SamePair(r[j], r[i].articleId, r[i].userIp) {
      if j == |likes| {
        assert !SamePair(likes[i], l.articleId, l.userIp);
      }
    }
  }

  /** A predicate true of every row filters nothing out. */
  lemma {:induction false} FilterKeepsAll<T(!new)>(s: seq<T>, p: T -> bool)
    requires forall k :: 0 <= k < |s| ==> p(s[k])
    ensures Filter(s, p) == s
  {
    if s != [] {
      FilterKeepsAll(s[1..], p);
    }
  }

  lemma TailOneLikePerPair(likes: seq<Like>)
    requires likes != [] && OneLikePerPair(likes)
    ensures OneLikePerPair(likes[1..])
  {
    var rest := likes[1..];
    forall i, j | 0 <= i < j < |rest| ensures !SamePair(rest[j], rest[i].articleId, rest[i].userIp) {
      assert rest[i] == likes[i + 1] && rest[j] == likes[j + 1];
    }
  }

  /** The visitor's like at the head is their only one. */
  lemma HeadPairIsOnly(likes: seq<Like>, articleId: int, userIp: string)
    requires likes != [] && OneLikePerPair(likes) && SamePair(likes[0], articleId, userIp)
    ensures Filter(likes[1..], NotPair(articleId, userIp)) == likes[1..]
  {
    var rest := likes[1..];
    forall k | 0 <= k < |rest| ensures NotPair(articleId, userIp)(rest[k]) {
      assert rest[k] == likes[k + 1];
    }
    FilterKeepsAll(rest, NotPair(articleId, userIp));
  }

  /** Past a head of another pair, the visitor has liked the article exactly when they did in the rest. */
  lemma HasLikePastHead(likes: seq<Like>, articleId: int, userIp: string)
    requires likes != [] && !SamePair(likes[0], articleId, userIp)
    ensures HasLike(likes, articleId, userIp) <==> HasLike(likes[1..], articleId, userIp)
  {
    var rest := likes[1..];
    if HasLike(likes, articleId, userIp) {
      var k :| 0 <= k < |likes| && SamePair(likes[k], articleId, userIp);
      assert k > 0 && rest[k - 1] == likes[k];
    }
    if HasLike(rest, articleId, userIp) {
      var k :| 0 <= k < |rest| && SamePair(rest[k], articleId, userIp);
      assert likes[k + 1] == rest[k];
    }
  }

  /**
   * Unliking removes exactly one like of the article when the visitor had
   * liked it (the likes being one per pair) and none otherwise.
   */
  lemma {:induction false} UnlikeCount(likes: seq<Like>, articleId: int, userIp: string)
    requires OneLikePerPair(likes)
    ensures LikeCount(Filter(likes, NotPair(articleId, userIp)), articleId) ==
      LikeCount(likes, articleId) - (if HasLike(likes, articleId, userIp) then 1 else 0)
  {
    if likes != [] {
      var x := likes[0];
      var rest := likes[1..];
      var keep := NotPair(articleId, userIp);
      if SamePair(x, articleId, userIp) {
        HeadPairIsOnly(likes, articleId, userIp);
        assert Filter(likes, keep) == rest;
        assert HasLike(likes, articleId, userIp);
      } else {
        TailOneLikePerPair(likes);
        UnlikeCount(rest, articleId, userIp);
        HasLikePastHead(likes, articleId, userIp);
        var fr := Filter(rest, keep);
        assert Filter(likes, keep) == [x] + fr;
        assert ([x] + fr)[1..] == fr;
      }
    }
  }

  // --------------------------------------------------------- statistics

  datatype Statistics = Statistics(
    totalArticles: nat, publishedArticles: nat, draftArticles: nat,
    totalComments: nat, totalLikes: nat, totalViews: nat)

  function HasStatus(status: string): Article -> bool { (a: Article) => a.status == status }

  function TotalViews(articles: seq<Article>): nat {
    if articles == [] then 0 else articles[0].viewCount + TotalViews(articles[1..])
  }

  /** Two tests no row passes together count at most the whole table. */
  lemma {:induction false} DisjointCounts<T>(s: seq<T>, p: T -> bool, q: T -> bool)
    requires forall k :: 0 <= k < |s| ==> !(p(s[k]) && q(s[k]))
    ensures Count(s, p) + Count(s, q) <= |s|
  {
    if s != [] {
      DisjointCounts(s[1..], p, q);
    }
  }

  /** getStatistics: the table sizes, the published and draft counts and the summed views. */
  function StatisticsOf(articles: seq<Article>, comments: seq<Comment>, likes: seq<Like>): (r: Statistics)
    ensures r.publishedArticles + r.draftArticles <= r.totalArticles
    ensures r.totalArticles == |articles| && r.totalComments == |comments| && r.totalLikes == |likes|
  {
    DisjointCounts(articles, HasStatus("published"), HasStatus("draft"));
    Statistics(|articles|, Count(articles, HasStatus("published")), Count(articles, HasStatus("draft")),
               |comments|, |likes|, TotalViews(articles))
  }

  /** A new article counts once among the articles and adds no views. */
  lemma NewArticleStatistics(a: Article, articles: seq<Article>, comments: seq<Comment>, likes: seq<Like>)
    requires a.viewCount == 0
    ensures StatisticsOf([a] + articles, comments, likes).totalViews == StatisticsOf(articles, comments, likes).totalViews
    ensures StatisticsOf([a] + articles, comments, likes).totalArticles == |articles| + 1
    ensures StatisticsOf([a] + articles, comments, likes).publishedArticles ==
      StatisticsOf(articles, comments, likes).publishedArticles + (if a.status == "published" then 1 else 0)
  {
    assert ([a] + articles)[1..] == articles;
  }

  // ------------------------------------------------------------- search

  /** The optional filters of a search; "" leaves a filter out. */
  datatype SearchOptions = SearchOptions(status: string, category: string, author: string)

  function InCategory(category: string): Article -> bool { (a: Article) => a.category == category }
  function ByAuthor(author: string): Article -> bool { (a: Article) => a.author == author }

  /** The keyword, already lower-cased, occurs in the title, content, author or a tag, ignoring case. */
  predicate MentionsKeyword(a: Article, key: string) {
    Contains(Lower(a.title), key) || Contains(Lower(a.content), key) || Contains(Lower(a.author), key) ||
    exists k :: 0 <= k < |a.tags| && Contains(Lower(a.tags[k]), key)
  }

  function Mentions(key: string): Article -> bool { (a: Article) => MentionsKeyword(a, key) }

  /** searchArticles: the filters applied one after the other, each only when given. */
  function Search(articles: seq<Article>, keyword: string, opts: SearchOptions): seq<Article> {
    var s1 := if opts.status != "" then Filter(articles, HasStatus(opts.status)) else articles;
    var s2 := if opts.category != "" then Filter(s1, InCategory(opts.category)) else s1;
    var s3 := if opts.author != "" then Filter(s2, ByAuthor(opts.author)) else s2;
    if keyword != "" then Filter(s3, Mentions(Lower(keyword))) else s3
  }

  /** An article passes every given filter. */
  predicate Selected(a: Article, keyword: string, opts: SearchOptions) {
    (opts.status == "" || a.status == opts.status) &&
    (opts.category == "" || a.category == opts.category) &&
    (opts.author == "" || a.author == opts.author) &&
    (keyword == "" || MentionsKeyword(a, Lower(keyword)))
  }

  function SelectedBy(keyword: string, opts: SearchOptions): Article -> bool { (a: Article) => Selected(a, keyword, opts) }

  /** Filtering twice is filtering once by both tests. */
  lemma {:induction false} FilterTwice<T(!new)>(s: seq<T>, p: T -> bool, q: T -> bool, both: T -> bool)
    requires forall x :: both(x) == (p(x) && q(x))
    ensures Filter(Filter(s, p), q) == Filter(s, both)
  {
    if s != [] {
      FilterTwice(s[1..], p, q, both);
      if p(s[0]) {
        assert Filter(s, p) == [s[0]] + Filter(s[1..], p);
        assert (Filter(s, p))[1..] == Filter(s[1..], p);
      }
    }
  }

  function Everything(): Article -> bool { (a: Article) => true }

  function WithStatus(opts: SearchOptions): Article -> bool {
    (a: Article) => opts.status == "" || a.status == opts.status
  }
  function WithCategory(opts: SearchOptions): Article -> bool {
    (a: Article) => (opts.status == "" || a.status == opts.status) && (opts.category == "" || a.category == opts.category)
  }
  function WithAuthor(opts: SearchOptions): Article -> bool {
    (a: Article) => (opts.status == "" || a.status == opts.status) && (opts.category == "" || a.category == opts.category) &&
         (opts.author == "" || a.author == opts.author)
  }

  /** A filter applied only when `on` is one filter by a test that passes everything when `on` is false. */
  lemma {:induction false} OptionalFilter(articles: seq<Article>, prev: Article -> bool, on: bool,
                                          test: Article -> bool, next: Article -> bool)
    requires forall a :: next(a) == (prev(a) && (!on || test(a)))
    ensures (if on then Filter(Filter(articles, prev), test) else Filter(articles, prev)) == Filter(articles, next)
  {
    if on {
      FilterTwice(articles, prev, test, next);
    } else {
      FilterTwice(articles, prev, Everything(), next);
      FilterKeepsAll(Filter(articles, prev), Everything());
    }
  }

  /** The search is one filter by all the given tests together. */
  lemma SearchIsOneFilter(articles: seq<Article>, keyword: string, opts: SearchOptions)
    ensures Search(articles, keyword, opts) == Filter(articles, SelectedBy(keyword, opts))
  {
    var s1 := if opts.status != "" then Filter(articles, HasStatus(opts.status)) else articles;
    var s2 := if opts.category != "" then Filter(s1, InCategory(opts.category)) else s1;
    var s3 := if opts.author != "" then Filter(s2, ByAuthor(opts.author)) else s2;
    FilterKeepsAll(articles, Everything());
    OptionalFilter(articles, Everything(), opts.status != "", HasStatus(opts.status), WithStatus(opts));
    assert s1 == Filter(articles, WithStatus(opts));
    OptionalFilter(articles, WithStatus(opts), opts.category != "", InCategory(opts.category), WithCategory(opts));
    assert s2 == Filter(articles, WithCategory(opts));
    OptionalFilter(articles, WithCategory(opts), opts.author != "", ByAuthor(opts.author), WithAuthor(opts));
    assert s3 == Filter(articles, WithAuthor(opts));
    OptionalFilter(articles, WithAuthor(opts), keyword != "", Mentions(Lower(keyword)), SelectedBy(keyword, opts));
  }

  /**
   * The search returns, in table order, exactly the articles that pass every
   * given filter.
   */
  lemma SearchSelectsExactly(articles: seq<Article>, keyword: string, opts: SearchOptions)
    ensures IsSubsequence(Search(articles, keyword, opts), articles)
    ensures forall a :: a in Search(articles, keyword, opts) <==> a in articles && Selected(a, keyword, opts)
  {
    SearchIsOneFilter(articles, keyword, opts);
    FilterIsSubsequence(articles, SelectedBy(keyword, opts));
  }

  // ------------------------------------------------------------- the store

  class ArticleDatabase {
    var articles: seq<Article>
    var comments: seq<Comment>
    var likes: seq<Like>

    ghost predicate Valid()
      reads this
    {
      OneLikePerPair(likes)
    }

    constructor ()
      ensures Valid() && articles == [] && comments == [] && likes == []
    {
      articles := [];
      comments := [];
      likes := [];
    }

    /** addArticle: a new article with every count at 0, put first. */
    method AddArticle(draft: ArticleDraft, now: int, stamp: string) returns (a: Article)
      modifies this`articles
      ensures a == Article(now, draft.title, draft.author, draft.content, draft.status, draft.category,
                           draft.tags, stamp, stamp, 0, 0, 0)
      ensures articles == [a] + old(articles)
    {
      a := Article(now, draft.title, draft.author, draft.content, draft.status, draft.category,
                   draft.tags, stamp, stamp, 0, 0, 0);
      articles := [a] + articles;
    }

    /** updateArticle: the merged article, or nothing when the id is absent. */
    method UpdateArticle(id: int, p: ArticleUpdate, stamp: string) returns (r: Option<Article>)
      modifies this`articles
      ensures articles == Updated(old(articles), id, p, stamp)
      ensures r.Some? <==> IndexOf(old(articles), id).Some?
      ensures r.Some? ==> r.value == Patched(old(articles)[IndexOf(old(articles), id).value], p, stamp)
    {
      var index := IndexOf(articles, id);
      if index.None? {
        return None;
      }
      var merged := Patched(articles[index.value], p, stamp);
      articles := articles[index.value := merged];
      r := Some(merged);
    }

    /** deleteArticle: the article goes, with every comment and like on it. */
    method DeleteArticle(id: int)
      requires Valid()
      modifies this`articles, this`comments, this`likes
      ensures Valid()
      ensures articles == Filter(old(articles), ArticleIdIsNot(id))
      ensures comments == Filter(old(comments), CommentNotOn(id))
      ensures likes == Filter(old(likes), LikeNotOn(id))
      ensures CommentCount(comments, id) == 0 && LikeCount(likes, id) == 0
    {
      articles := Filter(articles, ArticleIdIsNot(id));
      comments := Filter(comments, CommentNotOn(id));
      FilterKeepsOneLikePerPair(likes, LikeNotOn(id));
      likes := Filter(likes, LikeNotOn(id));
    }

    /** updateArticleCommentCount: the first article with the id records how many comments it has. */
    method UpdateArticleCommentCount(articleId: int, stamp: string)
      modifies this`articles
      ensures articles == Updated(old(articles), articleId,
                                  NoChange.(commentCount := Some(CommentCount(comments, articleId))), stamp)
    {
      var _ := UpdateArticle(articleId, NoChange.(commentCount := Some(CommentCount(comments, articleId))), stamp);
    }

    /** updateArticleLikeCount: the first article with the id records how many likes it has. */
    method UpdateArticleLikeCount(articleId: int, stamp: string)
      modifies this`articles
      ensures articles == Updated(old(articles), articleId,
                                  NoChange.(likeCount := Some(LikeCount(likes, articleId))), stamp)
    {
      var _ := UpdateArticle(articleId, NoChange.(likeCount := Some(LikeCount(likes, articleId))), stamp);
    }

    /** addComment: an approved comment without likes, appended, then the article's count recomputed. */
    method AddComment(draft: CommentDraft, now: int, stamp: string) returns (c: Comment)
      modifies this`comments, this`articles
      ensures c == Comment(now, draft.articleId, draft.author, draft.email, draft.content, stamp, "approved", 0, draft.parentId)
      ensures comments == old(comments) + [c]
      ensures CommentCount(comments, c.articleId) == CommentCount(old(comments), c.articleId) + 1
      ensures articles == Updated(old(articles), c.articleId,
                                  NoChange.(commentCount := Some(CommentCount(comments, c.articleId))), stamp)
      ensures IndexOf(articles, c.articleId).Some? ==>
        articles[IndexOf(articles, c.articleId).value].commentCount == CommentCount(comments, c.articleId)
    {
      c := Comment(now, draft.articleId, draft.author, draft.email, draft.content, stamp, "approved", 0, draft.parentId);
      CountAppend(comments, [c], CommentOn(c.articleId));
      comments := comments + [c];
      UpdateArticleCommentCount(draft.articleId, stamp);
    }

    /** deleteComment: when a comment has the id, every comment with it goes and its article is recounted. */
    method DeleteComment(id: int, stamp: string)
      modifies this`comments, this`articles
      ensures FindComment(old(comments), id).None? ==> comments == old(comments) && articles == old(articles)
      ensures FindComment(old(comments), id).Some? ==>
        var articleId := FindComment(old(comments), id).value.articleId;
        comments == Filter(old(comments), CommentIdIsNot(id)) &&
        articles == Updated(old(articles), articleId,
                            NoChange.(commentCount := Some(CommentCount(comments, articleId))), stamp)
    {
      var found := FindComment(comments, id);
      if found.Some? {
        comments := Filter(comments, CommentIdIsNot(id));
        UpdateArticleCommentCount(found.value.articleId, stamp);
      }
    }

    /** hasUserLiked. */
    predicate HasUserLiked(articleId: int, userIp: string)
      reads this
    {
      HasLike(likes, articleId, userIp)
    }

    /**
     * addLike: refused when the visitor already liked the article; otherwise
     * one like is appended and the article's like count recomputed.
     */
    method AddLike(articleId: int, userIp: string, now: int, stamp: string) returns (r: Outcome)
      requires Valid()
      modifies this`likes, this`articles
      ensures Valid()
      ensures r.success <==> !old(HasLike(likes, articleId, userIp))
      ensures !r.success ==> r.message == "您已经点过赞了" && likes == old(likes) && articles == old(articles)
      ensures r.success ==> r.message == "点赞成功" && likes == old(likes) + [Like(now, articleId, userIp, stamp)]
      ensures r.success ==> LikeCount(likes, articleId) == LikeCount(old(likes), articleId) + 1
      ensures r.success ==>
        articles == Updated(old(articles), articleId, NoChange.(likeCount := Some(LikeCount(likes, articleId))), stamp)
      ensures HasLike(likes, articleId, userIp)
      ensures r.success && IndexOf(articles, articleId).Some? ==>
        articles[IndexOf(articles, articleId).value].likeCount == LikeCount(likes, articleId)
    {
      if HasLike(likes, articleId, userIp) {
        return Outcome(false, "您已经点过赞了");
      }
      var like := Like(now, articleId, userIp, stamp);
      AppendNewPair(likes, like);
      CountAppend(likes, [like], LikeOn(articleId));
      likes := likes + [like];
      assert SamePair(likes[|likes| - 1], articleId, userIp);
      UpdateArticleLikeCount(articleId, stamp);
      r := Outcome(true, "点赞成功");
    }

    /**
     * removeLike: removes every like of the visitor on the article and
     * recounts; fails, changing nothing, when there was none.
     */
    method RemoveLike(articleId: int, userIp: string, stamp: string) returns (r: Outcome)
      requires Valid()
      modifies this`likes, this`articles
      ensures Valid()
      ensures r.success <==> old(HasLike(likes, articleId, userIp))
      ensures !r.success ==> r.message == "未找到点赞记录" && likes == old(likes) && articles == old(articles)
      ensures r.success ==> r.message == "取消点赞成功" && likes == Filter(old(likes), NotPair(articleId, userIp))
      ensures r.success ==> LikeCount(likes, articleId) == LikeCount(old(likes), articleId) - 1
      ensures r.success ==>
        articles == Updated(old(articles), articleId, NoChange.(likeCount := Some(LikeCount(likes, articleId))), stamp)
      ensures !HasLike(likes, articleId, userIp)
      ensures r.success && IndexOf(articles, articleId).Some? ==>
        articles[IndexOf(articles, articleId).value].likeCount == LikeCount(likes, articleId)
    {
      var kept := Filter(likes, NotPair(articleId, userIp));
      assert !HasLike(kept, articleId, userIp) by {
        forall k | 0 <= k < |kept| ensures !SamePair(kept[k], articleId, userIp) {
          assert NotPair(articleId, userIp)(kept[k]);
        }
      }
      if |kept| < |likes| {
        assert HasLike(likes, articleId, userIp) by {
          if !HasLike(likes, articleId, userIp) {
            FilterKeepsAll(likes, NotPair(articleId, userIp));
          }
        }
        UnlikeCount(likes, articleId, userIp);
        FilterKeepsOneLikePerPair(likes, NotPair(articleId, userIp));
        likes := kept;
        UpdateArticleLikeCount(articleId, stamp);
        return Outcome(true, "取消点赞成功");
      }
      assert !HasLike(likes, articleId, userIp) by {
        if HasLike(likes, articleId, userIp) {
          var k :| 0 <= k < |likes| && SamePair(likes[k], articleId, userIp);
          FilterDropsOne(likes, NotPair(articleId, userIp), k);
        }
      }
      r := Outcome(false, "未找到点赞记录");
    }

    /** getStatistics. */
    function GetStatistics(): (r: Statistics)
      reads this
      ensures r.publishedArticles + r.draftArticles <= r.totalArticles
    {
      StatisticsOf(articles, comments, likes)
    }

    /** searchArticles. */
    function SearchArticles(keyword: string, opts: SearchOptions): (r: seq<Article>)
      reads this
      ensures forall a :: a in r <==> a in articles && Selected(a, keyword, opts)
    {
      SearchSelectsExactly(articles, keyword, opts);
      Search(articles, keyword, opts)
    }
  }

  /** A row the test rejects makes the filtered table shorter. */
  lemma {:induction false} FilterDropsOne<T(!new)>(s: seq<T>, p: T -> bool, k: nat)
    requires k < |s| && !p(s[k])
    ensures |Filter(s, p)| < |s|
  {
    if k > 0 {
      FilterDropsOne(s[1..], p, k - 1);
    }
  }
}

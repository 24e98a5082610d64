/**
 * The news handlers (app/routers/news.py) over the `news` collection. The classifier is passed
 * in as `classify`, the function from a text to what `model_service.predict` returns or raises
 * for it; the current time and, for an insert, the id the database assigns are parameters too.
 * The authentication dependencies (an admin for create, update and delete, an active user for
 * the rest) are the guards of the Auth and Users modules and are not repeated here.
 */
module News {
  import opened Common
  import opened ObjectIds
  import opened Models
  import opened Database
  import C = Classification

  type Classifier = string -> C.Outcome

  const NotAvailable := "Model service is not available"
  const NotFound := "News article not found"
  const UpdateFailed := "Failed to update news article"
  const Deleted := "News article deleted successfully"
  const Liked := "News article liked successfully"
  /** What FastAPI answers when a handler raises an exception nobody catches. */
  const InternalError := "Internal Server Error"

  // ---- classify_text ----

  /**
   * `POST /news/classify`: ValueError becomes 400 with its message, RuntimeError 503. Its
   * generic 500 branch is never taken, because `predict` raises nothing else.
   */
  function ClassifyText(svc: C.ModelService, text: string, send: C.Request -> C.Reply)
    : (r: Result<C.Prediction, HttpError>)
    ensures r.Success? <==> C.Predict(svc, text, send).result.Success?
    ensures r.Success? ==> r.value == C.Predict(svc, text, send).result.value
    ensures C.Blank(text) ==> r == Failure(HttpError(400, C.EmptyInputMessage))
    ensures !C.Blank(text) && r.Failure? ==> r.error == HttpError(503, NotAvailable)
  {
    match C.Predict(svc, text, send).result
    case Success(p) => Success(p)
    case Failure(e) => Failure(PredictErrorResponse(e))
  }

  /** The handlers' `except ValueError` (400, its message) and `except RuntimeError` (503). */
  function PredictErrorResponse(e: C.PredictError): HttpError
  {
    match e
    case ValueError(m) => HttpError(400, m)
    case RuntimeError(_) => HttpError(503, NotAvailable)
  }

  // ---- create_news ----

  /** The category and confidence create_news stores: the classifier's, or the fallback on any error. */
  function CategoryOrFallback(outcome: C.Outcome): (Json, real)
  {
    match outcome
    case Success(p) => (p.category, p.confidence)
    case Failure(_) => (JString(Uncategorized), 0.0)
  }

  /** `news.model_dump()` updated with the server-side fields. */
  function NewArticle(news: NewsCreate, createdBy: string, outcome: C.Outcome, now: Time): Article
  {
    var (category, confidence) := CategoryOrFallback(outcome);
    Article(
      title := Some(news.title),
      content := Some(news.content),
      category := category,
      source := news.source,
      tags := Some(news.tags),
      imageUrl := news.imageUrl,
      createdAt := Some(now),
      updatedAt := None,
      createdBy := Some(createdBy),
      viewsCount := 0,
      likesCount := 0,
      isFeatured := Some(false),
      isActive := Some(true),
      confidenceScore := Some(confidence))
  }

  /** `POST /news`: classification never makes it fail. */
  method CreateNews(db: NewsCollection, news: NewsCreate, currentUser: ObjectId,
                    classify: Classifier, now: Time, newId: ObjectId) returns (created: Article)
    requires db.Valid() && newId !in db.docs && newId < Limit
    modifies db
    ensures db.Valid()
    ensures created == NewArticle(news, ToString(currentUser), classify(news.content), now)
    ensures db.docs == old(db.docs)[newId := created]
  {
    var outcome := classify(news.content);
    created := NewArticle(news, ToString(currentUser), outcome, now);
    db.docs := db.docs[newId := created];
  }

  /**
   * A new article starts unviewed, unliked, active and not featured, is attributed to the
   * current user, copies the client's text fields, and carries the classifier's category in
   * place of any category the client sent.
   */
  lemma NewArticleDefaults(news: NewsCreate, createdBy: string, p: C.Prediction, now: Time)
    ensures var a := NewArticle(news, createdBy, Success(p), now);
      && a.viewsCount == 0 && a.likesCount == 0
      && a.isActive == Some(true) && a.isFeatured == Some(false)
      && a.createdBy == Some(createdBy) && a.createdAt == Some(now) && a.updatedAt == None
      && a.title == Some(news.title) && a.content == Some(news.content)
      && a.source == news.source && a.tags == Some(news.tags) && a.imageUrl == news.imageUrl
      && a.category == p.category && a.confidenceScore == Some(p.confidence)
  {
  }

  /** Any exception from the classifier, ValueError included, stores "Uncategorized" with 0.0. */
  lemma CreateFallsBack(news: NewsCreate, createdBy: string, e: C.PredictError, now: Time)
    ensures var a := NewArticle(news, createdBy, Failure(e), now);
      a.category == JString(Uncategorized) && a.confidenceScore == Some(0.0)
      && a.viewsCount == 0 && a.likesCount == 0 && a.isActive == Some(true)
  {
  }

  /** With the real adapter, empty content still creates the article, as "Uncategorized". */
  lemma CreateWithBlankContent(news: NewsCreate, createdBy: string, svc: C.ModelService,
                               send: C.Request -> C.Reply, now: Time)
    requires C.Blank(news.content)
    ensures NewArticle(news, createdBy, C.Predict(svc, news.content, send).result, now).category
      == JString(Uncategorized)
  {
  }

  /** A connection error during create still stores the article, as "Uncategorized" with 0.0. */
  lemma CreateAfterTransportFault(news: NewsCreate, createdBy: string, svc: C.ModelService,
                                  send: C.Request -> C.Reply, now: Time)
    requires !C.Blank(news.content) && svc.HasToken()
    requires send(C.RequestFor(svc.apiToken.value, news.content)) == C.TransportFault
    ensures var a := NewArticle(news, createdBy, C.Predict(svc, news.content, send).result, now);
      a.category == JString(Uncategorized) && a.confidenceScore == Some(0.0)
  {
  }

  // ---- update_news ----

  /** `predict(update_data["content"])`; a null content fails predict's first guard. */
  function Reclassify(classify: Classifier, content: Option<string>): C.Outcome
  {
    match content
    case None => Failure(C.ValueError(C.EmptyInputMessage))
    case Some(text) => classify(text)
  }

  function SetOr<T>(f: Field<T>, current: T): T
  {
    match f
    case Unset => current
    case Set(v) => v
  }

  function CategoryValue(c: Option<string>): Json
  {
    match c
    case None => JNull
    case Some(s) => JString(s)
  }

  /**
   * `$set: update_data`: the explicitly sent fields, `updated_at`, and, when content was sent,
   * the new classification (which overrides a category sent in the same body).
   */
  function ApplyUpdate(a: Article, u: NewsUpdate, reclassified: Option<C.Prediction>, now: Time)
    : Article
  {
    a.(
      title := SetOr(u.title, a.title),
      content := SetOr(u.content, a.content),
      category := if reclassified.Some? then reclassified.value.category
                  else if u.category.Set? then CategoryValue(u.category.value)
                  else a.category,
      source := SetOr(u.source, a.source),
      tags := SetOr(u.tags, a.tags),
      imageUrl := SetOr(u.imageUrl, a.imageUrl),
      isFeatured := SetOr(u.isFeatured, a.isFeatured),
      isActive := SetOr(u.isActive, a.isActive),
      confidenceScore := if reclassified.Some? then Some(reclassified.value.confidence)
                         else a.confidenceScore,
      updatedAt := Some(now))
  }

  /** `PUT /news/{news_id}`. */
  method UpdateNews(db: NewsCollection, newsId: string, update: NewsUpdate,
                    classify: Classifier, now: Time) returns (r: Result<Article, HttpError>)
    requires db.Valid()
    modifies db
    ensures db.Valid()
    // a malformed id, and a missing article (its 404 is caught by the generic handler), give 500
    ensures Parse(newsId).None? || Parse(newsId).value !in old(db.docs) ==>
      r == Failure(HttpError(500, UpdateFailed))
    // a classifier exception is mapped to 400 or 503
    ensures Parse(newsId).Some? && Parse(newsId).value in old(db.docs) && update.content.Set?
            && Reclassify(classify, update.content.value).Failure? ==>
      r == Failure(PredictErrorResponse(Reclassify(classify, update.content.value).error))
    // nothing is written unless the update succeeds
    ensures r.Failure? ==> db.docs == old(db.docs)
    ensures r.Success? <==>
      && Parse(newsId).Some? && Parse(newsId).value in old(db.docs)
      && (update.content.Set? ==> Reclassify(classify, update.content.value).Success?)
    ensures r.Success? ==>
      var id := Parse(newsId).value;
      var p := if update.content.Set? then Some(Reclassify(classify, update.content.value).value)
               else None;
      && r.value == ApplyUpdate(old(db.docs)[id], update, p, now)
      && db.docs == old(db.docs)[id := r.value]
  {
    var parsed := Parse(newsId);
    if parsed.None? || parsed.value !in db.docs {
      return Failure(HttpError(500, UpdateFailed));
    }
    var id := parsed.value;
    var reclassified: Option<C.Prediction> := None;
    if update.content.Set? {
      var outcome := Reclassify(classify, update.content.value);
      if outcome.Failure? {
        return Failure(PredictErrorResponse(outcome.error));
      }
      reclassified := Some(outcome.value);
    }
    var updated := ApplyUpdate(db.docs[id], update, reclassified, now);
    db.docs := db.docs[id := updated];
    r := Success(updated);
  }

  /**
   * An update changes exactly the fields the client sent, plus `updated_at`; category and
   * confidence change only by reclassification (or, for the category, when the client sent one).
   * Counters, authorship and creation time are never touched.
   */
  lemma UpdateTouchesOnlySetFields(a: Article, u: NewsUpdate, p: Option<C.Prediction>, now: Time)
    ensures var b := ApplyUpdate(a, u, p, now);
      && b.updatedAt == Some(now)
      && b.viewsCount == a.viewsCount && b.likesCount == a.likesCount
      && b.createdAt == a.createdAt && b.createdBy == a.createdBy
      && b.title == (if u.title.Set? then u.title.value else a.title)
      && b.content == (if u.content.Set? then u.content.value else a.content)
      && b.source == (if u.source.Set? then u.source.value else a.source)
      && b.tags == (if u.tags.Set? then u.tags.value else a.tags)
      && b.imageUrl == (if u.imageUrl.Set? then u.imageUrl.value else a.imageUrl)
      && b.isFeatured == (if u.isFeatured.Set? then u.isFeatured.value else a.isFeatured)
      && b.isActive == (if u.isActive.Set? then u.isActive.value else a.isActive)
      && (p.None? ==> b.confidenceScore == a.confidenceScore)
      && (p.None? && u.category.Unset? ==> b.category == a.category)
      && (p.None? && u.category.Set? ==> b.category == CategoryValue(u.category.value))
      && (p.Some? ==> b.category == p.value.category && b.confidenceScore == Some(p.value.confidence))
  {
  }

  /**
   * A connection error while reclassifying sent content is answered with 503, and, by
   * UpdateNews, leaves the collection unchanged.
   */
  lemma ReclassifyAfterTransportFault(svc: C.ModelService, send: C.Request -> C.Reply, text: string)
    requires !C.Blank(text) && svc.HasToken()
    requires send(C.RequestFor(svc.apiToken.value, text)) == C.TransportFault
    ensures var outcome := Reclassify((t: string) => C.Predict(svc, t, send).result, Some(text));
      outcome.Failure? && PredictErrorResponse(outcome.error) == HttpError(503, NotAvailable)
  {
  }

  // ---- delete_news, get_news, like_news ----

  /**
   * The id create and list report for a stored article (`str(_id)`) is accepted by
   * `ObjectId(news_id)` and names that same article, so get, like, update and delete reach it.
   */
  lemma ReportedIdFindsArticle(db: NewsCollection, id: ObjectId)
    requires db.Valid() && id in db.docs
    ensures Parse(ToString(id)) == Some(id)
    ensures Parse(ToString(id)).value in db.docs
  {
    ParseToString(id);
  }

  /** `DELETE /news/{news_id}`: delete if present. */
  method DeleteNews(db: NewsCollection, newsId: string) returns (r: Result<string, HttpError>)
    requires db.Valid()
    modifies db
    ensures db.Valid()
    ensures Parse(newsId).None? ==> r == Failure(HttpError(500, InternalError))
    ensures Parse(newsId).Some? && Parse(newsId).value !in old(db.docs) ==>
      r == Failure(HttpError(404, NotFound))
    ensures r.Failure? ==> db.docs == old(db.docs)
    ensures Parse(newsId).Some? && Parse(newsId).value in old(db.docs) ==>
      r == Success(Deleted) && db.docs == old(db.docs) - {Parse(newsId).value}
  {
    var parsed := Parse(newsId);
    if parsed.None? {
      return Failure(HttpError(500, InternalError));
    }
    if parsed.value !in db.docs {
      return Failure(HttpError(404, NotFound));
    }
    db.docs := db.docs - {parsed.value};
    r := Success(Deleted);
  }

  function WithViews(a: Article, n: int): Article
  {
    a.(viewsCount := a.viewsCount + n)
  }

  /** `GET /news/{news_id}`: one more view, and the article as it was read before the increment. */
  method GetNews(db: NewsCollection, newsId: string) returns (r: Result<Article, HttpError>)
    requires db.Valid()
    modifies db
    ensures db.Valid()
    ensures Parse(newsId).None? ==> r == Failure(HttpError(500, InternalError))
    ensures Parse(newsId).Some? && Parse(newsId).value !in old(db.docs) ==>
      r == Failure(HttpError(404, NotFound))
    ensures r.Failure? ==> db.docs == old(db.docs)
    ensures Parse(newsId).Some? && Parse(newsId).value in old(db.docs) ==>
      var id := Parse(newsId).value;
      r == Success(old(db.docs)[id]) && db.docs == old(db.docs)[id := WithViews(old(db.docs)[id], 1)]
  {
    var parsed := Parse(newsId);
    if parsed.None? {
      return Failure(HttpError(500, InternalError));
    }
    var id := parsed.value;
    if id !in db.docs {
      return Failure(HttpError(404, NotFound));
    }
    var news := db.docs[id];
    db.docs := db.docs[id := WithViews(news, 1)];
    r := Success(news);
  }

  /** `POST /news/{news_id}/like`: `$inc` likes, 404 when no document was modified. */
  method LikeNews(db: NewsCollection, newsId: string) returns (r: Result<string, HttpError>)
    requires db.Valid()
    modifies db
    ensures db.Valid()
    ensures Parse(newsId).None? ==> r == Failure(HttpError(500, InternalError))
    ensures Parse(newsId).Some? && Parse(newsId).value !in old(db.docs) ==>
      r == Failure(HttpError(404, NotFound))
    ensures r.Failure? ==> db.docs == old(db.docs)
    ensures Parse(newsId).Some? && Parse(newsId).value in old(db.docs) ==>
      var id := Parse(newsId).value;
      r == Success(Liked)
      && db.docs == old(db.docs)[id := old(db.docs)[id].(likesCount := old(db.docs)[id].likesCount + 1)]
  {
    var parsed := Parse(newsId);
    if parsed.None? {
      return Failure(HttpError(500, InternalError));
    }
    var id := parsed.value;
    var modifiedCount := if id in db.docs then 1 else 0;
    if modifiedCount == 1 {
      db.docs := db.docs[id := db.docs[id].(likesCount := db.docs[id].likesCount + 1)];
    }
    if modifiedCount == 0 {
      return Failure(HttpError(404, NotFound));
    }
    r := Success(Liked);
  }

  // ---- list_news and get_recommended_news ----

  /**
   * `sort("created_at", -1)`: the later timestamp first, a document without one after every
   * document with one; equal timestamps by ascending id.
   */
  predicate Before(t: Option<Time>, a: ObjectId, u: Option<Time>, b: ObjectId)
  {
    if t.Some? && u.Some? then t.value > u.value || (t.value == u.value && a < b)
    else if t.Some? || u.Some? then t.Some?
    else a < b
  }

  predicate Precedes(docs: map<ObjectId, Article>, a: ObjectId, b: ObjectId)
    requires a in docs && b in docs
  {
    Before(docs[a].createdAt, a, docs[b].createdAt, b)
  }

  predicate IsFirst(docs: map<ObjectId, Article>, s: set<ObjectId>, f: ObjectId)
    requires s <= docs.Keys
  {
    f in s && forall x :: x in s && x != f ==> Precedes(docs, f, x)
  }

  lemma {:induction false} FirstExists(docs: map<ObjectId, Article>, s: set<ObjectId>)
    requires s <= docs.Keys && s != {}
    ensures exists f :: IsFirst(docs, s, f)
    decreases s
  {
    EmptyOrInhabited(s);
    var y :| y in s;
    var rest := s - {y};
    if rest == {} {
      assert s == {y};
      assert IsFirst(docs, s, y);
    } else {
      FirstExists(docs, rest);
      var f :| IsFirst(docs, rest, f);
      if Precedes(docs, y, f) {
        forall x | x in s && x != y ensures Precedes(docs, y, x) {
          if x != f {
            assert Precedes(docs, f, x);
          }
        }
        assert IsFirst(docs, s, y);
      } else {
        assert IsFirst(docs, s, f);
      }
    }
  }

  /** The ids of `s` in the order the cursor's sort returns them. */
  function Ordered(docs: map<ObjectId, Article>, s: set<ObjectId>): (r: seq<ObjectId>)
    requires s <= docs.Keys
    ensures |r| == |s|
    ensures forall k :: 0 <= k < |r| ==> r[k] in s
    ensures forall x :: x in s ==> x in r
    ensures forall j, k :: 0 <= j < k < |r| ==> Precedes(docs, r[j], r[k])
    decreases s
  {
    if s == {} then []
    else
      FirstExists(docs, s);
      var f :| IsFirst(docs, s, f);
      [f] + Ordered(docs, s - {f})
  }

  /** The ids of the documents a query matches. */
  function Selected(docs: map<ObjectId, Article>, keep: Article -> bool): (s: set<ObjectId>)
    ensures forall id :: id in s <==> id in docs && keep(docs[id])
  {
    set id | id in docs && keep(docs[id])
  }

  /** `.skip(skip).limit(limit)`. */
  function Window<T>(s: seq<T>, skip: nat, limit: nat): (w: seq<T>)
    ensures |w| <= limit
    ensures skip >= |s| ==> w == []
    ensures forall k :: 0 <= k < |w| ==> skip + k < |s| && w[k] == s[skip + k]
    ensures skip < |s| ==> |w| == if skip + limit < |s| then limit else |s| - skip
  {
    var lo := if skip < |s| then skip else |s|;
    var hi := if skip + limit < |s| then skip + limit else |s|;
    s[lo..hi]
  }

  /** The documents behind a list of ids. */
  function Lookup(docs: map<ObjectId, Article>, ids: seq<ObjectId>): (r: seq<Article>)
    requires forall k :: 0 <= k < |ids| ==> ids[k] in docs
    ensures |r| == |ids| && forall k :: 0 <= k < |ids| ==> r[k] == docs[ids[k]]
  {
    seq(|ids|, k requires 0 <= k < |ids| => docs[ids[k]])
  }

  /** `{"$regex": pattern, "$options": "i"}` on the title or the content (the matcher is a parameter). */
  predicate SearchHit(a: Article, pattern: string, matches: (string, string) -> bool)
  {
    (a.title.Some? && matches(pattern, a.title.value))
    || (a.content.Some? && matches(pattern, a.content.value))
  }

  /** The query list_news builds: active, the category if one is given, the search if one is given. */
  function ListQuery(category: Option<string>, search: Option<string>,
                     matches: (string, string) -> bool): Article -> bool
  {
    (a: Article) =>
      && a.isActive == Some(true)
      && (Truthy(category) ==> a.category == JString(category.value))
      && (Truthy(search) ==> SearchHit(a, search.value, matches))
  }

  /** The ids on one page of a query's result. */
  function PageIds(docs: map<ObjectId, Article>, keep: Article -> bool, page: int, limit: int)
    : seq<ObjectId>
    requires page >= 1 && limit >= 1
  {
    Window(Ordered(docs, Selected(docs, keep)), Skip(page, limit), limit)
  }

  /** `skip = (page - 1) * limit`, written as repeated addition (see SkipIsProduct). */
  function Skip(page: int, limit: int): nat
    requires page >= 1 && limit >= 1
    decreases page
  {
    if page == 1 then 0 else Skip(page - 1, limit) + limit
  }

  lemma {:induction false} SkipIsProduct(page: int, limit: int)
    requires page >= 1 && limit >= 1
    ensures Skip(page, limit) == (page - 1) * limit
    decreases page
  {
    if page > 1 {
      SkipIsProduct(page - 1, limit);
    }
  }

  lemma NoViewsToBump(docs: map<ObjectId, Article>, ids: set<ObjectId>)
    requires ids == {}
    ensures BumpViews(docs, ids) == docs
  {
  }

  /** `update_many({"_id": {"$in": ids}}, {"$inc": {"views_count": 1}})`. */
  function BumpViews(docs: map<ObjectId, Article>, ids: set<ObjectId>): (r: map<ObjectId, Article>)
    ensures r.Keys == docs.Keys
    ensures forall id :: id in docs ==>
      r[id] == (if id in ids then WithViews(docs[id], 1) else docs[id])
  {
    map id | id in docs :: if id in ids then WithViews(docs[id], 1) else docs[id]
  }

  datatype Listing = Listing(items: seq<Article>, total: nat)

  /** `GET /news`. */
  method ListNews(db: NewsCollection, category: Option<string>, search: Option<string>,
                  matches: (string, string) -> bool, page: int, limit: int) returns (r: Listing)
    requires db.Valid() && page >= 1 && 1 <= limit <= 100
    modifies db
    ensures db.Valid()
    ensures var keep := ListQuery(category, search, matches);
      var ids := PageIds(old(db.docs), keep, page, limit);
      && r.total == |Selected(old(db.docs), keep)|
      && r.items == Lookup(old(db.docs), ids)
      && db.docs == BumpViews(old(db.docs), set k | 0 <= k < |ids| :: ids[k])
  {
    var keep := ListQuery(category, search, matches);
    var matched := Selected(db.docs, keep);
    var total := |matched|;
    var ids := Window(Ordered(db.docs, matched), Skip(page, limit), limit);
    var items := Lookup(db.docs, ids);
    var returned := set k | 0 <= k < |ids| :: ids[k];
    if ids != [] {
      db.docs := BumpViews(db.docs, returned);
    } else {
      NoViewsToBump(db.docs, returned);
    }
    r := Listing(items, total);
  }

  /**
   * A page holds at most `limit` matching documents, newest first, none twice; it is empty once
   * `(page - 1) * limit` reaches the number of matches.
   */
  lemma PageMeetsQuery(docs: map<ObjectId, Article>, keep: Article -> bool, page: int, limit: int)
    requires page >= 1 && limit >= 1
    ensures var ids := PageIds(docs, keep, page, limit);
      && |ids| <= limit
      && (forall k :: 0 <= k < |ids| ==> ids[k] in docs && keep(docs[ids[k]]))
      && (forall j, k :: 0 <= j < k < |ids| ==> Precedes(docs, ids[j], ids[k]) && ids[j] != ids[k])
      && (Skip(page, limit) >= |Selected(docs, keep)| ==> ids == [])
  {
    var ids := PageIds(docs, keep, page, limit);
    forall j, k | 0 <= j < k < |ids| ensures ids[j] != ids[k] {
      assert Precedes(docs, ids[j], ids[k]);
    }
  }

  /** Every matching document is on some page. */
  lemma EveryMatchIsOnAPage(docs: map<ObjectId, Article>, keep: Article -> bool, limit: int,
                            id: ObjectId)
    requires limit >= 1 && id in docs && keep(docs[id])
    ensures exists page :: page >= 1 && id in PageIds(docs, keep, page, limit)
  {
    var order := Ordered(docs, Selected(docs, keep));
    MatchIsListed(docs, keep, id);
    var k :| 0 <= k < |order| && order[k] == id;
    var page := PageOfPosition(k, limit);
    PositionOnPage(order, k, page, limit);
    assert PageIds(docs, keep, page, limit) == Window(order, Skip(page, limit), limit);
  }

  /** A matching document has a position in the cursor order. */
  lemma MatchIsListed(docs: map<ObjectId, Article>, keep: Article -> bool, id: ObjectId)
    requires id in docs && keep(docs[id])
    ensures exists k :: (0 <= k < |Ordered(docs, Selected(docs, keep))|
                         && Ordered(docs, Selected(docs, keep))[k] == id)
  {
    var order := Ordered(docs, Selected(docs, keep));
    assert id in Selected(docs, keep);
    assert id in order;
  }

  /** The element at a position inside a page's window is on that page. */
  lemma PositionOnPage<T>(s: seq<T>, k: nat, page: int, limit: int)
    requires page >= 1 && limit >= 1 && k < |s|
    requires Skip(page, limit) <= k < Skip(page, limit) + limit
    ensures s[k] in Window(s, Skip(page, limit), limit)
  {
    var skip := Skip(page, limit);
    assert Window(s, skip, limit)[k - skip] == s[k];
  }

  /** Every position lies on some page. */
  lemma {:induction false} PageOfPosition(k: nat, limit: int) returns (page: int)
    requires limit >= 1
    ensures page >= 1 && Skip(page, limit) <= k < Skip(page, limit) + limit
    decreases k
  {
    if k < limit {
      page := 1;
    } else {
      var p := PageOfPosition(k - limit, limit);
      page := p + 1;
    }
  }

  /** That page is `k / limit + 1`. */
  lemma PageOfIndex(k: nat, limit: int)
    requires limit >= 1
    ensures Skip(k / limit + 1, limit) <= k < Skip(k / limit + 1, limit) + limit
  {
    SkipIsProduct(k / limit + 1, limit);
    assert k == (k / limit) * limit + k % limit;
  }

  /** list_news adds one view to exactly the documents it returns. */
  lemma ListCountsViewsOfReturnedOnly(docs: map<ObjectId, Article>, ids: seq<ObjectId>, id: ObjectId)
    requires id in docs
    ensures var after := BumpViews(docs, set k | 0 <= k < |ids| :: ids[k]);
      after[id].viewsCount == docs[id].viewsCount + (if id in ids then 1 else 0)
      && after[id].(viewsCount := 0) == docs[id].(viewsCount := 0)
  {
  }

  /** The query get_recommended_news builds from the user's preferred categories. */
  function RecommendQuery(preferred: seq<string>): Article -> bool
  {
    if |preferred| > 0 then
      (a: Article) => a.isActive == Some(true) && a.category.JString? && a.category.s in preferred
    else
      (a: Article) => a.isActive == Some(true)
  }

  /** `GET /news/recommended`: the newest `limit` matches; nothing is counted. */
  method RecommendedNews(db: NewsCollection, preferred: seq<string>, limit: int)
    returns (items: seq<Article>)
    requires 1 <= limit <= 20
    ensures var ids := PageIds(db.docs, RecommendQuery(preferred), 1, limit);
      items == Lookup(db.docs, ids)
    ensures |items| <= limit
    ensures forall k :: 0 <= k < |items| ==> items[k].isActive == Some(true)
  {
    var ids := Window(Ordered(db.docs, Selected(db.docs, RecommendQuery(preferred))), 0, limit);
    items := Lookup(db.docs, ids);
    PageMeetsQuery(db.docs, RecommendQuery(preferred), 1, limit);
  }

  // ---- routing of GET requests (see the README's findings) ----

  datatype NewsGet = ListAll | GetOne(newsId: string) | Recommended | NoRoute

  /** The GET routes in the order news.py declares them: /news, /news/{news_id}, /news/recommended. */
  function RouteGetAsWritten(path: seq<string>): NewsGet
  {
    if path == ["news"] then ListAll
    else if |path| == 2 && path[0] == "news" && path[1] != "" then GetOne(path[1])
    else if path == ["news", "recommended"] then Recommended
    else NoRoute
  }

  /** The literal path /news/recommended declared before /news/{news_id}. */
  function RouteGet(path: seq<string>): NewsGet
  {
    if path == ["news"] then ListAll
    else if path == ["news", "recommended"] then Recommended
    else if |path| == 2 && path[0] == "news" && path[1] != "" then GetOne(path[1])
    else NoRoute
  }

  /** As written, GET /news/recommended reaches get_news, whose ObjectId("recommended") raises. */
  lemma RecommendedIsShadowed()
    ensures RouteGetAsWritten(["news", "recommended"]) == GetOne("recommended")
    ensures Parse("recommended").None?
    ensures forall path :: RouteGetAsWritten(path) != Recommended
  {
  }

  /** In declaration order fixed, recommendations are reachable and every real id routes as before. */
  lemma RouteGetReachesRecommended(newsId: string)
    requires Parse(newsId).Some?
    ensures RouteGet(["news", "recommended"]) == Recommended
    ensures RouteGet(["news", newsId]) == RouteGetAsWritten(["news", newsId]) == GetOne(newsId)
  {
  }
}

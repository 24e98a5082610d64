# Campus news backend: classification, news, users and authentication

This project models the core of a FastAPI backend for a campus news service. Admin users post
news articles. Each article is classified into a category by a text classifier hosted on the
Hugging Face Inference API. Students read, like and get recommendations of articles.

The model covers four parts:

- `Classification` (`model_service.dfy`): `ModelService`. It reads the API token once at start-up.
  `predict` rejects blank text, refuses to call the API without a token, sends one request, checks
  the reply's shape and picks the best-scoring candidate. Python's stable
  `sorted(..., reverse=True)` is modelled as an insertion sort that is proved to be a
  permutation, descending, and to put the first top-scoring candidate at its head.
- `News` (`news.dfy`): the article handlers over the `news` collection. These are classify,
  create, update, delete, get, like, the paginated list and recommendations, plus the order in
  which the GET routes are matched.
- `Users` (`users.dfy`) and `Auth` (`auth.dfy`): account creation with its role-specific checks,
  the preference update, the current-user, active-user and admin guards, login and
  self-registration.
- Supporting modules:
  - `Models` has the documents and request bodies.
  - `Database` has the two collections. Each is a class holding a map from object id to document
    that the handlers update in place. The users collection keeps the invariant that emails are
    unique.
  - `ObjectIds` has `ObjectId(s)` and `str(oid)`, with their round trip.
  - `Common` has Option, Result, JSON values and HTTP errors.

Everything the handlers get from outside is a parameter:

- the HTTP transport of the classifier (`send`);
- the classifier as the news handlers see it (`classify`);
- the JWT encoder and decoder, the password hash and the password check;
- the current time;
- the id MongoDB assigns to an inserted document;
- the regular-expression matcher used by search.

An answer with an error status is a `Failure(HttpError(status, detail))`.

A request that raises an exception the handler does not catch is answered by FastAPI with 500.
The model writes that as `HttpError(500, "Internal Server Error")`. It happens, for example, when
`ObjectId(news_id)` is given a string that is not 24 hexadecimal digits.

A reclassification failure during an update gives 400 with predict's message for a
`ValueError` and 503 for a `RuntimeError`. The `ValueError` comes from content that is sent as
null, empty or whitespace only.

One behaviour of the code is easy to misread. update_news raises a 404 `HTTPException` for a
missing article, but it does so inside the handler's `try`. Its generic `except Exception`
catches it, so the client gets 500 "Failed to update news article".

## Model

| member | source | states |
|---|---|---|
| `Classification.Configure` | app/services/model_service.py:15-20 | the service has a usable token exactly when `HF_API_TOKEN` is set and non-empty |
| `Classification.Predict` | app/services/model_service.py:22-57 | blank text raises ValueError("Input text cannot be empty") and sends nothing; otherwise, without a token, it raises the missing-token RuntimeError and sends nothing; otherwise it sends exactly one request (URL, `Bearer` header, `inputs`, 30 s timeout), succeeds exactly when the reply yields a prediction, and raises only RuntimeError("Failed to get prediction from model service") |
| `Classification.Keys` | app/services/model_service.py:44 | the sort keys are computed for every candidate, and fail exactly when some candidate has no usable `score` |
| `Classification.SortDescPermutes` | app/services/model_service.py:44 | the descending sort is a permutation of the candidates |
| `Classification.SortDescDescending` | app/services/model_service.py:44 | the sorted candidates are in non-increasing score order |
| `Classification.TopExists` | app/services/model_service.py:44 | every non-empty candidate list has a top candidate: one that has the highest score and comes before all others with that score |
| `Classification.SortDescHead` | app/services/model_service.py:44 | the stable descending sort puts the first top-scoring candidate first |
| `Classification.BestCandidate` | app/services/model_service.py:38-53 | for a reply `[[c1..cn]]` whose candidates all have scores, the category is the label of the first top-scoring candidate, and the confidence is its score, which no candidate exceeds |
| `Classification.SuccessIsTopCandidate` | app/services/model_service.py:38-53 | conversely, every successful prediction came from a well-formed reply, and returns its top candidate's label and score |
| `Classification.UnexpectedShapeFails` | app/services/model_service.py:43-48 | a decoded body that is not a non-empty list whose first element is a list gives the generic RuntimeError |
| `Classification.MalformedCandidatesFail` | app/services/model_service.py:44-46 | an empty candidate list, a candidate without a score, or a top-scoring candidate without a label (whatever the other candidates carry) gives the generic RuntimeError |
| `Classification.TransportFailuresFail` | app/services/model_service.py:38-40 | a connection or timeout fault, a 4xx/5xx status, or a body that is not JSON gives the generic RuntimeError, never a partial result |
| `Classification.MissingTokenDefersFailure` | app/services/model_service.py:15-27 | a service started without a token still starts, then fails on every non-blank text without sending anything |
| `Classification.ExamsAreAcademics` | app/services/model_service.py:38-53 | "Exams begin next week" with the reply `[[Academics 0.91, Events 0.05]]` is classified as Academics with confidence 0.91 |
| `News.ClassifyText` | app/routers/news.py:22-37 | succeeds exactly when predict does, with its result; blank text gives 400 with predict's message; any other failure gives 503 "Model service is not available" |
| `News.CreateNews` | app/routers/news.py:40-79 | inserts exactly one document under the new id: the client's fields and the classifier's category and confidence, or "Uncategorized" and 0.0 if it raised, attributed to the current user, with zero views and likes, active and not featured; the model never fails (but see its line under Left out) |
| `News.NewArticleDefaults` | app/routers/news.py:56-66 | a created article copies the client's text fields and carries the classifier's category in place of any category the client sent, with the server-side defaults |
| `News.CreateFallsBack` | app/routers/news.py:51-54 | any classifier exception, ValueError included, stores "Uncategorized" with confidence 0.0 |
| `News.CreateWithBlankContent` | app/routers/news.py:47-54 | creating an article whose content is blank still succeeds, as "Uncategorized" |
| `News.CreateAfterTransportFault` | app/routers/news.py:47-54 | a classifier connection error during create stores "Uncategorized" with confidence 0.0 |
| `News.UpdateNews` | app/routers/news.py:81-118 | a malformed or unknown id gives 500; a classifier failure maps to 400 or 503; nothing is written unless the update succeeds; on success exactly that document is replaced by the `$set` of the sent fields, the new classification (when content was sent) and `updated_at` |
| `News.UpdateTouchesOnlySetFields` | app/routers/news.py:93-107 | an update changes exactly the fields the client sent plus `updated_at`; category and confidence change only through reclassification; without content, a sent category replaces the stored one; counters, author and creation time never change |
| `News.ReclassifyAfterTransportFault` | app/routers/news.py:96-115 | a connection error while reclassifying sent content is answered with 503 |
| `News.ReportedIdFindsArticle` | app/routers/news.py:72 | the id a stored article is reported under (`str(_id)`) parses back to that article's id, so get, like, update and delete reach it |
| `News.DeleteNews` | app/routers/news.py:120-128 | a malformed id gives 500, an unknown one 404 with the collection unchanged; otherwise exactly that document is removed |
| `News.GetNews` | app/routers/news.py:175-192 | a malformed id gives 500, an unknown one 404 with nothing changed; otherwise that article gets one more view, and the document as read before the increment is returned |
| `News.LikeNews` | app/routers/news.py:194-205 | a malformed id gives 500, an unknown one 404 with nothing changed; otherwise that article gets one more like and nothing else changes |
| `News.Ordered` | app/routers/news.py:156 | the cursor order is a permutation of the matched ids, sorted by `created_at` descending (missing timestamps last) |
| `News.Window` | app/routers/news.py:150-156 | `skip(skip).limit(limit)` holds the elements from position `skip` on, at most `limit` of them, in order, and none once `skip` passes the end |
| `News.Selected` | app/routers/news.py:139-149 | the matched ids are exactly the documents the query accepts |
| `News.ListNews` | app/routers/news.py:131-173 | `total` counts every match; `items` is the requested page of the matches, newest first; exactly the returned documents get one more view |
| `News.PageMeetsQuery` | app/routers/news.py:139-156 | a page has at most `limit` distinct matching documents, newest first, and is empty once `(page - 1) * limit` reaches the match count |
| `News.EveryMatchIsOnAPage` | app/routers/news.py:150-156 | in the modelled cursor order, where equal `created_at` values are ordered by id, every matching document appears on some page; MongoDB itself does not promise one order across separate `skip`/`limit` queries when timestamps tie |
| `News.SkipIsProduct` | app/routers/news.py:150 | the number of matches skipped before page `page` is `(page - 1) * limit` |
| `News.PageOfPosition` | app/routers/news.py:150-156 | every position of the cursor order lies inside the window of some page |
| `News.PageOfIndex` | app/routers/news.py:150 | position `k` lies on page `k / limit + 1` |
| `News.ListCountsViewsOfReturnedOnly` | app/routers/news.py:162-168 | the view bump adds one to a document exactly when it was returned, and changes no other field |
| `News.BumpViews` | app/routers/news.py:163-168 | `update_many` with `$in` and `$inc` keeps every key, and adds one view to exactly the listed documents |
| `News.RecommendedNews` | app/routers/news.py:207-227 | the newest `limit` active articles in the user's preferred categories (any category when there are none), and nothing is counted |
| `News.RecommendedIsShadowed` | app/routers/news.py:175-227 | with the routes in declaration order, GET /news/recommended reaches get_news, whose `ObjectId("recommended")` raises, and no path reaches get_recommended_news |
| `News.RouteGetReachesRecommended` | app/routers/news.py:175-227 | with the literal route declared first, recommendations are reachable, and every valid id routes to get_news as before |
| `Auth.GetCurrentUser` | app/routers/auth.py:33-62 | succeeds exactly when the token decodes, its `sub` names a valid object id, and a user has that id; the result is that user; every failure is 401 "Could not validate credentials" |
| `Auth.GetCurrentActiveUser` | app/routers/auth.py:64-67 | passes the user unchanged exactly when it is active, otherwise 400 "Inactive user" |
| `Auth.FindByEmail` | app/routers/auth.py:71 | finds a user exactly when one has that email, and the one it finds has it |
| `Auth.Login` | app/routers/auth.py:69-97 | succeeds exactly when the email is registered and the password verifies against its hash; any other case gives 401 and changes nothing; on success only that user's `last_login` changes, and the token's subject is the user's id |
| `Auth.Register` | app/routers/auth.py:103-141 | a registered email gives 400 and inserts nothing; otherwise exactly one active user is inserted (role as sent or "student"), and a token for its id is returned |
| `Auth.RegisteredDefaults` | app/routers/auth.py:114-122 | a registered user is active, has the role sent or "student", keeps only the password's hash, and has creation and last-login time equal to now |
| `Auth.InsertedIsFound` | app/routers/auth.py:103-124 | inserting under a free email keeps emails unique, and that email then finds the new document |
| `Auth.RegisteredUserCanLogIn` | app/routers/auth.py:69-124 | right after registration, the email finds the new user, and the registered password passes the login check whenever `verify` accepts a password against its own hash |
| `Auth.IssuedTokenAuthenticates` | app/routers/auth.py:40-62 | any token whose decoded claims carry a user's printed id as `sub`, whatever other claims (such as an expiry) they hold, authenticates exactly that user |
| `Auth.NoSubjectNoUser` | app/routers/auth.py:47-50 | a token without a `sub` (or with a null one) never authenticates |
| `Users.CheckNewUser` | app/routers/users.py:14-33 | accepts exactly a free email together with a matric number (students) or staff id (admins); otherwise the first failing check's 400 in source order: email, matric number, staff id |
| `Users.CreateUser` | app/routers/users.py:12-42 | fails exactly when the checks fail, and then inserts nothing; otherwise inserts exactly the request's fields with the password replaced by its hash |
| `Users.CreatedUserCanLogIn` | app/routers/users.py:35-40 | a created user is found by its email, and its password passes the login check against the stored hash whenever `verify` accepts a password against its own hash |
| `Users.UpdatePreferences` | app/routers/users.py:48-58 | replaces the current user's preferred categories wholesale, changes nothing else, and always reports success |
| `Users.GetCurrentAdmin` | app/routers/users.py:65-71 | passes the user unchanged exactly when its role is "admin", otherwise 403 |
| `Users.AdminFromToken` | app/routers/users.py:65-71 | an admin endpoint's guards fail in order: 401 for the token, then 400 for an inactive user, then 403 for a non-admin |
| `ObjectIds.Parse` | app/routers/auth.py:33-38 | `ObjectId(s)` accepts exactly the 24-character strings of hexadecimal digits, and gives an id that fits in 12 bytes |
| `ObjectIds.ToString` | app/routers/auth.py:85-87 | `str(oid)` is 24 lower-case hexadecimal digits |
| `ObjectIds.ParseToString` | app/routers/auth.py:85-87 | parsing the printed id gives back the same id |

## Left out

- The HTTP transport, its 30-second timeout, and logging: `send` is a parameter. Only the request it is given and how its reply is read are modelled.
- JWT signing and decoding, and bcrypt hashing and verification: these are the parameters `createToken`, `decode`, `hash` and `verify`.
- `datetime.utcnow()`: the current time is a parameter `now`. register reads the clock twice (app/routers/auth.py:120-121), so its `created_at` and `last_login` can differ slightly; `Auth.RegisteredUser` gives both the same `now`.
- The id `insert_one` assigns: it is a parameter assumed fresh and below 16^24.
- MongoDB's regular-expression search: `$regex` with option `i` is an abstract `matches(pattern, text)`.
- Async execution and concurrent requests: each handler runs as one atomic step on the collection.
- FastAPI's dependency wiring, query-parameter validation (422) and the HTTP routing layer, except the GET route order behind the finding below. `News.ListNews` and `News.RecommendedNews` require the page and limit ranges FastAPI enforces before the handler runs.
- pydantic parsing of request bodies, and response-model construction (`News(**doc)`, `User(**doc)`): the model returns the stored documents. The validation errors these raise are not modelled, and neither is the `_id`/`id` renaming. The lines below name the cases known to change the answer.
- `Users.CreateUser`: under pydantic v2, `User(**created_user)` (app/routers/users.py:42) receives `_id` as a bson ObjectId for the field `id: str` (app/models/user.py:56) and rejects it. Nothing catches that error, so every request that passes the checks inserts the user and is then answered with 500. The model returns the inserted document instead.
- `News.UpdateNews`: an update that sets `title`, `tags`, `is_featured` or `is_active` to null is written to the store (app/routers/news.py:105-108). Then `News(**updated_news)` rejects the document (app/models/news.py:18, 22, 62-63). pydantic's ValidationError is a ValueError, so the client gets 400 although the store has changed. The same happens when content is sent and the classifier's label is not a string, because `category` is `Optional[str]` (app/models/news.py:20). The model reports success with the updated document. Its clause "nothing is written unless the update succeeds" holds only for the failures it models.
- `News.CreateNews`: a classifier label that is not a string is stored as it is (`category` is JSON in the model). Then `News(**created_news)` rejects it, because `category` is `Optional[str]` (app/models/news.py:20). The ValidationError is a ValueError, so the source answers 400 after the insert (app/routers/news.py:68-76). The model reports success.
- `News.GetNews`: a stored document that the `News` schema rejects makes `News(**news)` raise, uncaught, at app/routers/news.py:192. Such documents include a null `title`, `tags`, `is_featured` or `is_active` written by an update, or a non-string category. The source has already added the view (app/routers/news.py:185-188) and answers 500. The model returns the document.
- `Auth.GetCurrentUser`: the source builds `User(**user_dict)`, which fails with 500 for a stored user whose fields the schema rejects (such as a role other than "admin" or "student" sent to /auth/register). The model accepts every stored user.
- `Classification.Keys`: a string-valued `score` is treated as unusable. Python could sort and `float()` such values when every score in the list is a string.
- `News.Ordered`: MongoDB leaves the order of equal `created_at` values unspecified. The model breaks such ties by ascending id.
- `News.ListQuery` and `News.RecommendQuery`: a category equal to an array, and `$in` matching inside arrays, are not modelled. A stored category is matched only as a single value.
- The configured category list (app/core/config.py:28-35) is not modelled. The handlers never consult it: a classifier label is stored verbatim.
- `Classification.Score`: Python's `json` module, which `response.json()` uses, accepts `NaN` and `Infinity`. `JNumber` holds only real numbers, so such scores are not modelled. With a NaN score, `sorted` no longer puts the maximum first.
- `ObjectIds.Parse`: bson checks the length is 24 and then calls `bytes.fromhex`, which skips ASCII whitespace. A 24-character id with embedded spaces would therefore give a short id and a 404, where the model answers 500. bson is not part of this model.
- Endpoints not modelled, because each just returns a field of the current user or the stored documents: `read_users_me`, `get_user_preferences`, `get_user_department` and `list_users`.
- `bert_classifier.py` (the local-model classifier), the settings in `config.py` other than the category list, and the `create_user.py` script are not part of this model.

## Findings

| source | as written | input that shows it | evidently intended | confidence | as-written member | corrected member |
|---|---|---|---|---|---|---|
| app/routers/news.py:175-227 | `GET /news/{news_id}` is declared before `GET /news/recommended`, and FastAPI matches routes in declaration order | `GET /news/recommended` is handled by get_news with `news_id = "recommended"`; `ObjectId("recommended")` raises, giving 500 | the literal route is matched before the parameterised one, so recommendations are served | not executed | `News.RouteGetAsWritten`, `News.RecommendedIsShadowed` | `News.RouteGet`, `News.RouteGetReachesRecommended` |

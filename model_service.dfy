/**
 * The classification adapter (`ModelService.predict`): guards on the input text and on the API
 * token, one request to the hosted inference endpoint, a check of the response's shape, and the
 * choice of the best-scoring candidate. The HTTP transport is a parameter `send`; what it returns
 * is a fault or an HTTP reply whose body has been JSON-decoded (or could not be).
 */
module Classification {
  import opened Common

  const ModelRepo := "Emeka-JR/FYP_Model"
  const ApiUrl := "https://api-inference.huggingface.co/models/" + ModelRepo
  const TimeoutSeconds := 30

  const EmptyInputMessage := "Input text cannot be empty"
  const MissingTokenMessage := "HF_API_TOKEN is not configured on the server"
  const FailureMessage := "Failed to get prediction from model service"

  /** The service object: the only state is the token read once from the environment. */
  datatype ModelService = ModelService(apiToken: Option<string>)
  {
    /** `self.api_token` is truthy. */
    predicate HasToken()
    {
      Truthy(apiToken)
    }
  }

  /** The POST the adapter sends: URL, Authorization header, the `inputs` payload and the timeout. */
  datatype Request = Request(url: string, authorization: string, inputs: string, timeoutSeconds: int)

  /** What the transport gives back; `body` is None when `response.json()` cannot decode it. */
  datatype Reply = TransportFault | HttpReply(status: int, body: Option<Json>)

  /** The two exception classes `predict` raises. */
  datatype PredictError = ValueError(message: string) | RuntimeError(message: string)

  /** The dictionary with exactly the keys `category` and `confidence`. */
  datatype Prediction = Prediction(category: Json, confidence: real)

  type Outcome = Result<Prediction, PredictError>

  /** One call of `predict`: the request it sent, if any, and what it returned or raised. */
  datatype Call = Call(sent: Option<Request>, result: Outcome)

  /** `ModelService.__init__`: capture `HF_API_TOKEN` from the environment. */
  function Configure(hfApiToken: Option<string>): (svc: ModelService)
    ensures svc.HasToken() <==> hfApiToken.Some? && hfApiToken.value != ""
  {
    ModelService(hfApiToken)
  }

  /** Python's `str.isspace` for one character. */
  predicate IsSpace(c: char)
  {
    var n := c as int;
    (0x09 <= n <= 0x0D) || (0x1C <= n <= 0x20) || n == 0x85 || n == 0xA0 || n == 0x1680
    || (0x2000 <= n <= 0x200A) || n == 0x2028 || n == 0x2029 || n == 0x202F || n == 0x205F
    || n == 0x3000
  }

  /** `not text or not text.strip()`: empty, or whitespace only. */
  predicate Blank(text: string)
  {
    forall i :: 0 <= i < |text| ==> IsSpace(text[i])
  }

  function RequestFor(token: string, text: string): Request
  {
    Request(ApiUrl, "Bearer " + token, text, TimeoutSeconds)
  }

  /** A candidate together with its sort key `x["score"]`. */
  datatype Ranked = Ranked(score: real, item: Json)

  /**
   * The sort key of a candidate: a JSON object whose `score` is a number or a boolean
   * (Python orders `True` as 1 and `False` as 0); None where the key lookup or the
   * comparison would raise.
   */
  function Score(candidate: Json): Option<real>
  {
    match candidate
    case JObject(fields) =>
      if "score" !in fields then None
      else (match fields["score"]
            case JNumber(n) => Some(n)
            case JBool(b) => Some(if b then 1.0 else 0.0)
            case _ => None)
    case _ => None
  }

  /** The keys `sorted` computes for every element before it sorts; None if one of them fails. */
  function Keys(candidates: seq<Json>): (r: Option<seq<Ranked>>)
    ensures r.Some? <==> forall k :: 0 <= k < |candidates| ==> Score(candidates[k]).Some?
    ensures r.Some? ==> |r.value| == |candidates|
    ensures r.Some? ==> forall k :: 0 <= k < |candidates| ==>
      r.value[k] == Ranked(Score(candidates[k]).value, candidates[k])
  {
    if candidates == [] then Some([])
    else match Score(candidates[0])
      case None => None
      case Some(s) =>
        match Keys(candidates[1..])
        case None => None
        case Some(rest) => Some([Ranked(s, candidates[0])] + rest)
  }

  /** Place `x` before the first element of the descending `s` whose score does not exceed its own. */
  function Insert(x: Ranked, s: seq<Ranked>): seq<Ranked>
  {
    if s == [] || x.score >= s[0].score then [x] + s else [s[0]] + Insert(x, s[1..])
  }

  /** `sorted(s, key=score, reverse=True)`: descending and stable, equal scores keep their order. */
  function SortDesc(s: seq<Ranked>): seq<Ranked>
  {
    if s == [] then [] else Insert(s[0], SortDesc(s[1..]))
  }

  /** `s[i]` has the highest score, and every earlier candidate has a strictly lower one. */
  ghost predicate IsTop(s: seq<Ranked>, i: int)
  {
    && 0 <= i < |s|
    && (forall j :: 0 <= j < |s| ==> s[j].score <= s[i].score)
    && (forall j :: 0 <= j < i ==> s[j].score < s[i].score)
  }

  /** `best = sorted(...)[0]`, then `best["label"]` and `float(best["score"])`. */
  function Pick(ranked: seq<Ranked>): Option<Prediction>
  {
    if ranked == [] then None
    else
      var best := SortDesc(ranked)[0];
      match best.item
      case JObject(fields) =>
        if "label" in fields then Some(Prediction(fields["label"], best.score)) else None
      case _ => None
  }

  /** The check `isinstance(data, list) and len(data) > 0 and isinstance(data[0], list)`, then the pick. */
  function Interpret(data: Json): Option<Prediction>
  {
    if data.JArray? && |data.items| > 0 && data.items[0].JArray? then
      match Keys(data.items[0].items)
      case None => None
      case Some(ranked) => Pick(ranked)
    else None
  }

  /** `raise_for_status()` raises for 4xx and 5xx; `response.json()` raises on a body that is not JSON. */
  function Receive(reply: Reply): Option<Prediction>
  {
    match reply
    case TransportFault => None
    case HttpReply(status, body) =>
      if 400 <= status < 600 || body.None? then None else Interpret(body.value)
  }

  /** `ModelService.predict`. */
  function Predict(svc: ModelService, text: string, send: Request -> Reply): (c: Call)
    ensures Blank(text) ==> c == Call(None, Failure(ValueError(EmptyInputMessage)))
    ensures !Blank(text) && !svc.HasToken() ==>
      c == Call(None, Failure(RuntimeError(MissingTokenMessage)))
    ensures !Blank(text) && svc.HasToken() ==>
      && c.sent == Some(RequestFor(svc.apiToken.value, text))
      && (c.result.Failure? ==> c.result.error == RuntimeError(FailureMessage))
      && (c.result.Success? <==> Receive(send(c.sent.value)).Some?)
  {
    if Blank(text) then Call(None, Failure(ValueError(EmptyInputMessage)))
    else if !svc.HasToken() then Call(None, Failure(RuntimeError(MissingTokenMessage)))
    else
      var request := RequestFor(svc.apiToken.value, text);
      match Receive(send(request))
      case Some(p) => Call(Some(request), Success(p))
      case None => Call(Some(request), Failure(RuntimeError(FailureMessage)))
  }

  // ---- the stable descending sort ----

  lemma {:induction false} InsertPermutes(x: Ranked, s: seq<Ranked>)
    ensures |Insert(x, s)| == |s| + 1
    ensures multiset(Insert(x, s)) == multiset(s) + multiset{x}
  {
    if s != [] && x.score < s[0].score {
      InsertPermutes(x, s[1..]);
      assert s == [s[0]] + s[1..];
    }
  }

  /** The sort returns a rearrangement of its input. */
  lemma {:induction false} SortDescPermutes(s: seq<Ranked>)
    ensures |SortDesc(s)| == |s|
    ensures multiset(SortDesc(s)) == multiset(s)
  {
    if s != [] {
      SortDescPermutes(s[1..]);
      InsertPermutes(s[0], SortDesc(s[1..]));
      assert s == [s[0]] + s[1..];
    }
  }

  ghost predicate Descending(s: seq<Ranked>)
  {
    forall i, j :: 0 <= i < j < |s| ==> s[i].score >= s[j].score
  }

  lemma {:induction false} InsertDescending(x: Ranked, s: seq<Ranked>)
    requires Descending(s)
    ensures Descending(Insert(x, s))
  {
    if s != [] && x.score < s[0].score {
      InsertDescending(x, s[1..]);
      InsertPermutes(x, s[1..]);
      var t := Insert(x, s[1..]);
      forall k | 0 <= k < |t| ensures t[k].score <= s[0].score {
        assert t[k] in multiset(t);
        assert t[k] in multiset(s[1..]) + multiset{x};
        if t[k] != x {
          assert t[k] in s[1..];
        }
      }
    }
  }

  /** The sort orders the candidates by non-increasing score. */
  lemma {:induction false} SortDescDescending(s: seq<Ranked>)
    ensures Descending(SortDesc(s))
  {
    if s != [] {
      SortDescDescending(s[1..]);
      InsertDescending(s[0], SortDesc(s[1..]));
    }
  }

  /** Every non-empty candidate list has a top candidate. */
  lemma {:induction false} TopExists(s: seq<Ranked>)
    requires s != []
    ensures exists i :: IsTop(s, i)
  {
    if |s| == 1 {
      assert IsTop(s, 0);
    } else {
      TopExists(s[1..]);
      var k :| IsTop(s[1..], k);
      if s[0].score >= s[k + 1].score {
        assert IsTop(s, 0);
      } else {
        assert IsTop(s, k + 1);
      }
    }
  }

  /**
   * The head of the stable descending sort is the top candidate: highest score, first in
   * response order among equal scores.
   */
  lemma {:induction false} SortDescHead(s: seq<Ranked>, i: int)
    requires IsTop(s, i)
    ensures SortDesc(s) != [] && SortDesc(s)[0] == s[i]
  {
    var t := SortDesc(s[1..]);
    SortDescPermutes(s[1..]);
    if i == 0 {
      if t != [] {
        assert t[0] in multiset(s[1..]);
        assert t[0] in s[1..];
      }
    } else {
      assert IsTop(s[1..], i - 1);
      SortDescHead(s[1..], i - 1);
    }
  }

  // ---- what predict returns ----

  /** A well-formed candidate: a JSON object with a `label` and a numeric or boolean `score`. */
  predicate WellFormed(candidate: Json)
  {
    candidate.JObject? && "label" in candidate.fields && Score(candidate).Some?
  }

  /** Every candidate has a usable sort key. */
  predicate Scored(candidates: seq<Json>)
  {
    forall k :: 0 <= k < |candidates| ==> Score(candidates[k]).Some?
  }

  /**
   * Every candidate is scored and candidate `i` is the top one by those scores: the highest
   * score, and every earlier candidate a strictly lower one.
   */
  ghost predicate TopCandidate(candidates: seq<Json>, i: int)
  {
    Scored(candidates) && IsTop(Keys(candidates).value, i)
  }

  /** A 2xx/3xx reply whose decoded body is `[candidates, ...]`. */
  predicate RankedReply(reply: Reply, candidates: seq<Json>)
  {
    && reply.HttpReply?
    && !(400 <= reply.status < 600)
    && reply.body.Some?
    && reply.body.value.JArray?
    && |reply.body.value.items| > 0
    && reply.body.value.items[0] == JArray(candidates)
  }

  /**
   * For a reply `[[c1 .. cn]]` whose candidates all have a score, the category is the label of the
   * candidate with the highest score (the first of them on a tie) and the confidence is that
   * score, which no candidate exceeds.
   */
  lemma BestCandidate(svc: ModelService, text: string, send: Request -> Reply,
                      candidates: seq<Json>, i: int)
    requires !Blank(text) && svc.HasToken()
    requires RankedReply(send(RequestFor(svc.apiToken.value, text)), candidates)
    requires TopCandidate(candidates, i) && WellFormed(candidates[i])
    ensures Predict(svc, text, send).result
      == Success(Prediction(candidates[i].fields["label"], Score(candidates[i]).value))
    ensures forall k :: 0 <= k < |candidates| ==>
      Score(candidates[k]).value <= Predict(svc, text, send).result.value.confidence
  {
    var ranked := Keys(candidates).value;
    assert IsTop(ranked, i);
    SortDescHead(ranked, i);
  }

  /**
   * Conversely, a successful prediction always comes from such a reply: every candidate had a
   * score, and the result is the label and score of the top one.
   */
  lemma SuccessIsTopCandidate(svc: ModelService, text: string, send: Request -> Reply)
    requires Predict(svc, text, send).result.Success?
    ensures !Blank(text) && svc.HasToken()
    ensures exists candidates: seq<Json>, i: int ::
      && RankedReply(send(RequestFor(svc.apiToken.value, text)), candidates)
      && TopCandidate(candidates, i)
      && WellFormed(candidates[i])
      && Predict(svc, text, send).result.value
         == Prediction(candidates[i].fields["label"], Score(candidates[i]).value)
  {
    var reply := send(RequestFor(svc.apiToken.value, text));
    var candidates := reply.body.value.items[0].items;
    var ranked := Keys(candidates).value;
    TopExists(ranked);
    var i :| IsTop(ranked, i);
    SortDescHead(ranked, i);
    assert RankedReply(reply, candidates);
  }

  /** A body that is not a list, is an empty list, or whose first element is not a list fails. */
  lemma UnexpectedShapeFails(svc: ModelService, text: string, send: Request -> Reply)
    requires !Blank(text) && svc.HasToken()
    requires send(RequestFor(svc.apiToken.value, text)).HttpReply?
    requires send(RequestFor(svc.apiToken.value, text)).body.Some?
    requires var data := send(RequestFor(svc.apiToken.value, text)).body.value;
      !(data.JArray? && |data.items| > 0 && data.items[0].JArray?)
    ensures Predict(svc, text, send) ==
      Call(Some(RequestFor(svc.apiToken.value, text)), Failure(RuntimeError(FailureMessage)))
  {
  }

  /**
   * An empty candidate list, a candidate without a usable score, or a top candidate without a
   * label (whatever the others carry) fails.
   */
  lemma MalformedCandidatesFail(svc: ModelService, text: string, send: Request -> Reply,
                                candidates: seq<Json>)
    requires !Blank(text) && svc.HasToken()
    requires RankedReply(send(RequestFor(svc.apiToken.value, text)), candidates)
    requires || candidates == []
             || (exists k :: 0 <= k < |candidates| && Score(candidates[k]).None?)
             || (exists i :: TopCandidate(candidates, i) && !WellFormed(candidates[i]))
    ensures Predict(svc, text, send).result == Failure(RuntimeError(FailureMessage))
  {
    if exists i :: TopCandidate(candidates, i) && !WellFormed(candidates[i]) {
      var i :| TopCandidate(candidates, i) && !WellFormed(candidates[i]);
      var ranked := Keys(candidates).value;
      assert IsTop(ranked, i);
      SortDescHead(ranked, i);
    }
  }

  /** A transport fault or an error status never yields a partial result. */
  lemma TransportFailuresFail(svc: ModelService, text: string, send: Request -> Reply)
    requires !Blank(text) && svc.HasToken()
    requires var reply := send(RequestFor(svc.apiToken.value, text));
      reply.TransportFault? || (400 <= reply.status < 600) || reply.body.None?
    ensures Predict(svc, text, send).result == Failure(RuntimeError(FailureMessage))
  {
  }

  /** A service configured without a token fails on every non-blank text, and sends nothing. */
  lemma MissingTokenDefersFailure(hfApiToken: Option<string>, text: string, send: Request -> Reply)
    requires !Truthy(hfApiToken) && !Blank(text)
    ensures Predict(Configure(hfApiToken), text, send)
      == Call(None, Failure(RuntimeError(MissingTokenMessage)))
  {
  }

  /** The reply `[[{"label": "Academics", "score": 0.91}, {"label": "Events", "score": 0.05}]]`. */
  function ExamsReply(): Reply
  {
    HttpReply(200, Some(JArray([JArray([
      JObject(map["label" := JString("Academics"), "score" := JNumber(0.91)]),
      JObject(map["label" := JString("Events"), "score" := JNumber(0.05)])])])))
  }

  /** "Exams begin next week" with that reply is classified as Academics with confidence 0.91. */
  lemma ExamsAreAcademics(token: string, send: Request -> Reply)
    requires token != ""
    requires send(RequestFor(token, "Exams begin next week")) == ExamsReply()
    ensures Predict(ModelService(Some(token)), "Exams begin next week", send).result
      == Success(Prediction(JString("Academics"), 0.91))
  {
    assert !IsSpace("Exams begin next week"[0]);
    var ranked := Keys(ExamsReply().body.value.items[0].items).value;
    assert SortDesc(ranked)[0] == ranked[0];
  }
}

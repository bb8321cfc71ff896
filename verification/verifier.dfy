/** The relevance check: the request the verifier would send, and the decision it takes
    on the reply. The HTTP exchange, the image download and the JSON decoder are
    parameters; the prompt text is not modelled. */
module Verifier {
  import opened Wrappers
  import opened Text
  import opened Json
  import opened Models

  datatype VerificationResult = VerificationResult(relevant: bool, confidence: real, reason: string)

  const DisabledResult: VerificationResult := VerificationResult(true, 1.0, "AI disabled")

  /** What came back from the chat-completion endpoint: a transport or status error or
      a body that is not JSON (`verify` catches both), or the decoded JSON body. */
  datatype HttpReply = HttpFailed | Body(data: Json)

  /** One Python subscript: the value, a `KeyError` or `IndexError` (which `verify`
      catches), or a `TypeError` (which it does not). */
  datatype Lookup = Found(value: Json) | LookupError | TypeError

  /** The verifier's answer: a result, `None` (the request or its decoding failed), or an
      exception the verifier does not catch. */
  datatype VerifyOutcome = Verified(result: VerificationResult) | Unavailable | Raised(message: string)

  datatype Model = TextModel | VisionModel

  /** The request: which model, and the image data URIs sent with the prompt. */
  datatype Request = Request(model: Model, images: seq<string>)

  const MaxImages: nat := 3

  /** The data URIs of the images among the first three URLs that could be fetched. */
  function FetchImages(urls: seq<string>, fetch: string -> Option<string>): (r: seq<string>)
    ensures |r| <= |urls|
    ensures forall d <- r :: exists u <- urls :: fetch(u) == Some(d)
  {
    if |urls| == 0 then []
    else
      var rest := FetchImages(urls[1..], fetch);
      assert forall u <- urls[1..] :: u in urls;
      match fetch(urls[0])
      case Some(d) => [d] + rest
      case None => rest
  }

  /** The request for a listing: the vision model with the fetched images when at least
      one of the first three image URLs could be fetched, the text model otherwise. */
  function BuildRequest(imageUrls: seq<string>, fetch: string -> Option<string>): (r: Request)
    ensures |r.images| <= MaxImages
    ensures r.model == VisionModel <==> |r.images| > 0
    ensures r.images == FetchImages(Take(imageUrls, MaxImages), fetch)
  {
    var fetched := FetchImages(Take(imageUrls, MaxImages), fetch);
    if |imageUrls| > 0 && |fetched| > 0 then Request(VisionModel, fetched)
    else
      assert |imageUrls| == 0 ==> fetched == [];
      Request(TextModel, [])
  }

  /** Without image URLs, or when none of the first three can be fetched, the request
      goes to the text model without images. */
  lemma TextFallback(imageUrls: seq<string>, fetch: string -> Option<string>)
    requires forall i :: 0 <= i < |imageUrls| && i < MaxImages ==> fetch(imageUrls[i]).None?
    ensures BuildRequest(imageUrls, fetch) == Request(TextModel, [])
  {
    var first := Take(imageUrls, MaxImages);
    NoneFetched(first, fetch);
  }

  lemma {:induction false} NoneFetched(urls: seq<string>, fetch: string -> Option<string>)
    requires forall i :: 0 <= i < |urls| ==> fetch(urls[i]).None?
    ensures FetchImages(urls, fetch) == []
    decreases |urls|
  {
    if |urls| > 0 {
      NoneFetched(urls[1..], fetch);
    }
  }

  /** The reply text with surrounding whitespace removed and, when it opens with a code
      fence, the fence's first line dropped, and its last line too when that line is
      exactly the closing fence. */
  function StripFence(content: string): (r: string)
    ensures !StartsWith(Strip(content), "```") ==> r == Strip(content)
  {
    var c := Strip(content);
    if StartsWith(c, "```") then
      var lines := Split(c, '\n');
      var body := if lines[|lines| - 1] != "```" then lines[1..]
                  else if |lines| >= 2 then lines[1..|lines| - 1]
                  else [];
      Join(body, '\n')
    else c
  }

  /** A body wrapped in a fenced block comes out unchanged. */
  lemma StripFenceRoundTrip(lang: string, body: string)
    requires '\n' !in lang
    ensures StripFence("```" + lang + "\n" + body + "\n```") == body
  {
    var head := "```" + lang;
    var s := head + ['\n'] + (body + ['\n'] + "```");
    assert "```" + lang + "\n" + body + "\n```" == s;
    FencedIsStripped(head, body);
    StripOfStripped(s);
    FenceHeadIsOneLine(lang);
    var lines := FenceLines(head, body);
    StripFenceOfLines(s, lines);
    JoinSplit(body, '\n');
  }

  /** A stripped text that opens with a fence and ends with a closing fence line loses
      its first and last lines. */
  lemma StripFenceOfLines(c: string, lines: seq<string>)
    requires Strip(c) == c && StartsWith(c, "```")
    requires lines == Split(c, '\n') && |lines| >= 2 && lines[|lines| - 1] == "```"
    ensures StripFence(c) == Join(lines[1..|lines| - 1], '\n')
  {
  }

  lemma FenceHeadIsOneLine(lang: string)
    requires '\n' !in lang
    ensures '\n' !in "```" + lang
  {
    var head := "```" + lang;
    forall i | 0 <= i < |head| ensures head[i] != '\n' {
      if i >= 3 { assert head[i] == lang[i - 3]; }
    }
  }

  /** The lines of a fenced block: the opening line, the body's lines, the closing fence. */
  lemma FenceLines(head: string, body: string) returns (lines: seq<string>)
    requires '\n' !in head
    ensures lines == Split(head + ['\n'] + (body + ['\n'] + "```"), '\n')
    ensures |lines| >= 2 && lines[|lines| - 1] == "```" && lines[1..|lines| - 1] == Split(body, '\n')
  {
    var inner := Split(body, '\n');
    lines := [head] + (inner + ["```"]);
    assert lines == Split(head + ['\n'] + (body + ['\n'] + "```"), '\n') by {
      FenceTailLines(body);
      SplitPrepend(head, '\n', body + ['\n'] + "```");
    }
    MiddleOf(head, inner, "```");
  }

  /** The elements between the first and the last. */
  lemma MiddleOf<T>(a: T, m: seq<T>, z: T)
    ensures |[a] + (m + [z])| == |m| + 2
    ensures ([a] + (m + [z]))[1..|m| + 1] == m
  {
    var s := [a] + (m + [z]);
    assert forall i | 0 <= i < |m| :: s[1..|m| + 1][i] == s[i + 1] == m[i];
  }

  /** The body's lines followed by the closing fence. */
  lemma FenceTailLines(body: string)
    ensures Split(body + ['\n'] + "```", '\n') == Split(body, '\n') + ["```"]
  {
    SplitAppend(body, '\n', "```");
  }

  lemma FencedIsStripped(head: string, body: string)
    requires |head| >= 3 && head[..3] == "```"
    ensures var s := head + ['\n'] + (body + ['\n'] + "```");
            IsStripped(s) && StartsWith(s, "```")
  {
    var s := head + ['\n'] + (body + ['\n'] + "```");
    assert s[0] == '`' && s[|s| - 1] == '`';
    assert s[..3] == head[..3];
  }

  /** A separator-free first part is split off first. */
  lemma SplitPrepend(a: string, sep: char, rest: string)
    requires sep !in a
    ensures Split(a + [sep] + rest, sep) == [a] + Split(rest, sep)
  {
    var s := a + [sep] + rest;
    assert s[..|a|] == a;
    IndexOfIsFirst(s, sep, |a|);
    assert s[|a| + 1..] == rest;
  }

  /** Text without a fence is only stripped. */
  lemma StripFenceUnfenced(content: string)
    requires IsStripped(content) && !StartsWith(content, "```")
    ensures StripFence(content) == content
  {
    StripOfStripped(content);
  }

  /** Python's `float(value)` for a decoded JSON value. */
  function FloatOf(j: Json): (r: Result<real>)
    ensures j.JInt? || j.JFloat? ==> r == Success(NumberValue(j))
    ensures j.JNull? || j.JArr? || j.JObj? ==> r.Failure?
  {
    match j
    case JInt(_) => Success(NumberValue(j))
    case JFloat(_, _) => Success(NumberValue(j))
    case JBool(b) => Success(if b then 1.0 else 0.0)
    case JStr(s) =>
      (match ParseFloat(s)
       case Some(v) => Success(v)
       case None => Failure("ValueError: could not convert string to float"))
    case _ => Failure("TypeError: float() argument must be a string or a real number")
  }

  /** The decision read from a decoded reply: missing fields default to not relevant,
      confidence 0 and an empty reason. A reply that is not an object, or a confidence
      that `float` rejects, raises. */
  function ReadVerdict(data: Json): (r: Result<VerificationResult>)
    ensures data.JObj? && data.fields.Keys !! {"relevant", "confidence", "reason"} ==>
              r == Success(VerificationResult(false, 0.0, ""))
    ensures !data.JObj? ==> r.Failure?
  {
    if !data.JObj? then Failure("AttributeError: object has no attribute 'get'")
    else
      var relevant := Truthy(Field(data, "relevant", JBool(false)));
      var confidence :- FloatOf(Field(data, "confidence", JFloat(0, 1)));
      var reason := Str(Field(data, "reason", JStr("")));
      Success(VerificationResult(relevant, confidence, reason))
  }

  /** `v[key]` for a string key: only a dict can be indexed by a string. */
  function KeyOf(v: Json, key: string): (r: Lookup)
    ensures r.Found? <==> v.JObj? && key in v.fields
    ensures r.Found? ==> r.value == v.fields[key]
    ensures r.LookupError? <==> v.JObj? && key !in v.fields
  {
    match v
    case JObj(fields) => if key in fields then Found(fields[key]) else LookupError
    case _ => TypeError
  }

  /** `v[0]`: the first element of a list or the first character of a string; a dict
      decoded from JSON has only string keys, so 0 is a missing key. */
  function FirstOf(v: Json): (r: Lookup)
    ensures r.TypeError? <==> !(v.JArr? || v.JStr? || v.JObj?)
    ensures v.JArr? ==> (r.Found? <==> |v.items| > 0) && (r.Found? ==> r.value == v.items[0])
  {
    match v
    case JArr(items) => if |items| > 0 then Found(items[0]) else LookupError
    case JStr(s) => if |s| > 0 then Found(JStr(s[..1])) else LookupError
    case JObj(_) => LookupError
    case _ => TypeError
  }

  /** `data["choices"][0]["message"]["content"]`: the first failing subscript decides. */
  function EnvelopeContent(data: Json): (r: Lookup)
    ensures !data.JObj? ==> r.TypeError?
    ensures data.JObj? && "choices" !in data.fields ==> r.LookupError?
    ensures data.JObj? && "choices" in data.fields && data.fields["choices"] == JArr([]) ==> r.LookupError?
  {
    match KeyOf(data, "choices")
    case Found(choices) =>
      (match FirstOf(choices)
       case Found(choice) =>
         (match KeyOf(choice, "message")
          case Found(message) => KeyOf(message, "content")
          case failed => failed)
       case failed => failed)
    case failed => failed
  }

  /** The body the endpoint sends for a reply text. */
  function Envelope(content: Json): Json {
    JObj(map["choices" := JArr([JObj(map["message" := JObj(map["content" := content])])])])
  }

  /** The content of a well-formed envelope is read back whatever it is. */
  lemma EnvelopeRoundTrip(content: Json)
    ensures EnvelopeContent(Envelope(content)) == Found(content)
  {
    var message := JObj(map["content" := content]);
    var choice := JObj(map["message" := message]);
    assert KeyOf(Envelope(content), "choices") == Found(JArr([choice]));
    assert FirstOf(JArr([choice])) == Found(choice);
    assert KeyOf(choice, "message") == Found(message);
  }

  /** A subscript into a value that is not a container raises `TypeError` at any depth:
      a null or list body, or `choices` that is null or a number; a string `choices`
      yields a one-character string, which cannot be indexed by "message". */
  lemma EnvelopeTypeErrors(data: Json, choices: Json, s: string)
    requires choices.JNull? || choices.JInt? || choices.JBool? || choices.JFloat?
    requires |s| > 0
    ensures EnvelopeContent(JNull).TypeError?
    ensures EnvelopeContent(JArr([data])).TypeError?
    ensures EnvelopeContent(JObj(map["choices" := choices])).TypeError?
    ensures EnvelopeContent(JObj(map["choices" := JStr(s)])).TypeError?
  {
    assert FirstOf(JStr(s)) == Found(JStr(s[..1]));
  }

  /** What decoding a reply gives: a result, a JSON decode error, or another exception. */
  datatype ParseOutcome = Parsed(result: VerificationResult) | DecodeError | ParseRaised(message: string)

  /** `_parse_response`: strip the fence, decode, read the fields. `loads` is the JSON
      decoder; `None` is its decode error. */
  function ParseResponse(content: string, loads: string -> Option<Json>): (r: ParseOutcome)
    ensures loads(StripFence(content)).None? <==> r.DecodeError?
    ensures loads(StripFence(content)).Some? ==>
              (r.Parsed? <==> ReadVerdict(loads(StripFence(content)).value).Success?)
  {
    match loads(StripFence(content))
    case None => DecodeError
    case Some(data) =>
      match ReadVerdict(data)
      case Success(v) => Parsed(v)
      case Failure(e) => ParseRaised(e)
  }

  /** `AIVerifier.verify` without image URLs, as the scan calls it. */
  function Verify(q: Query, reply: HttpReply, loads: string -> Option<Json>): (r: VerifyOutcome)
    ensures !q.aiEnabled ==> r == Verified(DisabledResult)
    ensures q.aiEnabled && reply.HttpFailed? ==> r.Unavailable?
    ensures q.aiEnabled && reply.Body? ==>
              var c := EnvelopeContent(reply.data);
              && (c.LookupError? ==> r.Unavailable?)
              && (c.TypeError? ==> r.Raised?)
              && (c.Found? && !c.value.JStr? ==> r.Raised?)
  {
    VerifyWithImages(q, [], s => None, reply, loads).1
  }

  /** `AIVerifier.verify`: the disabled short-circuit sends nothing; otherwise the request
      is built and the reply decided on. Transport errors, a missing key or index in the
      envelope and a decode error give no result; other exceptions, such as a
      `TypeError` in the envelope, escape. */
  function VerifyWithImages(q: Query, imageUrls: seq<string>, fetch: string -> Option<string>,
                            reply: HttpReply, loads: string -> Option<Json>): (r: (Option<Request>, VerifyOutcome))
    ensures !q.aiEnabled ==> r == (None, Verified(DisabledResult))
    ensures q.aiEnabled ==> r.0 == Some(BuildRequest(imageUrls, fetch))
    ensures q.aiEnabled && reply.HttpFailed? ==> r.1.Unavailable?
    ensures q.aiEnabled && reply.Body? ==>
              var c := EnvelopeContent(reply.data);
              && (c.LookupError? ==> r.1.Unavailable?)
              && (c.TypeError? ==> r.1.Raised?)
              && (c.Found? && !c.value.JStr? ==> r.1.Raised?)
    ensures q.aiEnabled && reply.Body? && EnvelopeContent(reply.data).Found? && EnvelopeContent(reply.data).value.JStr? ==>
              match ParseResponse(EnvelopeContent(reply.data).value.s, loads)
              case Parsed(v) => r.1 == Verified(v)
              case DecodeError => r.1 == Unavailable
              case ParseRaised(e) => r.1 == Raised(e)
  {
    if !q.aiEnabled then (None, Verified(DisabledResult))
    else
      var request := BuildRequest(imageUrls, fetch);
      var outcome :=
        match reply
        case HttpFailed => Unavailable
        case Body(data) =>
          match EnvelopeContent(data)
          case LookupError => Unavailable
          case TypeError => Raised("TypeError: object is not subscriptable")
          case Found(JStr(text)) =>
            (match ParseResponse(text, loads)
             case Parsed(v) => Verified(v)
             case DecodeError => Unavailable
             case ParseRaised(e) => Raised(e))
          case Found(_) => Raised("AttributeError: object has no attribute 'strip'");
      (Some(request), outcome)
  }

  /** A fenced reply with every field present is read field by field. */
  lemma FencedReplyRead(q: Query, lang: string, body: string, loads: string -> Option<Json>,
                        relevant: bool, confidence: int, reason: string)
    requires q.aiEnabled && '\n' !in lang
    requires loads(body) == Some(JObj(map["relevant" := JBool(relevant), "confidence" := JInt(confidence), "reason" := JStr(reason)]))
    ensures Verify(q, Body(Envelope(JStr("```" + lang + "\n" + body + "\n```"))), loads)
         == Verified(VerificationResult(relevant, confidence as real, reason))
  {
    var content := "```" + lang + "\n" + body + "\n```";
    var data := JObj(map["relevant" := JBool(relevant), "confidence" := JInt(confidence), "reason" := JStr(reason)]);
    var v := VerificationResult(relevant, confidence as real, reason);
    StripFenceRoundTrip(lang, body);
    EnvelopeRoundTrip(JStr(content));
    assert loads(StripFence(content)) == Some(data);
    ReadFullVerdict(relevant, confidence, reason);
    assert ParseResponse(content, loads) == Parsed(v);
  }

  /** An object with all three fields is read as exactly those values. */
  lemma ReadFullVerdict(relevant: bool, confidence: int, reason: string)
    ensures ReadVerdict(JObj(map["relevant" := JBool(relevant), "confidence" := JInt(confidence), "reason" := JStr(reason)]))
         == Success(VerificationResult(relevant, confidence as real, reason))
  {
    var data := JObj(map["relevant" := JBool(relevant), "confidence" := JInt(confidence), "reason" := JStr(reason)]);
    assert Field(data, "relevant", JBool(false)) == JBool(relevant);
    assert Field(data, "confidence", JFloat(0, 1)) == JInt(confidence);
    assert Field(data, "reason", JStr("")) == JStr(reason);
  }
}

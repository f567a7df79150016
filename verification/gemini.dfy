/** The AI service: script generation and grounded trend search against a
    generative model. The model call itself is an oracle handed in by the
    caller (a function from request to response or thrown error), and so is
    `JSON.parse`; everything around them is modelled as written. */
module Gemini {
  import opened Types

  /** A thrown error. An error without a message carries the empty message. */
  datatype Failure = Failure(message: string)

  const KeyMissingMessage: string := "API Key not found"
  const NoResponseMessage: string := "No response from AI"
  const ModelName: string := "gemini-2.5-flash"
  const JsonMime: string := "application/json"
  const Temperature: real := 0.7

  /** A value `JSON.parse` can return. */
  datatype Json =
    | JNull
    | JBool(b: bool)
    | JNumber(n: real)
    | JString(s: string)
    | JArray(items: seq<Json>)
    | JObject(fields: map<string, Json>)

  /** The structured-output schema language, as far as this service uses it. */
  datatype Schema =
    | StringSchema(description: Option<string>)
    | ArraySchema(items: Schema, description: Option<string>)
    | ObjectSchema(properties: seq<Property>, required: seq<string>)

  datatype Property = Property(name: string, schema: Schema)

  /** The output schema declared to the model for script generation. */
  const VideoScriptSchema: Schema := ObjectSchema(
    [ Property("title", StringSchema(Some("Catchy YouTube video title"))),
      Property("description", StringSchema(Some("YouTube video description with SEO keywords"))),
      Property("script", StringSchema(Some("Full spoken script for the video voiceover"))),
      Property("hashtags", ArraySchema(StringSchema(None), Some("List of 5-10 relevant hashtags"))),
      Property("thumbnailPrompt", StringSchema(Some("A detailed visual description for an AI image generator to create a thumbnail"))),
      Property("bgMusicType", StringSchema(Some("Suggested mood/genre for background music"))) ],
    ["title", "description", "script", "hashtags", "thumbnailPrompt", "bgMusicType"])

  /** `j` has the shape `s` describes: every required member is present and
      every declared member that is present has its declared shape. */
  predicate Conforms(j: Json, s: Schema)
    decreases s
  {
    match s
    case StringSchema(_) => j.JString?
    case ArraySchema(item, _) =>
      j.JArray? && forall k :: 0 <= k < |j.items| ==> Conforms(j.items[k], item)
    case ObjectSchema(props, req) =>
      && j.JObject?
      && (forall n :: n in req ==> n in j.fields)
      && (forall k :: 0 <= k < |props| && props[k].name in j.fields ==>
            Conforms(j.fields[props[k].name], props[k].schema))
  }

  /** The schema requires exactly the six VideoScript fields, declares each of
      them once, and wants the hashtags as an array of strings. */
  lemma VideoScriptSchemaFields()
    ensures VideoScriptSchema.ObjectSchema?
    ensures |VideoScriptSchema.properties| == 6
    ensures VideoScriptSchema.required == ["title", "description", "script", "hashtags", "thumbnailPrompt", "bgMusicType"]
    ensures forall k :: 0 <= k < 6 ==> VideoScriptSchema.properties[k].name == VideoScriptSchema.required[k]
    ensures VideoScriptSchema.properties[3].schema.ArraySchema?
    ensures VideoScriptSchema.properties[3].schema.items == StringSchema(None)
    ensures forall k :: 0 <= k < 6 && k != 3 ==> VideoScriptSchema.properties[k].schema.StringSchema?
  {
  }

  function StringsJson(ss: seq<string>): (j: Json)
    ensures j.JArray? && |j.items| == |ss|
    ensures forall k :: 0 <= k < |ss| ==> j.items[k] == JString(ss[k])
  {
    JArray(seq(|ss|, k requires 0 <= k < |ss| => JString(ss[k])))
  }

  /** The JSON object a VideoScript is written as. */
  function Encode(v: VideoScript): Json
  {
    JObject(map[
      "title" := JString(v.title),
      "description" := JString(v.description),
      "script" := JString(v.script),
      "hashtags" := StringsJson(v.hashtags),
      "thumbnailPrompt" := JString(v.thumbnailPrompt),
      "bgMusicType" := JString(v.bgMusicType)])
  }

  predicate IsStringArray(j: Json)
  {
    j.JArray? && forall k :: 0 <= k < |j.items| ==> j.items[k].JString?
  }

  /** Reads a VideoScript back from a JSON object with the six fields in
      their declared shapes, and nothing from anything else. */
  function Decode(j: Json): Option<VideoScript>
  {
    if && j.JObject?
       && "title" in j.fields && j.fields["title"].JString?
       && "description" in j.fields && j.fields["description"].JString?
       && "script" in j.fields && j.fields["script"].JString?
       && "hashtags" in j.fields && IsStringArray(j.fields["hashtags"])
       && "thumbnailPrompt" in j.fields && j.fields["thumbnailPrompt"].JString?
       && "bgMusicType" in j.fields && j.fields["bgMusicType"].JString?
    then
      var tags := j.fields["hashtags"].items;
      Some(VideoScript(
        j.fields["title"].s,
        j.fields["description"].s,
        j.fields["script"].s,
        seq(|tags|, k requires 0 <= k < |tags| => tags[k].s),
        j.fields["thumbnailPrompt"].s,
        j.fields["bgMusicType"].s))
    else None
  }

  /** Every VideoScript, written as JSON, satisfies the declared schema. */
  lemma EncodeConforms(v: VideoScript)
    ensures Conforms(Encode(v), VideoScriptSchema)
  {
    var j := Encode(v);
    var props := VideoScriptSchema.properties;
    VideoScriptSchemaFields();
    forall k | 0 <= k < |props| && props[k].name in j.fields
      ensures Conforms(j.fields[props[k].name], props[k].schema)
    {
      if k == 3 {
        var tags := j.fields["hashtags"];
        assert forall i :: 0 <= i < |tags.items| ==> Conforms(tags.items[i], StringSchema(None));
      }
    }
  }

  /** Reading back what was written gives the same VideoScript, hashtags in order. */
  lemma DecodeEncode(v: VideoScript)
    ensures Decode(Encode(v)) == Some(v)
  {
    var j := Encode(v);
    var tags := j.fields["hashtags"].items;
    assert seq(|tags|, k requires 0 <= k < |tags| => tags[k].s) == v.hashtags;
  }

  /** A value satisfying the schema has the `k`-th declared field, in its declared shape. */
  lemma ConformingField(j: Json, k: nat)
    requires Conforms(j, VideoScriptSchema) && k < 6
    ensures VideoScriptSchema.properties[k].name in j.fields
    ensures Conforms(j.fields[VideoScriptSchema.properties[k].name], VideoScriptSchema.properties[k].schema)
  {
  }

  /** Anything that satisfies the declared schema can be read as a VideoScript. */
  lemma ConformingDecodes(j: Json)
    requires Conforms(j, VideoScriptSchema)
    ensures Decode(j).Some?
  {
    ConformingField(j, 0);
    ConformingField(j, 1);
    ConformingField(j, 2);
    ConformingField(j, 3);
    ConformingField(j, 4);
    ConformingField(j, 5);
    var tags := j.fields["hashtags"];
    assert forall k :: 0 <= k < |tags.items| ==> Conforms(tags.items[k], StringSchema(None));
  }

  /** Conversely, anything that can be read as a VideoScript satisfies the
      schema: a value conforms exactly when it decodes. */
  lemma DecodesConforming(j: Json)
    requires Decode(j).Some?
    ensures Conforms(j, VideoScriptSchema)
  {
    var props := VideoScriptSchema.properties;
    VideoScriptSchemaFields();
    forall k | 0 <= k < |props| && props[k].name in j.fields
      ensures Conforms(j.fields[props[k].name], props[k].schema)
    {
      if k == 3 {
        var tags := j.fields["hashtags"];
        assert forall i :: 0 <= i < |tags.items| ==> Conforms(tags.items[i], StringSchema(None));
      }
    }
  }

  /** An `ai.models.generateContent` request. */
  datatype Tool = GoogleSearch

  datatype Request = Request(
    model: string,
    contents: string,
    systemInstruction: string,
    responseMimeType: Option<string>,
    responseSchema: Option<Schema>,
    temperature: Option<real>,
    tools: seq<Tool>)

  /** A web grounding citation as the model returns it. */
  datatype Web = Web(uri: string, title: string, domain: Option<string>)

  datatype Chunk = Chunk(web: Option<Web>)

  datatype GroundingMetadata = GroundingMetadata(groundingChunks: Option<seq<Chunk>>)

  datatype Candidate = Candidate(groundingMetadata: Option<GroundingMetadata>)

  datatype Response = Response(text: Option<string>, candidates: Option<seq<Candidate>>)

  /** The model behind the client: what it answers to a request, or the error it throws. */
  type Model = Request -> Result<Response, Failure>

  /** `JSON.parse`: the value, or the syntax error it throws. */
  type JsonParser = string -> Result<Json, Failure>

  /** What a service call settled to, and the request it sent to the model, if any. */
  datatype Call<T> = Call(result: Result<T, Failure>, sent: Option<Request>)

  /** `!apiKey` is false: the key is configured and not empty. */
  predicate HasKey(apiKey: Option<string>)
  {
    apiKey.Some? && apiKey.value != ""
  }

  /** A text the model returned counts as a response unless absent or empty. */
  predicate HasText(text: Option<string>)
  {
    text.Some? && text.value != ""
  }

  const ZhScriptInstruction: string :=
    "你是一個專業的 YouTube 自動化專家。" + "請根據提供的主題生成高品質的影片腳本、標題和描述。" + "請使用繁體中文回答。"
  const EnScriptInstruction: string :=
    "You are a professional " + "YouTube automation expert. " + "Generate a high-quality " +
    "video script, title, and " + "description based on the " + "provided topic. " + "Answer in English."
  const ZhSearchInstruction: string :=
    "你是一個 YouTube 趨勢研究員。" + "請根據使用者的搜尋查詢，利用 Google 搜尋尋找相關的最新資訊，" + "並總結對影片創作者有用的重點。"
  const EnSearchInstruction: string :=
    "You are a YouTube trend " + "researcher. Use Google Search " + "to find the latest information " +
    "based on the user's query " + "and summarize key points " + "useful for video creators."

  /** The script writer's instruction: the Chinese variant exactly for zh-TW. */
  function ScriptInstruction(l: Language): (r: string)
    ensures r == ZhScriptInstruction <==> l == ZhTW
    ensures l == En ==> r == EnScriptInstruction
  {
    assert ZhScriptInstruction[0] != EnScriptInstruction[0];
    if l == ZhTW then ZhScriptInstruction else EnScriptInstruction
  }

  /** The researcher's instruction: the Chinese variant exactly for zh-TW. */
  function SearchInstruction(l: Language): (r: string)
    ensures r == ZhSearchInstruction <==> l == ZhTW
    ensures l == En ==> r == EnSearchInstruction
  {
    assert ZhSearchInstruction[0] != EnSearchInstruction[0];
    if l == ZhTW then ZhSearchInstruction else EnSearchInstruction
  }

  const PromptHead: string := "Create a complete video package for the topic: \""
  const PromptTail: string :=
    "\". \n  Include a viral title, " + "an SEO-optimized description, " + "a script for a 60-second short, " +
    "hashtags, a prompt for the thumbnail, " + "and music suggestions."

  /** The synthesis prompt: the topic, verbatim, between double quotes. */
  function Prompt(topic: string): (r: string)
    ensures |r| == |PromptHead| + |topic| + |PromptTail|
    ensures r[|PromptHead| - 1] == '"' && r[|PromptHead| + |topic|] == '"'
    ensures r[|PromptHead|..|PromptHead| + |topic|] == topic
  {
    assert PromptHead[|PromptHead| - 1] == '"' && PromptTail[0] == '"';
    PromptHead + topic + PromptTail
  }

  /** The topic a prompt was built from, if it is a prompt at all. */
  function PromptTopic(prompt: string): Option<string>
  {
    if |prompt| >= |PromptHead| + |PromptTail|
       && prompt[..|PromptHead|] == PromptHead
       && prompt[|prompt| - |PromptTail|..] == PromptTail
    then Some(prompt[|PromptHead|..|prompt| - |PromptTail|])
    else None
  }

  /** The topic can be read back from the prompt, so distinct topics give distinct prompts. */
  lemma PromptTopicRoundTrip(topic: string)
    ensures PromptTopic(Prompt(topic)) == Some(topic)
  {
  }

  /** The request script generation sends. */
  function GenerationRequest(topic: string, language: Language): Request
  {
    Request(ModelName, Prompt(topic), ScriptInstruction(language),
            Some(JsonMime), Some(VideoScriptSchema), Some(Temperature), [])
  }

  /** `generateVideoContent`: the parsed JSON of a non-empty model answer. */
  function GenerateVideoContent(apiKey: Option<string>, topic: string, language: Language,
                                model: Model, parse: JsonParser): (c: Call<Json>)
    ensures c.sent.Some? <==> HasKey(apiKey)
    ensures !HasKey(apiKey) ==> c.result == Err(Failure(KeyMissingMessage))
    ensures c.sent.Some? ==> c.sent.value == GenerationRequest(topic, language)
    ensures HasKey(apiKey) ==>
      var answer := model(GenerationRequest(topic, language));
      && (answer.Err? ==> c.result == Err(answer.error))
      && (answer.Ok? && !HasText(answer.value.text) ==> c.result == Err(Failure(NoResponseMessage)))
      && (answer.Ok? && HasText(answer.value.text) ==> c.result == parse(answer.value.text.value))
  {
    if !HasKey(apiKey) then Call(Err(Failure(KeyMissingMessage)), None)
    else
      var request := GenerationRequest(topic, language);
      var result :=
        match model(request)
        case Err(e) => Err(e)
        case Ok(response) =>
          if !HasText(response.text) then Err(Failure(NoResponseMessage))
          else parse(response.text.value);
      Call(result, Some(request))
  }

  /** The cast after parsing checks nothing: a well-formed answer that lacks
      every schema field still comes back as a success. */
  lemma ParsedValueIsNotChecked()
    ensures var c := GenerateVideoContent(Some("key"), "topic", En,
                                          (r: Request) => Ok(Response(Some("{}"), None)),
                                          (s: string) => Ok(JObject(map[])));
            c.result == Ok(JObject(map[])) && !Conforms(c.result.value, VideoScriptSchema)
  {
    assert "title" in VideoScriptSchema.required;
  }

  /** The request trend search sends. */
  function SearchRequest(query: string, language: Language): Request
  {
    Request(ModelName, query, SearchInstruction(language), None, None, None, [GoogleSearch])
  }

  /** `response.candidates?.[0]?.groundingMetadata?.groundingChunks || []`. */
  function FirstCandidateChunks(response: Response): (chunks: seq<Chunk>)
    ensures response.candidates.None? || response.candidates.value == [] ==> chunks == []
    ensures response.candidates.Some? && response.candidates.value != [] ==>
      var first := response.candidates.value[0];
      && (first.groundingMetadata.None? ==> chunks == [])
      && (first.groundingMetadata.Some? && first.groundingMetadata.value.groundingChunks.None? ==> chunks == [])
      && (first.groundingMetadata.Some? && first.groundingMetadata.value.groundingChunks.Some? ==>
            chunks == first.groundingMetadata.value.groundingChunks.value)
  {
    if response.candidates.Some? && |response.candidates.value| > 0 then
      var first := response.candidates.value[0];
      if first.groundingMetadata.Some? && first.groundingMetadata.value.groundingChunks.Some?
      then first.groundingMetadata.value.groundingChunks.value
      else []
    else []
  }

  /** `.map(chunk => chunk.web)` */
  function WebFields(chunks: seq<Chunk>): (ws: seq<Option<Web>>)
    ensures |ws| == |chunks| && forall k :: 0 <= k < |ws| ==> ws[k] == chunks[k].web
  {
    seq(|chunks|, k requires 0 <= k < |chunks| => chunks[k].web)
  }

  /** `.filter(web => web)` */
  function PresentWebs(ws: seq<Option<Web>>): (r: seq<Web>)
    ensures |r| <= |ws|
    ensures forall w :: w in r <==> Some(w) in ws
  {
    if ws == [] then []
    else if ws[0].Some? then [ws[0].value] + PresentWebs(ws[1..])
    else PresentWebs(ws[1..])
  }

  /** A citation reduced to its title and uri. */
  function ToSource(w: Web): Source
  {
    Source(w.title, w.uri)
  }

  /** `.map(web => ({ title: web.title, uri: web.uri }))` */
  function ToSources(ws: seq<Web>): (r: seq<Source>)
    ensures |r| == |ws| && forall k :: 0 <= k < |r| ==> r[k] == ToSource(ws[k])
  {
    seq(|ws|, k requires 0 <= k < |ws| => ToSource(ws[k]))
  }

  /** The cited sources of a list of grounding chunks: one per chunk that has
      a web citation, no more than there are chunks. */
  function GroundingSources(chunks: seq<Chunk>): (r: seq<Source>)
    ensures |r| <= |chunks|
    ensures forall k :: 0 <= k < |chunks| && chunks[k].web.Some? ==> ToSource(chunks[k].web.value) in r
    ensures forall s :: s in r ==> exists k :: 0 <= k < |chunks| && chunks[k].web.Some? && ToSource(chunks[k].web.value) == s
  {
    var ws := WebFields(chunks);
    var present := PresentWebs(ws);
    var r := ToSources(present);
    assert forall k :: 0 <= k < |chunks| && chunks[k].web.Some? ==> chunks[k].web.value in present by {
      forall k | 0 <= k < |chunks| && chunks[k].web.Some?
        ensures chunks[k].web.value in present
      {
        assert ws[k] == chunks[k].web;
      }
    }
    assert forall s :: s in r ==> exists w :: w in present && ToSource(w) == s;
    r
  }

  lemma {:induction false} PresentWebsAppend(a: seq<Option<Web>>, b: seq<Option<Web>>)
    ensures PresentWebs(a + b) == PresentWebs(a) + PresentWebs(b)
  {
    if a == [] {
      assert a + b == b;
    } else {
      assert (a + b)[0] == a[0];
      assert (a + b)[1..] == a[1..] + b;
      PresentWebsAppend(a[1..], b);
    }
  }

  lemma ToSourcesAppend(a: seq<Web>, b: seq<Web>)
    ensures ToSources(a + b) == ToSources(a) + ToSources(b)
  {
  }

  /** The pipeline works chunk by chunk and keeps the chunks' order: a chunk
      without a web citation contributes nothing, one with a citation
      contributes its title and uri, and sources of consecutive runs of
      chunks follow each other. */
  lemma GroundingSourcesPreservesOrder(a: seq<Chunk>, b: seq<Chunk>, c: Chunk)
    ensures GroundingSources(a + b) == GroundingSources(a) + GroundingSources(b)
    ensures c.web.None? ==> GroundingSources([c]) == []
    ensures c.web.Some? ==> GroundingSources([c]) == [ToSource(c.web.value)]
  {
    var wa, wb := WebFields(a), WebFields(b);
    assert WebFields(a + b) == wa + wb;
    PresentWebsAppend(wa, wb);
    ToSourcesAppend(PresentWebs(wa), PresentWebs(wb));
    assert WebFields([c]) == [c.web];
    assert [c.web][1..] == [];
  }

  /** `searchTrends`: the answer text (empty when absent) and the web sources
      of the first candidate's grounding chunks. */
  function SearchTrends(apiKey: Option<string>, query: string, language: Language,
                        model: Model): (c: Call<SearchResult>)
    ensures c.sent.Some? <==> HasKey(apiKey)
    ensures !HasKey(apiKey) ==> c.result == Err(Failure(KeyMissingMessage))
    ensures c.sent.Some? ==> c.sent.value == SearchRequest(query, language)
    ensures HasKey(apiKey) ==>
      var answer := model(SearchRequest(query, language));
      && (answer.Err? ==> c.result == Err(answer.error))
      && (answer.Ok? ==>
            && c.result.Ok?
            && c.result.value.text == (if answer.value.text.Some? then answer.value.text.value else "")
            && c.result.value.sources == GroundingSources(FirstCandidateChunks(answer.value)))
  {
    if !HasKey(apiKey) then Call(Err(Failure(KeyMissingMessage)), None)
    else
      var request := SearchRequest(query, language);
      var result :=
        match model(request)
        case Err(e) => Err(e)
        case Ok(response) =>
          var text := if response.text.Some? then response.text.value else "";
          Ok(SearchResult(text, GroundingSources(FirstCandidateChunks(response))));
      Call(result, Some(request))
  }

  /** No candidates, or a first candidate without grounding chunks, gives no sources. */
  lemma NoGroundingNoSources(apiKey: Option<string>, query: string, language: Language, model: Model)
    requires HasKey(apiKey)
    requires var answer := model(SearchRequest(query, language));
      answer.Ok? && FirstCandidateChunks(answer.value) == []
    ensures SearchTrends(apiKey, query, language, model).result.Ok?
    ensures SearchTrends(apiKey, query, language, model).result.value.sources == []
  {
  }
}

/** The request the TextRazor client sends for one analysis: the form it
    builds from the analysis parameters and the POST description it hands to
    the HTTP library. */
module TextRazorSdk {
  import opened JsValues

  /** The analysis parameters `{ text, url, extractors }`; a missing key is `Undefined`. */
  datatype Params = Params(text: Value, url: Value, extractors: Value)

  /** The options object given to `rp.post`. */
  datatype PostRequest = PostRequest(url: Value, headers: map<string, Value>, form: map<string, Value>)

  const API_KEY_HEADER: string := "x-textrazor-key"

  /** The form fields TextRazor receives for `p`, key by key: `extractors`
      always, as given; `text` exactly when the text is truthy; `url` and the
      two cleanup options exactly when the text is falsy and the url truthy;
      nothing else. */
  ghost predicate FormFor(p: Params, form: map<string, Value>) {
    && form.Keys <= {"extractors", "text", "url", "cleanup.mode", "cleanup.returnCleaned"}
    && "extractors" in form && form["extractors"] == p.extractors
    && ("text" in form <==> Truthy(p.text))
    && ("text" in form ==> form["text"] == p.text)
    && ("url" in form <==> !Truthy(p.text) && Truthy(p.url))
    && ("url" in form ==> form["url"] == p.url)
    && ("cleanup.mode" in form <==> "url" in form)
    && ("cleanup.mode" in form ==> form["cleanup.mode"] == Str("cleanHTML"))
    && ("cleanup.returnCleaned" in form <==> "url" in form)
    && ("cleanup.returnCleaned" in form ==> form["cleanup.returnCleaned"] == Bool(true))
  }

  /** Builds the form one key at a time. The three shapes it can take are
      spelled out: text wins over url, and both falsy leaves only `extractors`. */
  method BuildForm(p: Params) returns (form: map<string, Value>)
    ensures FormFor(p, form)
    ensures Truthy(p.text) ==> form == map["extractors" := p.extractors, "text" := p.text]
    ensures !Truthy(p.text) && Truthy(p.url) ==>
              form == map["extractors" := p.extractors, "url" := p.url,
                          "cleanup.mode" := Str("cleanHTML"), "cleanup.returnCleaned" := Bool(true)]
    ensures !Truthy(p.text) && !Truthy(p.url) ==> form == map["extractors" := p.extractors]
  {
    form := map["extractors" := p.extractors];
    if Truthy(p.text) {
      form := form["text" := p.text];
    } else if Truthy(p.url) {
      form := form["url" := p.url];
      form := form["cleanup.mode" := Str("cleanHTML")];
      form := form["cleanup.returnCleaned" := Bool(true)];
    }
  }

  /** The form is a function of the parameters, and a truthy text makes the
      url irrelevant. */
  lemma FormDeterminedByText(p: Params, url: Value, f1: map<string, Value>, f2: map<string, Value>)
    requires FormFor(p, f1)
    requires Truthy(p.text) && FormFor(p.(url := url), f2)
    ensures f1 == f2
  {
    assert f1.Keys == f2.Keys;
  }

  /** The POST description: the configured endpoint, the API key header, the form. */
  function Describe(endpoint: Value, apiKey: string, form: map<string, Value>): (r: PostRequest)
    ensures r.url == endpoint && r.form == form
    ensures r.headers.Keys == {API_KEY_HEADER} && r.headers[API_KEY_HEADER] == Str(apiKey)
  {
    PostRequest(endpoint, map[API_KEY_HEADER := Str(apiKey)], form)
  }

  /** `analyze(params)` of the client module, up to the HTTP call. The endpoint
      is the `TEXTRAZOR_URL` environment variable (`Undefined` when unset). */
  method Analyze(p: Params, endpoint: Value, apiKey: string) returns (req: PostRequest)
    ensures FormFor(p, req.form)
    ensures req.url == endpoint
    ensures req.headers == map[API_KEY_HEADER := Str(apiKey)]
  {
    var form := BuildForm(p);
    req := Describe(endpoint, apiKey, form);
  }
}

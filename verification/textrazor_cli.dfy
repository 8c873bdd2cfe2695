/** The `analyze` command of the TextRazor CLI: how the `--urls` value is
    split, which analyses the command starts for its options, how the lanes
    over a url list are set up, and where a response is written. */
module TextRazorCli {
  import opened JsValues
  import opened TextRazorSdk
  import opened QueueProcessing

  const TEXTRAZOR_URL: string := "https://api.textrazor.com/"
  const LANE_PREFIX: string := "textrazor_"

  /** `TextRazor.analyze(params)`, up to the HTTP call: the same form as the
      client module, posted to the fixed TextRazor endpoint. */
  method Analyze(p: Params, apiKey: string) returns (req: PostRequest)
    ensures FormFor(p, req.form)
    ensures req.url == Str(TEXTRAZOR_URL)
    ensures req.headers == map[API_KEY_HEADER := Str(apiKey)]
  {
    var form := BuildForm(p);
    req := Describe(Str(TEXTRAZOR_URL), apiKey, form);
  }

  /** `s.split(',')`: the pieces between commas, an empty piece wherever two
      commas meet or a comma ends the string, and `[""]` for the empty string. */
  function SplitOnComma(s: string): (parts: seq<string>)
    ensures 1 <= |parts|
    ensures forall i :: 0 <= i < |parts| ==> ',' !in parts[i]
    decreases |s|
  {
    if s == [] then [""]
    else
      var rest := SplitOnComma(s[1..]);
      if s[0] == ',' then [""] + rest
      else [[s[0]] + rest[0]] + rest[1..]
  }

  /** `parts.join(',')`. */
  function JoinWithComma(parts: seq<string>): string
    decreases |parts|
  {
    if parts == [] then ""
    else if |parts| == 1 then parts[0]
    else parts[0] + "," + JoinWithComma(parts[1..])
  }

  /** Splitting loses nothing: joining the pieces with commas gives the string back. */
  lemma {:induction false} JoinSplit(s: string)
    ensures JoinWithComma(SplitOnComma(s)) == s
    decreases |s|
  {
    if s != [] {
      var rest := SplitOnComma(s[1..]);
      JoinSplit(s[1..]);
      if s[0] != ',' {
        var parts := SplitOnComma(s);
        if |rest| == 1 {
          assert parts == [[s[0]] + rest[0]];
        } else {
          assert parts[1..] == rest[1..];
          assert JoinWithComma(rest) == rest[0] + "," + JoinWithComma(rest[1..]);
        }
        assert [s[0]] + s[1..] == s;
      }
    }
  }

  /** Splitting `a + b` where `a` holds no comma extends the first piece of `b`'s split. */
  lemma {:induction false} SplitPrefix(a: string, b: string)
    requires ',' !in a
    ensures SplitOnComma(a + b) == [a + SplitOnComma(b)[0]] + SplitOnComma(b)[1..]
    decreases |a|
  {
    if a != [] {
      assert (a + b)[1..] == a[1..] + b;
      SplitPrefix(a[1..], b);
      assert [a[0]] + (a[1..] + SplitOnComma(b)[0]) == a + SplitOnComma(b)[0];
    } else {
      var parts := SplitOnComma(b);
      assert a + b == b && a + parts[0] == parts[0];
      assert [parts[0]] + parts[1..] == parts;
    }
  }

  /** Splitting undoes joining, for any non-empty list of comma-free pieces. */
  lemma {:induction false} SplitJoin(parts: seq<string>)
    requires 1 <= |parts|
    requires forall i :: 0 <= i < |parts| ==> ',' !in parts[i]
    ensures SplitOnComma(JoinWithComma(parts)) == parts
    decreases |parts|
  {
    if |parts| == 1 {
      SplitPrefix(parts[0], "");
      assert parts[0] + "" == parts[0];
    } else {
      var tail := JoinWithComma(parts[1..]);
      SplitJoin(parts[1..]);
      SplitPrefix(parts[0], "," + tail);
      assert ("," + tail)[1..] == tail;
      assert parts[0] + "" == parts[0];
      assert parts[0] + "," + tail == parts[0] + ("," + tail);
    }
  }

  /** The `--urls` option: not given, given without a value (commander then
      yields `true`), or given with a value that was split on commas. */
  datatype UrlsArg = NoUrls | UrlsFlag | UrlList(urls: seq<string>)

  /** What the `analyze` action does. */
  datatype Dispatch =
    | MissingParameters           // prints an error and exits with status 1
    | AnalyzeOne(options: Params) // one analysis
    | DrainQueue(urls: seq<string>) // lanes over the shared url list
    | NoAction                    // falls through without starting anything

  /** The branching of the `analyze` action on its `text` and `urls` options. */
  function Decide(text: Value, urls: UrlsArg, extractors: Value): (d: Dispatch)
    ensures d.MissingParameters? <==> text == Undefined && urls == NoUrls
    ensures Truthy(text) ==> d == AnalyzeOne(Params(text, Undefined, extractors))
    ensures d.AnalyzeOne? && !Truthy(text) ==>
              urls.UrlList? && |urls.urls| == 1 && d.options == Params(Undefined, Str(urls.urls[0]), extractors)
    ensures d.DrainQueue? <==> !Truthy(text) && urls.UrlList? && |urls.urls| > 1
    ensures d.DrainQueue? ==> d.urls == urls.urls
    ensures d.NoAction? <==> (text != Undefined || urls != NoUrls) && !Truthy(text) && !(urls.UrlList? && |urls.urls| > 0)
  {
    if text == Undefined && urls == NoUrls then MissingParameters
    else if Truthy(text) then AnalyzeOne(Params(text, Undefined, extractors))
    else if urls.UrlList? && |urls.urls| > 0 then
      if |urls.urls| == 1 then AnalyzeOne(Params(Undefined, Str(urls.urls[0]), extractors))
      else DrainQueue(urls.urls)
    else NoAction
  }

  /** The name of lane i, `textrazor_${i}`. */
  function LaneName(i: nat): (name: string)
    ensures name == LANE_PREFIX + Decimal(i)
    ensures |LANE_PREFIX| < |name| && name[..|LANE_PREFIX|] == LANE_PREFIX
  {
    LANE_PREFIX + Decimal(i)
  }

  /** Different lanes get different names. */
  lemma LaneNamesDistinct(i: nat, j: nat)
    requires i != j
    ensures LaneName(i) != LaneName(j)
  {
    if LaneName(i) == LaneName(j) {
      assert LaneName(i)[|LANE_PREFIX|..] == Decimal(i);
      assert LaneName(j)[|LANE_PREFIX|..] == Decimal(j);
      DecimalInjective(i, j);
    }
  }

  function StrValues(urls: seq<string>): (vs: seq<Value>)
    ensures |vs| == |urls|
    ensures forall i :: 0 <= i < |urls| ==> vs[i] == Str(urls[i])
  {
    seq(|urls|, i requires 0 <= i < |urls| => Str(urls[i]))
  }

  /** The `analyze` action up to the start of the work: it decides what to
      do and, for more than one url, creates `numProcessors` lanes named
      `textrazor_0` ... over one shared queue holding the urls. An unset
      processor count is 0, and then no lane is created. */
  method Action(text: Value, urls: UrlsArg, extractors: Value, numProcessors: nat)
    returns (d: Dispatch, lanes: seq<QueueProcessor>)
    ensures d == Decide(text, urls, extractors)
    ensures !d.DrainQueue? ==> lanes == []
    ensures d.DrainQueue? ==> |lanes| == numProcessors
    ensures forall i :: 0 <= i < |lanes| ==>
              && fresh(lanes[i]) && fresh(lanes[i].queue)
              && lanes[i].queue == lanes[0].queue
              && lanes[i].queue.items == StrValues(d.urls)
              && lanes[i].name == LaneName(i)
              && lanes[i].requests == [] && lanes[i].counts == Counts(0, 0)
              && lanes[i].Valid()
    ensures forall i, j :: 0 <= i < j < |lanes| ==> lanes[i] != lanes[j] && lanes[i].name != lanes[j].name
  {
    d := Decide(text, urls, extractors);
    lanes := [];
    if d.DrainQueue? {
      var shared := new WorkQueue(StrValues(d.urls));
      for i := 0 to numProcessors
        invariant |lanes| == i
        invariant forall k :: 0 <= k < i ==>
                    && fresh(lanes[k]) && lanes[k].queue == shared
                    && lanes[k].name == LaneName(k)
                    && lanes[k].requests == [] && lanes[k].counts == Counts(0, 0)
                    && lanes[k].Valid()
        invariant shared.items == StrValues(d.urls)
        invariant forall a, b :: 0 <= a < b < i ==> lanes[a] != lanes[b] && lanes[a].name != lanes[b].name
      {
        var lane := new QueueProcessor(shared, LaneName(i));
        forall a | 0 <= a < i
          ensures LaneName(a) != LaneName(i)
        {
          LaneNamesDistinct(a, i);
        }
        lanes := lanes + [lane];
      }
    }
  }

  /** The file a resolved response is written to: under `path` when `--write`
      was given, named after the text when it is truthy and else after the url. */
  function OutputFile(path: Value, options: Params, encode: string -> string): (file: Option<string>)
    ensures file.Some? <==> Truthy(path)
    ensures Truthy(path) && Truthy(options.text) ==>
              file.value == ToText(path) + "/" + encode(ToText(options.text)) + ".json"
    ensures Truthy(path) && !Truthy(options.text) ==>
              file.value == ToText(path) + "/" + encode(ToText(options.url)) + ".json"
  {
    if Truthy(path) then
      var filename := if Truthy(options.text) then options.text else options.url;
      Some(ToText(path) + "/" + encode(ToText(filename)) + ".json")
    else None
  }
}

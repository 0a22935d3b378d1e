/**
 * Media upload: the checks made before the multipart request, the form it
 * sends, and how the returned URLs are turned into absolute preview URLs.
 */
module Media {
  import opened Wrappers
  import opened Js
  import opened Text
  import ApiClient

  const NoFiles := "No files provided for upload"
  const UploadFallback := "Failed to upload media"

  /**
   * The message of the `TypeError` that `url.startsWith(...)` throws when a
   * truthy URL is not a string.
   */
  const StartsWithTypeError := "url.startsWith is not a function"

  /** `Array.isArray(data?.mediaUrls) ? data.mediaUrls : []`. */
  function OriginalUrls(data: Value): (urls: seq<Value>)
    ensures Get(data, "mediaUrls").Arr? ==> urls == Get(data, "mediaUrls").elems
    ensures !Get(data, "mediaUrls").Arr? ==> urls == []
  {
    var m := Get(data, "mediaUrls");
    if m.Arr? then m.elems else []
  }

  /** `API_BASE_URL.replace('/api', '')`: only the first `/api` goes. */
  function BaseWithoutApi(baseUrl: string): (r: string)
    ensures |r| == |baseUrl| || |r| + 4 == |baseUrl|
    ensures !StartsWith(baseUrl, "/api") && baseUrl != [] ==> r != [] && r[0] == baseUrl[0]
  {
    RemoveFirst(baseUrl, "/api")
  }

  /** A URL the preview mapping can handle: falsy, or a string. */
  predicate Mappable(url: Value)
  {
    !Truthy(url) || url.Str?
  }

  /**
   * The mapping applied to one URL: a relative URL gets the base address in
   * front, an `http...` URL and a falsy one stay as they are.
   */
  function PreviewUrl(baseUrl: string, url: Value): (r: Value)
    requires Mappable(url)
    ensures !Truthy(url) ==> r == url
    ensures Truthy(url) && StartsWith(url.s, "http") ==> r == url
    ensures Truthy(url) && !StartsWith(url.s, "http") ==> r == Str(BaseWithoutApi(baseUrl) + url.s)
  {
    if Truthy(url) && !StartsWith(url.s, "http") then Str(BaseWithoutApi(baseUrl) + url.s) else url
  }

  /** `originalUrls.map(...)`, or `None` when the mapping throws on a non-string URL. */
  function PreviewUrls(baseUrl: string, urls: seq<Value>): (r: Option<seq<Value>>)
    ensures r.None? <==> exists k :: 0 <= k < |urls| && !Mappable(urls[k])
    ensures r.Some? ==> |r.value| == |urls|
    ensures r.Some? ==> forall k :: 0 <= k < |urls| ==> r.value[k] == PreviewUrl(baseUrl, urls[k])
  {
    if exists k :: 0 <= k < |urls| && !Mappable(urls[k]) then None
    else Some(seq(|urls|, k requires 0 <= k < |urls| => PreviewUrl(baseUrl, urls[k])))
  }

  /** `{ mediaUrl: originalUrls, fullMediaUrl }`. */
  datatype Uploaded = Uploaded(mediaUrl: seq<Value>, fullMediaUrl: seq<Value>)

  /** The multipart POST that `uploadMedia` makes. */
  datatype UploadRequest<F> = UploadRequest(url: string, form: seq<(string, F)>, headers: map<string, string>)

  /** The error object a thrown `TypeError` is. */
  const TypeErrorValue := Obj(map["message" := Str(StartsWithTypeError)])

  /** `formData.append('file', file)` for every file, in order. */
  method BuildForm<F>(files: seq<F>) returns (form: seq<(string, F)>)
    ensures |form| == |files|
    ensures forall k :: 0 <= k < |files| ==> form[k] == ("file", files[k])
  {
    form := [];
    var i := 0;
    while i < |files|
      invariant 0 <= i <= |files|
      invariant |form| == i
      invariant forall k :: 0 <= k < i ==> form[k] == ("file", files[k])
    {
      form := form + [("file", files[i])];
      i := i + 1;
    }
  }

  /**
   * `uploadMedia(files)`. `sent` is the request handed to the transport,
   * `toast` the error toast shown, `result` the returned value or the thrown
   * message. `response` is what the transport answers to `sent`.
   */
  method UploadMedia<F>(files: Option<seq<F>>, raw: Option<string>, parse: ApiClient.Parser,
                        baseUrl: string, response: ApiClient.NetResult)
    returns (sent: Option<UploadRequest<F>>, toast: Option<string>, result: Result<Uploaded, string>)
    ensures files.None? || files.value == [] ==> sent == None && toast == None && result == Err(NoFiles)
    ensures files.Some? && files.value != [] && !Truthy(ApiClient.GetToken(raw, parse)) ==>
              sent == None && toast == None && result == Err(ApiClient.NotAuthenticated)
    ensures sent.Some? <==> files.Some? && files.value != [] && Truthy(ApiClient.GetToken(raw, parse))
    ensures sent.Some? ==> sent.value.url == baseUrl + "/media/upload"
    ensures sent.Some? ==> |sent.value.form| == |files.value|
    ensures sent.Some? ==> forall k :: 0 <= k < |files.value| ==> sent.value.form[k] == ("file", files.value[k])
    ensures sent.Some? ==> sent.value.headers == map["Content-Type" := "multipart/form-data",
                                                     "Authorization" := ApiClient.Bearer(ApiClient.GetToken(raw, parse))]
    ensures sent.Some? && response.Response? && PreviewUrls(baseUrl, OriginalUrls(response.data)).Some? ==>
              toast == None &&
              result == Ok(Uploaded(OriginalUrls(response.data), PreviewUrls(baseUrl, OriginalUrls(response.data)).value))
    ensures sent.Some? && response.Response? && PreviewUrls(baseUrl, OriginalUrls(response.data)).None? ==>
              toast == Some(StartsWithTypeError) && result == Err(StartsWithTypeError)
    ensures sent.Some? && response.Failure? ==>
              var message := StringOf(ApiClient.NormalizeError(response.err, UploadFallback));
              toast == Some(message) && result == Err(message)
  {
    if files.None? || |files.value| == 0 {
      return None, None, Err(NoFiles);
    }
    var token := ApiClient.GetToken(raw, parse);
    if !Truthy(token) {
      return None, None, Err(ApiClient.NotAuthenticated);
    }
    var form := BuildForm(files.value);
    var headers := map["Content-Type" := "multipart/form-data", "Authorization" := ApiClient.Bearer(token)];
    sent := Some(UploadRequest(baseUrl + "/media/upload", form, headers));
    var err: Value;
    match response {
      case Response(data) =>
        var originalUrls := OriginalUrls(data);
        var full := PreviewUrls(baseUrl, originalUrls);
        if full.Some? {
          return sent, None, Ok(Uploaded(originalUrls, full.value));
        }
        err := TypeErrorValue;
      case Failure(e) =>
        err := e;
    }
    var message := StringOf(ApiClient.NormalizeError(err, UploadFallback));
    toast := Some(message);
    result := Err(message);
  }

  /**
   * The relative-URL rewrite against the base without its first `/api`:
   * everything before the first `/api`, then everything after it, then the URL.
   */
  lemma PreviewOfRelativeUrl(baseUrl: string, url: string, k: nat)
    requires url != "" && !StartsWith(url, "http")
    requires OccursAt(baseUrl, "/api", k) && forall j :: 0 <= j < k ==> !OccursAt(baseUrl, "/api", j)
    ensures PreviewUrl(baseUrl, Str(url)) == Str(baseUrl[..k] + baseUrl[k + 4..] + url)
  {
    RemoveFirstCutsLeftmost(baseUrl, "/api", k);
  }

  /** A base URL without `/api` is used as it is. */
  lemma PreviewWithPlainBase(baseUrl: string, url: string)
    requires url != "" && !StartsWith(url, "http")
    requires forall k :: 0 <= k <= |baseUrl| ==> !OccursAt(baseUrl, "/api", k)
    ensures PreviewUrl(baseUrl, Str(url)) == Str(baseUrl + url)
  {
    RemoveFirstWithoutOccurrence(baseUrl, "/api");
  }

  /** A preview URL ends with the URL it was made from. */
  lemma PreviewEndsWithOriginal(baseUrl: string, url: string)
    ensures PreviewUrl(baseUrl, Str(url)).Str?
    ensures EndsWith(PreviewUrl(baseUrl, Str(url)).s, url)
  {
    var r := PreviewUrl(baseUrl, Str(url)).s;
    assert r[|r| - |url|..] == url;
  }

  /** The preview list lines up with the original list: same length, same order, strings stay strings. */
  lemma PreviewsLineUp(baseUrl: string, urls: seq<Value>)
    requires forall k :: 0 <= k < |urls| ==> urls[k].Str?
    ensures PreviewUrls(baseUrl, urls).Some?
    ensures forall k :: 0 <= k < |urls| ==> PreviewUrls(baseUrl, urls).value[k].Str?
    ensures forall k :: 0 <= k < |urls| ==> EndsWith(PreviewUrls(baseUrl, urls).value[k].s, urls[k].s)
  {
    assert forall k :: 0 <= k < |urls| ==> Mappable(urls[k]);
    var r := PreviewUrls(baseUrl, urls).value;
    forall k | 0 <= k < |urls| ensures r[k].Str? && EndsWith(r[k].s, urls[k].s) {
      PreviewEndsWithOriginal(baseUrl, urls[k].s);
    }
  }

  predicate EndsWith(s: string, p: string)
  {
    |p| <= |s| && s[|s| - |p|..] == p
  }
}

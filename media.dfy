/**
 * The media resource: upload a file, read and delete media metadata, and
 * download media content through the URL its metadata gives, retrying once
 * with credentials when the CDN answers 401 or 403.
 */
module Media {
  import opened Wrappers
  import opened JsonValues
  import opened Types
  import opened Client

  // ---------------------------------------------------------------------
  // MediaUploadInput
  // ---------------------------------------------------------------------

  /** `Literal["image", "video", "audio", "document", "sticker"]`. */
  datatype MediaType = Image | Video | Audio | Document | Sticker {
    function Name(): string {
      match this
      case Image => "image"
      case Video => "video"
      case Audio => "audio"
      case Document => "document"
      case Sticker => "sticker"
    }
  }

  function ParseMediaType(s: string): (r: Result<MediaType>)
    ensures r.Ok? <==> s in ["image", "video", "audio", "document", "sticker"]
    ensures r.Ok? ==> r.value.Name() == s
    ensures r.Err? ==> r.fault == ValidationError("type")
  {
    match s
    case "image" => Ok(Image)
    case "video" => Ok(Video)
    case "audio" => Ok(Audio)
    case "document" => Ok(Document)
    case "sticker" => Ok(Sticker)
    case _ => Err(ValidationError("type"))
  }

  /** Every media type survives a round trip through its name. */
  lemma MediaTypeRoundTrip(t: MediaType)
    ensures ParseMediaType(t.Name()) == Ok(t)
  {
  }

  datatype MediaUploadInput = MediaUploadInput(
    phoneNumberId: string,
    mediaType: MediaType,
    file: seq<bv8>,
    filename: string,
    mimeType: string,
    messagingProduct: string)

  /**
   * `MediaUploadInput(...)`: the type must be one of the five names; the
   * file name defaults to "file", the MIME type to
   * "application/octet-stream" and the messaging product to "whatsapp".
   */
  function MakeMediaUploadInput(phoneNumberId: string, mediaType: string, file: seq<bv8>, filename: Option<string>,
                                mimeType: Option<string>, messagingProduct: Option<string>): (r: Result<MediaUploadInput>)
    ensures r.Ok? <==> ParseMediaType(mediaType).Ok?
    ensures r.Err? ==> r.fault == ValidationError("type")
    ensures r.Ok? ==>
      r.value.mediaType.Name() == mediaType && r.value.file == file && r.value.phoneNumberId == phoneNumberId &&
      r.value.filename == (if filename.Some? then filename.value else "file") &&
      r.value.mimeType == (if mimeType.Some? then mimeType.value else "application/octet-stream") &&
      r.value.messagingProduct == (if messagingProduct.Some? then messagingProduct.value else "whatsapp")
  {
    var t :- ParseMediaType(mediaType);
    Ok(MediaUploadInput(phoneNumberId, t, file,
                        filename.GetOr("file"), mimeType.GetOr("application/octet-stream"),
                        messagingProduct.GetOr("whatsapp")))
  }

  // ---------------------------------------------------------------------
  // upload, get, delete
  // ---------------------------------------------------------------------

  /** The form fields of `upload`: the field "type" carries the MIME type. */
  function UploadData(input: MediaUploadInput): seq<(string, FormValue)> {
    [("messaging_product", Text(input.messagingProduct)), ("type", Text(input.mimeType))]
  }

  function UploadCall(client: WhatsAppClient, input: MediaUploadInput): Call {
    client.RequestCall("POST", input.phoneNumberId + "/media", None, None, Some(UploadData(input)),
                       Some([("file", FilePart(input.filename, Bytes(input.file), input.mimeType))]), [])
  }

  /** `upload(input)`. */
  method Upload(client: WhatsAppClient, input: MediaUploadInput) returns (r: Outcome<MediaUploadResponse>)
    modifies client.http
    ensures client.http.closed == old(client.http.closed)
    ensures client.http.calls == old(client.http.calls) + [UploadCall(client, input)]
    ensures r == Validated(Finish(client.LastResponse(), client.parseJson), ValidateMediaUploadResponse)
  {
    var resp := client.Post(input.phoneNumberId + "/media", None, Some(UploadData(input)),
                            Some([("file", FilePart(input.filename, Bytes(input.file), input.mimeType))]));
    r := Validated(resp, ValidateMediaUploadResponse);
  }

  /**
   * The upload sends the MIME type both as the form field "type" and as the
   * file's content type; the input's media category never reaches the wire.
   */
  lemma UploadSendsMimeType(client: WhatsAppClient, input: MediaUploadInput, other: MediaType)
    ensures UploadCall(client, input).data.value[1] == ("type", Text(input.mimeType))
    ensures UploadCall(client, input).files.value[0].1.mimeType == input.mimeType
    ensures UploadCall(client, input.(mediaType := other)) == UploadCall(client, input)
  {
  }

  /** `get(media_id)`: the media id itself is the path. */
  method GetMedia(client: WhatsAppClient, mediaId: string) returns (r: Outcome<MediaMetadata>)
    modifies client.http
    ensures client.http.closed == old(client.http.closed)
    ensures client.http.calls == old(client.http.calls) + [client.RequestCall("GET", mediaId, None, None, None, None, [])]
    ensures r == Validated(Finish(client.LastResponse(), client.parseJson), ValidateMediaMetadata)
  {
    var resp := client.Get(mediaId, None);
    r := Validated(resp, ValidateMediaMetadata);
  }

  /** `delete(media_id)`. */
  method DeleteMedia(client: WhatsAppClient, mediaId: string) returns (r: Outcome<Json>)
    modifies client.http
    ensures client.http.closed == old(client.http.closed)
    ensures client.http.calls == old(client.http.calls) + [client.RequestCall("DELETE", mediaId, None, None, None, None, [])]
    ensures r == Finish(client.LastResponse(), client.parseJson)
  {
    r := client.Delete(mediaId, None);
  }

  // ---------------------------------------------------------------------
  // download
  // ---------------------------------------------------------------------

  /** A GET of the CDN URL: with the bearer header when authenticated, with no header otherwise. */
  function FetchCall(client: WhatsAppClient, url: string, authenticated: bool): Call {
    Call("GET", url, None, None, None, None, if authenticated then Merge(AuthHeaders(client.accessToken), []) else [])
  }

  /** `raise_for_status()` passes 2xx answers only. */
  predicate IsSuccess(status: int) {
    200 <= status < 300
  }

  predicate Refused(status: int) {
    status == 401 || status == 403
  }

  /**
   * The fetches `download` adds after the calls `c1` that read the
   * metadata, and what it returns. The URL is fetched at most twice: the
   * first fetch is authenticated exactly when `use_auth` is set, and a
   * second, authenticated fetch of the same URL happens exactly when the
   * first was answered 401 or 403. The content of the last fetch is
   * returned, and only when that fetch was answered 2xx; otherwise it
   * raises with that status.
   */
  function FetchSpec(client: WhatsAppClient, url: string, useAuth: bool, c1: seq<Call>): (r: (seq<Call>, Outcome<seq<bv8>>))
    ensures |c1| + 1 <= |r.0| <= |c1| + 2 && r.0[..|c1| + 1] == c1 + [FetchCall(client, url, useAuth)]
    ensures |r.0| == |c1| + 2 <==> Refused(client.http.serve(c1 + [FetchCall(client, url, useAuth)]).status)
    ensures |r.0| == |c1| + 2 ==> r.0[|c1| + 1] == FetchCall(client, url, true)
    ensures var last := client.http.serve(r.0);
      (r.1.Success? <==> IsSuccess(last.status)) &&
      (r.1.Success? ==> r.1.value == last.content) &&
      (r.1.Failure? ==> r.1.error == PyError(HttpStatusError(last.status)))
  {
    var c2 := c1 + [FetchCall(client, url, useAuth)];
    var c3 := if Refused(client.http.serve(c2).status) then c2 + [FetchCall(client, url, true)] else c2;
    assert c3[..|c1| + 1] == c2;
    var last := client.http.serve(c3);
    (c3, if IsSuccess(last.status) then Success(last.content) else Failure(PyError(HttpStatusError(last.status))))
  }

  /**
   * The calls `download` adds after `before`, and what it returns: the
   * metadata read first, then the fetches of its URL; a failed metadata
   * read fails before any fetch.
   */
  function DownloadSpec(client: WhatsAppClient, mediaId: string, useAuth: bool, before: seq<Call>): (r: (seq<Call>, Outcome<seq<bv8>>))
    ensures |before| + 1 <= |r.0| <= |before| + 3 &&
      r.0[..|before| + 1] == before + [client.RequestCall("GET", mediaId, None, None, None, None, [])]
    ensures |r.0| > |before| + 1 ==> (
      var meta := Validated(Finish(client.http.serve(r.0[..|before| + 1]), client.parseJson), ValidateMediaMetadata);
      meta.Success? && r == FetchSpec(client, meta.value.url, useAuth, r.0[..|before| + 1]))
    ensures |r.0| == |before| + 1 ==> r.1.Failure?
  {
    var c1 := before + [client.RequestCall("GET", mediaId, None, None, None, None, [])];
    var meta := Validated(Finish(client.http.serve(c1), client.parseJson), ValidateMediaMetadata);
    if meta.Failure? then
      assert c1[..|before| + 1] == c1;
      (c1, Failure(meta.error))
    else
      var f := FetchSpec(client, meta.value.url, useAuth, c1);
      assert f.0[..|before| + 1] == c1 by {
        assert f.0[..|before| + 1] == f.0[..|c1| + 1][..|c1|];
      }
      f
  }

  /** `download(media_id, use_auth=...)`. */
  method Download(client: WhatsAppClient, mediaId: string, useAuth: bool) returns (r: Outcome<seq<bv8>>)
    modifies client.http
    ensures client.http.closed == old(client.http.closed)
    ensures (client.http.calls, r) == DownloadSpec(client, mediaId, useAuth, old(client.http.calls))
  {
    var meta := GetMedia(client, mediaId);
    if meta.Failure? {
      return Failure(meta.error);
    }
    ghost var c1 := client.http.calls;
    var resp: Response;
    if useAuth {
      resp := client.FetchAuthenticated(meta.value.url, []);
    } else {
      resp := client.FetchRaw(meta.value.url, []);
    }
    if resp.status == 401 || resp.status == 403 {
      resp := client.FetchAuthenticated(meta.value.url, []);
    }
    if 200 <= resp.status < 300 {
      r := Success(resp.content);
    } else {
      r := Failure(PyError(HttpStatusError(resp.status)));
    }
    assert (client.http.calls, r) == FetchSpec(client, meta.value.url, useAuth, c1);
  }
}

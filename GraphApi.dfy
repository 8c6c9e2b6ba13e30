/**
 * The three requests the uploader sends to the Instagram Graph API and the
 * shape of the platform's answers. The HTTP transport itself is not modelled:
 * the platform is a `Remote` value whose members give the answer to each
 * request, either a value or a raised error.
 */
module GraphApi {
  import opened Wrappers
  import opened Text

  /** A request form: field name to field value. */
  type Form = map<string, string>

  /** What the platform does with one request: answers with a value, or the call raises. */
  datatype Reply<T> = Answer(value: T) | Raised(message: string)

  /**
   * The platform's behaviour during one upload.
   * `create(account, form)` answers with the new container's id;
   * `status(creationId, attempt)` answers with the `status_code` field of the
   *   attempt-th status read (counting from 0), None when the field is absent;
   * `publish(account, form)` answers with the published media id.
   */
  datatype Remote = Remote(
    create: (string, Form) -> Reply<string>,
    status: (string, nat) -> Reply<Option<string>>,
    publish: (string, Form) -> Reply<string>)

  /** The media type is an image when it reads "image" regardless of letter case. */
  predicate IsImageType(mediaType: string)
  {
    Lower(mediaType) == "image"
  }

  /**
   * The form that creates a media container: the access token always; the
   * caption only when it is not empty; an image URL for images, and for
   * anything else the media type VIDEO with a video URL.
   */
  function ContainerFields(token: string, mediaType: string, mediaUrl: string, caption: string): (form: Form)
    ensures "access_token" in form && form["access_token"] == token
    ensures "caption" in form <==> caption != []
    ensures "caption" in form ==> form["caption"] == caption
    ensures IsImageType(mediaType) ==>
      "image_url" in form && form["image_url"] == mediaUrl && "media_type" !in form && "video_url" !in form
    ensures !IsImageType(mediaType) ==>
      && "media_type" in form && form["media_type"] == "VIDEO"
      && "video_url" in form && form["video_url"] == mediaUrl
      && "image_url" !in form
    ensures form.Keys <= {"access_token", "caption", "image_url", "media_type", "video_url"}
  {
    var base := map["access_token" := token];
    var withCaption := if caption != [] then base["caption" := caption] else base;
    if IsImageType(mediaType) then withCaption["image_url" := mediaUrl]
    else withCaption["media_type" := "VIDEO"]["video_url" := mediaUrl]
  }

  /** The form that publishes a container: its creation id and the access token, nothing else. */
  function PublishFields(token: string, creationId: string): (form: Form)
    ensures form.Keys == {"creation_id", "access_token"}
    ensures form["creation_id"] == creationId && form["access_token"] == token
  {
    map["creation_id" := creationId, "access_token" := token]
  }

  /** The query of a status read: the two fields asked for and the access token. */
  function StatusParams(token: string): (params: Form)
    ensures params.Keys == {"fields", "access_token"}
    ensures params["fields"] == "status_code,status" && params["access_token"] == token
  {
    map["fields" := "status_code,status", "access_token" := token]
  }

  datatype MediaKind = Image | Video

  /** What a container form asks the platform for. */
  datatype ContainerRequest = ContainerRequest(token: string, kind: MediaKind, mediaUrl: string, caption: string)

  /**
   * Reads a container form back: a token, exactly one of an image URL or the
   * pair (media type VIDEO, video URL), and the caption or "" when absent.
   */
  function ReadContainerForm(form: Form): (r: Option<ContainerRequest>)
    ensures r.Some? ==> "access_token" in form && r.value.token == form["access_token"]
    ensures r.Some? ==> r.value.caption == (if "caption" in form then form["caption"] else "")
  {
    var caption := if "caption" in form then form["caption"] else "";
    if "access_token" !in form then None
    else if "image_url" in form && "media_type" !in form && "video_url" !in form then
      Some(ContainerRequest(form["access_token"], Image, form["image_url"], caption))
    else if "image_url" !in form && "media_type" in form && form["media_type"] == "VIDEO" && "video_url" in form then
      Some(ContainerRequest(form["access_token"], Video, form["video_url"], caption))
    else None
  }

  /**
   * The container form carries everything the caller gave: reading it back
   * gives the token, the kind, the URL and the caption, an empty caption
   * included.
   */
  lemma ContainerFormRoundTrip(token: string, mediaType: string, mediaUrl: string, caption: string)
    ensures ReadContainerForm(ContainerFields(token, mediaType, mediaUrl, caption))
      == Some(ContainerRequest(token, if IsImageType(mediaType) then Image else Video, mediaUrl, caption))
  {
  }
}

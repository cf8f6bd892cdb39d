/**
 * The fal.ai generation client: the static model catalogs, the argument maps
 * sent to the backend for image and image-to-video generation, and the
 * extraction of the result URL from the backend's JSON response.
 *
 * The network call itself (`fal_client.run` / `run_async`) is a parameter of
 * type `Backend`: any function from a model id and an argument map to a
 * response.
 */
module Fal {
  import opened Common

  /** A JSON value, as exchanged with the backend. */
  datatype Json =
    | JNull
    | JBool(b: bool)
    | JInt(i: int)
    | JStr(s: string)
    | JArr(items: seq<Json>)
    | JObj(fields: map<string, Json>)

  /** The keyword arguments of one generation request. */
  type Args = map<string, Json>

  /** What a call to the backend produces: a raised error or a decoded body. */
  datatype Response = Failed(reason: string) | Returned(body: Json)

  /** `fal_client.run(model, arguments=args)`, abstracted. */
  type Backend = (string, Args) -> Response

  /** The exceptions the service lets escape. */
  datatype FalError =
    | BackendFailure(reason: string)   // raised by the backend call itself
    | KeyError(key: Json)              // a missing key: a string, or the integer index of `x[0]`
    | IndexError                       // indexing an empty list or string
    | TypeError                        // subscripting a value of the wrong kind

  datatype ImageModel = ImageModel(name: string, price: string, speed: string)

  datatype VideoModel = VideoModel(name: string, price: string, speed: string, durationSupport: bool)

  const FluxSchnell := "fal-ai/flux/schnell"
  const FluxDev := "fal-ai/flux/dev"
  const FastSdxl := "fal-ai/fast-sdxl"

  const Ovi := "fal-ai/ovi/image-to-video"
  const Kling10 := "fal-ai/kling-video/v1/standard/image-to-video"
  const Kling15Pro := "fal-ai/kling-video/v1.5/pro/image-to-video"
  const MiniMax := "fal-ai/minimax-video/image-to-video"

  /** `IMAGE_MODELS` */
  const ImageModels: map<string, ImageModel> := map[
    FluxSchnell := ImageModel("Flux Schnell", "$0.003/MP", "Fast"),
    FluxDev := ImageModel("Flux Dev", "$0.05/MP", "Medium"),
    FastSdxl := ImageModel("SDXL Fast", "$0.01/MP", "Fast")
  ]

  /** `VIDEO_MODELS` */
  const VideoModels: map<string, VideoModel> := map[
    Ovi := VideoModel("Ovi", "$0.20", "Fast", false),
    Kling10 := VideoModel("Kling 1.0", "$0.50", "Medium", true),
    Kling15Pro := VideoModel("Kling 1.5 Pro", "$0.80", "Slow", true),
    MiniMax := VideoModel("MiniMax", "$0.35", "Medium", false)
  ]

  /** `IMAGE_SIZES`: size identifier to display label. */
  const ImageSizes: map<string, string> := map[
    "square" := "1:1 Square",
    "square_hd" := "1:1 Square HD",
    "portrait_4_3" := "4:3 Portrait",
    "portrait_16_9" := "16:9 Portrait",
    "landscape_4_3" := "4:3 Landscape",
    "landscape_16_9" := "16:9 Landscape"
  ]

  const DefaultImageModel := FluxSchnell
  const DefaultVideoModel := Ovi
  const DefaultImageSize := "landscape_16_9"
  const DefaultPrompt := ""
  const DefaultDuration := 5

  /** `VIDEO_MODELS.get(model, {})`, with the empty default as `None`. */
  function LookupVideoModel(model: string): (info: Option<VideoModel>)
    ensures info.Some? <==> model in VideoModels
    ensures info.Some? ==> info.value == VideoModels[model]
  {
    if model in VideoModels then Some(VideoModels[model]) else None
  }

  /** `model_info.get("duration_support", False)`: an unknown model reads as false. */
  predicate SupportsDuration(model: string)
  {
    match LookupVideoModel(model)
    case None => false
    case Some(info) => info.durationSupport
  }

  /** Exactly the two Kling models accept a duration. */
  lemma DurationCatalog(model: string)
    ensures SupportsDuration(model) <==> model == Kling10 || model == Kling15Pro
    ensures VideoModels.Keys == {Ovi, Kling10, Kling15Pro, MiniMax}
    ensures !SupportsDuration(Ovi) && !SupportsDuration(MiniMax)
  {
  }

  /** The defaults name catalog entries, and the default video model takes no duration. */
  lemma DefaultsAreCatalogued()
    ensures DefaultImageModel in ImageModels
    ensures DefaultVideoModel in VideoModels && !SupportsDuration(DefaultVideoModel)
    ensures DefaultImageSize in ImageSizes
  {
  }

  /** The arguments of an image request. */
  function ImageArguments(prompt: string, imageSize: string): (args: Args)
    ensures args.Keys == {"prompt", "image_size", "num_images"}
    ensures args["prompt"] == JStr(prompt)
    ensures args["image_size"] == JStr(imageSize)
    ensures args["num_images"] == JInt(1)
  {
    map["prompt" := JStr(prompt), "image_size" := JStr(imageSize), "num_images" := JInt(1)]
  }

  /** The arguments of an image-to-video request for `model`. */
  function VideoArguments(model: string, imageUrl: string, prompt: string, duration: int): (args: Args)
    ensures "prompt" in args && args["prompt"] == JStr(prompt)
    ensures "image_url" in args && args["image_url"] == JStr(imageUrl)
    ensures "duration" in args <==> model in VideoModels && VideoModels[model].durationSupport
    ensures "duration" in args ==> args["duration"] == JInt(duration)
    ensures args.Keys <= {"prompt", "image_url", "duration"}
  {
    var base := map["prompt" := JStr(prompt), "image_url" := JStr(imageUrl)];
    if SupportsDuration(model) then base["duration" := JInt(duration)] else base
  }

  /** A model id missing from the catalog gets the same request as a model without duration support. */
  lemma UnknownModelOmitsDuration(model: string, imageUrl: string, prompt: string, duration: int)
    requires model !in VideoModels
    ensures VideoArguments(model, imageUrl, prompt, duration).Keys == {"prompt", "image_url"}
    ensures VideoArguments(model, imageUrl, prompt, duration)
         == VideoArguments(DefaultVideoModel, imageUrl, prompt, duration)
  {
  }

  /** `value[key]` for a string key. */
  function Subscript(value: Json, key: string): (r: Result<Json, FalError>)
    ensures r.Ok? <==> value.JObj? && key in value.fields
    ensures r.Ok? ==> r.value == value.fields[key]
  {
    match value
    case JObj(fields) => if key in fields then Ok(fields[key]) else Err(KeyError(JStr(key)))
    case _ => Err(TypeError)
  }

  /** `value[0]`: the first item of a list, or the first character of a string. */
  function First(value: Json): (r: Result<Json, FalError>)
    ensures r.Ok? <==> (value.JArr? && |value.items| > 0) || (value.JStr? && |value.s| > 0)
    ensures r.Ok? && value.JArr? ==> r.value == value.items[0]
  {
    match value
    case JArr(items) => if |items| > 0 then Ok(items[0]) else Err(IndexError)
    case JStr(s) => if |s| > 0 then Ok(JStr([s[0]])) else Err(IndexError)
    case JObj(_) => Err(KeyError(JInt(0)))
    case _ => Err(TypeError)
  }

  /** `result["images"][0]["url"]` */
  function ExtractImageUrl(result: Json): (r: Result<Json, FalError>)
    ensures r.Ok? <==>
      && result.JObj? && "images" in result.fields
      && result.fields["images"].JArr? && |result.fields["images"].items| > 0
      && result.fields["images"].items[0].JObj?
      && "url" in result.fields["images"].items[0].fields
    ensures r.Ok? ==> r.value == result.fields["images"].items[0].fields["url"]
  {
    match Subscript(result, "images")
    case Err(e) => Err(e)
    case Ok(images) =>
      match First(images)
      case Err(e) => Err(e)
      case Ok(image) => Subscript(image, "url")
  }

  /** `result["video"]["url"]` */
  function ExtractVideoUrl(result: Json): (r: Result<Json, FalError>)
    ensures r.Ok? <==>
      && result.JObj? && "video" in result.fields
      && result.fields["video"].JObj? && "url" in result.fields["video"].fields
    ensures r.Ok? ==> r.value == result.fields["video"].fields["url"]
  {
    match Subscript(result, "video")
    case Err(e) => Err(e)
    case Ok(video) => Subscript(video, "url")
  }

  /** The smallest response an image request can succeed with. */
  function ImageResponse(url: Json): Json
  {
    JObj(map["images" := JArr([JObj(map["url" := url])])])
  }

  /** The smallest response a video request can succeed with. */
  function VideoResponse(url: Json): Json
  {
    JObj(map["video" := JObj(map["url" := url])])
  }

  /** Extraction recovers the URL placed in a response, whatever else the response holds. */
  lemma ExtractionRecoversUrl(url: Json, extra: map<string, Json>, inner: map<string, Json>, more: seq<Json>)
    ensures ExtractImageUrl(ImageResponse(url)) == Ok(url)
    ensures ExtractVideoUrl(VideoResponse(url)) == Ok(url)
    ensures ExtractImageUrl(JObj(extra["images" := JArr([JObj(inner["url" := url])] + more)])) == Ok(url)
    ensures ExtractVideoUrl(JObj(extra["video" := JObj(inner["url" := url])])) == Ok(url)
  {
  }

  /** How a generation call reads the backend's answer. */
  function Finish(response: Response, video: bool): (r: Result<Json, FalError>)
    ensures response.Failed? ==> r == Err(BackendFailure(response.reason))
    ensures response.Returned? && !video ==> r == ExtractImageUrl(response.body)
    ensures response.Returned? && video ==> r == ExtractVideoUrl(response.body)
    ensures (r.Err? && r.error.BackendFailure?) <==> response.Failed?
  {
    match response
    case Failed(reason) => Err(BackendFailure(reason))
    case Returned(body) => if video then ExtractVideoUrl(body) else ExtractImageUrl(body)
  }

  /** `FalService`: the selected models are fixed at construction. */
  class FalService {
    const imageModel: string
    const videoModel: string

    constructor (imageModel: string := DefaultImageModel, videoModel: string := DefaultVideoModel)
      ensures this.imageModel == imageModel && this.videoModel == videoModel
    {
      this.imageModel := imageModel;
      this.videoModel := videoModel;
    }

    /** Sends one image request to the image model and returns the first image's URL. */
    method GenerateImage(run: Backend, prompt: string, imageSize: string := DefaultImageSize)
      returns (url: Result<Json, FalError>)
      ensures url == Finish(run(imageModel, ImageArguments(prompt, imageSize)), false)
    {
      var result := run(imageModel, map["prompt" := JStr(prompt), "image_size" := JStr(imageSize), "num_images" := JInt(1)]);
      url := match result
        case Failed(reason) => Err(BackendFailure(reason))
        case Returned(body) => ExtractImageUrl(body);
    }

    /** Sends one image-to-video request to the video model and returns the clip's URL. */
    method GenerateVideoFromImage(run: Backend, imageUrl: string, prompt: string := DefaultPrompt,
                                  duration: int := DefaultDuration)
      returns (url: Result<Json, FalError>)
      ensures url == Finish(run(videoModel, VideoArguments(videoModel, imageUrl, prompt, duration)), true)
    {
      var args: Args := map["prompt" := JStr(prompt), "image_url" := JStr(imageUrl)];
      var modelInfo := LookupVideoModel(videoModel);
      if modelInfo.Some? && modelInfo.value.durationSupport {
        args := args["duration" := JInt(duration)];
      }
      var result := run(videoModel, args);
      url := match result
        case Failed(reason) => Err(BackendFailure(reason))
        case Returned(body) => ExtractVideoUrl(body);
    }

    /** The awaited twin of GenerateImage: the same request, the same reading of the answer. */
    method GenerateImageAsync(runAsync: Backend, prompt: string, imageSize: string := DefaultImageSize)
      returns (url: Result<Json, FalError>)
      ensures url == Finish(runAsync(imageModel, ImageArguments(prompt, imageSize)), false)
    {
      var result := runAsync(imageModel, map["prompt" := JStr(prompt), "image_size" := JStr(imageSize), "num_images" := JInt(1)]);
      url := match result
        case Failed(reason) => Err(BackendFailure(reason))
        case Returned(body) => ExtractImageUrl(body);
    }

    /** The awaited twin of GenerateVideoFromImage: the same request, the same reading of the answer. */
    method GenerateVideoFromImageAsync(runAsync: Backend, imageUrl: string, prompt: string := DefaultPrompt,
                                       duration: int := DefaultDuration)
      returns (url: Result<Json, FalError>)
      ensures url == Finish(runAsync(videoModel, VideoArguments(videoModel, imageUrl, prompt, duration)), true)
    {
      var args: Args := map["prompt" := JStr(prompt), "image_url" := JStr(imageUrl)];
      var modelInfo := LookupVideoModel(videoModel);
      if modelInfo.Some? && modelInfo.value.durationSupport {
        args := args["duration" := JInt(duration)];
      }
      var result := runAsync(videoModel, args);
      url := match result
        case Failed(reason) => Err(BackendFailure(reason))
        case Returned(body) => ExtractVideoUrl(body);
    }
  }
}

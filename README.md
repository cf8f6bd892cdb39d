# Long-form video generator: generation client, ffmpeg service and sessions

This project models, in Dafny, the three self-contained pieces of logic of
the long-form video generator: the fal.ai generation client
(`app/services/fal_service.py`), the FFmpeg video service
(`app/services/video_service.py`) and the in-memory session registry
(`app/auth.py`). It proves properties of that model.

- `Fal` (fal_service.dfy) holds the static catalogs of image models, video
  models and image sizes. It builds the argument map sent for an image
  request and for an image-to-video request. `duration` is sent only when the
  selected video model is catalogued with duration support. It also reads the
  result URL out of the backend's JSON answer, with Python's `KeyError`,
  `IndexError` and `TypeError` as error results. `FalService` is a class whose
  two model ids are `const`: they are set at construction and never change.
  The backend call (`fal_client.run` / `run_async`) is a function parameter of
  type `Backend` that maps a model id and an argument map to a failure or a
  JSON body. Each generation method's contract fixes the request it sends and
  how it reads the answer. The sync and async twins therefore share one
  specification.
- `Video` (video_service.dfy) builds the concat manifest, one line per clip,
  and the two ffmpeg argument vectors. It also models the order of effects in
  `stitch_videos`: write the manifest, run ffmpeg, remove the manifest only
  after success. The operating system is a `Host` object. It holds the files
  the service wrote, the log of argument vectors passed to `subprocess.run`,
  the files each of those runs found on disk, and the process's exit status
  as a function of the argument vector.
  `FfmpegArgv` (ffmpeg_argv.dfy) is an independent reading of an ffmpeg
  command line (which files are inputs and outputs, and which options apply
  to each). For an output path that ffmpeg reads as a file name (one not
  starting with `-`), the argument vectors are proved to mean what the
  service intends.
  `ParseManifest` reads a manifest back, and the round trip is proved.
- `Auth` (auth.dfy) is the registry of valid session tokens as a class that
  owns a `set<string>`. The caller supplies the random token and the
  configured user name.

Three behaviours of the code are worth stating outright:
- The temporary manifest is removed only after ffmpeg succeeds. When
  `subprocess.run` raises, the manifest stays on disk, and `StitchVideos`
  states exactly that.
- The scene-by-scene pipeline task is a stub that returns a constant
  (`app/tasks/video.py`), so it is not modelled.
- `require_auth` tests `not get_current_user(request)`. That is Python
  truthiness, so an empty configured user name is refused even with a valid
  session. `RequireAuth` states this case.

## Model

| member | source | states |
|---|---|---|
| `Fal.LookupVideoModel` | app/services/fal_service.py:61 | The catalog lookup finds an entry exactly when the id is in `VIDEO_MODELS`, and then it returns that entry. |
| `Fal.DurationCatalog` | app/services/fal_service.py:11-16 | The catalog holds exactly Ovi, Kling 1.0, Kling 1.5 Pro and MiniMax. A model supports duration exactly when it is one of the two Kling models, so Ovi and MiniMax do not. |
| `Fal.DefaultsAreCatalogued` | app/services/fal_service.py:31-39 | The default image model and image size are catalogued. The default video model is catalogued and takes no duration. |
| `Fal.ImageArguments` | app/services/fal_service.py:43-47 | The image request has exactly the keys `prompt`, `image_size` and `num_images`. They hold the prompt, the size and 1. |
| `Fal.VideoArguments` | app/services/fal_service.py:55-63 | The video request always carries `prompt` and `image_url` set to the inputs. It carries `duration` if and only if the model is in `VIDEO_MODELS` with its flag true, and then the value is the input duration. No other key appears. |
| `Fal.UnknownModelOmitsDuration` | app/services/fal_service.py:61-62 | A model id missing from the catalog gets only `prompt` and `image_url`. This is the same request the default Ovi model gets. |
| `Fal.Subscript` | app/services/fal_service.py:49 | Subscripting by a string key succeeds exactly on a JSON object that has the key, and yields that key's value. |
| `Fal.First` | app/services/fal_service.py:49 | Indexing at 0 succeeds exactly on a non-empty list or string. On a list it yields the first item. |
| `Fal.ExtractImageUrl` | app/services/fal_service.py:49 | Reading an image result succeeds if and only if `images` is a non-empty list whose first item is an object with `url`. It then returns that `url`. |
| `Fal.ExtractVideoUrl` | app/services/fal_service.py:66 | Reading a video result succeeds if and only if `video` is an object with `url`. It then returns that `url`. |
| `Fal.ExtractionRecoversUrl` | app/services/fal_service.py:49-66 | A URL placed in a well-shaped response is read back unchanged, whatever other keys, fields or later images the response holds. |
| `Fal.Finish` | app/services/fal_service.py:41-49 | A failed backend call propagates as a backend error. A returned body is read by the image or the video extraction. A backend error is reported exactly when the call itself failed: an extraction error is never taken for one. |
| `Fal.FalService.constructor` | app/services/fal_service.py:31-37 | The service keeps the model ids it is given. They default to `fal-ai/flux/schnell` and `fal-ai/ovi/image-to-video` and are constants afterwards. |
| `Fal.FalService.GenerateImage` | app/services/fal_service.py:39-49 | The result is the backend's answer to the selected image model with exactly the image arguments, read at the first image's URL, or the propagated error. `image_size` defaults to `landscape_16_9`. |
| `Fal.FalService.GenerateVideoFromImage` | app/services/fal_service.py:51-66 | The method adds `duration` in place. The result is the backend's answer to the selected video model with exactly `VideoArguments`, read at `video.url`, or the propagated error. |
| `Fal.FalService.GenerateImageAsync` | app/services/fal_service.py:68-78 | The async twin sends the same request as `GenerateImage` and reads the answer the same way. |
| `Fal.FalService.GenerateVideoFromImageAsync` | app/services/fal_service.py:80-94 | The async twin sends the same request as `GenerateVideoFromImage`, the same argument map for the same model and inputs, and reads the answer the same way. |
| `Video.ManifestConcat` | app/services/video_service.py:26-28 | The manifest of two clip lists concatenated is the first list's manifest followed by the second's. |
| `Video.ManifestAppend` | app/services/video_service.py:27-28 | Each clip adds exactly its own line `file '<path>'` and a newline, at the end. |
| `Video.ManifestLineAt` | app/services/video_service.py:26-28 | The k-th clip's line sits between the lines of the clips before it and those after it, so input order is kept. |
| `Video.ManifestLineCount` | app/services/video_service.py:26-28 | When no path contains a newline, the manifest has exactly one newline-terminated line per clip. |
| `Video.ManifestRoundTrip` | app/services/video_service.py:26-28 | Reading the manifest back yields exactly the input paths, in order, for paths without newlines. No line is lost, added, reordered or escaped. |
| `Video.StitchArgvShape` | app/services/video_service.py:31-45 | The stitch argv begins `ffmpeg -y -f concat -safe 0 -i <list file>`. With a non-empty audio path it continues `-i <audio> -c:a aac -shortest` (16 arguments). Otherwise it continues `-c:a copy` (13 arguments). It ends `-c:v copy <output>`, with the output last. |
| `Video.StitchHeadMeaning` | app/services/video_service.py:31-37 | The fixed head of the stitch argv sets overwrite. It names the list file as the first input, read with the concat demuxer and `-safe 0`. |
| `Video.StitchTailWithAudio` | app/services/video_service.py:40-41 | The audio branch adds the audio file as a second input with no options. The output gets AAC audio, `-shortest` and copied video. |
| `Video.StitchTailWithoutAudio` | app/services/video_service.py:42-45 | The no-audio branch adds no input. The output gets copied audio and copied video. |
| `Video.StitchArgvMeaning` | app/services/video_service.py:31-45 | Read as ffmpeg reads it, the stitch argv overwrites and has one output, the output path. Its inputs are the manifest alone, or the manifest then the audio when the audio path is non-empty. So with no audio no second `-i` appears. |
| `Video.AddAudioHeadMeaning` | app/services/video_service.py:61-65 | The audio-mux argv sets overwrite. Its inputs are the video, then the audio. |
| `Video.AddAudioTailMeaning` | app/services/video_service.py:66-71 | The audio-mux output options are, in order, `-c:v copy`, `-c:a aac`, `-map 0:v:0`, `-map 1:a:0` and `-shortest`, all applying to the output path. |
| `Video.AddAudioArgvMeaning` | app/services/video_service.py:61-72 | Read as ffmpeg reads it, the audio-mux argv has inputs video then audio. It has one output, the output path, with the fixed options above. |
| `Video.VideoService.constructor` | app/services/video_service.py:10-11 | The service keeps its uploads directory, `/app/uploads` by default. |
| `Video.DefaultListFile` | app/services/video_service.py:25 | With the default uploads directory the manifest lives at `/app/uploads/concat_list.txt`. |
| `Video.VideoService.StitchVideos` | app/services/video_service.py:14-52 | The method runs the stitch argv exactly once, and that run finds the list file holding the manifest of the clips, in order, with every other file as before. On exit status 0 it then removes the list file and returns the output path unchanged. On any other status it returns the process error with the manifest left on disk. No other file changes. |
| `Video.VideoService.AddAudioToVideo` | app/services/video_service.py:54-74 | The method runs the fixed audio-mux argv exactly once, on the files as they were, and touches no file. It returns the output path on exit status 0 and the process error otherwise. |
| `Auth.SessionStore.constructor` | app/auth.py:10-11 | The registry starts empty. |
| `Auth.SessionStore.CreateSession` | app/auth.py:14-17 | The method returns the token it registers, and that token then verifies. Exactly that token is added, so every earlier session stays valid. |
| `Auth.SessionStore.VerifySession` | app/auth.py:20-21 | A token verifies exactly when it is registered. Being a function, it changes nothing. |
| `Auth.SessionStore.Logout` | app/auth.py:24-25 | The token no longer verifies, and exactly that token is removed. Every other token's validity is unchanged. An absent token leaves the set as it was. |
| `Auth.SessionStore.GetCurrentUser` | app/auth.py:28-32 | The result is the configured user name if and only if the `session` cookie is present, non-empty and registered. Otherwise it is `None`. |
| `Auth.SessionStore.RequireAuth` | app/auth.py:35-37 | A request is refused with 401 "Not authenticated" if and only if it has no current user, or the configured user name is empty (Python truthiness). |
| `Auth.SessionLifecycle` | app/auth.py:14-25 | After create, the token verifies. After logging out twice it does not, and the set is the starting set without the token, as after one logout. Another token's validity is the same at the end as at the start. |

## Left out

- The pipeline orchestration (`app/tasks/video.py`): the source has only a stub that returns a constant, so none of its behaviour is invented here.
- The Celery application, the HTTP routes and page rendering, the app mounting and table creation, and the browser script: they are configuration or placeholders with no logic to verify.
- The ORM schema (`app/models/__init__.py`): it declares fields and the four project statuses but no transitions.
- The network: `fal_client.run` / `run_async` are the `Backend` parameter, so the contracts hold for every possible backend behaviour. The async/await mechanics are not modelled. Each async method is a twin with the same specification.
- Fal.FalService.GenerateImage: the backend is a pure function, so the contracts of the four generation methods fix which request is sent and how the answer is read, but not how many calls reach the network.
- Fal.FalService.GenerateImage: the result is the JSON value found at `images[0].url`, not checked to be a string. The Python code does not check it either; only its annotation says `str`.
- The catalogs are not used for validation by the source. An uncatalogued image model or image size is sent as given, and so it is here.
- Process execution: `Host.Run` returns the exit status as a function of the argument vector. The files ffmpeg itself writes (the output video) are not tracked in `Host.files`. A missing ffmpeg binary or an `open` that fails is not modelled.
- `Json` has no fractional numbers, so a backend answer holding floats is not representable. The extraction never reads such fields, so no modelled result depends on them.
- `mkdir` in the `VideoService` constructor is not modelled. The uploads directory is only a name.
- Video.StitchArgvMeaning: the meaning is proved only for an output path not starting with `-`. The source does not guard against such a path, and ffmpeg would read it as an option; `AddAudioArgvMeaning` has the same limit.
- Video.JoinPath: it models `Path(dir) / name` only for a directory that is empty, `.`, ends in `/`, or is plain. Path normalisation of repeated separators and `.` components is not modelled.
- ffmpeg's own parsing of the manifest: a path containing `'` is written unescaped, and the model records this. What ffmpeg then makes of the line is outside the model.
- Concurrency: two stitches sharing one uploads directory would share one manifest path. Concurrent access is not modelled.
- `secrets.token_urlsafe(32)` and the `AUTH_USERNAME` / `AUTH_PASSWORD` environment reads: the token and the user name are parameters. The password is not used by any function in `app/auth.py` and is not modelled.

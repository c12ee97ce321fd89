# Transition node and interpolation stage of the vikit video builder

This project models two pieces of the vikit video build system in Dafny.

The first is the **transition node** (`vikit/video/transition.py`). A transition is a video that bridges a source video and a target video. Construction checks that both endpoints are present and stores them. It also appends them, source first, to the node's dependency list. The node's title is derived from the endpoints' ids: the first five characters of each, joined by `-to-`. Its background-music prompt is the source's title, a space, and the target's title.

The second is the **interpolation stage** of the build pipeline (`vikit/video/building/handlers/interpolation_handler.py`). It sends the video's current locator to the interpolation service and downloads the result to the file name the video gives for its build state. That local path becomes the new `media_url`. The stage then sets `metadata.is_interpolated` and asserts that the locator is not empty.

Layout:

- `wrappers.dfy` (`Wrappers`): `Option` (Python's `None`), `Result` and `Outcome` (a call that raises).
- `video.dfy` (`VideoBase`): the state of the `Video` base class that both files touch. The class `Video` holds the id, dependencies, `media_url`, metadata flags, build settings, and the two attributes a transition adds. The datatype `Node` is the id-and-title view of an endpoint.
- `transition.dfy` (`Transitions`): construction, `get_title`, `short_type_name`, `generate_background_music_prompt`, and the lemmas about titles.
- `interpolation_handler.dfy` (`InterpolationHandler`): the stage as a specification function `Effect`, the in-place method `Execute` proved against it, and lemmas about the flag.

Two points about the stage:

- `execute_async` has no guard on `is_interpolated`. It calls the service and overwrites the locator even on a video already marked interpolated. `InterpolationHandler.FlagNotConsulted` states this.
- The only closing check is that `media_url` is not empty. It runs after both fields have been written, so a failed check leaves the new (empty) locator and the set flag behind. `InterpolationHandler.Effect` models it that way.

## Model

| member | source | states |
|---|---|---|
| `Transitions.Init` | vikit/video/transition.py:66-80 | A missing source fails with `MissingSource`, checked first. Otherwise a missing target fails with `MissingTarget`. A failure writes nothing. On success `source_video` and `target_video` are exactly the arguments, and the dependencies are the earlier ones followed by source and then target (length grows by 2). Media locator, metadata and build settings are unchanged. |
| `Transitions.Prefix` | vikit/video/transition.py:83 | Python's `s[:n]`: the result is a prefix of `s` of length min(n, len(s)). |
| `Transitions.TransitionTitle` | vikit/video/transition.py:83 | The title is the source id's prefix of up to 5 characters, then `-to-` starting at index min(5, len(source id)), then the target id's prefix of up to 5 characters. Its length is min(5, len(s)) + 4 + min(5, len(t)): at most 14, and exactly 14 when both ids have at least 5 characters. |
| `Transitions.GetTitle` | vikit/video/transition.py:82-83 | The title of a constructed transition is the id-prefix title of its two endpoints' ids and is at most 14 characters long. It is computed through `Transitions.Title`, the `get_title` of any node, which for a transition node uses only the endpoints' ids and for any other node returns its own, opaque title. |
| `Transitions.TitleExample` | vikit/video/transition.py:83 | Ids beginning `abcde` and `fghij` give the title `abcde-to-fghij`. |
| `Transitions.TitleOnlyFromEndpointIds` | vikit/video/transition.py:83 | Two transitions whose endpoints have the same ids have the same title. The title ignores the node's own id, the endpoints' titles and anything nested below them, so it does not recurse. |
| `Transitions.SeparatorFirstAt` | vikit/video/transition.py:83 | When the source id's kept prefix has no `-`, no occurrence of `-to-` in the title starts before index min(5, len(source id)). |
| `Transitions.TitleDeterminesPrefixes` | vikit/video/transition.py:83 | When neither source prefix contains `-`, equal titles imply equal five-character prefixes of both source ids and both target ids. |
| `Transitions.TitleCollisionForShortIds` | vikit/video/transition.py:83 | Without that proviso two transitions with different source prefixes can share a title (`a-to-`/`b` and `a`/`-to-b`). |
| `Transitions.ShortTypeName` | vikit/video/transition.py:85-90 | Every transition instance has the same type name, `str(VideoType.TRANSITION)`. |
| `Transitions.GenerateBackgroundMusicPrompt` | vikit/video/transition.py:107-114 | The prompt is the source title, a space at index len(source title), then the target title. Its length is the sum of the two title lengths plus 1. |
| `InterpolationHandler.Effect` | vikit/video/building/handlers/interpolation_handler.py:8-23 | The service is called with the locator the video had before. If the service or the download raises, nothing is written. Otherwise the new locator is the path of the service's result downloaded into the file the video names for its state before the run (metadata, locator) and its build settings, and the interpolated flag is set. The stage succeeds exactly when that path is not empty. The other flags are never written, and the interpolated flag is never cleared. |
| `InterpolationHandler.Execute` | vikit/video/building/handlers/interpolation_handler.py:8-23 | Running the stage in place leaves `media_url` and the metadata exactly as `Effect` of the old state says. It fails exactly when `Effect` fails. On success it returns the very video object it was given. Dependencies, build settings and the transition endpoints are unchanged. |
| `InterpolationHandler.FlagStaysSet` | vikit/video/building/handlers/interpolation_handler.py:21 | Once a run got past its service calls the flag is true, and a second run keeps it true whatever the services do then. |
| `InterpolationHandler.FlagNotConsulted` | vikit/video/building/handlers/interpolation_handler.py:8-23 | The handler does not check the flag first. On a video already marked interpolated it still calls the service with the old locator (and fails exactly when that call raises). When the service and the download succeed, it overwrites the locator with the path downloaded into the file named for the video's state before the run, and succeeds exactly when that path is not empty. |

## Left out

- `web_url_exists` and `url_exists` (vikit/video/transition.py:24-58) are network and filesystem probes with a timeout. They are I/O and are not modelled.
- `prepare_build_hook` (vikit/video/transition.py:92-105) only delegates to the `Video` base class. vikit/video/video.py is not part of this model.
- `Video.__init__` is not part of this model. The constructor of `VideoBase.Video` only stands for the state it leaves: an id, empty dependencies, no locator, no flags set. `Transitions.Init` works on any such object, whatever dependencies it already holds.
- `get_file_name_by_state` is a parameter of the stage. It is bound to the video, so to its id, and is a function of the video's metadata and locator as they are before the stage writes anything, and of the build settings. How it builds the name is not modelled. So is the gateway's `interpolate_async`, which comes from the build settings. So is `urlretrieve(...)[0]`. A raised error from either service is an `Option` `None`. Their own behaviour, including what `urlretrieve` does with the file name, is not modelled.
- `async`/`await` and concurrency: the stage is modelled as one sequential step.
- Endpoints and dependencies are `Node` values, not references to video objects. Object identity and aliasing between nodes are not captured. The same holds for `metadata`: it is a value the stage replaces, not an object it mutates, so another video sharing the same metadata object would not see the change.
- The title of a node that is not a transition (a prompt-based video, for instance) comes from code that is not part of this model. It is an opaque field of `Node.Clip`.
- `Transitions.ShortTypeName`: the text of `str(VideoType.TRANSITION)` is left open (a constant without a value), because vikit/video/video_types.py is not part of this model. Only that every instance gets the same constant is stated.
- The build driver, node state machine, pipeline assembly and the other handlers are not in the two modelled files and are not modelled.
- tests/test_prompt_based_video.py exercises prompt-based videos and live services, which are not part of this model.

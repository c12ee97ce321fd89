/**
 * The part of the `Video` base class that the transition node and the
 * interpolation handler read and write. The base class itself
 * (vikit/video/video.py) is not part of this model: its constructor here
 * only stands for the state `Video.__init__` leaves behind.
 */
module VideoBase {
  import opened Wrappers

  /**
   * The identity-and-title view of a node, as used for the endpoints and
   * dependencies of a transition. `id` is `str(video.id)`.
   * `Clip` is any node that is not a transition; its `get_title` (prompt
   * based videos and the like) is not part of this model, so its title is
   * carried as an opaque value.
   */
  datatype Node =
    | Clip(id: string, title: string)
    | Transition(id: string, source: Node, target: Node)

  /** The metadata flags a video carries; the handlers set them as stages complete. */
  datatype Metadata = Metadata(
    isInterpolated: bool,
    isReencoded: bool,
    isSubtitled: bool,
    hasBackgroundMusic: bool)

  /** Build configuration, read-only during a build. */
  datatype BuildSettings = BuildSettings(
    includeReadAloudPrompt: bool,
    applyBackgroundMusic: bool,
    generateBackgroundMusic: bool,
    testMode: bool)

  /** A video node as a mutable object. */
  class Video {
    const id: string
    var dependencies: seq<Node>
    /** The media locator; `None` until a stage has produced one. */
    var mediaUrl: Option<string>
    var metadata: Metadata
    var buildSettings: BuildSettings
    /** The attributes a transition adds; `None` while they are not set. */
    var sourceVideo: Option<Node>
    var targetVideo: Option<Node>

    /** The state of a freshly built base `Video`: no dependencies, no media, no flags. */
    constructor (id: string, buildSettings: BuildSettings)
      ensures this.id == id && this.buildSettings == buildSettings
      ensures dependencies == [] && mediaUrl == None
      ensures metadata == Metadata(false, false, false, false)
      ensures sourceVideo == None && targetVideo == None
    {
      this.id := id;
      this.buildSettings := buildSettings;
      dependencies := [];
      mediaUrl := None;
      metadata := Metadata(false, false, false, false);
      sourceVideo := None;
      targetVideo := None;
    }

    /** A transition whose construction completed: both endpoints are set. */
    predicate IsTransition()
      reads this
    {
      sourceVideo.Some? && targetVideo.Some?
    }

    /** The node value of a constructed transition. */
    function AsNode(): (n: Node)
      reads this
      requires IsTransition()
      ensures n.Transition? && n.id == id
      ensures n.source == sourceVideo.value && n.target == targetVideo.value
    {
      Transition(id, sourceVideo.value, targetVideo.value)
    }
  }
}

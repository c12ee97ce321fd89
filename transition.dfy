/**
 * The transition node: a video bridging a source video and a target video
 * (vikit/video/transition.py). Construction checks and stores the two
 * endpoints and records them as dependencies; the title and the
 * background-music prompt are derived from the endpoints.
 */
module Transitions {
  import opened Wrappers
  import opened VideoBase

  /** How many characters of each endpoint id the title keeps. */
  const TitlePrefixLength: nat := 5
  /** What joins the two id prefixes in a title. */
  const TitleSeparator: string := "-to-"
  /**
   * `str(VideoType.TRANSITION)`; its text is left open, since
   * vikit/video/video_types.py is not part of this model.
   */
  const TransitionTypeName: string

  /** The failed assertions of the constructor. */
  datatype ConstructionError = MissingSource | MissingTarget

  function Min(a: int, b: int): int { if a <= b then a else b }

  /** Python's slice `s[:n]` for a non-negative `n`: the first `n` characters, or all of a shorter `s`. */
  function Prefix(s: string, n: nat): (r: string)
    ensures |r| == Min(n, |s|)
    ensures r <= s
  {
    s[..Min(n, |s|)]
  }

  /**
   * The title of a transition between endpoints whose ids are `sourceId` and
   * `targetId`: five characters of each, joined by the separator.
   */
  function TransitionTitle(sourceId: string, targetId: string): (r: string)
    ensures |r| == Min(5, |sourceId|) + 4 + Min(5, |targetId|)
    ensures |r| <= 14
    ensures |sourceId| >= 5 && |targetId| >= 5 ==> |r| == 14
    ensures r[..Min(5, |sourceId|)] == Prefix(sourceId, 5)
    ensures r[Min(5, |sourceId|)..Min(5, |sourceId|) + 4] == "-to-"
    ensures r[Min(5, |sourceId|) + 4..] == Prefix(targetId, 5)
  {
    Prefix(sourceId, TitlePrefixLength) + TitleSeparator + Prefix(targetId, TitlePrefixLength)
  }

  /**
   * `get_title` of any node: a transition derives it from its endpoints'
   * ids alone; any other node brings its own.
   */
  function Title(n: Node): string
  {
    match n
    case Clip(_, title) => title
    case Transition(_, source, target) => TransitionTitle(source.id, target.id)
  }

  /**
   * `Transition.__init__` after `super().__init__()`: both endpoints must be
   * present (the source is checked first); then they are stored and appended,
   * source first, to the dependencies. A failed check raises before anything
   * is written.
   */
  method Init(video: Video, source: Option<Node>, target: Option<Node>)
    returns (outcome: Outcome<ConstructionError>)
    modifies video
    ensures source.None? ==> outcome == Fail(MissingSource)
    ensures source.Some? && target.None? ==> outcome == Fail(MissingTarget)
    ensures outcome.Pass? <==> source.Some? && target.Some?
    ensures outcome.Fail? ==> unchanged(video)
    ensures outcome.Pass? ==>
      && video.sourceVideo == source
      && video.targetVideo == target
      && video.dependencies == old(video.dependencies) + [source.value, target.value]
      && video.mediaUrl == old(video.mediaUrl)
      && video.metadata == old(video.metadata)
      && video.buildSettings == old(video.buildSettings)
    ensures outcome.Pass? ==> video.IsTransition()
  {
    if source.None? {
      return Fail(MissingSource);
    }
    if target.None? {
      return Fail(MissingTarget);
    }
    video.targetVideo := target;
    video.sourceVideo := source;
    video.dependencies := video.dependencies + [source.value, target.value];
    outcome := Pass;
  }

  /** `get_title` of a constructed transition object. */
  function GetTitle(video: Video): (r: string)
    reads video
    requires video.IsTransition()
    ensures r == TransitionTitle(video.sourceVideo.value.id, video.targetVideo.value.id)
    ensures |r| <= 14
  {
    Title(video.AsNode())
  }

  /** `short_type_name`: the transition type, whatever the instance. */
  function ShortTypeName(video: Video): (r: string)
    ensures r == TransitionTypeName
  {
    TransitionTypeName
  }

  /**
   * `generate_background_music_prompt`: the source's title, a space, the
   * target's title.
   */
  function GenerateBackgroundMusicPrompt(video: Video): (r: string)
    reads video
    requires video.IsTransition()
    ensures var s, t := Title(video.sourceVideo.value), Title(video.targetVideo.value);
      && |r| == |s| + 1 + |t|
      && r[..|s|] == s
      && r[|s|] == ' '
      && r[|s| + 1..] == t
  {
    Title(video.sourceVideo.value) + " " + Title(video.targetVideo.value)
  }

  /** Ids beginning "abcde" and "fghij" give the title "abcde-to-fghij". */
  lemma TitleExample(sourceId: string, targetId: string)
    requires |sourceId| >= 5 && sourceId[..5] == "abcde"
    requires |targetId| >= 5 && targetId[..5] == "fghij"
    ensures TransitionTitle(sourceId, targetId) == "abcde-to-fghij"
  {
  }

  /**
   * The title of a transition depends only on its endpoints' ids: not on its
   * own id, nor on the endpoints' titles or what they are built from.
   */
  lemma TitleOnlyFromEndpointIds(n: Node, m: Node)
    requires n.Transition? && m.Transition?
    requires n.source.id == m.source.id && n.target.id == m.target.id
    ensures Title(n) == Title(m)
  {
  }

  /**
   * When the source id's kept prefix holds no '-', the first occurrence of
   * the separator in the title is where it was put: at min(5, |source id|).
   */
  lemma {:induction false} SeparatorFirstAt(sourceId: string, targetId: string, j: nat)
    requires '-' !in Prefix(sourceId, 5)
    requires j + 4 <= |TransitionTitle(sourceId, targetId)|
    requires TransitionTitle(sourceId, targetId)[j..j + 4] == "-to-"
    ensures j >= Min(5, |sourceId|)
  {
    var r, k := TransitionTitle(sourceId, targetId), Min(5, |sourceId|);
    assert r[j] == r[j..j + 4][0] == '-';
    assert forall i :: 0 <= i < k ==> r[i] == r[..k][i] == Prefix(sourceId, 5)[i];
    if j < k {
      assert false;
    }
  }

  /**
   * Titles tell transitions apart up to their ids' five-character prefixes,
   * provided the source prefixes hold no '-' (so the separator can be found).
   */
  lemma {:induction false} TitleDeterminesPrefixes(s: string, t: string, s': string, t': string)
    requires '-' !in Prefix(s, 5) && '-' !in Prefix(s', 5)
    requires TransitionTitle(s, t) == TransitionTitle(s', t')
    ensures Prefix(s, 5) == Prefix(s', 5) && Prefix(t, 5) == Prefix(t', 5)
  {
    SeparatorFirstAt(s, t, Min(5, |s'|));
    SeparatorFirstAt(s', t', Min(5, |s|));
  }

  /**
   * Without that proviso titles can collide: a source id "a-to-" with target
   * "b", and a source id "a" with target "-to-b", both give "a-to--to-b".
   */
  lemma TitleCollisionForShortIds()
    ensures TransitionTitle("a-to-", "b") == TransitionTitle("a", "-to-b")
    ensures Prefix("a-to-", 5) != Prefix("a", 5)
  {
  }
}

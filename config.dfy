/**
 * DanmakuConfig and its Builder. The config's `val` properties become `const` fields, so
 * Dafny itself enforces that they are fixed once the config is built; the blocker list is an
 * object that a config and the builders derived from it share by reference.
 */
module Config {
  import opened Items

  const DEFAULT: int := 100           // DanmakuConfig.DEFAULT draw mode
  const SHADOW: int := 200            // DanmakuConfig.SHADOW draw mode
  const DKGRAY: int := -12303292      // Color.DKGRAY, 0xFF444444 as a signed Int

  /** A `Typeface`; only the default one is named by the library. */
  datatype Typeface = DefaultTypeface | CustomTypeface(id: int)

  /** The `@DrawMode` annotation: the only two modes a config is meant to carry. */
  predicate IsDrawMode(mode: int)
  {
    mode == DEFAULT || mode == SHADOW
  }

  /** The shared, mutable `MutableList<DanmakuBlocker>`. */
  class BlockerList {
    var items: seq<Blocker>

    constructor ()
      ensures items == []
    {
      items := [];
    }

    method Add(b: Blocker)
      modifies this
      ensures items == old(items) + [b]
    {
      items := items + [b];
    }
  }

  class Builder {
    var typeface: Typeface
    var durationCoefficient: real
    var textSizeCoefficient: real
    var lineHeight: int
    var marginTop: int
    var marginBottom: int
    var drawMode: int
    var shadowRadius: real
    var shadowDx: real
    var shadowDy: real
    var shadowColor: int
    var isAllowCovering: bool
    var blockers: BlockerList

    /** `Builder()`: the library defaults and a fresh, empty blocker list. */
    constructor ()
      ensures typeface == DefaultTypeface
      ensures durationCoefficient == 1.0 && textSizeCoefficient == 1.0
      ensures lineHeight == 40 && marginTop == 0 && marginBottom == 0
      ensures drawMode == DEFAULT && shadowRadius == 5.0
      ensures shadowDx == 0.0 && shadowDy == 0.0 && shadowColor == DKGRAY
      ensures !isAllowCovering
      ensures fresh(blockers) && blockers.items == []
    {
      typeface := DefaultTypeface;
      durationCoefficient, textSizeCoefficient := 1.0, 1.0;
      lineHeight, marginTop, marginBottom := 40, 0, 0;
      drawMode, shadowRadius := DEFAULT, 5.0;
      shadowDx, shadowDy, shadowColor := 0.0, 0.0, DKGRAY;
      isAllowCovering := false;
      blockers := new BlockerList();
    }

    /** `Builder(config)`: copies every setting; the blocker list is shared, not copied. */
    constructor FromConfig(config: DanmakuConfig)
      ensures SameSettings(this, config)
    {
      typeface := config.typeface;
      durationCoefficient := config.durationCoefficient;
      textSizeCoefficient := config.textSizeCoefficient;
      lineHeight := config.lineHeight;
      marginTop := config.marginTop;
      marginBottom := config.marginBottom;
      drawMode := config.drawMode;
      shadowRadius := config.shadowRadius;
      shadowDx := config.shadowDx;
      shadowDy := config.shadowDy;
      shadowColor := config.shadowColor;
      isAllowCovering := config.isAllowCovering;
      blockers := config.blockers;
    }

    /** `build()`: a new config carrying exactly this builder's settings. */
    method Build() returns (config: DanmakuConfig)
      ensures fresh(config)
      ensures SameSettings(this, config)
    {
      config := new DanmakuConfig(this);
    }
  }

  class DanmakuConfig {
    var typeface: Typeface
    var durationCoefficient: real
    var textSizeCoefficient: real
    var lineHeight: int
    var marginTop: int
    var marginBottom: int
    const drawMode: int
    const shadowRadius: real
    var shadowDx: real
    var shadowDy: real
    const shadowColor: int
    var isAllowCovering: bool
    const blockers: BlockerList

    constructor (builder: Builder)
      ensures SameSettings(builder, this)
    {
      typeface := builder.typeface;
      durationCoefficient := builder.durationCoefficient;
      textSizeCoefficient := builder.textSizeCoefficient;
      lineHeight := builder.lineHeight;
      marginTop := builder.marginTop;
      marginBottom := builder.marginBottom;
      drawMode := builder.drawMode;
      shadowRadius := builder.shadowRadius;
      shadowDx := builder.shadowDx;
      shadowDy := builder.shadowDy;
      shadowColor := builder.shadowColor;
      isAllowCovering := builder.isAllowCovering;
      blockers := builder.blockers;
    }

    /** `newBuilder()`: a builder that starts from this config's settings. */
    method NewBuilder() returns (builder: Builder)
      ensures fresh(builder)
      ensures SameSettings(builder, this)
    {
      builder := new Builder.FromConfig(this);
    }
  }

  /** A builder and a config agree on every setting and share one blocker list. */
  predicate SameSettings(b: Builder, c: DanmakuConfig)
    reads b, c
  {
    && b.typeface == c.typeface
    && b.durationCoefficient == c.durationCoefficient
    && b.textSizeCoefficient == c.textSizeCoefficient
    && b.lineHeight == c.lineHeight
    && b.marginTop == c.marginTop
    && b.marginBottom == c.marginBottom
    && b.drawMode == c.drawMode
    && b.shadowRadius == c.shadowRadius
    && b.shadowDx == c.shadowDx
    && b.shadowDy == c.shadowDy
    && b.shadowColor == c.shadowColor
    && b.isAllowCovering == c.isAllowCovering
    && b.blockers == c.blockers
  }

  /**
   * `config.newBuilder().build()`: a fresh config with every setting of the original, still
   * sharing the original's blocker list.
   */
  method Rebuild(config: DanmakuConfig) returns (copy: DanmakuConfig)
    ensures fresh(copy) && copy != config
    ensures copy.typeface == config.typeface
    ensures copy.durationCoefficient == config.durationCoefficient
    ensures copy.textSizeCoefficient == config.textSizeCoefficient
    ensures copy.lineHeight == config.lineHeight
    ensures copy.marginTop == config.marginTop && copy.marginBottom == config.marginBottom
    ensures copy.drawMode == config.drawMode && copy.shadowRadius == config.shadowRadius
    ensures copy.shadowDx == config.shadowDx && copy.shadowDy == config.shadowDy
    ensures copy.shadowColor == config.shadowColor
    ensures copy.isAllowCovering == config.isAllowCovering
    ensures copy.blockers == config.blockers
  {
    var builder := config.NewBuilder();
    copy := builder.Build();
  }

  /** A config built from a default builder uses one of the two declared draw modes. */
  method DefaultConfig() returns (config: DanmakuConfig)
    ensures fresh(config) && fresh(config.blockers)
    ensures IsDrawMode(config.drawMode) && config.drawMode == DEFAULT
    ensures config.lineHeight == 40 && config.durationCoefficient == 1.0
    ensures config.blockers.items == [] && !config.isAllowCovering
  {
    var builder := new Builder();
    config := builder.Build();
  }
}

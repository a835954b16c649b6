# DanmakuView in Dafny

This project models the core of DanmakuView, an Android library that draws "danmaku" (bullet
comments) over a video on a `SurfaceView`. It also proves properties of that model. The core is
the following:

- **The frame pass.** Every frame, `drawDanmakus` walks the item list. It drops items that are
  invisible, blocked, or outside their time window. It then gives each remaining line item a lane
  and rebuilds the set of items on screen. An item that was already on screen keeps its lane. A
  new scrolling, top or bottom item takes the first lane with no collision. Other items are drawn
  on lane 0.
- **The collision checks (`willHit`).**
  - Top and bottom items collide when their time windows overlap.
  - Right-to-left and left-to-right items collide when they start together, or when the later,
    faster one would catch the earlier one before it leaves the screen.
- **Per-kind drawing (`onDraw`).** Scrolling, top and bottom items are placed in their lane.
  Special items are placed by interpolating keyframes. Bilibili special items move in a straight
  line from their begin point to their end point and fade as they go. A timed polyline can be
  set on a Bilibili item, but `onDraw` does not read it.
- **The bitmap cache.** `onBuildCache` and `tryBuildCache` build each item's cache at most once.
- **The playback clock and the item list** of the view: start, pause, resume, seek, one-frame
  redraw, and add and remove.
- **The configuration and its builder, and the blocker chain.**

Kotlin's own semantics are written out where they matter:

- `toLong()` on a float truncates toward zero (`Common.Trunc`), and so does `Int`/`Long` division
  (`Common.TruncDiv`).
- The nanosecond clock wraps around as a 64-bit `Long` (`Common.WrapLong`), and `Float.toLong()`
  saturates (`Playback.SaturateLong`).
- The showing set is a `LinkedHashSet`, kept as an insertion-ordered sequence without duplicates
  (`Pass.AddInfo`).
- `MutableList.remove` drops the first occurrence (`Playback.RemoveFirst`).
- Floats are exact reals.

## How the model is organised

- **Value types.** Every item's fields, as the frame pass reads them, are a value (`Items.Attrs`).
- **One item class.** The Kotlin item hierarchy becomes one class, `Items.Danmaku`, tagged with its
  kind. Its methods change the fields the source changes: the cache, the split text lines, and a
  Bilibili item's path.
- **Pure specification.** The frame pass is specified by pure functions over maps from items to
  attributes and caches: `Pass.PassOver`, `Pass.Outcome`, `Pass.Search` and `Pass.Place`.
- **Imperative code.** The imperative methods of `View.DanmakuView` (`DrawDanmakus`, `RunPass`,
  `DrawStep`, `FindLane`, `ScanLane`, `DrawDanmaku`) are proved equal to those functions.
- **Proved properties of the specification.**
  - Lanes come from a first-fit search: the lane found is free and every lane before it is taken.
  - Previous lanes are kept.
  - Every recorded item passed the filter, at the progress the filter computed.
  - Lanes wrap into range.
  - Caches are built at most once.

One behaviour of the source is kept exactly as written:

- A wrapped lane is drawn only when `line < maxLine` or covering is allowed.
- So the last lane, `maxLine`, fits on the surface (`Pass.LanesFit`) but is used only when
  covering is on.

## Model

| member | source | states |
|---|---|---|
| Common.RectAt | library/src/main/java/com/seiko/danmu/danmaku/R2LDanmaku.kt:26 | the rect drawn for a bitmap has its top-left corner at the draw position and the bitmap's width and height |
| Common.Trunc | library/src/main/java/com/seiko/danmu/danmaku/LineDanmaku+ext.kt:10 | `Float.toLong()` truncates toward zero: the result is the integer part of the value for either sign |
| Common.TruncDiv | library/src/main/java/com/seiko/danmu/DanmakuView.kt:266 | `Int` division truncates toward zero: bounds of the quotient for non-negative and negative dividends |
| Common.WrapLong | library/src/main/java/com/seiko/danmu/DanmakuView.kt:180 | 64-bit wrap-around: the result is a `Long`, is congruent to the input modulo 2^64, and equals the input when the input is in range |
| Common.Split | library/src/main/java/com/seiko/danmu/danmaku/SpecialDanmaku.kt:122 | splitting yields at least one piece |
| Common.JoinSplit | library/src/main/java/com/seiko/danmu/danmaku/SpecialDanmaku.kt:122 | joining the pieces of a split with the separator gives back the original text |
| Common.SplitManyIffContains | library/src/main/java/com/seiko/danmu/danmaku/SpecialDanmaku.kt:121-122 | a split yields more than one piece exactly when the text contains the separator |
| Items.Danmaku.constructor | library/src/main/java/com/seiko/danmu/Danmaku.kt:14-63 | a new item has the source's defaults: text size 25, white text, opaque, visible, offset 0, no tag, duration 10000 for scrolling kinds and 5000 otherwise, no cache, no lines, no keyframes, no path |
| Items.LinePath.constructor | library/src/main/java/com/seiko/danmu/danmaku/BiliSpecialDanmaku.kt:198-206 | a new path segment has no points and zero duration, times and deltas |
| Items.LinePath.SetPoints | library/src/main/java/com/seiko/danmu/danmaku/BiliSpecialDanmaku.kt:208-213 | stores both points and sets the deltas to end minus begin |
| Config.BlockerList.constructor | library/src/main/java/com/seiko/danmu/DanmakuConfig.kt:105 | the blocker list starts empty |
| Config.BlockerList.Add | library/src/main/java/com/seiko/danmu/DanmakuConfig.kt:88 | adding a blocker appends it at the end of the chain |
| Config.Builder.constructor | library/src/main/java/com/seiko/danmu/DanmakuConfig.kt:92-105 | a new builder holds the documented defaults: coefficients 1, line height 40, zero margins, draw mode DEFAULT, shadow radius 5, dark-grey shadow, no covering, no blockers |
| Config.Builder.FromConfig | library/src/main/java/com/seiko/danmu/DanmakuConfig.kt:107-121 | a builder made from a config copies every setting and shares its blocker list |
| Config.Builder.Build | library/src/main/java/com/seiko/danmu/DanmakuConfig.kt:123-125 | building gives a fresh config with exactly the builder's settings |
| Config.DanmakuConfig.constructor | library/src/main/java/com/seiko/danmu/DanmakuConfig.kt:11-88 | a config takes every setting from its builder |
| Config.DanmakuConfig.NewBuilder | library/src/main/java/com/seiko/danmu/DanmakuConfig.kt:90 | `newBuilder` gives a fresh builder with the config's settings |
| Config.Rebuild | library/src/main/java/com/seiko/danmu/DanmakuConfig.kt:90 | `newBuilder().build()` is a different config object with the same settings and the same blocker list |
| Config.DefaultConfig | library/src/main/java/com/seiko/danmu/DanmakuConfig.kt:92-105 | the default config uses a valid draw mode (DEFAULT), line height 40, duration coefficient 1, no blockers and no covering |
| Utils.ShowBlock | library/src/main/java/com/seiko/danmu/Utils.kt:25-32 | an item is blocked iff some blocker blocks it; blockers are consulted in order, and consulting stops at the first that blocks |
| Utils.NoBlockersNeverBlock | library/src/main/java/com/seiko/danmu/Utils.kt:31 | with no blockers nothing is blocked |
| Utils.BlockedIgnoresOrder | library/src/main/java/com/seiko/danmu/Utils.kt:26-31 | reordering the blockers does not change whether an item is blocked |
| Utils.MoreBlockersBlockMore | library/src/main/java/com/seiko/danmu/Utils.kt:25-32 | appending a blocker blocks exactly what was blocked before plus what the new blocker blocks |
| CacheExt.BuiltCache | library/src/main/java/com/seiko/danmu/danmaku/CacheDanmaku.kt:20 | `onBuildCache` dispatches to the line-item build for scrolling, top and bottom items and to the special build for special items |
| CacheExt.OnBuildCache | library/src/main/java/com/seiko/danmu/danmaku/CacheDanmaku.kt:20 | calling `onBuildCache` stores the bitmap the item's kind builds, or leaves the cache unchanged when that build declines |
| CacheExt.TryBuildCache | library/src/main/java/com/seiko/danmu/danmaku/CacheDanmaku+ext.kt:9-14 | returns the item's cache; it builds only when the cache was empty, at most once per call |
| CacheExt.MemoIdempotent | library/src/main/java/com/seiko/danmu/danmaku/CacheDanmaku+ext.kt:10-13 | trying to build a second time changes nothing |
| CacheExt.MemoMissing | library/src/main/java/com/seiko/danmu/danmaku/CacheDanmaku+ext.kt:10-13 | the cache stays empty iff it was empty and the build declined; an existing cache is never rebuilt |
| CacheExt.ZeroSizeLineItemStaysUncached | library/src/main/java/com/seiko/danmu/danmaku/LineDanmaku.kt:15-17 | a line item whose build declines stays uncached however often a build is tried |
| LineDanmaku.LineCacheFor | library/src/main/java/com/seiko/danmu/danmaku/LineDanmaku.kt:10-19 | the bitmap is the measured text padded by a third of the text size on each axis, truncated; the build declines when either padded side is 0 |
| LineDanmaku.Padded | library/src/main/java/com/seiko/danmu/danmaku/LineDanmaku.kt:15-16 | a padded side is the side plus a third of the text size, truncated toward zero |
| LineDanmaku.OnBuildCache | library/src/main/java/com/seiko/danmu/danmaku/LineDanmaku.kt:9-32 | stores the padded bitmap, or keeps the old cache when the build declines |
| Collision.WindowHoldsStart | library/src/main/java/com/seiko/danmu/danmaku/LineDanmaku+ext.kt:9-12 | an item's time window contains its own start time |
| Collision.StaticHitIffOverlap | library/src/main/java/com/seiko/danmu/danmaku/LineDanmaku+ext.kt:9-14 | two top or bottom items hit exactly when some instant lies in both time windows |
| Collision.StaticHitSymmetric | library/src/main/java/com/seiko/danmu/danmaku/LineDanmaku+ext.kt:13-14 | the static check gives the same answer both ways round |
| Collision.StaticHitReflexive | library/src/main/java/com/seiko/danmu/danmaku/LineDanmaku+ext.kt:13-14 | items with the same offset and duration always hit |
| Collision.StaticHitAtTouch | library/src/main/java/com/seiko/danmu/danmaku/LineDanmaku+ext.kt:13-14 | windows that only touch at an end point still count as a hit |
| Collision.Speed | library/src/main/java/com/seiko/danmu/danmaku/LineDanmaku+ext.kt:29-30 | a scrolling item's speed, (drawWidth + width) / (duration × coefficient), is positive |
| Collision.ScrollHit | library/src/main/java/com/seiko/danmu/danmaku/LineDanmaku+ext.kt:17-59 | equal offsets always hit; otherwise the asking item's cache is built if missing, and a missing cache on the other item means no hit |
| Collision.ScrollDecisionSymmetric | library/src/main/java/com/seiko/danmu/danmaku/LineDanmaku+ext.kt:29-56 | with both caches present, the scroll verdict is the same when the two items swap roles |
| Collision.CatchUpMeaning | library/src/main/java/com/seiko/danmu/danmaku/LineDanmaku+ext.kt:46-56 | the catch-up test holds iff the leader has a positive gap, the chaser is faster, and the chaser closes the gap before reaching the far edge |
| Collision.SlowerNeverCatchesUp | library/src/main/java/com/seiko/danmu/danmaku/LineDanmaku+ext.kt:46-56 | a chaser no faster than the leader never catches up |
| Collision.CheckScrollHit | library/src/main/java/com/seiko/danmu/danmaku/LineDanmaku+ext.kt:17-59 | the scroll check as written: equal offsets hit, the asking item's cache is built if missing, a missing cache on the other item means no hit, and otherwise the full-show, equal-speed and catch-up branches decide |
| Collision.WillHitOutcome | library/src/main/java/com/seiko/danmu/danmaku/R2LDanmaku.kt:34-41 | scrolling items use the scroll check; top and bottom items use the static check and leave the cache alone |
| Collision.WillHit | library/src/main/java/com/seiko/danmu/danmaku/TopDanmaku.kt:31-38 | `willHit` returns the verdict and updates the cache as the per-kind dispatch says; top and bottom items need no precondition beyond being lane items |
| Collision.WillHitStable | library/src/main/java/com/seiko/danmu/danmaku/LineDanmaku+ext.kt:26-27 | asking again with the cache the first call left gives the same verdict and cache |
| R2L.Ends | library/src/main/java/com/seiko/danmu/danmaku/R2LDanmaku.kt:21 | a right-to-left item starts at the right edge and ends fully past the left edge |
| R2L.MovesAtScrollSpeed | library/src/main/java/com/seiko/danmu/danmaku/R2LDanmaku.kt:21 | the item moves left at exactly the speed the scroll check assumes |
| R2L.FullyShownAfterWidthOverSpeed | library/src/main/java/com/seiko/danmu/danmaku/R2LDanmaku.kt:21 | after width / speed milliseconds the item's right edge reaches the surface's right edge, the instant the scroll check calls "fully shown" |
| L2R.Ends | library/src/main/java/com/seiko/danmu/danmaku/L2RDanmaku.kt:20 | a left-to-right item starts fully left of the surface and ends at the right edge |
| L2R.MirrorsR2L | library/src/main/java/com/seiko/danmu/danmaku/L2RDanmaku.kt:20 | at each progress the left-to-right position mirrors the right-to-left one |
| Top.Centred | library/src/main/java/com/seiko/danmu/danmaku/TopDanmaku.kt:19 | a top item is centred horizontally |
| Top.LaneTopSteps | library/src/main/java/com/seiko/danmu/danmaku/TopDanmaku.kt:20 | lane 1 starts at the top margin, and each lane lies one line height below the previous one |
| Top.LanesAreOrdered | library/src/main/java/com/seiko/danmu/danmaku/TopDanmaku.kt:20-23 | a higher lane lies strictly lower, and an item no taller than the line height does not overlap the next lane |
| Bottom.LaneTopSteps | library/src/main/java/com/seiko/danmu/danmaku/BottomDanmaku.kt:20 | lane 1 ends at the bottom margin, and each lane lies one line height above the previous one |
| Bottom.LanesAreOrdered | library/src/main/java/com/seiko/danmu/danmaku/BottomDanmaku.kt:20-23 | a higher lane lies strictly higher, and an item no taller than the line height does not overlap it |
| Drawing.DrawOutcome | library/src/main/java/com/seiko/danmu/Danmaku.kt:70-85 | `onDraw` returns no rect only for a cached kind whose cache is missing and cannot be built; cached kinds try a build first, and line items are drawn at their lane's top |
| Drawing.OnDraw | library/src/main/java/com/seiko/danmu/Danmaku.kt:78-85 | the per-kind `onDraw` returns the rect and leaves the cache as the draw outcome says |
| Drawing.DrawTwice | library/src/main/java/com/seiko/danmu/danmaku/L2RDanmaku.kt:19 | drawing again with the cache the first draw left gives the same rect and cache |
| SpecialDanmaku.TextLines | library/src/main/java/com/seiko/danmu/danmaku/SpecialDanmaku.kt:28 | the measured lines are the split lines when present, otherwise the whole text as one line |
| SpecialDanmaku.Widest | library/src/main/java/com/seiko/danmu/danmaku/SpecialDanmaku.kt:31-38 | the width is the largest line width: no line is wider, and some line reaches it unless it is 0 |
| SpecialDanmaku.StackedHeight | library/src/main/java/com/seiko/danmu/danmaku/SpecialDanmaku.kt:39 | the height is at least every line's height, and 0 when every line has height 0 |
| SpecialDanmaku.Pad | library/src/main/java/com/seiko/danmu/danmaku/SpecialDanmaku.kt:41-42 | the padding is 0 exactly when the text size is below 3 |
| SpecialDanmaku.SpecialCacheMeaning | library/src/main/java/com/seiko/danmu/danmaku/SpecialDanmaku.kt:30-43 | the build declines iff the padding is 0 and every line has width 0 or every line has height 0; a built bitmap covers every line |
| SpecialDanmaku.MeasureLines | library/src/main/java/com/seiko/danmu/danmaku/SpecialDanmaku.kt:31-40 | the measuring loop computes the widest width and the stacked height |
| SpecialDanmaku.MeasureBlock | library/src/main/java/com/seiko/danmu/danmaku/SpecialDanmaku.kt:28-43 | measuring the item gives the special build's result |
| SpecialDanmaku.OnBuildCache | library/src/main/java/com/seiko/danmu/danmaku/SpecialDanmaku.kt:24-63 | stores the special bitmap, or keeps the old cache when the build declines |
| SpecialDanmaku.FindBracket | library/src/main/java/com/seiko/danmu/danmaku/SpecialDanmaku.kt:75-89 | the keyframe loop finds the largest key in [0, progress] and the smallest key in [progress, 1], both inclusive, defaulting to 0 with the start frame and 1 with the end frame; a key equal to the progress becomes both ends |
| SpecialDanmaku.BracketIsExtreme | library/src/main/java/com/seiko/danmu/danmaku/SpecialDanmaku.kt:80-89 | the bracket's lower key is the largest key from 0 up to the progress, and its upper key is the smallest key from the progress up to 1, both bounds inclusive; with no key there, they default to 0 and 1 |
| SpecialDanmaku.FrameOfKey | library/src/main/java/com/seiko/danmu/danmaku/SpecialDanmaku.kt:20 | keyframes form a map, so equal keys mean equal frames |
| SpecialDanmaku.BracketIgnoresOrder | library/src/main/java/com/seiko/danmu/danmaku/SpecialDanmaku.kt:80-89 | the bracket depends only on which keyframes exist, not on their iteration order |
| SpecialDanmaku.Interpolate | library/src/main/java/com/seiko/danmu/danmaku/SpecialDanmaku.kt:96-100 | interpolation is undefined (NaN in Kotlin) exactly when both bracket keys are equal |
| SpecialDanmaku.InterpolateAtKeys | library/src/main/java/com/seiko/danmu/danmaku/SpecialDanmaku.kt:96-100 | at either bracket key the pose is that keyframe's pose |
| SpecialDanmaku.InterpolateBetween | library/src/main/java/com/seiko/danmu/danmaku/SpecialDanmaku.kt:96-99 | between the keys, position and rotation stay between the two frames' values |
| SpecialDanmaku.SpecialRect | library/src/main/java/com/seiko/danmu/danmaku/SpecialDanmaku.kt:102-117 | the rect starts at the pose offset by the surface size; it has the bitmap's size when unrotated, collapses to a point when rotated, and is NaN when the pose is undefined |
| SpecialDanmaku.DefaultPath | library/src/main/java/com/seiko/danmu/danmaku/SpecialDanmaku.kt:14-15 | with no keyframes, an item is drawn unrotated at (drawWidth + p, drawHeight + p) |
| SpecialDanmaku.FillText | library/src/main/java/com/seiko/danmu/danmaku/SpecialDanmaku.kt:120-124 | multi-line text is split on newlines into the lines; any other text leaves the lines unchanged |
| SpecialDanmaku.FillTextLines | library/src/main/java/com/seiko/danmu/danmaku/SpecialDanmaku.kt:120-124 | text with a newline splits into several lines that join back into the text |
| BiliSpecial.AlphaRange | library/src/main/java/com/seiko/danmu/danmaku/BiliSpecialDanmaku.kt:83 | alpha runs from the begin alpha at progress 0 to the end alpha at progress 1 and stays between them |
| BiliSpecial.PositionOnSegment | library/src/main/java/com/seiko/danmu/danmaku/BiliSpecialDanmaku.kt:109-110 | the position runs from the begin point to the end point and stays between them |
| BiliSpecial.DrawXYScales | library/src/main/java/com/seiko/danmu/danmaku/BiliSpecialDanmaku.kt:192-196 | player coordinates scale onto the surface: the origin maps to the origin, the player's corner to the surface's corner, and order is kept |
| BiliSpecial.BlockSize | library/src/main/java/com/seiko/danmu/danmaku/BiliSpecialDanmaku.kt:88-99 | the text block covers every line's width and height, and is at least the padding in each direction |
| BiliSpecial.BiliRectPath | library/src/main/java/com/seiko/danmu/danmaku/BiliSpecialDanmaku.kt:109-129 | the rect starts at the scaled begin point at progress 0 and at the scaled end point at progress 1; it has the block's size when unrotated and collapses to a point when rotated |
| BiliSpecial.FillText | library/src/main/java/com/seiko/danmu/danmaku/BiliSpecialDanmaku.kt:147-151 | text containing the two characters "/n" is split on them into lines; any other text leaves the lines unchanged |
| BiliSpecial.FillTextLines | library/src/main/java/com/seiko/danmu/danmaku/BiliSpecialDanmaku.kt:147-151 | text containing "/n" splits into several lines that join back into the text |
| BiliSpecial.Timeline | library/src/main/java/com/seiko/danmu/danmaku/BiliSpecialDanmaku.kt:159-188 | a polyline of n points gives n − 1 timed segments |
| BiliSpecial.TimelineChains | library/src/main/java/com/seiko/danmu/danmaku/BiliSpecialDanmaku.kt:178-188 | consecutive segments share their points, the first starts at time 0, and each begins when the previous one ends |
| BiliSpecial.ChainsOf | library/src/main/java/com/seiko/danmu/danmaku/BiliSpecialDanmaku.kt:178-188 | chaining any durations links segments end to begin |
| BiliSpecial.ZeroDurations | library/src/main/java/com/seiko/danmu/danmaku/BiliSpecialDanmaku.kt:183-184 | when the total distance is 0 (NaN in Kotlin, 0 after `toLong`), every segment lasts 0 |
| BiliSpecial.DurationBelowShare | library/src/main/java/com/seiko/danmu/danmaku/BiliSpecialDanmaku.kt:183-184 | a segment's duration is non-negative and at most its share of the translation duration |
| BiliSpecial.DurationsWithin | library/src/main/java/com/seiko/danmu/danmaku/BiliSpecialDanmaku.kt:169-184 | the segment durations sum to between 0 and the translation duration |
| BiliSpecial.TimelineWithin | library/src/main/java/com/seiko/danmu/danmaku/BiliSpecialDanmaku.kt:178-188 | the last segment ends no later than the translation duration |
| BiliSpecial.SetLinePathData | library/src/main/java/com/seiko/danmu/danmaku/BiliSpecialDanmaku.kt:153-190 | empty points are rejected and change nothing; otherwise begin and end are the first and last points, and two or more points install fresh segments holding the chained timeline |
| BiliSpecial.MakePaths | library/src/main/java/com/seiko/danmu/danmaku/BiliSpecialDanmaku.kt:159-168 | one fresh, distinct segment per neighbouring pair of points, holding those points |
| BiliSpecial.TotalDistance | library/src/main/java/com/seiko/danmu/danmaku/BiliSpecialDanmaku.kt:169-177 | the loop sums the segment lengths |
| BiliSpecial.ChainTimes | library/src/main/java/com/seiko/danmu/danmaku/BiliSpecialDanmaku.kt:178-188 | the chaining loop gives the segments exactly the durations and times of the timeline |
| BiliSpecial.TimeSegment | library/src/main/java/com/seiko/danmu/danmaku/BiliSpecialDanmaku.kt:183-186 | one chaining step sets a segment's duration, begin time and end time = begin + duration, and nothing else |
| Playback.MillisOfNanos | library/src/main/java/com/seiko/danmu/DanmakuView.kt:60 | within `Long` range, converting milliseconds to nanoseconds and back is the identity |
| Playback.NanosWrap | library/src/main/java/com/seiko/danmu/DanmakuView.kt:195 | beyond `Long.MAX_VALUE / 1000000` milliseconds, the nanosecond clock wraps and the round trip fails |
| Playback.SaturateLong | library/src/main/java/com/seiko/danmu/DanmakuView.kt:170 | `Float.toLong()` always gives a `Long`, saturating at the bounds |
| Playback.SeekThenRead | library/src/main/java/com/seiko/danmu/DanmakuView.kt:179-197 | after `seekTo(t)` or `start(t)` the clock reads `t` milliseconds; `start` resumes, and `seekTo` asks for one frame |
| Playback.ResumeAndPauseSettle | library/src/main/java/com/seiko/danmu/DanmakuView.kt:156-174 | pause and resume are idempotent and leave the time alone; only resuming from pause launches a ticker |
| Playback.DrawOnceDrawsOneFrame | library/src/main/java/com/seiko/danmu/DanmakuView.kt:133-135 | after `drawOnce` a paused view is not idle, and after the frame that clears the flag it idles again |
| Playback.TickAdvances | library/src/main/java/com/seiko/danmu/DanmakuView.kt:170 | while the clock plus the scaled elapsed time still fits in a `Long`, a tick never moves the clock back, and at speed 1 it advances by exactly the elapsed nanoseconds |
| Playback.RemoveAbsent | library/src/main/java/com/seiko/danmu/DanmakuView.kt:145-147 | removing an absent item leaves the list unchanged |
| Playback.RemoveFirstAt | library/src/main/java/com/seiko/danmu/DanmakuView.kt:145-147 | removing an item drops its first occurrence and keeps the order of the rest |
| Playback.RemoveFirstRemovesOne | library/src/main/java/com/seiko/danmu/DanmakuView.kt:145-147 | removing a present item removes exactly one copy of it |
| Pass.Span | library/src/main/java/com/seiko/danmu/DanmakuView.kt:286 | an item's on-screen span, duration × coefficient, is positive |
| Pass.ProgressInUnit | library/src/main/java/com/seiko/danmu/DanmakuView.kt:279-288 | an item that passes the filter, with a non-negative offset, has progress in [0, 1] |
| Pass.FindInfo | library/src/main/java/com/seiko/danmu/DanmakuView.kt:290 | finds the first record of the item in the previous showing set, as `find` does, or reports that the item has no record |
| Pass.AddInfo | library/src/main/java/com/seiko/danmu/DanmakuView.kt:369-373 | adding to the showing set includes the record and appends it only when it is new |
| Pass.Scan | library/src/main/java/com/seiko/danmu/DanmakuView.kt:309-323 | a hit found by the inner loop is always on a lane some shown item occupies |
| Pass.Search | library/src/main/java/com/seiko/danmu/DanmakuView.kt:305-324 | the lane search never returns a lane below its starting lane |
| Pass.VerdictIgnoresBuild | library/src/main/java/com/seiko/danmu/DanmakuView.kt:311-316 | building the asking item's cache during the search does not change any `willHit` verdict |
| Pass.HitsIgnoreBuild | library/src/main/java/com/seiko/danmu/DanmakuView.kt:309-323 | whether a lane is taken does not depend on whether the asking item's cache was built earlier in the search |
| Pass.ScanMeaning | library/src/main/java/com/seiko/danmu/DanmakuView.kt:309-323 | the inner loop reports a hit iff some item shown on that lane collides |
| Pass.SearchFindsFirstFreeLane | library/src/main/java/com/seiko/danmu/DanmakuView.kt:304-324 | the do-while returns a lane with no collision such that every lane from the start up to it collides: first fit |
| Pass.WrapLaneInRange | library/src/main/java/com/seiko/danmu/DanmakuView.kt:380-381 | the drawn lane, `line % maxLine` with 0 read as `maxLine`, lies in 1..maxLine, and lanes within range are unchanged |
| Pass.WrapLanePeriodic | library/src/main/java/com/seiko/danmu/DanmakuView.kt:380-381 | lanes maxLine apart are drawn in the same place |
| Pass.Place | library/src/main/java/com/seiko/danmu/DanmakuView.kt:353-396 | `drawDanmaku` records the rect under the unwrapped lane iff the lane may be drawn and `onDraw` returns a rect, and records nothing otherwise |
| Pass.Outcome | library/src/main/java/com/seiko/danmu/DanmakuView.kt:285-346 | one `forEach` step adds only records for its own item, each satisfying the invariant below; a filtered-out item changes nothing |
| Pass.PassOver | library/src/main/java/com/seiko/danmu/DanmakuView.kt:272-346 | the pass keeps every item's cache entry, changes only the caches of the items it visits, and records only those items |
| Pass.Step | library/src/main/java/com/seiko/danmu/DanmakuView.kt:285-346 | the pass over a prefix followed by one item keeps the same cache and record invariants |
| Pass.PassOverFrame | library/src/main/java/com/seiko/danmu/DanmakuView.kt:285-346 | every record made over a prefix of the list belongs to an item of the list |
| Pass.CacheKept | library/src/main/java/com/seiko/danmu/DanmakuView.kt:285-346 | the caches of items not yet visited are untouched by the pass so far |
| Pass.PassOverSnoc | library/src/main/java/com/seiko/danmu/DanmakuView.kt:285-346 | the pass over one more item is the step for that item after the pass over the prefix |
| Pass.DrawPass | library/src/main/java/com/seiko/danmu/DanmakuView.kt:264-348 | with no lane (maxLine < 1) the showing set and caches stay as they were; otherwise the new showing set holds only listed items |
| Pass.PassOverRecorded | library/src/main/java/com/seiko/danmu/DanmakuView.kt:285-346 | every record passed the filter at its own progress; it keeps its previous lane, or has a lane ≥ 1 if new and a line item, or lane 0 if new and not a line item; and its lane is below maxLine unless covering is allowed |
| Pass.DrawPassRecorded | library/src/main/java/com/seiko/danmu/DanmakuView.kt:264-396 | every item in the new showing set is listed and satisfies that invariant |
| Pass.LanesFit | library/src/main/java/com/seiko/danmu/DanmakuView.kt:266 | lanes 1..maxLine fit between the margins, and lane maxLine + 1 would not |
| View.DanmakuView.constructor | library/src/main/java/com/seiko/danmu/DanmakuView.kt:34-76 | a new view is empty, sized 0×0, paused, at time 0 and speed 1 |
| View.DanmakuView.ConductedTimeMs | library/src/main/java/com/seiko/danmu/DanmakuView.kt:60 | the millisecond time is the nanosecond clock divided by a million, truncated toward zero, for either sign |
| View.DanmakuView.Parse | library/src/main/java/com/seiko/danmu/DanmakuView.kt:124-131 | parsing replaces the item list with the parser's result and resets the clock to paused at time 0 |
| View.DanmakuView.DrawOnce | library/src/main/java/com/seiko/danmu/DanmakuView.kt:133-135 | asks for exactly one frame |
| View.DanmakuView.Pause | library/src/main/java/com/seiko/danmu/DanmakuView.kt:156-158 | pauses the clock |
| View.DanmakuView.Resume | library/src/main/java/com/seiko/danmu/DanmakuView.kt:163-174 | un-pauses the clock, launching a ticker only when it was paused |
| View.DanmakuView.Start | library/src/main/java/com/seiko/danmu/DanmakuView.kt:179-182 | sets the clock to the offset and resumes |
| View.DanmakuView.SeekTo | library/src/main/java/com/seiko/danmu/DanmakuView.kt:194-197 | sets the clock to the given time and asks for one frame |
| View.DanmakuView.Tick | library/src/main/java/com/seiko/danmu/DanmakuView.kt:170 | one ticker round adds the elapsed time × speed, saturated to a `Long`, wrapping like a `Long` |
| View.DanmakuView.FrameDone | library/src/main/java/com/seiko/danmu/DanmakuView.kt:236-238 | the render loop clears the one-frame flag after a frame |
| View.DanmakuView.SurfaceChanged | library/src/main/java/com/seiko/danmu/DanmakuView.kt:204-208 | records the new surface size and asks for one frame |
| View.DanmakuView.Add | library/src/main/java/com/seiko/danmu/DanmakuView.kt:137-139 | appends the item |
| View.DanmakuView.AddAll | library/src/main/java/com/seiko/danmu/DanmakuView.kt:141-143 | appends the items in order |
| View.DanmakuView.Remove | library/src/main/java/com/seiko/danmu/DanmakuView.kt:145-147 | the search loop removes the first occurrence of the item |
| View.DanmakuView.RemoveAll | library/src/main/java/com/seiko/danmu/DanmakuView.kt:149-151 | empties the list |
| View.DanmakuView.DrawDanmakus | library/src/main/java/com/seiko/danmu/DanmakuView.kt:264-348 | the frame pass: the new showing set and every item's cache are those of the specified pass at the current time; only the showing set and the items' caches may change |
| View.DanmakuView.RunPass | library/src/main/java/com/seiko/danmu/DanmakuView.kt:285-346 | the `forEach` loop produces the specified pass's records and caches |
| View.DanmakuView.PassStep | library/src/main/java/com/seiko/danmu/DanmakuView.kt:285-346 | one loop iteration extends the pass by one item |
| View.DanmakuView.DrawStep | library/src/main/java/com/seiko/danmu/DanmakuView.kt:285-346 | one item's handling (filter, previous lane, lane search, or lane 0) gives the specified outcome |
| View.DanmakuView.Filter | library/src/main/java/com/seiko/danmu/DanmakuView.kt:275-288 | the filter accepts exactly visible, unblocked items inside their window, and computes their progress |
| View.DanmakuView.FindLane | library/src/main/java/com/seiko/danmu/DanmakuView.kt:304-324 | the do-while loop returns the specified first-fit lane and leaves the cache as the searches did |
| View.DanmakuView.ScanLane | library/src/main/java/com/seiko/danmu/DanmakuView.kt:309-323 | the inner `for` loop reports the specified verdict for one lane |
| View.DanmakuView.ScanOne | library/src/main/java/com/seiko/danmu/DanmakuView.kt:310-321 | one comparison of the inner loop matches the scan over the remaining items |
| View.DanmakuView.DrawDanmaku | library/src/main/java/com/seiko/danmu/DanmakuView.kt:353-396 | draws the item and records it as the placement function says |

## Left out

- The render coroutine (`startDrawDanmu`) and the ticker coroutine: scheduling, `delay` and
  `System.nanoTime()` are left out. One ticker round is `View.DanmakuView.Tick`, with the elapsed
  nanoseconds as a parameter. The count of launched tickers is a ghost field.
- Concurrency between the ticker and the render loop is not modelled.
- `buildCache`, `clearCache` and `destroy`: these are coroutine or bitmap-recycling housekeeping
  that does not change what is drawn. `surfaceCreated`, `surfaceDestroyed`, `isRunning`,
  `isDestroyed` and the `danmakuConfig` setter are left out for the same reason.
- Canvas, Paint and Bitmap drawing:
  - a cache is a bitmap size;
  - `Canvas.clear`, the border, the underline and the debug text are not drawn.
- Text measurement (`Paint.getTextBounds`, typeface, shadow) is the `bounds` parameter of the
  measure.
- `getSize` is the `sizeOf` parameter.
- `Paint.alpha` and the colours are not modelled as drawing state.
- `Matrix.mapRect` on the rect of a rotated special or Bilibili item is not modelled. That rect is
  taken as a zero-size rect at the draw position (`SpecialDanmaku.SpecialRect`,
  `BiliSpecial.BiliRect`).
- `Float` and `Double` arithmetic is modelled on exact reals. Rounding is not modelled. NaN and
  infinity appear only as explicit cases:
  - equal keyframe keys (`SpecialDanmaku.Interpolate`);
  - a zero total path length (`BiliSpecial.SegmentDuration`).
- The Euclidean distance (`sqrt`) between path points is the `dist` parameter.
- `DanmakuParser` and `DanmakuParser.EMPTY`: parsing is the `parsed` argument of
  `View.DanmakuView.Parse`.
- `textShadowColor` is carried as a plain field and not read. `tag` (Kotlin `Any?`) is an opaque
  handle, `Items.Tag`, which blockers can read through `Items.Attrs`.
- `toString` is `Items.Danmaku.ToString`, the text itself, and has no contract.
- The `@IntRange(0, 255)` annotation on alpha is not enforced. It is an annotation only, and the
  source never checks it.
- Special keyframes are a sequence in the map's iteration order. `SpecialDanmaku.BracketIgnoresOrder`
  shows that the order does not matter when keys are distinct.
- A `FloatArray` point with fewer than two entries (an `IndexOutOfBoundsException` in Kotlin) is not
  modelled. Points are pairs.
- Overflow of `Int` and `Long` is modelled only for the nanosecond clock. Offsets, durations, lane
  numbers and bitmap sizes are unbounded.
- The Bilibili item's alpha is the function `BiliSpecial.AlphaAt`. It sets paint state only, so it
  is not part of the returned rect.
- View.DanmakuView.DrawDanmakus: requires a non-zero line height (Kotlin's integer division would
  throw), a positive duration coefficient, positive item durations (with zero, Kotlin divides to
  Infinity or NaN), a non-negative surface width and non-negative text sizes.
- View.DanmakuView.RunPass, View.DanmakuView.PassStep, View.DanmakuView.DrawStep,
  View.DanmakuView.FindLane, View.DanmakuView.ScanLane and View.DanmakuView.ScanOne: these carry
  the same requirements (`Pass.Sane`).
- View.DanmakuView.Filter: requires a positive duration coefficient and duration, for the same
  reason.
- Collision.CheckScrollHit: requires positive durations and coefficient and a non-negative surface
  width (`Collision.ScrollDefined`), so that speeds are finite and positive. The cached item must
  have a non-negative text size.
- Collision.WillHitOutcome, Collision.WillHit and Collision.WillHitStable: for scrolling items only,
  these require the same as Collision.CheckScrollHit. Top and bottom items have no such
  requirement.
- LineDanmaku.OnBuildCache: requires a non-negative text size, so that the padded bitmap size is a
  natural number.
- SpecialDanmaku.OnBuildCache, CacheExt.OnBuildCache and CacheExt.TryBuildCache: require the same.
- Drawing.OnDraw: requires a non-negative text size, because drawing may build the cache.
- View.DanmakuView.DrawDanmaku: requires the same.
- Pass.ProgressInUnit: proved only for a non-negative offset. With a negative offset, truncating the
  window's end toward zero can let the progress exceed 1.

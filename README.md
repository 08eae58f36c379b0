# Futurecast feed logic in Dafny

A model of the non-visual logic of the Futurecast iOS feed: a vertically
scrolling list of image cards with playback controls, a "momentum" strip that
shows daily listening progress, and text colours chosen for contrast against
each card's photo.

The modules follow the Swift files:

- `ImageColorExtractor` (`image_color_extractor.dfy`): the averaging pass of
  `UIImage.dominantColor()` over an RGBA8 buffer, as a method with nested loops
  proved against the specification function `AverageOf`. Also the WCAG
  luminance (`Color.luminance`), the black-or-white choice
  (`contrastingTextColor`), brightness-only darkening (`darkened(by:)`), and
  the class `ImageColorLoader`, whose `LoadColor` publishes a colour and a
  text colour, or keeps both on failure.
- `HomeFeedView` (`home_feed_view.dfy`): the momentum strip's opacity and
  offset as piecewise-linear functions of the scroll offset; the
  dismissed/revealed hysteresis (`updateStripVisibility`); the card handlers
  that toggle `isPlaying` or `isLooping` of the first card with a given id.
  The view's `@State` is the class `HomeFeed`.
- `MomentumStrip` (`momentum_strip.dfy`): `MomentumData.progress`.
- `Models` (`models.dfy`): the `Visualization` record with the initialiser's
  defaults as constructor defaults, and `mockData`.
- `DesignTokens` (`design_tokens.dfy`): `Color(hex:alpha:)` and the colour,
  spacing and corner-radius tokens.
- `Graphics` and `Wrappers`: colour values (`Rgba`, `Hsb`), the toolkit
  operations the app calls but does not implement, and `Option` for Swift
  optionals.

Modelling choices:

- `CGFloat` and `Double` are exact `real`s. Floating-point rounding is not
  modelled.
- `pow`, `UIColor(c).cgColor.components`, `UIColor.getHue` and
  `Color(hue:saturation:brightness:)` are library code. They are passed in as
  the fields of a `Toolkit` value and stay uninterpreted. Lemmas that need a
  property of them (for example `pow(x, 2.4)` in [0, 1] for x in [0, 1]) state
  it as a precondition.
- `UIGraphicsBeginImageContextWithOptions`, `draw(in:)` and `CGContext` are
  modelled by their outcome, the datatype `Rendering`. It has one case per
  `return nil` and one case holding the drawn buffer. The buffer's width and
  height are parameters, because the resize uses the device scale (50, 100 or
  150 pixels a side). Both are positive, because the source divides by the
  pixel count with no guard.
- `URL(string:)`, `URLSession` and `UIImage(data:)` are modelled by their
  outcome, the datatype `Download`.
- A Swift `UInt` is a `nat` below 2^64. `(hex >> k) & 0xFF` is written as
  `hex / 2^k % 256`, which is the same thing for unsigned values.
- `UUID()` values are the abstract datatype `Uuid`. `mockData` takes its five
  ids as a parameter.
- The `max(0, …)` in the strip's fading branch is kept as written. `VisibleStripOpacity` shows that it never clips there.
- Swift `Int` sums cannot overflow here: at most 255 · 150 · 150 per channel.
  They are unbounded `int`s.

## Model

| member | source | states |
|---|---|---|
| ImageColorExtractor.AverageColor | Futurecast/ImageColorExtractor.swift:47-71 | The nested row/column loop reads bytes offset, offset+1 and offset+2 of every pixel, all within the width·height·4 buffer. It visits width·height pixels and returns exactly the average colour `AverageOf` of the buffer. |
| ImageColorExtractor.PixelIndexInRange | Futurecast/ImageColorExtractor.swift:31-31 | Pixel (x, y) with x < width and y < height has index y·width + x below width·height, so each offset read is inside the allocated `pixelData`. |
| ImageColorExtractor.ChannelSum | Futurecast/ImageColorExtractor.swift:56-62 | The running total of one colour byte over the first n pixels is never negative. Its upper bound is ChannelSumBounds; what the loop accumulates is tied to it by AverageColor. |
| ImageColorExtractor.ChannelSumBounds | Futurecast/ImageColorExtractor.swift:56-62 | Every byte is at most 255, so a channel total over n pixels is at most 255·n. |
| ImageColorExtractor.MeanChannel | Futurecast/ImageColorExtractor.swift:67-69 | Total / pixel count / 255 lies in [0, 1]. |
| ImageColorExtractor.AverageOf | Futurecast/ImageColorExtractor.swift:67-71 | The average colour has every channel in [0, 1] and alpha 1.0. |
| ImageColorExtractor.UniformChannelSum | Futurecast/ImageColorExtractor.swift:60-62 | If all n pixels carry v in a channel, that channel totals n·v. |
| ImageColorExtractor.UniformChannelMean | Futurecast/ImageColorExtractor.swift:67-69 | If all pixels carry v in a channel, its normalised mean is exactly v/255. |
| ImageColorExtractor.SolidColorAverage | Futurecast/ImageColorExtractor.swift:53-71 | A buffer whose pixels are all (r, g, b) averages to exactly (r/255, g/255, b/255, 1), whatever its size. |
| ImageColorExtractor.ChannelSumIgnoresAlpha | Futurecast/ImageColorExtractor.swift:55-58 | Channel totals read only bytes 0, 1 and 2 of each pixel. Buffers that differ only in alpha bytes give equal totals. |
| ImageColorExtractor.AverageIgnoresAlpha | Futurecast/ImageColorExtractor.swift:55-71 | Two buffers that differ only in their alpha bytes have the same average colour. |
| ImageColorExtractor.DominantColor | Futurecast/ImageColorExtractor.swift:9-72 | The result is nil exactly when there is no cgImage, the resize gives no image, or the bitmap context cannot be created. Otherwise it is the buffer's average colour: channels in [0, 1], alpha 1. |
| ImageColorExtractor.DominantColorOf | Futurecast/ImageColorExtractor.swift:9-72 | The result of `dominantColor()` is nil exactly on the three toolkit failures. Otherwise it has every channel in [0, 1] and alpha 1. |
| ImageColorExtractor.Adjust | Futurecast/ImageColorExtractor.swift:82-85 | A component in [0, 0.03928] adjusts into [0, component]. If `pow(x, 2.4)` maps [0, 1] into [0, 1], a component in [0, 1] adjusts into [0, 1]. The exact linear value is LinearBranch. |
| ImageColorExtractor.Luminance | Futurecast/ImageColorExtractor.swift:79-92 | With components in [0, 1] and `pow` keeping [0, 1], the luminance lies in [0, 1]. For a grey (v, v, v) it equals adjust(v), because the weights sum to 1. Black, white and the fallback are BlackGetsWhiteText and WhiteGetsBlackText. |
| ImageColorExtractor.LinearBranch | Futurecast/ImageColorExtractor.swift:82-85 | A component at or below 0.03928 is adjusted by the linear branch c/12.92. The result lies in [0, c]. |
| ImageColorExtractor.AdjustInUnit | Futurecast/ImageColorExtractor.swift:82-85 | If `pow(x, 2.4)` maps [0, 1] into [0, 1], every component in [0, 1] adjusts into [0, 1]. |
| ImageColorExtractor.LuminanceInUnit | Futurecast/ImageColorExtractor.swift:79-92 | With components in [0, 1], the weights 0.2126 + 0.7152 + 0.0722 give a luminance in [0, 1]. |
| ImageColorExtractor.GreyLuminance | Futurecast/ImageColorExtractor.swift:87-91 | A grey (v, v, v) has luminance equal to adjust(v), because the three weights sum to 1. |
| ImageColorExtractor.BlackGetsWhiteText | Futurecast/ImageColorExtractor.swift:80-97 | Black, or a colour without components (the [0, 0, 0, 1] fallback), has luminance 0 and gets white text. |
| ImageColorExtractor.WhiteGetsBlackText | Futurecast/ImageColorExtractor.swift:84-97 | White, with pow(1, 2.4) = 1, has luminance 1 and gets black text. |
| ImageColorExtractor.ContrastingTextColor | Futurecast/ImageColorExtractor.swift:95-97 | The text colour is black if and only if luminance > 0.5, and white if and only if luminance ≤ 0.5. |
| ImageColorExtractor.HalfLuminanceGetsWhite | Futurecast/ImageColorExtractor.swift:96-96 | A luminance of exactly 0.5 gets white text (the comparison is strict). |
| ImageColorExtractor.DarkenedHsb | Futurecast/ImageColorExtractor.swift:100-114 | Darkening keeps hue and saturation exactly. Only brightness changes. The default percentage is 0.3. |
| ImageColorExtractor.DarkenedExtremes | Futurecast/ImageColorExtractor.swift:112-112 | Darkening by 0 leaves the HSB triple unchanged. Darkening by 1 makes brightness 0. |
| ImageColorExtractor.DarkenedBrightnessBounds | Futurecast/ImageColorExtractor.swift:112-112 | For a percentage in [0, 1], the new brightness lies between 0 and the old brightness. |
| ImageColorExtractor.DarkenedTwice | Futurecast/ImageColorExtractor.swift:112-112 | Darkening by p and then by q equals darkening once by 1 − (1 − p)(1 − q). |
| ImageColorExtractor.Darkened | Futurecast/ImageColorExtractor.swift:100-114 | Where getHue and Color(hue:…) round-trip, darkening by 0 returns the colour. Where zero brightness converts to black, darkening by 1 gives black. Hue and saturation are kept (DarkenedHsb). |
| ImageColorExtractor.ZeroDarkeningKeepsColor | Futurecast/ImageColorExtractor.swift:100-114 | Where getHue and Color(hue:…) round-trip, darkening by 0 returns the same colour with the same luminance. |
| ImageColorExtractor.FullDarkeningIsBlack | Futurecast/ImageColorExtractor.swift:100-114 | Where zero brightness converts to black, darkening by 1 gives black for every hue. |
| ImageColorExtractor.ExtractedColor | Futurecast/ImageColorExtractor.swift:125-132 | A colour is obtained exactly when the URL parses, the fetch succeeds, the image decodes and the rendering succeeds. |
| ImageColorExtractor.ImageColorLoader.constructor | Futurecast/ImageColorExtractor.swift:121-122 | A new loader publishes no dominant colour and white text. |
| ImageColorExtractor.ImageColorLoader.LoadColor | Futurecast/ImageColorExtractor.swift:124-140 | On any failure both published fields keep their values. On success `dominantColor` is the colour darkened by 0.2 and `textColor` is that colour's contrasting colour. |
| ImageColorExtractor.LoadOnce | Futurecast/ImageColorExtractor.swift:121-139 | After one load, a fresh loader shows no colour and white text on failure. On success it shows the 0.2-darkened colour and that colour's contrasting text colour. The text colour is always black or white. |
| HomeFeedView.StripOpacity | Futurecast/HomeFeedView.swift:100-123 | The strip opacity lies in [0, 1] whether or not the strip is dismissed. |
| HomeFeedView.VisibleStripOpacity | Futurecast/HomeFeedView.swift:113-121 | When not dismissed, the opacity is 1 above offset 0, 1 + offset/50 on (−50, 0], and 0 at −50 and below. |
| HomeFeedView.DismissedStripOpacity | Futurecast/HomeFeedView.swift:102-111 | When dismissed, the opacity is 0 up to offset 50, (offset − 50)/50 on (50, 100], and 1 above 100. |
| HomeFeedView.StripOpacityMonotone | Futurecast/HomeFeedView.swift:100-123 | For a fixed dismissed flag, opacity never decreases as the offset grows. |
| HomeFeedView.StripOpacityContinuous | Futurecast/HomeFeedView.swift:102-121 | At the thresholds 0, −50, 50 and 100, the linear pieces meet the constant pieces next to them. |
| HomeFeedView.StripOffset | Futurecast/HomeFeedView.swift:125-131 | The strip offset is never positive. It is 0.3·offset while scrolling down undismissed, and 0 otherwise. |
| HomeFeedView.NextDismissed | Futurecast/HomeFeedView.swift:135-145 | An offset below −100 dismisses the strip. An offset above 120 reveals it. Any offset in [−100, 120] keeps the flag. |
| HomeFeedView.NextDismissedIdempotent | Futurecast/HomeFeedView.swift:135-145 | Updating twice at the same offset gives the same flag as updating once. |
| HomeFeedView.FirstIndex | Futurecast/HomeFeedView.swift:150-150 | The index found holds a card with the id, and no earlier card has it. No index is found exactly when no card has the id. |
| HomeFeedView.Toggle | Futurecast/HomeFeedView.swift:151-158 | Toggling a flag keeps each `let` field: id, imageURL, affirmation, board and durationSeconds. |
| HomeFeedView.ToggleInvolutive | Futurecast/HomeFeedView.swift:151-151 | Toggling the same flag twice restores the card. |
| HomeFeedView.ToggleFlipsOneFlag | Futurecast/HomeFeedView.swift:151-158 | Exactly the chosen flag is negated. The other flag is unchanged. |
| HomeFeedView.ToggledFirst | Futurecast/HomeFeedView.swift:149-161 | Toggling a card keeps the length of the feed. |
| HomeFeedView.ToggledFirstChangesOneCard | Futurecast/HomeFeedView.swift:149-161 | Only the first card with the id changes, by the chosen toggle. Every other card is unchanged, and every card keeps its `let` fields. |
| HomeFeedView.ToggledUnknownId | Futurecast/HomeFeedView.swift:150-150 | An id that no card has leaves the feed unchanged. |
| HomeFeedView.FirstIndexByIds | Futurecast/HomeFeedView.swift:150-150 | The card found for an id depends only on the cards' ids, so toggling a flag does not move it. |
| HomeFeedView.ToggledFirstTwice | Futurecast/HomeFeedView.swift:149-161 | Tapping the same action twice for the same id restores the original feed. |
| HomeFeedView.MockCardFound | Futurecast/HomeFeedView.swift:15-15 | In the initial feed with distinct ids, the card found for the k-th id is card k. |
| HomeFeedView.HomeFeed.constructor | Futurecast/HomeFeedView.swift:15-23 | The initial state is the mock cards, index 0, 8 of 15 minutes with a 12-day streak, offset 0, and not dismissed. |
| HomeFeedView.HomeFeed.MomentumStripOpacity | Futurecast/HomeFeedView.swift:43-43 | The opacity applied to the strip lies in [0, 1]. |
| HomeFeedView.HomeFeed.MomentumStripOffset | Futurecast/HomeFeedView.swift:44-44 | The offset applied to the strip is never positive. |
| HomeFeedView.HomeFeed.UpdateStripVisibility | Futurecast/HomeFeedView.swift:135-145 | The two sequential `if`s set the flag to `NextDismissed` of the old flag and the current offset. |
| HomeFeedView.HomeFeed.ScrollOffsetChanged | Futurecast/HomeFeedView.swift:88-91 | A new offset is recorded and the dismissed flag is then updated from it. |
| HomeFeedView.HomeFeed.ToggleCard | Futurecast/HomeFeedView.swift:149-161 | The in-place toggle leaves the feed equal to `ToggledFirst` of the old feed. |
| HomeFeedView.HomeFeed.HandlePlayTapped | Futurecast/HomeFeedView.swift:149-154 | Toggles `isPlaying` of the first card with the id. Nothing else changes. |
| HomeFeedView.HomeFeed.HandleLoopTapped | Futurecast/HomeFeedView.swift:156-161 | Toggles `isLooping` of the first card with the id. Nothing else changes. |
| HomeFeedView.HomeFeed.FirstAffirmation | Futurecast/HomeFeedView.swift:163-175 | Changes no state. It yields the affirmation of the first card with the id, or nothing when no card has that id. |
| HomeFeedView.HomeFeed.HandleAudioTapped | Futurecast/HomeFeedView.swift:163-168 | Changes no state. It yields the affirmation it logs, from the first card with the id. |
| HomeFeedView.HomeFeed.HandleMoreTapped | Futurecast/HomeFeedView.swift:170-175 | Changes no state. It yields the affirmation it logs, from the first card with the id. |
| MomentumStrip.MomentumData.EffectiveGoal | Futurecast/MomentumStrip.swift:9-9 | The divisor is at least 1, so there is no division by zero. A goal of at least 1 is used as it is. |
| MomentumStrip.MomentumData.Progress | Futurecast/MomentumStrip.swift:8-10 | Progress is at most 1. It is below 1 exactly when the minutes are below the effective goal. |
| MomentumStrip.NonPositiveGoalIsOne | Futurecast/MomentumStrip.swift:9-9 | A goal of 0 or less gives the same progress as a goal of 1. |
| MomentumStrip.ProgressBelowGoal | Futurecast/MomentumStrip.swift:9-9 | For 0 ≤ minutes < goal, progress is minutes/goal. |
| MomentumStrip.ProgressAtGoal | Futurecast/MomentumStrip.swift:9-9 | For minutes ≥ goal ≥ 1, progress is 1. |
| MomentumStrip.ProgressSign | Futurecast/MomentumStrip.swift:9-9 | 0 minutes give progress 0. Non-negative minutes give non-negative progress. There is no lower clamp, so negative minutes give negative progress. |
| MomentumStrip.ProgressMonotone | Futurecast/MomentumStrip.swift:9-9 | For a fixed goal, progress never decreases as minutes grow. |
| MomentumStrip.PreviewProgress | Futurecast/MomentumStrip.swift:101-131 | The previews show 8/15, 1 (15 of 15) and 0 (0 of 10). |
| Models.InitDefaults | Futurecast/Models.swift:14-30 | The initialiser defaults are board nil, 30 seconds, not playing and not looping. Every argument is stored unchanged in the field of the same name. |
| Models.MockData | Futurecast/Models.swift:36-67 | There are exactly five mock cards. Each has its generated id, a board, a positive duration, and both flags false. |
| DesignTokens.DecodeHex | Futurecast/DesignTokens.swift:32-34 | The three decoded channels are exactly the low 24 bits of hex, red highest: red·65536 + green·256 + blue == hex mod 2^24, each channel in 0..255. |
| DesignTokens.ColorFromHex | Futurecast/DesignTokens.swift:31-36 | Each normalised channel lies in [0, 1] and is its byte divided by 255. The opacity is `alpha`. |
| DesignTokens.EncodeHex | Futurecast/DesignTokens.swift:32-34 | Recomposing three channels gives a literal below 2^24. |
| DesignTokens.DecodeThenEncode | Futurecast/DesignTokens.swift:32-34 | For hex < 2^24, r·65536 + g·256 + b = hex. |
| DesignTokens.EncodeThenDecode | Futurecast/DesignTokens.swift:32-34 | Decoding a recomposed literal returns the original channels. |
| DesignTokens.HighBitsIgnored | Futurecast/DesignTokens.swift:32-34 | `hex` and `hex & 0xFFFFFF` decode to the same channels. |
| DesignTokens.DefaultAlphaIsOpaque | Futurecast/DesignTokens.swift:31-31 | Without `alpha`, the colour is opaque. |
| DesignTokens.TokenChannels | Futurecast/DesignTokens.swift:6-12 | graphiteBase is (14, 15, 16), accentMint is (46, 211, 198) and accentMintSoft is (111, 227, 216). The same holds for the other hex tokens. |
| DesignTokens.SpacingOrdered | Futurecast/DesignTokens.swift:16-21 | The spacings are ordered small 8 < base 12 < medium 16 < large 24. |
| DesignTokens.CornerRadiiOrdered | Futurecast/DesignTokens.swift:23-27 | The corner radii are ordered control 16 < chip 18 < surface 28. |

## Left out

- SwiftUI view trees (`body` of every view), styling, glass effects, shadows, animations and `scrollTransition`: toolkit layout with no behaviour to state. This covers `FeedCard.swift`, `LiquidGlassControlStripView.swift`, `VerticalControlStack.swift` and `MomentumStrip.body`.
- The image resize and redraw (`UIGraphicsBeginImageContextWithOptions`, `draw(in:)`, `CGContext`): foreign graphics calls. The model takes their outcome, failure or a drawn buffer, as input. Premultiplied alpha is part of that input.
- `pow((c + 0.055) / 1.055, 2.4)` and the HSB conversions (`getHue`, `Color(hue:saturation:brightness:)`): floating-point library code, kept uninterpreted. Consequently, the luminance of a specific colour such as the accent mint (about 0.527) is not computed.
- `getHue`'s Boolean result, which the source ignores, is not modelled. The conversion is taken to always produce a triple.
- Grey-scale colours, whose `cgColor.components` has only two entries: the source reads `components[2]` (ImageColorExtractor.swift:89), which traps with an index out of range. The model's toolkit yields an RGBA quadruple or nothing, so it excludes that crash.
- Floating-point rounding and `Int` overflow: arithmetic is exact on `real` and unbounded `int`.
- `URLSession` fetching, `UIImage(data:)` decoding, `async`, `@MainActor` and `@Published` notification: I/O and concurrency. Their outcomes are the input `Download`.
- `ScrollOffsetPreferenceKey.reduce` and the geometry that produces `scrollOffset`: toolkit plumbing. The offset is an input.
- The `print` calls in the audio and more handlers, and the `print` in `loadColor`'s `catch` (ImageColorExtractor.swift:138), which logs the error and changes no state. Console output is I/O.
- `UUID()` generation: ids are parameters.

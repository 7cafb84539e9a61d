# Banner carousel engine (rock) in Dafny

This project models the engine of the `Banner` carousel widget of the rock Android
libraries, together with the value types it consumes and the MD5 key function of the
core library.

- **JumpInfo** (`jump_info.dfy`, module `JumpInfos`) is the in-app navigation target
  of a card. Its `compareTo` is an equality test on url and action: it answers 0 or
  -1 and never 1.
- **CardInfo** (`card_info.dfy`, module `CardInfos`) is one entry of the data a loader
  delivers. It is ordered by weight alone.
- **Card geometry** (`card_geometry.dfy`, module `CardGeometry`) covers the horizontal
  layout.
  - All cards share one offset. Card `i` sits at `offset + width * i`, and getOffset
    moves that position by one whole ring (`count * width`) when it leaves
    `[-(count-1)*width, (count-1)*width]`.
  - A card is "centred" when its offset lies in `[-(width/2), width/2)`.
  - tick folds the offset back with Kotlin's truncating `%`.
  - Proved: at most one card is ever centred. With an even width and a folded offset,
    exactly one is, so exactly one dot is highlighted. With an odd width some offsets
    leave no card centred.
- **Banner** (`banner.dfy`, module `BannerEngine`, class `Banner`) is the state machine
  `NOT_INIT → INITIALIZED → LOADING → LOADED → WAITING ⇄ SLIPPING/TOUCHING`, plus
  `ERROR`. It covers:
  - `refreshData`, the offline load, `onDataLoaded` with its "same data, no rebuild"
    check, and `onLoadFailed`;
  - the gesture interpreter of `onTouchEvent`: drag, hold, swipe and tap;
  - the per-frame `tick`, with its auto-advance and offset normalisation;
  - `startAnimation`/`cancelAnimation`;
  - the animator's listeners.

  Every event is a method. Its `ensures` clause states the new state of every field
  it may change, and every method preserves the class invariant `Valid`: every card
  carries its own position as `cardIndex`, and the widget never falls back to
  `NOT_INIT`. The pointer-up interpretation is the pure function `ReleaseOf`.
  `OnTouchEvent` and `OnRelease` are proved against it, and lemmas state what a
  release does:
  - only a tap clicks, and the click goes to the centred card;
  - hold and tap re-centre that card exactly;
  - swipes bring the neighbouring card to the centre, up to whole turns of the ring.
- **Md5Util** (`md5_util.dfy`, module `Md5Util`) models `getMd5`. The text's 16-byte
  digest is rendered as 32 lower-case hexadecimal characters: `Integer.toHexString` of
  each unsigned byte, padded to two characters. A missing provider yields `""`. Proved:
  the padding always yields the byte's two nibbles, and the rendering is injective.

Inputs from outside the program enter as parameters:
- clock readings (`SystemClock.elapsedRealtime`) are `now: int`;
- touch coordinates are `x: real`;
- loader results are `seq<CardInfo>`;
- the MD5 digest function is a `string -> Digest` inside `MessageDigest.Md5`.

Posted runnables and pool jobs run in the order the events are given. tick's posted
auto-advance is counted in `pendingAdvances` and run by `RunPendingAdvance`.

The model follows the code on two points a reader might expect otherwise:
- A tap reports the card centred when the finger is released.
- A press held longer than 500 ms re-centres the centred card (`offset - c`) and does
  not page.

The eight widget states are the datatype `BannerEngine.State`
(ui/src/main/java/com/rock/ui/Banner.kt:43-52). It is a type, not an operation, so it
has no row of its own below; `Banner.IsRunning` and the class invariant `Valid` state
what the engine relies on about it.

## Model

| member | source | states |
|---|---|---|
| JumpInfos.JumpInfoOf | ui/src/main/java/com/rock/ui/JumpInfo.kt:10 | the two-argument constructor keeps url and action and has empty extras |
| JumpInfos.CompareTo | ui/src/main/java/com/rock/ui/JumpInfo.kt:12-16 | the result is 0 or -1, and 0 exactly when url and action agree |
| JumpInfos.ExtrasIgnored | ui/src/main/java/com/rock/ui/JumpInfo.kt:12-16 | the extras of either side never change the comparison |
| JumpInfos.CompareToReflexive | ui/src/main/java/com/rock/ui/JumpInfo.kt:13 | every target compares as 0 to itself |
| JumpInfos.CompareToZeroSymmetric | ui/src/main/java/com/rock/ui/JumpInfo.kt:14 | a 0 result does not depend on operand order |
| JumpInfos.CompareToNotAntisymmetric | ui/src/main/java/com/rock/ui/JumpInfo.kt:15 | differing targets each compare as -1 to the other, so compareTo is an equality test and not an order |
| CardInfos.CardInfoOf | ui/src/main/java/com/rock/ui/CardInfo.kt:7 | the two-argument constructor keeps image and target and has weight 0 |
| CardInfos.CompareTo | ui/src/main/java/com/rock/ui/CardInfo.kt:9-15 | 1, -1 or 0 exactly when the weight is greater, smaller or equal |
| CardInfos.CompareToAntisymmetric | ui/src/main/java/com/rock/ui/CardInfo.kt:9-15 | swapping the operands negates the result |
| CardInfos.CompareToIgnoresIdentity | ui/src/main/java/com/rock/ui/CardInfo.kt:9-15 | image and jump target never influence the result |
| CardInfos.NotAfterIsTotalPreorder | ui/src/main/java/com/rock/ui/CardInfo.kt:9-15 | the induced order is reflexive, total and transitive |
| CardInfos.DefaultWeightsTie | ui/src/main/java/com/rock/ui/CardInfo.kt:7 | cards made by the two-argument constructor all compare as 0 |
| Md5Util.ToHexString | core/src/main/java/com/rock/core/security/Md5Util.kt:20 | Integer.toHexString: lower-case digits denoting the value, no leading zero, one digit below 16, two below 256 |
| Md5Util.Unsigned | core/src/main/java/com/rock/core/security/Md5Util.kt:20 | `0xFF and b` is below 256, congruent to b modulo 256, and b itself for non-negative b |
| Md5Util.HexOf | core/src/main/java/com/rock/core/security/Md5Util.kt:19-24 | two lower-case characters per byte, the high then the low nibble of the unsigned byte |
| Md5Util.PaddedHexIsByteHex | core/src/main/java/com/rock/core/security/Md5Util.kt:20-21 | toHexString padded with '0' to length two is exactly the byte's two nibbles |
| Md5Util.HexOfInjective | core/src/main/java/com/rock/core/security/Md5Util.kt:19-24 | distinct digests give distinct strings |
| Md5Util.GetMd5 | core/src/main/java/com/rock/core/security/Md5Util.kt:10-29 | "" without an MD5 provider, otherwise the 32-character hex rendering of the text's digest |
| CardGeometry.CardOffset | ui/src/main/java/com/rock/ui/Banner.kt:1060-1075 | 0 with fewer than two cards, otherwise the raw position or it moved by exactly one ring |
| CardGeometry.TruncRem | ui/src/main/java/com/rock/ui/Banner.kt:590 | Kotlin `%`: strictly within one modulus of 0, sign of the dividend, differs from it by a multiple, identity on small values |
| CardGeometry.TruncateToInt | ui/src/main/java/com/rock/ui/Banner.kt:306-308 | Float.toInt truncates toward zero: within one unit of x, on the side of zero |
| CardGeometry.Normalized | ui/src/main/java/com/rock/ui/Banner.kt:588-591 | the folded offset is strictly within one ring of 0, moved by whole rings, and unchanged when already in range |
| CardGeometry.NormalizedCardOffsetInRange | ui/src/main/java/com/rock/ui/Banner.kt:1060-1075 | with the offset within one ring, every card offset lies in [-(n-1)w, (n-1)w] |
| CardGeometry.WrapOf | ui/src/main/java/com/rock/ui/Banner.kt:1060-1075 | getOffset adds -1, 0 or 1 whole rings to the raw position |
| CardGeometry.AtMostOneCentred | ui/src/main/java/com/rock/ui/Banner.kt:1034-1041 | two centred cards are the same card, so at most one dot is highlighted |
| CardGeometry.SomeCardCentred | ui/src/main/java/com/rock/ui/Banner.kt:1034-1041 | with an even width and a folded offset some card is centred |
| CardGeometry.OddWidthCanLeaveNoCardCentred | ui/src/main/java/com/rock/ui/Banner.kt:1034-1041 | with width 1081 and offset 540 neither of two cards is centred |
| BannerEngine.NewCard | ui/src/main/java/com/rock/ui/Banner.kt:1024-1029 | a card takes the data's image and target and the given index |
| BannerEngine.CardsFrom | ui/src/main/java/com/rock/ui/Banner.kt:535-537 | one card per data entry, each comparing equal to its entry, with indices continuing from the base (also the offline append at Banner.kt:900-902) |
| BannerEngine.SameData | ui/src/main/java/com/rock/ui/Banner.kt:510-522 | data that needs no update is non-empty, as long as the cards, and agrees on image url, target url and action at every position |
| CardGeometry.IsCentred | ui/src/main/java/com/rock/ui/Banner.kt:1034-1041 | isSelectedCard's window: for an even width exactly -w <= 2c < w; for an odd width -w < 2c < w-1, one pixel short of a card |
| BannerEngine.Compare | ui/src/main/java/com/rock/ui/Banner.kt:1046-1055 | Card.compare holds exactly when image url, target url and target action agree |
| BannerEngine.NeedUpdate | ui/src/main/java/com/rock/ui/Banner.kt:510-522 | needUpdate exactly when the cards are empty, differ in number, or some position differs |
| BannerEngine.RebuiltListIsStable | ui/src/main/java/com/rock/ui/Banner.kt:510-537 | cards built from a list are the same data as any list agreeing on images and targets, so reloading does not rebuild |
| BannerEngine.SameDataIgnoresWeights | ui/src/main/java/com/rock/ui/Banner.kt:1046-1055 | changing weights never changes needUpdate |
| BannerEngine.CentredIn | ui/src/main/java/com/rock/ui/Banner.kt:319-330 | the card a forEach scan acts on is centred and no later card is; None only if no card is centred |
| BannerEngine.CentredInIsTheCentredCard | ui/src/main/java/com/rock/ui/Banner.kt:1034-1041 | with cardIndex equal to position, a card is centred exactly when the scan finds it |
| BannerEngine.ScanCentred | ui/src/main/java/com/rock/ui/Banner.kt:319-330 | the scan loop returns what CentredIn specifies |
| BannerEngine.ReleaseOf | ui/src/main/java/com/rock/ui/Banner.kt:311-386 | a release leaves the state as it was or SLIPPING, the animator as it was or running from the offset for 222 ms, changes nothing with one card, and clicks only a card of the list |
| BannerEngine.ClickOnlyOnTap | ui/src/main/java/com/rock/ui/Banner.kt:312-385 | a click happens only for a tap; it reports card 0 with one card, the centred card with several, and nothing when several cards have none centred |
| BannerEngine.ReleaseWithoutCentredCard | ui/src/main/java/com/rock/ui/Banner.kt:315-385 | with several cards and none centred, no animation starts and no click is reported; hold and tap still go SLIPPING (lines 317, 367), a swipe leaves the state |
| BannerEngine.ReleaseTargets | ui/src/main/java/com/rock/ui/Banner.kt:315-379 | with a centred card at c: SLIPPING, a running animator from offset for 222 ms, aimed at offset-c (hold/tap), offset-(width+c) (left) or offset-(c-width) (right) |
| BannerEngine.SnapCentresCard | ui/src/main/java/com/rock/ui/Banner.kt:323-327 | after hold or tap the centred card sits exactly at 0 |
| BannerEngine.PageTargetsAlignNeighbour | ui/src/main/java/com/rock/ui/Banner.kt:333-361 | the swipe targets put the next (left) or previous (right) card a whole number of rings from the centre |
| BannerEngine.Banner.constructor | ui/src/main/java/com/rock/ui/Banner.kt:714-826 | init leaves INITIALIZED with no cards, offset 0, idle animator and the given configuration |
| BannerEngine.Banner.WithDefaults | ui/src/main/java/com/rock/ui/Banner.kt:740-748 | init with the attribute defaults: auto-loop off, loop interval 5000 ms, INITIALIZED with no cards |
| BannerEngine.Banner.IsRunning | ui/src/main/java/com/rock/ui/Banner.kt:943-948 | running excludes NOT_INIT, INITIALIZED, LOADING, LOADED and ERROR |
| BannerEngine.Banner.StartAnimator | ui/src/main/java/com/rock/ui/Banner.kt:801-803 | start() sets the animator's values and the start listener sets SLIPPING |
| BannerEngine.Banner.OnAnimationUpdate | ui/src/main/java/com/rock/ui/Banner.kt:799 | the update listener sets the offset to the animated value |
| BannerEngine.Banner.OnAnimationEnd | ui/src/main/java/com/rock/ui/Banner.kt:805-808 | at the end the offset is the target, the state WAITING and the auto-loop clock restarted |
| BannerEngine.Banner.StartAnimation | ui/src/main/java/com/rock/ui/Banner.kt:921-926 | only LOADED moves, to WAITING with the clock restarted |
| BannerEngine.Banner.CancelAnimation | ui/src/main/java/com/rock/ui/Banner.kt:931-938 | from a running state the animator stops (its listeners restart the clock) and the state ends LOADED; otherwise nothing changes |
| BannerEngine.Banner.RefreshData | ui/src/main/java/com/rock/ui/Banner.kt:226-254 | showing or error states clear cards and offset, cancel (the auto-loop clock restarts only when a running banner had a running animator, otherwise it is kept), go LOADING and queue the online load; INITIALIZED goes LOADING with offline then online; NOT_INIT and LOADING are ignored |
| BannerEngine.Banner.LoadOffline | ui/src/main/java/com/rock/ui/Banner.kt:894-909 | non-empty offline data is appended with indices continuing the list, then LOADED and WAITING; empty data changes nothing |
| BannerEngine.Banner.OnDataLoaded | ui/src/main/java/com/rock/ui/Banner.kt:496-547 | empty data clears and hides (LOADED); same data only shows; new data replaces the cards (indices 0..n-1), zeroes the offset and ends WAITING |
| BannerEngine.Banner.OnLoadFailed | ui/src/main/java/com/rock/ui/Banner.kt:552-559 | only LOADING reacts, going ERROR and hiding when there are no cards |
| BannerEngine.Banner.OnTouchEvent | ui/src/main/java/com/rock/ui/Banner.kt:290-392 | refused unless running with a card; Down starts a touch; Move drags by the truncated travel with several cards; Up is ReleaseOf; the rest changes nothing |
| BannerEngine.Banner.OnRelease | ui/src/main/java/com/rock/ui/Banner.kt:311-386 | the pointer-up branch leaves state, animator and click as ReleaseOf specifies |
| BannerEngine.Banner.Tick | ui/src/main/java/com/rock/ui/Banner.kt:564-593 | only a running banner with several cards and a width acts; auto-advance fires only in WAITING after the interval; afterwards every card offset is in range and, for even widths, a card is centred |
| BannerEngine.Banner.AutoAdvance | ui/src/main/java/com/rock/ui/Banner.kt:566-585 | the clock restarts when the interval has passed, and one advance is posted (SLIPPING) when a card is centred |
| BannerEngine.Banner.FoldOffset | ui/src/main/java/com/rock/ui/Banner.kt:588-591 | the offset is Normalized, every card offset is in range, and an even width leaves a card centred |
| BannerEngine.Banner.RunPendingAdvance | ui/src/main/java/com/rock/ui/Banner.kt:577-581 | the posted advance animates from the current offset one width left over 333 ms, in SLIPPING |

## Left out

- Rendering is not modelled: `render`, `drawCards`, `drawDots` drawing, `drawCard`, `trimRect`, the loading and error bitmaps, and dip/px conversion. Only the dot colour test (`isSelectedCard`) is kept.
- `isSelectedCard` takes the canvas width. The model assumes it equals the view width.
- The render thread (`run`, `surfaceCreated/Changed/Destroyed`, `startDrawThread`, `stopDrawThread`) is out of scope. Its frame loop is the caller invoking `Tick`.
- Concurrency is not modelled. The pool jobs of `refreshData` and `onDataLoaded`, and the posts to the main thread, run in event order, so interleavings of these threads are not covered.
- The image pipeline is not modelled: `loadBitmap`, `downloadFile`, the disk cache, and the bitmap a `Card` holds.
- `init` attribute parsing, `initLoader`'s reflection, and the loader itself (`loadOnline` only calls it) are left out. Loader results are inputs of `OnDataLoaded`, `OnLoadFailed` and `LoadOffline`.
- `loadData` is never called in the source and is not modelled.
- `onAttachedToWindow` and `onDetachedFromWindow` only call `startAnimation` and `cancelAnimation`. They are not separate members.
- `dispatchTouchEvent` only asks the parent not to intercept, so it is not modelled.
- `Log` calls are out of scope.
- `BannerEngine.Banner.OnAnimationUpdate`: the interpolator and `IntEvaluator` are library code. The model only assumes the animated value lies between the animator's start and end values.
- `BannerEngine.Banner.StartAnimator`: starting an animator that is already running is modelled as replacing its values. The listeners of the interrupted run are not modelled.
- `BannerEngine.ScanCentred`: the scans act on the last centred card. Since at most one card is centred (`AtMostOneCentred`), this is the source's behaviour, and tick posts one advance rather than one per centred card.
- `BannerEngine.Compare`: the `data == null` branch is not modelled, because list elements are non-null in the callers.
- MD5 itself (`MessageDigest`, `String.toByteArray`) is a parameter of `GetMd5`. Other exceptions of the digest are not modelled.
- `JumpInfos.JumpInfo`: the extras `Bundle` is a string map. Bundle's reference equality inside the data-class `==` is replaced by structural equality, which cannot change `compareTo`'s result.
- Integers are unbounded. Overflow of `Int` offsets and of `Long` times is not modelled.
- Touch coordinates are exact reals, so Float rounding is not modelled.
- `width` is a constant of the widget. Size changes are not modelled.
- `autoLoop` and `loopInterval` are plain public fields, as in the source. No setter is modelled.

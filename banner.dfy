/** The carousel engine of Banner.kt, apart from drawing, threads and networking:
    the widget's state machine, the card list and its reconciliation with freshly
    loaded data, the gesture interpreter and the per-frame tick. Events that the
    source receives from Android (touch events, loader callbacks, animator
    callbacks, the render thread's tick) are methods of class Banner; clock
    readings are passed in as `now`. */
module BannerEngine {
  import JumpInfos
  import CardInfos
  import opened CardGeometry

  datatype Option<T> = None | Some(value: T)

  /** Banner.State. */
  datatype State = NotInit | Initialized | Loading | Loaded | Waiting | Slipping | Touching | Error

  /** A card on display (Banner.Card): its image url, its jump target and its index
      in the list it was created for. The bitmap it loads is not modelled. */
  datatype Card = Card(imageUrl: string, jumpTo: JumpInfos.JumpInfo, cardIndex: int)

  /** What the animator has been told: running or not, and its int value range and
      duration in milliseconds. Interpolation is library code. */
  datatype Animator = Animator(running: bool, from: int, to: int, duration: int)

  /** The motion-event actions onTouchEvent distinguishes. */
  datatype TouchAction = Down | Move | Up | OtherAction

  /** The background work refreshData hands to its thread pool. */
  datatype LoadJob = NoJob | LoadOnline | LoadOfflineThenOnline

  /** The outcome of a pointer-up event: the new state, the animator and the card
      whose jump target is reported to the click callback, if any. */
  datatype Release = Release(state: State, animator: Animator, click: Option<JumpInfos.JumpInfo>)

  const MAX_TOUCH_TIME: int := 500
  const DEFAULT_LOOP_INTERVAL: int := 5000
  const SWIPE_SLOP: real := 8.0
  const SNAP_DURATION: int := 222
  const AUTO_ADVANCE_DURATION: int := 333

  /** Card(data, index). */
  function NewCard(data: CardInfos.CardInfo, index: int): (c: Card)
    ensures c.imageUrl == data.urlImage && c.jumpTo == data.jumpTo && c.cardIndex == index
  {
    Card(data.urlImage, data.jumpTo, index)
  }

  /** The cards built for `list` when they are appended to `base` existing cards. */
  function CardsFrom(list: seq<CardInfos.CardInfo>, base: int): (cards: seq<Card>)
    ensures |cards| == |list|
    ensures forall i :: 0 <= i < |list| ==> Compare(cards[i], list[i]) && cards[i].cardIndex == base + i
  {
    seq(|list|, i requires 0 <= i < |list| => NewCard(list[i], base + i))
  }

  /** Card.compare: the card shows this data, comparing the image url and the jump
      target (url and action); the weight plays no part. */
  function Compare(card: Card, data: CardInfos.CardInfo): (r: bool)
    ensures r <==> card.imageUrl == data.urlImage
                   && card.jumpTo.url == data.jumpTo.url && card.jumpTo.action == data.jumpTo.action
  {
    data.urlImage == card.imageUrl && JumpInfos.CompareTo(card.jumpTo, data.jumpTo) == 0
  }

  /** The new list needs no update: the current list is non-empty, as long as the
      new one, and every position compares equal. */
  predicate SameData(cards: seq<Card>, list: seq<CardInfos.CardInfo>)
    ensures SameData(cards, list) ==> |list| > 0 && |cards| == |list| && forall i :: 0 <= i < |list| ==>
      cards[i].imageUrl == list[i].urlImage && cards[i].jumpTo.url == list[i].jumpTo.url
      && cards[i].jumpTo.action == list[i].jumpTo.action
  {
    |cards| > 0 && |cards| == |list| && forall i :: 0 <= i < |list| ==> Compare(cards[i], list[i])
  }

  /** The needUpdate computation of onDataLoaded. */
  method NeedUpdate(cards: seq<Card>, list: seq<CardInfos.CardInfo>) returns (needUpdate: bool)
    ensures needUpdate <==> !SameData(cards, list)
  {
    needUpdate := false;
    if |cards| == 0 {
      needUpdate := true;
    } else if |cards| != |list| {
      needUpdate := true;
    } else {
      var i := 0;
      while i < |cards|
        invariant 0 <= i <= |cards|
        invariant forall k :: 0 <= k < i ==> Compare(cards[k], list[k])
      {
        if !Compare(cards[i], list[i]) {
          needUpdate := true;
          break;
        }
        i := i + 1;
      }
    }
  }

  /** A list built from some data is the same data as any list that agrees with it
      on image urls and jump targets, whatever the weights: loading it again does
      not rebuild the cards. */
  lemma {:induction false} RebuiltListIsStable(list: seq<CardInfos.CardInfo>, again: seq<CardInfos.CardInfo>)
    requires |list| > 0 && |again| == |list|
    requires forall i :: 0 <= i < |list| ==>
      again[i].urlImage == list[i].urlImage && JumpInfos.CompareTo(again[i].jumpTo, list[i].jumpTo) == 0
    ensures SameData(CardsFrom(list, 0), again)
  {
    var cards := CardsFrom(list, 0);
    forall i | 0 <= i < |again|
      ensures Compare(cards[i], again[i])
    {
      assert cards[i] == NewCard(list[i], i);
    }
  }

  /** Weights never decide needUpdate. */
  lemma SameDataIgnoresWeights(cards: seq<Card>, list: seq<CardInfos.CardInfo>, weights: seq<int>)
    requires |weights| == |list|
    ensures SameData(cards, list)
        <==> SameData(cards, seq(|list|, i requires 0 <= i < |list| => list[i].(weight := weights[i])))
  {
  }

  /** Card i passes the centred test (getOffset uses the card's own cardIndex and the
      size `count` of the whole list). */
  predicate Centred(card: Card, count: int, offset: int, width: nat) {
    IsCentred(CardOffset(offset, width, count, card.cardIndex), width)
  }

  /** The card a forEach scan over `cards` ends up acting on: the last centred one. */
  function CentredIn(cards: seq<Card>, count: int, offset: int, width: nat): (r: Option<nat>)
    ensures r.Some? ==> r.value < |cards| && Centred(cards[r.value], count, offset, width)
    ensures r.Some? ==> forall j :: r.value < j < |cards| ==> !Centred(cards[j], count, offset, width)
    ensures r.None? ==> forall j :: 0 <= j < |cards| ==> !Centred(cards[j], count, offset, width)
    decreases |cards|
  {
    if cards == [] then None
    else if Centred(cards[|cards| - 1], count, offset, width) then Some(|cards| - 1)
    else CentredIn(cards[..|cards| - 1], count, offset, width)
  }

  /** In a list whose cards carry their own positions as cardIndex, the scan finds
      exactly the centred card: at most one card is centred. */
  lemma CentredInIsTheCentredCard(cards: seq<Card>, offset: int, width: nat, k: int)
    requires |cards| >= 2 && 0 <= k < |cards|
    requires forall i :: 0 <= i < |cards| ==> cards[i].cardIndex == i
    ensures Centred(cards[k], |cards|, offset, width) <==> CentredIn(cards, |cards|, offset, width) == Some(k)
  {
    var r := CentredIn(cards, |cards|, offset, width);
    if Centred(cards[k], |cards|, offset, width) && r.Some? {
      AtMostOneCentred(offset, width, |cards|, k, r.value);
    }
  }

  /** The forEach scans of onTouchEvent and tick: every card whose getOffset passes
      the centred test is acted on, so the last such card is the one that counts. */
  method ScanCentred(cards: seq<Card>, offset: int, width: nat) returns (found: Option<nat>)
    ensures found == CentredIn(cards, |cards|, offset, width)
  {
    found := None;
    for i := 0 to |cards|
      invariant found == CentredIn(cards[..i], |cards|, offset, width)
    {
      assert cards[..i + 1][..i] == cards[..i];
      if Centred(cards[i], |cards|, offset, width) {
        found := Some(i);
      }
    }
    assert cards[..|cards|] == cards;
  }

  function AbsReal(r: real): real {
    if r < 0.0 then -r else r
  }

  /** A started animator, as `setIntValues(from, to); duration = d; start()` leaves it. */
  function Started(from: int, to: int, duration: int): Animator {
    Animator(true, from, to, duration)
  }

  /** ACTION_UP in onTouchEvent. A press held longer than MAX_TOUCH_TIME re-centres
      the centred card; otherwise a travel beyond SWIPE_SLOP pages one width in the
      direction of the drag; otherwise it is a tap, which re-centres the centred card
      and reports it to the click callback (with one card, that card, without
      animation). The explicit SLIPPING of the hold and tap branches is set even when
      no card is centred. */
  function ReleaseOf(cards: seq<Card>, offset: int, width: nat, state: State, animator: Animator,
                     touchStartX: real, touchTime: int, x: real, now: int): (r: Release)
    ensures r.state == state || r.state == Slipping
    ensures r.animator == animator
         || (r.animator.running && r.animator.from == offset && r.animator.duration == SNAP_DURATION)
    ensures |cards| <= 1 ==> r.state == state && r.animator == animator
    ensures r.click.Some? ==> exists k :: 0 <= k < |cards| && r.click == Some(cards[k].jumpTo)
  {
    var n := |cards|;
    var sc := CentredIn(cards, n, offset, width);
    var c := if sc.Some? then CardOffset(offset, width, n, cards[sc.value].cardIndex) else 0;
    if now - touchTime > MAX_TOUCH_TIME then
      if n > 1 then
        Release(Slipping, if sc.Some? then Started(offset, offset - c, SNAP_DURATION) else animator, None)
      else
        Release(state, animator, None)
    else if AbsReal(touchStartX - x) > SWIPE_SLOP then
      if n > 1 && sc.Some? then
        var target := if touchStartX > x then offset - (width + c) else offset - (c - width);
        Release(Slipping, Started(offset, target, SNAP_DURATION), None)
      else
        Release(state, animator, None)
    else
      var selected := if n == 1 then 0 else if n > 1 && sc.Some? then cards[sc.value].cardIndex else -1;
      var click := if 0 <= selected < n then Some(cards[selected].jumpTo) else None;
      if n > 1 then
        Release(Slipping, if sc.Some? then Started(offset, offset - c, SNAP_DURATION) else animator, click)
      else
        Release(state, animator, click)
  }

  /** The click callback fires only for a tap (at most MAX_TOUCH_TIME and at most
      SWIPE_SLOP of travel); it reports card 0 when there is one card and otherwise
      the card centred at release time. */
  lemma ClickOnlyOnTap(cards: seq<Card>, offset: int, width: nat, state: State, animator: Animator,
                       touchStartX: real, touchTime: int, x: real, now: int)
    requires |cards| >= 1
    requires forall i :: 0 <= i < |cards| ==> cards[i].cardIndex == i
    ensures var r := ReleaseOf(cards, offset, width, state, animator, touchStartX, touchTime, x, now);
      var tap := now - touchTime <= MAX_TOUCH_TIME && AbsReal(touchStartX - x) <= SWIPE_SLOP;
      && (r.click.Some? ==> tap)
      && (tap && |cards| == 1 ==> r.click == Some(cards[0].jumpTo))
      && (tap && |cards| > 1 ==> forall k :: 0 <= k < |cards| && Centred(cards[k], |cards|, offset, width)
                                   ==> r.click == Some(cards[k].jumpTo))
      && (tap && |cards| > 1 && (forall k :: 0 <= k < |cards| ==> !Centred(cards[k], |cards|, offset, width))
          ==> r.click == None)
  {
    if |cards| > 1 {
      forall k | 0 <= k < |cards| && Centred(cards[k], |cards|, offset, width)
        ensures CentredIn(cards, |cards|, offset, width) == Some(k)
      {
        CentredInIsTheCentredCard(cards, offset, width, k);
      }
    }
  }

  /** A release with several cards and no centred card (possible with an odd width,
      see OddWidthCanLeaveNoCardCentred) starts no animation and reports no click.
      Hold and tap still switch to SLIPPING, a swipe leaves the state as it was; with
      no animation to end, nothing brings SLIPPING back to WAITING, so tick's
      auto-advance, which needs WAITING, stays off until the next touch. */
  lemma ReleaseWithoutCentredCard(cards: seq<Card>, offset: int, width: nat, state: State, animator: Animator,
                                  touchStartX: real, touchTime: int, x: real, now: int)
    requires |cards| >= 2
    requires forall k :: 0 <= k < |cards| ==> !Centred(cards[k], |cards|, offset, width)
    ensures var r := ReleaseOf(cards, offset, width, state, animator, touchStartX, touchTime, x, now);
      var swipe := now - touchTime <= MAX_TOUCH_TIME && AbsReal(touchStartX - x) > SWIPE_SLOP;
      && r.animator == animator && r.click == None
      && (!swipe ==> r.state == Slipping)
      && (swipe ==> r.state == state)
  {
    assert CentredIn(cards, |cards|, offset, width) == None;
  }

  /** The animator targets of a release with several cards and a centred card at
      offset c: hold and tap aim at offset - c, a left swipe at offset - (width + c),
      a right swipe at offset - (c - width); every one starts from the current offset
      and lasts SNAP_DURATION. */
  lemma ReleaseTargets(cards: seq<Card>, offset: int, width: nat, state: State, animator: Animator,
                       touchStartX: real, touchTime: int, x: real, now: int, k: int)
    requires |cards| >= 2 && 0 <= k < |cards|
    requires forall i :: 0 <= i < |cards| ==> cards[i].cardIndex == i
    requires Centred(cards[k], |cards|, offset, width)
    ensures var r := ReleaseOf(cards, offset, width, state, animator, touchStartX, touchTime, x, now);
      var c := CardOffset(offset, width, |cards|, k);
      var swipe := now - touchTime <= MAX_TOUCH_TIME && AbsReal(touchStartX - x) > SWIPE_SLOP;
      && r.state == Slipping && r.animator.running
      && r.animator.from == offset && r.animator.duration == SNAP_DURATION
      && (!swipe ==> r.animator.to == offset - c)
      && (swipe && touchStartX > x ==> r.animator.to == offset - (width + c))
      && (swipe && touchStartX <= x ==> r.animator.to == offset - (c - width))
  {
    CentredInIsTheCentredCard(cards, offset, width, k);
  }

  /** Moving the offset to offset - c for the centred card's offset c puts that card
      exactly at 0, the centre of the viewport. */
  lemma SnapCentresCard(offset: int, width: nat, count: int, k: int)
    requires count >= 2 && width > 0 && 0 <= k < count
    ensures CardOffset(offset - CardOffset(offset, width, count, k), width, count, k) == 0
  {
    var a := WrapOf(offset, width, count, k);
    var c := CardOffset(offset, width, count, k);
    var nw := count * width;
    assert (count - 1) * width == nw - width;
    assert offset - c + width * k == -(a * nw);
    if a == 1 {
      assert offset - c + width * k == -nw;
    } else if a == -1 {
      assert offset - c + width * k == nw;
    }
  }

  /** The card after k in the ring, and the card before it. */
  function NextCard(k: int, count: int): int {
    if k + 1 < count then k + 1 else 0
  }

  function PreviousCard(k: int, count: int): int {
    if k > 0 then k - 1 else count - 1
  }

  /** Where a release sends the ring, up to whole turns (which tick's normalisation
      removes): with card k at offset c, offset - c brings card k to the centre, a
      left swipe's offset - (width + c) brings the next card there, and a right
      swipe's offset - (c - width) the previous one. */
  lemma {:induction false} PageTargetsAlignNeighbour(offset: int, width: nat, count: int, k: int)
    requires count >= 2 && width > 0 && 0 <= k < count
    ensures var c := CardOffset(offset, width, count, k);
      && (offset - c + width * k) % (count * width) == 0
      && (offset - (width + c) + width * NextCard(k, count)) % (count * width) == 0
      && (offset - (c - width) + width * PreviousCard(k, count)) % (count * width) == 0
  {
    var a := WrapOf(offset, width, count, k);
    var c := CardOffset(offset, width, count, k);
    var nw := count * width;
    assert offset - c + width * k == (-a) * nw;
    MultipleModZero(-a, nw);
    if k + 1 < count {
      assert offset - (width + c) + width * (k + 1) == (-a) * nw;
    } else {
      assert offset - (width + c) + width * 0 == (-a - 1) * nw;
      MultipleModZero(-a - 1, nw);
    }
    if k > 0 {
      assert offset - (c - width) + width * (k - 1) == (-a) * nw;
    } else {
      assert offset - (c - width) + width * (count - 1) == (1 - a) * nw;
      MultipleModZero(1 - a, nw);
    }
  }

  /** The carousel widget: its state, its cards, the shared horizontal offset, the
      touch bookkeeping, the auto-loop clock and the animator it drives. */
  class Banner {
    const width: nat
    var autoLoop: bool
    var loopInterval: int
    var state: State
    var cards: seq<Card>
    var offset: int
    var visible: bool
    var touchStartX: real
    var touchLastX: real
    var touchTime: int
    var autoLoopStartTime: int
    var animator: Animator
    /** auto-advance animations tick has posted to the main thread and not yet run */
    var pendingAdvances: nat

    /** Every card carries its position as cardIndex, and initialisation is over. */
    ghost predicate Valid()
      reads this
    {
      && state != NotInit
      && forall i :: 0 <= i < |cards| ==> cards[i].cardIndex == i
    }

    /** isRunning: the cards are on display and accept gestures. */
    predicate IsRunning()
      reads this
      ensures IsRunning() ==> state != NotInit && state != Initialized && state != Loading
                              && state != Loaded && state != Error
    {
      state == Waiting || state == Touching || state == Slipping
    }

    /** The constructors' init(): configuration applied, no cards yet, INITIALIZED. */
    constructor (width: nat, autoLoop: bool, loopInterval: int)
      ensures Valid()
      ensures this.width == width && this.autoLoop == autoLoop && this.loopInterval == loopInterval
      ensures state == Initialized && cards == [] && offset == 0 && visible
      ensures !animator.running && pendingAdvances == 0
    {
      this.width := width;
      this.autoLoop := autoLoop;
      this.loopInterval := loopInterval;
      state := Initialized;
      cards := [];
      offset := 0;
      visible := true;
      touchStartX, touchLastX, touchTime := 0.0, 0.0, 0;
      autoLoopStartTime := 0;
      animator := Animator(false, 0, 0, 0);
      pendingAdvances := 0;
    }

    /** init() with the attribute defaults: auto-loop off and DEFAULT_LOOP_INTERVAL. */
    constructor WithDefaults(width: nat)
      ensures Valid()
      ensures this.width == width && !autoLoop && loopInterval == DEFAULT_LOOP_INTERVAL
      ensures state == Initialized && cards == [] && offset == 0 && visible
      ensures !animator.running && pendingAdvances == 0
    {
      this.width := width;
      autoLoop := false;
      loopInterval := DEFAULT_LOOP_INTERVAL;
      state := Initialized;
      cards := [];
      offset := 0;
      visible := true;
      touchStartX, touchLastX, touchTime := 0.0, 0.0, 0;
      autoLoopStartTime := 0;
      animator := Animator(false, 0, 0, 0);
      pendingAdvances := 0;
    }

    /** animator.start(): the start listener switches to SLIPPING. */
    method StartAnimator(from: int, to: int, duration: int)
      modifies this`animator, this`state
      ensures animator == Started(from, to, duration) && state == Slipping
    {
      animator := Started(from, to, duration);
      state := Slipping;
    }

    /** The animator's update listener: the offset follows the animated value, which
        lies between the start and end values. */
    method OnAnimationUpdate(value: int)
      requires Valid() && animator.running
      requires animator.from <= value <= animator.to || animator.to <= value <= animator.from
      modifies this`offset
      ensures Valid() && offset == value
    {
      offset := value;
    }

    /** The animation runs to its end: the last update sets the end value, then the
        end listener switches to WAITING and restarts the auto-loop clock. */
    method OnAnimationEnd(now: int)
      requires Valid() && animator.running
      modifies this`offset, this`animator, this`state, this`autoLoopStartTime
      ensures Valid()
      ensures offset == old(animator.to) && animator == old(animator).(running := false)
      ensures state == Waiting && autoLoopStartTime == now
    {
      offset := animator.to;
      animator := animator.(running := false);
      state := Waiting;
      autoLoopStartTime := now;
    }

    /** startAnimation: only LOADED moves, to WAITING, and starts the auto-loop clock. */
    method StartAnimation(now: int)
      requires Valid()
      modifies this`state, this`autoLoopStartTime
      ensures Valid()
      ensures old(state) == Loaded ==> state == Waiting && autoLoopStartTime == now
      ensures old(state) != Loaded ==> state == old(state) && autoLoopStartTime == old(autoLoopStartTime)
    {
      if state == Loaded {
        state := Waiting;
        autoLoopStartTime := now;
      }
    }

    /** cancelAnimation: from a running state, a running animator is cancelled (its
        cancel and end listeners set WAITING and restart the clock) and the state
        ends as LOADED; otherwise nothing happens. */
    method CancelAnimation(now: int)
      requires Valid()
      modifies this`state, this`animator, this`autoLoopStartTime
      ensures Valid()
      ensures old(IsRunning()) ==> state == Loaded && animator == old(animator).(running := false)
      ensures old(IsRunning()) && old(animator.running) ==> autoLoopStartTime == now
      ensures !(old(IsRunning()) && old(animator.running)) ==> autoLoopStartTime == old(autoLoopStartTime)
      ensures !old(IsRunning()) ==> state == old(state) && animator == old(animator)
    {
      if IsRunning() {
        if animator.running {
          animator := animator.(running := false);
          state := Waiting;
          autoLoopStartTime := now;
        }
        state := Loaded;
      }
    }

    /** refreshData. From a state that shows cards or an error: zero the offset, drop
        the cards, cancel the animation, go to LOADING and queue the online load.
        From INITIALIZED: go to LOADING and queue the offline then the online load.
        From NOT_INIT or LOADING: ignored. */
    method RefreshData(now: int) returns (job: LoadJob)
      requires Valid()
      modifies this`offset, this`cards, this`state, this`animator, this`autoLoopStartTime
      ensures Valid()
      ensures old(state) in {Waiting, Slipping, Touching, Loaded, Error} ==>
        && state == Loading && offset == 0 && cards == [] && job == LoadOnline
        && (old(IsRunning()) ==> animator == old(animator).(running := false))
        && (!old(IsRunning()) ==> animator == old(animator))
        && (old(IsRunning()) && old(animator.running) ==> autoLoopStartTime == now)
        && (!(old(IsRunning()) && old(animator.running)) ==> autoLoopStartTime == old(autoLoopStartTime))
      ensures old(state) == Initialized ==>
        && state == Loading && job == LoadOfflineThenOnline
        && unchanged(this`cards, this`offset, this`animator, this`autoLoopStartTime)
      ensures old(state) in {NotInit, Loading} ==> job == NoJob && unchanged(this)
    {
      match state {
        case Waiting | Slipping | Touching | Loaded | Error =>
          offset := 0;
          cards := [];
          CancelAnimation(now);
          state := Loading;
          job := LoadOnline;
        case Initialized =>
          state := Loading;
          job := LoadOfflineThenOnline;
        case NotInit | Loading =>
          job := NoJob;
      }
    }

    /** loadOffline, run by the pool after a refresh from INITIALIZED: non-empty
        offline data is appended as cards numbered on from the current list, and the
        banner goes LOADED and then, through startAnimation, WAITING. */
    method LoadOffline(data: seq<CardInfos.CardInfo>, now: int)
      requires Valid()
      modifies this`cards, this`state, this`autoLoopStartTime
      ensures Valid()
      ensures |data| > 0 ==> cards == old(cards) + CardsFrom(data, |old(cards)|)
                             && state == Waiting && autoLoopStartTime == now
      ensures |data| == 0 ==> unchanged(this)
    {
      if |data| > 0 {
        ghost var before := cards;
        for k := 0 to |data|
          invariant cards == before + CardsFrom(data[..k], |before|)
          invariant forall i :: 0 <= i < |cards| ==> cards[i].cardIndex == i
          modifies this`cards
        {
          assert CardsFrom(data[..k + 1], |before|) == CardsFrom(data[..k], |before|) + [NewCard(data[k], |before| + k)];
          cards := cards + [NewCard(data[k], |cards|)];
        }
        assert data[..|data|] == data;
        state := Loaded;
        StartAnimation(now);
      }
    }

    /** onDataLoaded (with its pool body run in place). An empty list clears the
        cards, hides the widget and leaves it LOADED. Otherwise the widget is shown;
        data that is the same as the cards on display is dropped; different data
        replaces the cards with new ones numbered 0, 1, ..., zeroes the offset and
        goes LOADED and then WAITING. */
    method OnDataLoaded(list: seq<CardInfos.CardInfo>, now: int)
      requires Valid()
      modifies this`offset, this`cards, this`visible, this`state, this`autoLoopStartTime
      ensures Valid()
      ensures |list| == 0 ==>
        && offset == 0 && cards == [] && !visible && state == Loaded
        && autoLoopStartTime == old(autoLoopStartTime)
      ensures |list| > 0 && SameData(old(cards), list) ==>
        visible && unchanged(this`offset, this`cards, this`state, this`autoLoopStartTime)
      ensures |list| > 0 && !SameData(old(cards), list) ==>
        && visible && offset == 0 && cards == CardsFrom(list, 0)
        && state == Waiting && autoLoopStartTime == now
    {
      if |list| == 0 {
        offset := 0;
        cards := [];
        visible := false;
        state := Loaded;
        return;
      }
      visible := true;
      var needUpdate := NeedUpdate(cards, list);
      if !needUpdate {
        return;
      }
      offset := 0;
      cards := [];
      for k := 0 to |list|
        invariant cards == CardsFrom(list[..k], 0)
        modifies this`cards
      {
        assert CardsFrom(list[..k + 1], 0) == CardsFrom(list[..k], 0) + [NewCard(list[k], k)];
        cards := cards + [NewCard(list[k], |cards|)];
      }
      assert list[..|list|] == list;
      state := Loaded;
      StartAnimation(now);
    }

    /** onLoadFailed: only LOADING reacts, always moving to ERROR, and the widget is
        hidden when no cards are on display. */
    method OnLoadFailed(error: int, message: string)
      requires Valid()
      modifies this`visible, this`state
      ensures Valid()
      ensures old(state) == Loading ==>
        state == Error && (|cards| == 0 ==> !visible) && (|cards| > 0 ==> visible == old(visible))
      ensures old(state) != Loading ==> unchanged(this)
    {
      if state == Loading {
        if |cards| == 0 {
          visible := false;
        }
        state := Error;
      }
    }

    /** onTouchEvent, with the event's x coordinate and the clock passed in. Events
        are refused (false, nothing changes) unless the banner is running with at
        least one card. Down starts a touch; Move drags the offset by the truncated
        travel when there are several cards; Up is interpreted by ReleaseOf. */
    method OnTouchEvent(action: TouchAction, x: real, now: int) returns (handled: bool, click: Option<JumpInfos.JumpInfo>)
      requires Valid()
      modifies this`state, this`touchTime, this`touchStartX, this`touchLastX, this`offset, this`animator
      ensures Valid()
      ensures handled <==> old(IsRunning()) && |cards| >= 1
      ensures !handled ==> click == None && unchanged(this)
      ensures handled && action == Down ==>
        && click == None && state == Touching && touchTime == now && touchStartX == x && touchLastX == x
        && unchanged(this`offset, this`animator)
      ensures handled && action == Move && |cards| > 1 ==>
        && click == None && offset == old(offset) + TruncateToInt(x - old(touchLastX)) && touchLastX == x
        && unchanged(this`state, this`touchTime, this`touchStartX, this`animator)
      ensures handled && action == Move && |cards| == 1 ==> click == None && unchanged(this)
      ensures handled && action == Up ==>
        && Release(state, animator, click)
           == ReleaseOf(cards, offset, width, old(state), old(animator), touchStartX, touchTime, x, now)
        && unchanged(this`offset, this`touchTime, this`touchStartX, this`touchLastX)
      ensures handled && action == OtherAction ==> click == None && unchanged(this)
    {
      click := None;
      if !IsRunning() {
        return false, None;
      }
      if |cards| < 1 {
        return false, None;
      }
      match action {
        case Down =>
          state := Touching;
          touchTime := now;
          touchStartX := x;
          touchLastX := touchStartX;
        case Move =>
          if |cards| > 1 {
            var offsetX := x - touchLastX;
            touchLastX := x;
            offset := offset + TruncateToInt(offsetX);
          }
        case Up =>
          click := OnRelease(x, now);
        case OtherAction =>
      }
      handled := true;
    }

    /** The ACTION_UP branch of onTouchEvent, scanning the cards as its forEach loops
        do. */
    method OnRelease(x: real, now: int) returns (click: Option<JumpInfos.JumpInfo>)
      requires Valid() && |cards| >= 1
      modifies this`state, this`animator
      ensures Valid()
      ensures Release(state, animator, click)
              == ReleaseOf(cards, offset, width, old(state), old(animator), touchStartX, touchTime, x, now)
    {
      var n := |cards|;
      var selectedCardIndex := if n == 1 then 0 else -1;
      var interval := now - touchTime;
      click := None;
      if interval > MAX_TOUCH_TIME {
        if n > 1 {
          state := Slipping;
          var found := ScanCentred(cards, offset, width);
          if found.Some? {
            var card := cards[found.value];
            selectedCardIndex := card.cardIndex;
            var cardOffset := CardOffset(offset, width, n, card.cardIndex);
            StartAnimator(offset, offset - cardOffset, SNAP_DURATION);
          }
        }
      } else {
        var distance := AbsReal(touchStartX - x);
        if distance > SWIPE_SLOP {
          if n > 1 {
            var found := ScanCentred(cards, offset, width);
            if found.Some? {
              var cardOffset := CardOffset(offset, width, n, cards[found.value].cardIndex);
              if touchStartX > x {
                StartAnimator(offset, offset - (width + cardOffset), SNAP_DURATION);
              } else {
                StartAnimator(offset, offset - (cardOffset - width), SNAP_DURATION);
              }
            }
          }
        } else {
          if n > 1 {
            state := Slipping;
            var found := ScanCentred(cards, offset, width);
            if found.Some? {
              var card := cards[found.value];
              selectedCardIndex := card.cardIndex;
              var cardOffset := CardOffset(offset, width, n, card.cardIndex);
              StartAnimator(offset, offset - cardOffset, SNAP_DURATION);
            }
          }
          if 0 <= selectedCardIndex < n {
            click := Some(cards[selectedCardIndex].jumpTo);
          }
        }
      }
    }

    /** tick, the render thread's per-frame step. When the banner runs with several
        cards and a positive width: in WAITING with auto-loop on, a positive interval
        and more idle time than the interval, the clock restarts and, if a card is
        centred, the state goes SLIPPING and one auto-advance is posted; then an
        offset outside [-(n-1)*width, (n-1)*width] is reduced by Kotlin's `%`.
        Afterwards every card offset lies in that range and, for an even width, some
        card is centred. */
    method Tick(now: int)
      requires Valid()
      modifies this`state, this`autoLoopStartTime, this`pendingAdvances, this`offset
      ensures Valid()
      ensures !(old(IsRunning()) && |cards| > 1 && width > 0) ==> unchanged(this)
      ensures old(IsRunning()) && |cards| > 1 && width > 0 ==>
        var fires := autoLoop && loopInterval > 0 && old(state) == Waiting
                     && now - old(autoLoopStartTime) > loopInterval;
        var found := CentredIn(cards, |cards|, old(offset), width);
        && offset == Normalized(old(offset), width, |cards|)
        && (fires ==> autoLoopStartTime == now)
        && (fires && found.Some? ==> state == Slipping && pendingAdvances == old(pendingAdvances) + 1)
        && (!(fires && found.Some?) ==> state == old(state) && pendingAdvances == old(pendingAdvances))
        && (!fires ==> autoLoopStartTime == old(autoLoopStartTime))
        && (forall j :: 0 <= j < |cards| ==>
              -((|cards| - 1) * width) <= CardOffset(offset, width, |cards|, j) <= (|cards| - 1) * width)
        && (width % 2 == 0 ==> CentredIn(cards, |cards|, offset, width).Some?)
    {
      if IsRunning() && |cards| > 1 && width > 0 {
        AutoAdvance(now);
        FoldOffset();
      }
    }

    /** The auto-loop part of tick, for a running banner with several cards. */
    method AutoAdvance(now: int)
      requires Valid() && |cards| > 1
      modifies this`state, this`autoLoopStartTime, this`pendingAdvances
      ensures Valid()
      ensures var fires := autoLoop && loopInterval > 0 && old(state) == Waiting
                           && now - old(autoLoopStartTime) > loopInterval;
        var found := CentredIn(cards, |cards|, offset, width);
        && (fires ==> autoLoopStartTime == now)
        && (fires && found.Some? ==> state == Slipping && pendingAdvances == old(pendingAdvances) + 1)
        && (!(fires && found.Some?) ==> state == old(state) && pendingAdvances == old(pendingAdvances))
        && (!fires ==> autoLoopStartTime == old(autoLoopStartTime))
    {
      if autoLoop && loopInterval > 0 && state == Waiting {
        var interval := now - autoLoopStartTime;
        if interval > loopInterval {
          autoLoopStartTime := now;
          var found := ScanCentred(cards, offset, width);
          if found.Some? {
            state := Slipping;
            pendingAdvances := pendingAdvances + 1;
          }
        }
      }
    }

    /** The normalisation at the end of tick: afterwards every card offset lies in
        [-(n-1)*width, (n-1)*width] and, for an even width, some card is centred. */
    method FoldOffset()
      requires Valid() && |cards| > 1 && width > 0
      modifies this`offset
      ensures Valid()
      ensures offset == Normalized(old(offset), width, |cards|)
      ensures forall j :: 0 <= j < |cards| ==>
        -((|cards| - 1) * width) <= CardOffset(offset, width, |cards|, j) <= (|cards| - 1) * width
      ensures width % 2 == 0 ==> CentredIn(cards, |cards|, offset, width).Some?
    {
      var range := (|cards| - 1) * width;
      if offset < -range || offset > range {
        offset := TruncRem(offset, |cards| * width);
      }
      forall j | 0 <= j < |cards|
        ensures -((|cards| - 1) * width) <= CardOffset(offset, width, |cards|, j) <= (|cards| - 1) * width
      {
        NormalizedCardOffsetInRange(offset, width, |cards|, j);
      }
      if width % 2 == 0 {
        var k := SomeCardCentred(offset, width, |cards|);
        assert Centred(cards[k], |cards|, offset, width);
      }
    }

    /** The auto-advance tick posted: page one width to the left over
        AUTO_ADVANCE_DURATION, starting from the offset at the time it runs. */
    method RunPendingAdvance()
      requires Valid() && pendingAdvances > 0
      modifies this`pendingAdvances, this`animator, this`state
      ensures Valid()
      ensures pendingAdvances == old(pendingAdvances) - 1
      ensures animator == Started(offset, offset - width, AUTO_ADVANCE_DURATION) && state == Slipping
    {
      pendingAdvances := pendingAdvances - 1;
      StartAnimator(offset, offset - width, AUTO_ADVANCE_DURATION);
    }
  }
}

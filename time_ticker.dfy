/** The per-tick update of the time state (useTimeState.ts): every 100 ms
    the previous state and the new `now` give the next state, in which
    running animations advance one frame, finished ones disappear, a
    calendar field that changed starts a fresh animation for its bar, and
    the seconds bar flashes for one tick when the second changed. */
module TimeTicker {
  import opened JsText
  import opened Calendar
  import opened LifeMonitor

  datatype AnimationType = Grow | Shrink

  datatype AnimationInfo = AnimationInfo(kind: AnimationType, frame: int)

  /** `animationState` maps a bar name to an entry or to null. */
  datatype TimeState = TimeState(
    now: Instant,
    animationState: map<string, Option<AnimationInfo>>,
    flashState: map<string, bool>)

  const AnimationFrames := 5

  /** The bars whose animation a calendar change starts, in the order the
      source lists them. */
  const ChangeKeys: seq<string> := ["HOUR", "DAY", "MONTH", "YEAR", "LIFE"]

  /** Whether the field a bar watches differs between two instants: the
      minute for HOUR, the hour for DAY, the day of month for MONTH, the
      month for YEAR, and the year for LIFE, the last only when a birth
      date is stored. */
  predicate Changed(key: string, now: Instant, prevNow: Instant, birthDate: Option<Date>) {
    if key == "HOUR" then now.minutes != prevNow.minutes
    else if key == "DAY" then now.hours != prevNow.hours
    else if key == "MONTH" then now.date != prevNow.date
    else if key == "YEAR" then now.month != prevNow.month
    else if key == "LIFE" then birthDate.Some? && now.year != prevNow.year
    else false
  }

  /** An entry survives the tick when it is not null and has frames left. */
  predicate Running(a: Option<AnimationInfo>) {
    a.Some? && a.value.frame < AnimationFrames
  }

  function NextFrame(a: Option<AnimationInfo>): Option<AnimationInfo>
    requires a.Some?
  {
    Some(a.value.(frame := a.value.frame + 1))
  }

  function KindFor(perspective: Perspective): AnimationType {
    if perspective == Elapsed then Grow else Shrink
  }

  predicate Fresh(key: string, now: Instant, prevNow: Instant, birthDate: Option<Date>) {
    key in ChangeKeys && Changed(key, now, prevNow, birthDate)
  }

  /** Step 1 of the tick: running entries advance one frame, the others
      (null or finished) are cleared. */
  function Advanced(prev: map<string, Option<AnimationInfo>>): map<string, Option<AnimationInfo>> {
    map k | k in prev && Running(prev[k]) :: NextFrame(prev[k])
  }

  /** Step 2 of the tick: for each key of `keys` in turn, a changed field
      sets a fresh entry at frame 1, replacing whatever was there. */
  function Started(m: map<string, Option<AnimationInfo>>, keys: seq<string>, now: Instant, prevNow: Instant,
                   birthDate: Option<Date>, kind: AnimationType): map<string, Option<AnimationInfo>>
    decreases |keys|
  {
    if keys == [] then m
    else
      var before := Started(m, keys[..|keys| - 1], now, prevNow, birthDate, kind);
      var key := keys[|keys| - 1];
      if Changed(key, now, prevNow, birthDate) then before[key := Some(AnimationInfo(kind, 1))] else before
  }

  /** The animation map of the next tick. */
  function NextAnimations(prev: map<string, Option<AnimationInfo>>, now: Instant, prevNow: Instant,
                          birthDate: Option<Date>, perspective: Perspective): map<string, Option<AnimationInfo>>
  {
    Started(Advanced(prev), ChangeKeys, now, prevNow, birthDate, KindFor(perspective))
  }

  /** The state the interval callback returns: it carries the new instant,
      keeps only entries that were running or whose field just changed, and
      flashes the seconds bar exactly when the second changed. */
  function NextTimeState(prev: TimeState, now: Instant, birthDate: Option<Date>, perspective: Perspective): (r: TimeState)
    ensures r.now == now
    ensures forall k :: k in r.animationState ==>
      (k in prev.animationState && Running(prev.animationState[k])) || Fresh(k, now, prev.now, birthDate)
    ensures forall k :: k in r.animationState ==> r.animationState[k].Some?
    ensures r.flashState.Keys == {"MINUTE"} && (r.flashState["MINUTE"] <==> now.seconds != prev.now.seconds)
  {
    NextKeys(prev.animationState, now, prev.now, birthDate, perspective);
    TimeState(now,
      NextAnimations(prev.animationState, now, prev.now, birthDate, perspective),
      map["MINUTE" := now.seconds != prev.now.seconds])
  }

  /** The body of the interval callback: a fresh map filled by one loop
      over the previous entries and one over the calendar changes. */
  method Tick(prev: TimeState, now: Instant, birthDate: Option<Date>, perspective: Perspective)
    returns (next: TimeState)
    ensures next == NextTimeState(prev, now, birthDate, perspective)
  {
    var prevNow := prev.now;
    var newAnimationState: map<string, Option<AnimationInfo>> := map[];

    // Running entries move on a frame; null and finished ones are dropped.
    var pending := prev.animationState.Keys;
    while pending != {}
      invariant pending <= prev.animationState.Keys
      invariant forall k :: k in newAnimationState <==>
        k in prev.animationState && k !in pending && Running(prev.animationState[k])
      invariant forall k :: k in newAnimationState ==> newAnimationState[k] == NextFrame(prev.animationState[k])
      decreases pending
    {
      var key :| key in pending;
      var anim := prev.animationState[key];
      if anim.Some? && anim.value.frame < AnimationFrames {
        newAnimationState := newAnimationState[key := Some(anim.value.(frame := anim.value.frame + 1))];
      }
      pending := pending - {key};
    }
    assert newAnimationState == Advanced(prev.animationState);

    // Each watched field that changed restarts its bar at frame 1.
    var animationType := if perspective == Elapsed then Grow else Shrink;
    var i := 0;
    while i < |ChangeKeys|
      invariant 0 <= i <= |ChangeKeys|
      invariant newAnimationState == Started(Advanced(prev.animationState), ChangeKeys[..i], now, prevNow, birthDate, animationType)
    {
      var key := ChangeKeys[i];
      assert ChangeKeys[..i + 1][..i] == ChangeKeys[..i];
      if Changed(key, now, prevNow, birthDate) {
        newAnimationState := newAnimationState[key := Some(AnimationInfo(animationType, 1))];
      }
      i := i + 1;
    }
    assert ChangeKeys[..i] == ChangeKeys;

    next := TimeState(now, newAnimationState, map["MINUTE" := now.seconds != prevNow.seconds]);
  }

  /** Started, key by key: a key is present when it was already present or
      it is one of `keys` whose field changed, and the latter get the fresh
      entry. */
  lemma {:induction false} StartedAt(m: map<string, Option<AnimationInfo>>, keys: seq<string>, now: Instant, prevNow: Instant,
                                     birthDate: Option<Date>, kind: AnimationType, k: string)
    ensures var r := Started(m, keys, now, prevNow, birthDate, kind);
      && (k in r <==> k in m || (k in keys && Changed(k, now, prevNow, birthDate)))
      && (k in r ==> r[k] == if k in keys && Changed(k, now, prevNow, birthDate) then Some(AnimationInfo(kind, 1)) else m[k])
    decreases |keys|
  {
    if keys != [] {
      var init := keys[..|keys| - 1];
      StartedAt(m, init, now, prevNow, birthDate, kind, k);
      assert k in keys <==> k in init || k == keys[|keys| - 1] by {
        assert keys == init + [keys[|keys| - 1]];
      }
    }
  }

  /** The next animation map, key by key. */
  lemma NextAt(prev: map<string, Option<AnimationInfo>>, now: Instant, prevNow: Instant,
               birthDate: Option<Date>, perspective: Perspective, k: string)
    ensures var r := NextAnimations(prev, now, prevNow, birthDate, perspective);
      && (k in r <==> (k in prev && Running(prev[k])) || Fresh(k, now, prevNow, birthDate))
      && (k in r ==> r[k] == if Fresh(k, now, prevNow, birthDate) then Some(AnimationInfo(KindFor(perspective), 1))
                             else NextFrame(prev[k]))
  {
    StartedAt(Advanced(prev), ChangeKeys, now, prevNow, birthDate, KindFor(perspective), k);
  }

  /** NextAt over every key at once: nothing but running or fresh entries,
      and never a null one. */
  lemma NextKeys(prev: map<string, Option<AnimationInfo>>, now: Instant, prevNow: Instant,
                 birthDate: Option<Date>, perspective: Perspective)
    ensures var r := NextAnimations(prev, now, prevNow, birthDate, perspective);
      forall k :: k in r ==> ((k in prev && Running(prev[k])) || Fresh(k, now, prevNow, birthDate)) && r[k].Some?
  {
    forall k | k in NextAnimations(prev, now, prevNow, birthDate, perspective)
      ensures (k in prev && Running(prev[k])) || Fresh(k, now, prevNow, birthDate)
      ensures NextAnimations(prev, now, prevNow, birthDate, perspective)[k].Some?
    {
      NextAt(prev, now, prevNow, birthDate, perspective, k);
    }
  }

  // ---------------------------------------------------------------------
  // Properties of one tick

  /** A running entry whose bar saw no change reappears one frame further
      on, with the same kind. */
  lemma EntryAdvances(prev: TimeState, now: Instant, birthDate: Option<Date>, perspective: Perspective, key: string)
    requires key in prev.animationState && Running(prev.animationState[key])
    requires !Fresh(key, now, prev.now, birthDate)
    ensures var next := NextTimeState(prev, now, birthDate, perspective).animationState;
      key in next && next[key].Some?
      && next[key].value.frame == prev.animationState[key].value.frame + 1
      && next[key].value.kind == prev.animationState[key].value.kind
  {
    NextAt(prev.animationState, now, prev.now, birthDate, perspective, key);
  }

  /** Null entries and entries at frame 5 or beyond are dropped unless their
      bar changes in this very tick. */
  lemma EntryExpires(prev: TimeState, now: Instant, birthDate: Option<Date>, perspective: Perspective, key: string)
    requires key !in prev.animationState || !Running(prev.animationState[key])
    requires !Fresh(key, now, prev.now, birthDate)
    ensures key !in NextTimeState(prev, now, birthDate, perspective).animationState
  {
    NextAt(prev.animationState, now, prev.now, birthDate, perspective, key);
  }

  /** A changed field starts its bar's animation at frame 1, overwriting any
      entry that was running, with the kind the perspective dictates; with
      frames at least 1 before the tick, frame 1 afterwards means a change. */
  lemma ChangeStartsAnimation(prev: TimeState, now: Instant, birthDate: Option<Date>, perspective: Perspective, key: string)
    requires key in ChangeKeys
    requires forall k :: k in prev.animationState && prev.animationState[k].Some? ==> prev.animationState[k].value.frame >= 1
    ensures var next := NextTimeState(prev, now, birthDate, perspective).animationState;
      && (Changed(key, now, prev.now, birthDate) ==> key in next && next[key] == Some(AnimationInfo(KindFor(perspective), 1)))
      && (key in next && next[key].Some? && next[key].value.frame == 1 ==> Changed(key, now, prev.now, birthDate))
  {
    NextAt(prev.animationState, now, prev.now, birthDate, perspective, key);
  }

  /** Fresh entries grow under ELAPSED and shrink under REMAINING. */
  lemma KindFollowsPerspective(perspective: Perspective)
    ensures perspective == Elapsed <==> KindFor(perspective) == Grow
    ensures perspective == Remaining <==> KindFor(perspective) == Shrink
  {
  }

  /** The LIFE bar never starts an animation without a stored birth date. */
  lemma LifeNeedsBirthDate(prev: TimeState, now: Instant, perspective: Perspective)
    requires "LIFE" !in prev.animationState || !Running(prev.animationState["LIFE"])
    ensures "LIFE" !in NextTimeState(prev, now, None, perspective).animationState
  {
    NextAt(prev.animationState, now, prev.now, None, perspective, "LIFE");
  }

  /** Only the five watched bars and the bars already animating can hold an
      entry after a tick; the MINUTE bar never animates. */
  lemma NoOtherKeys(prev: TimeState, now: Instant, birthDate: Option<Date>, perspective: Perspective, key: string)
    requires key !in ChangeKeys && key !in prev.animationState
    ensures key !in NextTimeState(prev, now, birthDate, perspective).animationState
  {
    NextAt(prev.animationState, now, prev.now, birthDate, perspective, key);
  }

  /** The flash map is rebuilt every tick: one key, set exactly when the
      second changed. */
  lemma FlashOnlyForSecondChange(prev: TimeState, now: Instant, birthDate: Option<Date>, perspective: Perspective)
    ensures var next := NextTimeState(prev, now, birthDate, perspective);
      && next.flashState.Keys == {"MINUTE"}
      && (next.flashState["MINUTE"] <==> now.seconds != prev.now.seconds)
      && next.now == now
  {
  }

  /** Every entry is present (never null) with a frame in 1..5. */
  predicate FramesInRange(m: map<string, Option<AnimationInfo>>) {
    forall k :: k in m ==> m[k].Some? && 1 <= m[k].value.frame <= AnimationFrames
  }

  /** From frames that are not negative, every entry after a tick is present
      with a frame in 1..5. */
  lemma FramesStayInRange(prev: TimeState, now: Instant, birthDate: Option<Date>, perspective: Perspective)
    requires forall k :: k in prev.animationState && prev.animationState[k].Some? ==> prev.animationState[k].value.frame >= 0
    ensures FramesInRange(NextTimeState(prev, now, birthDate, perspective).animationState)
  {
    var next := NextTimeState(prev, now, birthDate, perspective).animationState;
    forall k | k in next
      ensures next[k].Some? && 1 <= next[k].value.frame <= AnimationFrames
    {
      NextAt(prev.animationState, now, prev.now, birthDate, perspective, k);
    }
  }

  // ---------------------------------------------------------------------
  // Several ticks

  /** The state after one tick per instant in `nows`. */
  function Ticks(s: TimeState, nows: seq<Instant>, birthDate: Option<Date>, perspective: Perspective): TimeState
    decreases |nows|
  {
    if nows == [] then s
    else Ticks(NextTimeState(s, nows[0], birthDate, perspective), nows[1..], birthDate, perspective)
  }

  /** No tick of the run, starting from `start`, changes the field `key`
      watches. */
  predicate Quiet(key: string, start: Instant, nows: seq<Instant>, birthDate: Option<Date>)
    decreases |nows|
  {
    nows == [] || (!Fresh(key, nows[0], start, birthDate) && Quiet(key, nows[0], nows[1..], birthDate))
  }

  /** Without further changes, an entry at frame f (at most 5) is at frame
      f + j after j ticks while f + j <= 5, keeping its kind, and is gone
      once f + j exceeds 5: an animation started at frame 1 is drawn on five
      ticks and cleared on the sixth. */
  lemma {:induction false} EntryLifetime(s: TimeState, nows: seq<Instant>, birthDate: Option<Date>,
                                        perspective: Perspective, key: string, kind: AnimationType, f: int)
    requires key in s.animationState && s.animationState[key] == Some(AnimationInfo(kind, f))
    requires f <= AnimationFrames
    requires Quiet(key, s.now, nows, birthDate)
    ensures var t := Ticks(s, nows, birthDate, perspective).animationState;
      && (f + |nows| <= AnimationFrames ==> key in t && t[key] == Some(AnimationInfo(kind, f + |nows|)))
      && (f + |nows| > AnimationFrames ==> key !in t)
    decreases |nows|
  {
    if nows != [] {
      var s' := NextTimeState(s, nows[0], birthDate, perspective);
      NextAt(s.animationState, nows[0], s.now, birthDate, perspective, key);
      if f < AnimationFrames {
        EntryLifetime(s', nows[1..], birthDate, perspective, key, kind, f + 1);
      } else {
        StaysAbsent(s', nows[1..], birthDate, perspective, key);
      }
    }
  }

  /** A bar without an entry stays without one while its field does not
      change. */
  lemma {:induction false} StaysAbsent(s: TimeState, nows: seq<Instant>, birthDate: Option<Date>,
                                      perspective: Perspective, key: string)
    requires key !in s.animationState
    requires Quiet(key, s.now, nows, birthDate)
    ensures key !in Ticks(s, nows, birthDate, perspective).animationState
    decreases |nows|
  {
    if nows != [] {
      NextAt(s.animationState, nows[0], s.now, birthDate, perspective, key);
      StaysAbsent(NextTimeState(s, nows[0], birthDate, perspective), nows[1..], birthDate, perspective, key);
    }
  }
}

/**
 * `VideoView`'s seek debouncer. Setting the time records it as the desired time and
 * seeks only when no seek is in progress; when a seek completes, playback resumes if it
 * reached the desired time, and otherwise a new seek to the desired time starts at once.
 * The player is foreign: its rate, and the seeks it has been asked for, are recorded.
 */
module Playback {
  import opened Wrappers
  import opened Media

  /** The playback rate, and whether playback is paused. */
  datatype Rate = Rate(rate: real, isPaused: bool)

  /** The rate the player is given for a playback rate: 0 when paused. */
  function PlayerRate(r: Rate): real {
    if r.isPaused then 0.0 else r.rate
  }

  /**
   * The debouncer's state. `inFlight` is the target captured by the player seek whose
   * completion is still to come; `issued` logs every seek sent to the player and
   * `completed` counts completions received.
   */
  datatype SeekState = SeekState(
    hasPlayer: bool,
    playerRate: real,
    isSeekInProgress: bool,
    desiredTime: CMTime,
    inFlight: Option<CMTime>,
    issued: seq<CMTime>,
    completed: nat)

  /**
   * At most one seek is in flight: every seek issued but one has completed, and the one in
   * flight, if any, is the latest issued and has the in-progress flag set.
   */
  predicate Consistent(s: SeekState) {
    && Numeric(s.desiredTime)
    && (forall i :: 0 <= i < |s.issued| ==> Numeric(s.issued[i]))
    && |s.issued| == s.completed + (if s.inFlight.Some? then 1 else 0)
    && (s.inFlight.Some? ==> s.isSeekInProgress && s.inFlight.value == s.issued[|s.issued| - 1])
  }

  /** The state of a new view with no seek issued yet. */
  function Initial(hasPlayer: bool): (s: SeekState)
    ensures Consistent(s) && s.desiredTime == Zero
    ensures s.hasPlayer == hasPlayer && s.playerRate == 0.0 && !s.isSeekInProgress
    ensures s.inFlight.None? && s.issued == [] && s.completed == 0
  {
    SeekState(hasPlayer, 0.0, false, Zero, None, [], 0)
  }

  /** `seekToDesiredTime()`: sets the flag, captures the desired time, and asks the player to seek. */
  function SeekStarted(s: SeekState): (r: SeekState)
    requires Consistent(s) && s.inFlight.None?
    ensures Consistent(r) && r.isSeekInProgress
    ensures s.hasPlayer ==> r.issued == s.issued + [s.desiredTime] && r.inFlight == Some(s.desiredTime)
    ensures !s.hasPlayer ==> r.issued == s.issued && r.inFlight.None?
    ensures r.desiredTime == s.desiredTime && r.playerRate == s.playerRate && r.completed == s.completed
    ensures r.hasPlayer == s.hasPlayer
  {
    if s.hasPlayer then
      s.(isSeekInProgress := true, inFlight := Some(s.desiredTime), issued := s.issued + [s.desiredTime])
    else
      s.(isSeekInProgress := true)
  }

  /**
   * The `time` setter. Without a player nothing changes. Otherwise an idle view is stopped
   * (rate 0, even when the time is already the desired one); the desired time changes only
   * to a different instant, and only an idle view starts a seek, so a seek is issued only
   * when none is in flight.
   */
  function TimeSet(s: SeekState, t: CMTime): (r: SeekState)
    requires Consistent(s) && Numeric(t)
    ensures Consistent(r)
    ensures !s.hasPlayer ==> r == s
    ensures s.hasPlayer && !s.isSeekInProgress ==> r.playerRate == 0.0
    ensures s.isSeekInProgress ==> r.playerRate == s.playerRate
    ensures r.desiredTime == if s.hasPlayer && !SameInstant(t, s.desiredTime) then t else s.desiredTime
    ensures r.issued == if s.hasPlayer && !s.isSeekInProgress && !SameInstant(t, s.desiredTime)
                        then s.issued + [t] else s.issued
    ensures r.issued != s.issued ==> s.inFlight.None?
    ensures s.isSeekInProgress ==> r.isSeekInProgress && r.inFlight == s.inFlight
    ensures r.isSeekInProgress == (s.isSeekInProgress || r.issued != s.issued)
    ensures r.inFlight == if r.issued != s.issued then Some(t) else s.inFlight
    ensures r.completed == s.completed && r.hasPlayer == s.hasPlayer
  {
    if !s.hasPlayer then s
    else
      var s1 := if !s.isSeekInProgress then s.(playerRate := 0.0) else s;
      if Compare(t, s1.desiredTime) != 0 then
        var s2 := s1.(desiredTime := t);
        if !s2.isSeekInProgress then SeekStarted(s2) else s2
      else s1
  }

  /**
   * The completion of the seek in flight; `delegateRate` is the delegate's rate, or None when
   * the view or its delegate is gone, in which case nothing else happens and the flag stays
   * set. A seek that reached the desired time restores the rate of the player, if there is
   * one, and clears the flag; one that did not starts a seek to the current desired time at
   * once, keeping the flag.
   */
  function SeekFinished(s: SeekState, delegateRate: Option<Rate>): (r: SeekState)
    requires Consistent(s) && s.inFlight.Some?
    ensures Consistent(r) && r.completed == s.completed + 1 && r.desiredTime == s.desiredTime
    ensures r.hasPlayer == s.hasPlayer
    ensures delegateRate.None? ==>
              r == s.(inFlight := None, completed := s.completed + 1) && r.isSeekInProgress
    ensures delegateRate.Some? && SameInstant(s.inFlight.value, s.desiredTime) ==>
              && !r.isSeekInProgress && r.inFlight.None? && r.issued == s.issued
              && r.playerRate == (if s.hasPlayer then PlayerRate(delegateRate.value) else s.playerRate)
    ensures delegateRate.Some? && !SameInstant(s.inFlight.value, s.desiredTime) ==>
              && r.isSeekInProgress && r.playerRate == s.playerRate
              && r.issued == s.issued + (if s.hasPlayer then [s.desiredTime] else [])
              && r.inFlight == (if s.hasPlayer then Some(s.desiredTime) else None)
  {
    var target := s.inFlight.value;
    var s1 := s.(inFlight := None, completed := s.completed + 1);
    match delegateRate
    case None => s1
    case Some(rate) =>
      if Compare(target, s1.desiredTime) == 0 then
        PlayerRateSet(s1, PlayerRate(rate)).(isSeekInProgress := false)
      else
        SeekStarted(s1)
  }

  /** `player?.rate = x`: only the rate changes, and only when there is a player. */
  function PlayerRateSet(s: SeekState, x: real): (r: SeekState)
    ensures Consistent(s) ==> Consistent(r)
    ensures r.(playerRate := s.playerRate) == s
    ensures r.playerRate == if s.hasPlayer then x else s.playerRate
  {
    if s.hasPlayer then s.(playerRate := x) else s
  }

  /** The state after setting the time to each of `ts` in turn. */
  function TimesSet(s: SeekState, ts: seq<CMTime>): (r: SeekState)
    requires Consistent(s) && forall i :: 0 <= i < |ts| ==> Numeric(ts[i])
    ensures Consistent(r)
    decreases |ts|
  {
    if ts == [] then s else TimesSet(TimeSet(s, ts[0]), ts[1..])
  }

  /**
   * Requests made while a seek is in flight issue no seek and leave that seek in flight,
   * and afterwards the desired time is the instant last requested.
   */
  lemma {:induction false} RequestsWhileSeeking(s: SeekState, ts: seq<CMTime>)
    requires Consistent(s) && s.hasPlayer && s.inFlight.Some?
    requires forall i :: 0 <= i < |ts| ==> Numeric(ts[i])
    decreases |ts|
    ensures var r := TimesSet(s, ts);
            && r.issued == s.issued && r.inFlight == s.inFlight && r.isSeekInProgress
            && r.hasPlayer && r.completed == s.completed
            && (ts != [] ==> SameInstant(r.desiredTime, ts[|ts| - 1]))
            && (ts == [] ==> r.desiredTime == s.desiredTime)
  {
    if ts != [] {
      var s1 := TimeSet(s, ts[0]);
      assert s1.desiredTime == ts[0] || SameInstant(ts[0], s1.desiredTime);
      RequestsWhileSeeking(s1, ts[1..]);
      if |ts| == 1 {
        CompareAntisymmetric(ts[0], s1.desiredTime);
      } else {
        assert ts[1..][|ts[1..]| - 1] == ts[|ts| - 1];
      }
    }
  }

  /**
   * Convergence: however many requests arrive while a seek is in flight, its completion
   * either finds the latest request reached and resumes playback, or issues exactly one
   * seek, to the latest request; intermediate requests are never sought.
   */
  lemma LatestRequestWins(s: SeekState, ts: seq<CMTime>, rate: Rate)
    requires Consistent(s) && s.hasPlayer && s.inFlight.Some?
    requires ts != [] && forall i :: 0 <= i < |ts| ==> Numeric(ts[i])
    ensures TimesSet(s, ts).inFlight.Some?
    ensures var r := SeekFinished(TimesSet(s, ts), Some(rate));
            && SameInstant(r.desiredTime, ts[|ts| - 1])
            && (r.issued == s.issued || r.issued == s.issued + [r.desiredTime])
            && (r.issued == s.issued <==> !r.isSeekInProgress)
  {
    RequestsWhileSeeking(s, ts);
  }

  /**
   * The burst 5, 9, 12 (in ticks at 600 per second) on an idle view: 5 is sought at
   * once, 9 and 12 only update the desired time, the completion of the seek to 5 issues one
   * seek to 12, and the completion of that one resumes playback at the delegate's rate.
   */
  lemma BurstOfRequests(s: SeekState, rate: Rate)
    requires Consistent(s) && s.hasPlayer && !s.isSeekInProgress
    requires !SameInstant(s.desiredTime, CMTime(5, 600))
    ensures var t5, t9, t12 := CMTime(5, 600), CMTime(9, 600), CMTime(12, 600);
            var s3 := TimeSet(TimeSet(TimeSet(s, t5), t9), t12);
            var s4 := SeekFinished(s3, Some(rate));
            var s5 := SeekFinished(s4, Some(rate));
            && s3.issued == s.issued + [t5]
            && s4.issued == s.issued + [t5, t12]
            && s5.issued == s4.issued
            && !s5.isSeekInProgress && s5.desiredTime == t12
            && s5.playerRate == PlayerRate(rate)
  {
    var t5, t9, t12 := CMTime(5, 600), CMTime(9, 600), CMTime(12, 600);
    CompareAntisymmetric(t5, s.desiredTime);
    var s1 := TimeSet(s, t5);
    CompareAtOneTimescale(t9, t5);
    var s2 := TimeSet(s1, t9);
    CompareAtOneTimescale(t12, t9);
    var s3 := TimeSet(s2, t12);
    CompareAtOneTimescale(t5, t12);
    var s4 := SeekFinished(s3, Some(rate));
    CompareAtOneTimescale(t12, t12);
  }

  /** `VideoView`. */
  class VideoView {
    var hasPlayer: bool
    var playerRate: real
    var isSeekInProgress: bool
    var desiredTime: CMTime
    /** `seekTimeInProgress`, as captured by the completion handler of the seek in flight. */
    var seekTimeInProgress: Option<CMTime>
    ghost var issued: seq<CMTime>
    ghost var completed: nat

    ghost function State(): SeekState
      reads this
    {
      SeekState(hasPlayer, playerRate, isSeekInProgress, desiredTime, seekTimeInProgress, issued, completed)
    }

    ghost predicate Valid()
      reads this
    {
      Consistent(State())
    }

    /** A new view, with a player attached or not. */
    constructor (withPlayer: bool)
      ensures Valid() && State() == Initial(withPlayer)
    {
      hasPlayer := withPlayer;
      playerRate := 0.0;
      isSeekInProgress := false;
      desiredTime := Zero;
      seekTimeInProgress := None;
      issued := [];
      completed := 0;
    }

    /** The `time` setter. */
    method SetTime(t: CMTime)
      requires Valid() && Numeric(t)
      modifies this
      ensures Valid() && State() == TimeSet(old(State()), t)
    {
      if hasPlayer {
        if !isSeekInProgress {
          playerRate := 0.0;
        }
        if Compare(t, desiredTime) != 0 {
          desiredTime := t;
          if !isSeekInProgress {
            SeekToDesiredTime();
          }
        }
      }
    }

    /** `seekToDesiredTime()`. */
    method SeekToDesiredTime()
      requires Valid() && seekTimeInProgress.None?
      modifies this
      ensures Valid() && State() == SeekStarted(old(State()))
    {
      isSeekInProgress := true;
      if hasPlayer {
        seekTimeInProgress := Some(desiredTime);
        issued := issued + [desiredTime];
      }
    }

    /** The seek's completion handler, run as an event. */
    method SeekCompleted(delegateRate: Option<Rate>)
      requires Valid() && seekTimeInProgress.Some?
      modifies this
      ensures Valid() && State() == SeekFinished(old(State()), delegateRate)
    {
      var target := seekTimeInProgress.value;
      seekTimeInProgress := None;
      completed := completed + 1;
      if delegateRate.Some? {
        if Compare(target, desiredTime) == 0 {
          if hasPlayer {
            playerRate := PlayerRate(delegateRate.value);
          }
          isSeekInProgress := false;
        } else {
          SeekToDesiredTime();
        }
      }
    }

    /** `player?.rate = x`. */
    method SetPlayerRate(x: real)
      requires Valid()
      modifies this
      ensures Valid() && State() == PlayerRateSet(old(State()), x)
    {
      if hasPlayer {
        playerRate := x;
      }
    }
  }
}

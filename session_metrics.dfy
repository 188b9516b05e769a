/** audio-handling/session_metrics.js: the state and metrics of one processing
    job. The job-level deadline timer is the field `timerArmed`; its firing is
    the method `OnTimeout`, and clearing it is what the two end methods do.
    Clock readings (`new Date()`) are passed in as whole milliseconds. */
module Session {
  import opened Wrappers
  import opened Js

  datatype State = QUEUE | RUN | STOP | COMPLETE | ERROR | TIMEOUT

  /** The states that end a job. */
  predicate IsTerminal(s: State) {
    s == COMPLETE || s == ERROR || s == TIMEOUT
  }

  /** Milliseconds from creation until the deadline timer fires. */
  const FunctionTimeoutMillis := 250000

  /** A failed download as `addAudioFailureForDownload` reads it. */
  datatype FailedDownload = FailedDownload(isIntro: bool, episodeUID: string, downloadPath: string, audioPath: string)

  /** The entry `addAudioFailureForDownload` writes: the episode's id and download
      path, or for an intro the id with `_intro` appended and the audio path. */
  function FailureEntry(d: FailedDownload): (entry: (string, string))
    ensures !d.isIntro ==> entry == (d.episodeUID, d.downloadPath)
    ensures d.isIntro ==> entry.0 == d.episodeUID + "_intro" && entry.1 == d.audioPath
  {
    if !d.isIntro then (d.episodeUID, d.downloadPath) else (d.episodeUID + "_intro", d.audioPath)
  }

  /** An episode's own failure and its intro's failure never share a key, so
      recording one never overwrites the other. */
  lemma IntroKeyDistinct(episode: FailedDownload, intro: FailedDownload)
    requires !episode.isIntro && intro.isIntro && episode.episodeUID == intro.episodeUID
    ensures FailureEntry(episode).0 != FailureEntry(intro).0
  {
    assert |FailureEntry(intro).0| == |FailureEntry(episode).0| + 6;
  }

  /** `setDownloadSuccessRate`'s conversion: a fraction to a percentage rounded
      half-up to two decimals (NaN stays NaN). */
  function PercentOf(rate: JsNumber): (p: JsNumber)
    ensures rate.NaN? <==> p.NaN?
    ensures rate.Num? ==> IsHundredths(p.value)
    ensures rate.Num? ==> rate.value * 100.0 - 0.005 < p.value <= rate.value * 100.0 + 0.005
  {
    match rate
    case NaN => NaN
    case Num(v) => Num(RoundToHundredths(v * 100.0))
  }

  /** A fraction in [0, 1] becomes a percentage in [0, 100]. */
  lemma PercentInRange(v: real)
    requires 0.0 <= v <= 1.0
    ensures 0.0 <= PercentOf(Num(v)).value <= 100.0
  {
    var h := MathRound(v * 100.0 * 100.0);
    assert 0 <= h <= 10000;
  }

  /** The snapshot `getMetrics` returns. */
  datatype Metrics = Metrics(
    state: State,
    audioEncodingTime: real,
    startTime: int,
    endTime: Option<int>,
    durationMillis: int,
    durationMins: real,
    audioDownloadSuccessRate: JsNumber,
    downloadFailures: map<string, string>,
    error: Option<JsError>)

  class SessionMetrics {
    var startTime: int
    var state: State
    var endTime: Option<int>
    var durationMillis: int
    var durationMins: real
    var audioEncodingTime: real
    var audioDownloadSuccessRate: JsNumber
    var downloadFailures: map<string, string>
    var error: Option<JsError>
    /** Whether the deadline timer set by `initTimeout` is still pending. */
    var timerArmed: bool
    /** Every rate passed to `setDownloadSuccessRate`, oldest first. */
    ghost var successRateReports: seq<JsNumber>

    /** The object invariant: the job is finalised exactly when the deadline
        timer is no longer pending; the end metrics are either all unset or all
        computed from the end time; a terminal state has disarmed the timer;
        and the stored conversions are whole hundredths. */
    ghost predicate Valid()
      reads this
    {
      && (timerArmed <==> endTime.None?)
      && (endTime.None? ==> durationMillis == 0 && durationMins == 0.0)
      && (endTime.Some? ==>
            durationMillis == endTime.value - startTime
            && durationMins == MinutesFromMillis(durationMillis))
      && (IsTerminal(state) ==> !timerArmed)
      && IsHundredths(audioEncodingTime)
      && (audioDownloadSuccessRate.Num? ==> IsHundredths(audioDownloadSuccessRate.value))
    }

    /** `getMetrics`: the fields as one value. Before the job ends the end
        metrics read as unset; after, the duration is the time since creation. */
    function GetMetrics(): (m: Metrics)
      reads this
      requires Valid()
      ensures m.endTime.None? ==> m.durationMillis == 0 && m.durationMins == 0.0
      ensures m.endTime.Some? ==> m.durationMillis == m.endTime.value - m.startTime
      ensures IsTerminal(m.state) ==> m.endTime.Some?
    {
      Metrics(state, audioEncodingTime, startTime, endTime, durationMillis, durationMins,
              audioDownloadSuccessRate, downloadFailures, error)
    }

    /** A new session is queued, has no end metrics, no failures, no error, and
        its deadline timer is armed. */
    constructor (now: int)
      ensures Valid()
      ensures GetMetrics() == Metrics(QUEUE, 0.0, now, None, 0, 0.0, Num(0.0), map[], None)
      ensures timerArmed && successRateReports == []
    {
      startTime := now;
      state := QUEUE;
      endTime := None;
      durationMillis := 0;
      durationMins := 0.0;
      audioEncodingTime := 0.0;
      audioDownloadSuccessRate := Num(0.0);
      downloadFailures := map[];
      error := None;
      timerArmed := true;
      successRateReports := [];
      assert (0.0 * 100.0).Floor == 0;
    }

    method StartTask()
      requires Valid()
      modifies this
      ensures Valid()
      ensures GetMetrics() == old(GetMetrics()).(state := RUN)
      ensures timerArmed == old(timerArmed) && successRateReports == old(successRateReports)
    {
      state := RUN;
    }

    method StopTask()
      requires Valid()
      modifies this
      ensures Valid()
      ensures GetMetrics() == old(GetMetrics()).(state := STOP)
      ensures timerArmed == old(timerArmed) && successRateReports == old(successRateReports)
    {
      state := STOP;
    }

    /** `computeSessionEndMetrics`: the end time, the duration in milliseconds and
        the duration in minutes rounded half-up to two decimals. */
    method ComputeSessionEndMetrics(now: int)
      modifies this
      ensures endTime == Some(now)
      ensures durationMillis == now - startTime
      ensures durationMins == MinutesFromMillis(now - startTime)
      ensures state == old(state) && timerArmed == old(timerArmed) && startTime == old(startTime)
      ensures audioEncodingTime == old(audioEncodingTime) && audioDownloadSuccessRate == old(audioDownloadSuccessRate)
      ensures downloadFailures == old(downloadFailures) && error == old(error)
      ensures successRateReports == old(successRateReports)
    {
      endTime := Some(now);
      durationMillis := now - startTime;
      durationMins := MinutesFromMillis(durationMillis);
    }

    /** `endSessionSuccess`: clear the timer, mark the job complete, compute the
        end metrics. Nothing stops it from running on a finished job. */
    method EndSessionSuccess(now: int)
      requires Valid()
      modifies this
      ensures Valid() && !timerArmed
      ensures GetMetrics() == old(GetMetrics()).(state := COMPLETE, endTime := Some(now),
                durationMillis := now - startTime, durationMins := MinutesFromMillis(now - startTime))
      ensures successRateReports == old(successRateReports)
    {
      timerArmed := false;
      state := COMPLETE;
      ComputeSessionEndMetrics(now);
    }

    /** `endSessionWithError`: as `EndSessionSuccess`, but the state is ERROR and
        the error is kept. */
    method EndSessionWithError(now: int, e: JsError)
      requires Valid()
      modifies this
      ensures Valid() && !timerArmed
      ensures GetMetrics() == old(GetMetrics()).(state := ERROR, endTime := Some(now),
                durationMillis := now - startTime, durationMins := MinutesFromMillis(now - startTime),
                error := Some(e))
      ensures successRateReports == old(successRateReports)
    {
      timerArmed := false;
      state := ERROR;
      ComputeSessionEndMetrics(now);
      error := Some(e);
    }

    /** The deadline timer firing at `now`, which is at least
        `FunctionTimeoutMillis` after creation. Only a pending timer fires: it
        marks the job timed out and computes the end metrics, so the recorded
        duration is at least the deadline; once either end method has cleared
        it, nothing changes. */
    method OnTimeout(now: int)
      requires Valid() && now >= startTime + FunctionTimeoutMillis
      modifies this
      ensures Valid() && !timerArmed
      ensures old(timerArmed) ==>
                GetMetrics() == old(GetMetrics()).(state := TIMEOUT, endTime := Some(now),
                  durationMillis := now - startTime, durationMins := MinutesFromMillis(now - startTime))
      ensures !old(timerArmed) ==> GetMetrics() == old(GetMetrics())
      ensures old(timerArmed) ==> durationMillis >= FunctionTimeoutMillis
      ensures successRateReports == old(successRateReports)
    {
      if timerArmed {
        timerArmed := false;
        state := TIMEOUT;
        ComputeSessionEndMetrics(now);
      }
    }

    /** `setDownloadSuccessRate`: store the rate as a percentage rounded half-up
        to two decimals. */
    method SetDownloadSuccessRate(rate: JsNumber)
      requires Valid()
      modifies this
      ensures Valid() && timerArmed == old(timerArmed)
      ensures GetMetrics() == old(GetMetrics()).(audioDownloadSuccessRate := PercentOf(rate))
      ensures successRateReports == old(successRateReports) + [rate]
    {
      audioDownloadSuccessRate := PercentOf(rate);
      successRateReports := successRateReports + [rate];
    }

    /** `setEncodingTime`: store a duration in milliseconds as seconds rounded
        half-up to two decimals. */
    method SetEncodingTime(durationMs: int)
      requires Valid()
      modifies this
      ensures Valid() && timerArmed == old(timerArmed)
      ensures GetMetrics() == old(GetMetrics()).(audioEncodingTime := SecondsFromMillis(durationMs))
      ensures successRateReports == old(successRateReports)
    {
      audioEncodingTime := SecondsFromMillis(durationMs);
    }

    /** `addAudioFailureForDownload`: record one failed download; every other
        recorded failure is kept as it was. */
    method AddAudioFailureForDownload(d: FailedDownload)
      requires Valid()
      modifies this
      ensures Valid() && timerArmed == old(timerArmed)
      ensures GetMetrics() == old(GetMetrics()).(downloadFailures := old(downloadFailures)[FailureEntry(d).0 := FailureEntry(d).1])
      ensures successRateReports == old(successRateReports)
    {
      var entry := FailureEntry(d);
      downloadFailures := downloadFailures[entry.0 := entry.1];
    }
  }

  /** Once the job has ended successfully, a late deadline can no longer change
      its state or metrics. */
  method EndThenTimeout(session: SessionMetrics, endAt: int, lateAt: int)
    requires session.Valid() && lateAt >= session.startTime + FunctionTimeoutMillis
    modifies session
    ensures session.Valid() && session.state == COMPLETE
    ensures session.endTime == Some(endAt)
  {
    session.EndSessionSuccess(endAt);
    var settled := session.GetMetrics();
    session.OnTimeout(lateAt);
    assert session.GetMetrics() == settled;
  }
}

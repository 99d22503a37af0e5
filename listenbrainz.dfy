/** The scrobbling side of the ListenBrainz backend
    (ListenBrainzBackend.cpp): which finished listens are worth sending and
    what the backend hands to its listens synchronizer. The synchronizer's
    queue is the field `queue`; the database's track table and the clock
    come in as parameters. */
module ListenBrainz {
  import opened Wrappers

  type TrackId = nat
  type UserId = nat
  type DateTime = int

  /** Four minutes, in seconds. */
  const ScrobbleMinSeconds: int := 240

  datatype Listen = Listen(userId: UserId, trackId: TrackId)
  datatype TimedListen = TimedListen(listen: Listen, listenedAt: DateTime)

  /** What the synchronizer is asked to send: a "now playing" notice or a
      listen with the time it was made. */
  datatype Queued = NowPlaying(listen: Listen) | Timed(timed: TimedListen)

  /** `canBeScrobbled`: the track must exist, and the listen must last at
      least four minutes or at least half the track. The played duration is
      in seconds and the track's duration in milliseconds; the comparison is
      made in milliseconds, against half the track truncated to a whole
      millisecond. */
  predicate CanBeScrobbled(trackDurationsMs: map<TrackId, nat>, trackId: TrackId, seconds: int)
    ensures CanBeScrobbled(trackDurationsMs, trackId, seconds) <==>
      trackId in trackDurationsMs && (seconds >= ScrobbleMinSeconds || 2000 * seconds + 1 >= trackDurationsMs[trackId])
  {
    trackId in trackDurationsMs
    && (seconds >= ScrobbleMinSeconds || seconds * 1000 >= trackDurationsMs[trackId] / 2)
  }

  /** A track that does not exist is never scrobbled. */
  lemma UnknownTrackNotScrobbled(trackDurationsMs: map<TrackId, nat>, trackId: TrackId, seconds: int)
    requires trackId !in trackDurationsMs
    ensures !CanBeScrobbled(trackDurationsMs, trackId, seconds)
  {
  }

  /** Listening longer never turns a scrobble into a non-scrobble. */
  lemma ScrobbleMonotone(trackDurationsMs: map<TrackId, nat>, trackId: TrackId, seconds: int, longer: int)
    requires seconds <= longer
    requires CanBeScrobbled(trackDurationsMs, trackId, seconds)
    ensures CanBeScrobbled(trackDurationsMs, trackId, longer)
  {
  }

  /** Playing a known track through to its end, rounded up to a whole second,
      always counts; so does any listen of four minutes. */
  lemma FullListenScrobbled(trackDurationsMs: map<TrackId, nat>, trackId: TrackId, seconds: int)
    requires trackId in trackDurationsMs
    requires seconds * 1000 >= trackDurationsMs[trackId] || seconds >= 240
    ensures CanBeScrobbled(trackDurationsMs, trackId, seconds)
  {
  }

  /** A listen shorter than both four minutes and half the track does not
      count: for a 10-minute track, 4 minutes count and 3:59 do not; for a
      3-minute track, 90 seconds count and 89 do not. */
  lemma ScrobbleThresholds(trackId: TrackId)
    ensures CanBeScrobbled(map[trackId := 600000], trackId, 240)
    ensures !CanBeScrobbled(map[trackId := 600000], trackId, 239)
    ensures CanBeScrobbled(map[trackId := 180000], trackId, 90)
    ensures !CanBeScrobbled(map[trackId := 180000], trackId, 89)
  {
  }

  class ListenBrainzBackend {
    /** The listens synchronizer's queue, oldest first. */
    var queue: seq<Queued>

    constructor ()
      ensures queue == []
    {
      queue := [];
    }

    /** `listenStarted`: the listen is sent as "now playing". */
    method ListenStarted(listen: Listen)
      modifies this
      ensures queue == old(queue) + [NowPlaying(listen)]
    {
      queue := queue + [NowPlaying(listen)];
    }

    /** `listenFinished`: without a played duration the listen is always
        kept; with one it is kept only if it can be scrobbled. A kept listen
        is stamped with the current time `now`. */
    method ListenFinished(listen: Listen, seconds: Option<int>, trackDurationsMs: map<TrackId, nat>, now: DateTime)
      modifies this
      ensures seconds.Some? && !CanBeScrobbled(trackDurationsMs, listen.trackId, seconds.value) ==> queue == old(queue)
      ensures seconds.None? || CanBeScrobbled(trackDurationsMs, listen.trackId, seconds.value) ==>
        queue == old(queue) + [Timed(TimedListen(listen, now))]
    {
      if seconds.Some? && !CanBeScrobbled(trackDurationsMs, listen.trackId, seconds.value) {
        return;
      }
      AddTimedListen(TimedListen(listen, now));
    }

    /** `addTimedListen`: the listen is queued as given. */
    method AddTimedListen(timed: TimedListen)
      modifies this
      ensures queue == old(queue) + [Timed(timed)]
    {
      queue := queue + [Timed(timed)];
    }
  }
}

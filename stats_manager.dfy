/**
  The session's usage counters: a record that is created on first use and
  then updated counter by counter, plus the session-duration text.
  `datetime.now()` is an integer clock reading in seconds passed to each
  operation.
*/
module StatsManager {
  import opened Common
  import opened Strings

  /** Characters of an answer kept in the query log. */
  const AnswerCut: nat := 100

  /** Seconds per day: `timedelta.seconds` keeps only what is left after whole days. */
  const Day: nat := 86400

  datatype QueryRecord = QueryRecord(timestamp: int, query: string, answer: string, responseTime: real)

  /** The `app_stats` dict. */
  datatype AppStats = AppStats(
    totalQuestions: int,
    totalDocuments: int,
    totalChunks: int,
    sessionStart: int,
    questionsToday: int,
    lastQuestionTime: Option<int>,
    avgResponseTime: real,
    queries: seq<QueryRecord>,
    documentsUploaded: int)

  /** The record `initialize_stats` and `reset_stats` create. */
  function Fresh(now: int): (s: AppStats)
    ensures s.totalQuestions == 0 && s.totalDocuments == 0 && s.totalChunks == 0
    ensures s.questionsToday == 0 && s.documentsUploaded == 0 && s.queries == []
    ensures s.lastQuestionTime.None? && s.sessionStart == now
  {
    AppStats(0, 0, 0, now, 0, None, 0.0, [], 0)
  }

  /** The record after `initialize_stats`: an existing one is kept as it is. */
  function Initialized(stats: Option<AppStats>, now: int): (s: AppStats)
    ensures stats.Some? ==> s == stats.value
    ensures stats.None? ==> s == Fresh(now)
  {
    if stats.None? then Fresh(now) else stats.value
  }

  /** Initializing twice is initializing once, whatever the clock says the second time. */
  lemma InitializedIdempotent(stats: Option<AppStats>, now: int, later: int)
    ensures Initialized(Some(Initialized(stats, now)), later) == Initialized(stats, now)
  {
  }

  /** `get_session_duration`'s hours and minutes for an elapsed time;
      whole days are dropped, as `timedelta.seconds` does. */
  function DurationParts(elapsed: int): (hm: (nat, nat))
    ensures hm.0 < 24 && hm.1 < 60
    ensures hm.0 * 3600 + hm.1 * 60 <= elapsed % Day < hm.0 * 3600 + hm.1 * 60 + 60
  {
    var seconds := elapsed % Day;
    (seconds / 3600, (seconds % 3600) / 60)
  }

  /** `"{h}h {m}m"` when there is a whole hour, else `"{m}m"`. */
  function DurationText(elapsed: int): (t: string)
    ensures t != [] && t[|t| - 1] == 'm'
  {
    var (hours, minutes) := DurationParts(elapsed);
    if hours > 0 then NatToString(hours) + "h " + NatToString(minutes) + "m" else NatToString(minutes) + "m"
  }

  /** The text is the minutes alone under an hour, and the hours and then
      the minutes otherwise; both numbers read back as written. */
  lemma DurationTextSpec(elapsed: int)
    ensures var (h, m) := DurationParts(elapsed);
      if h > 0 then DurationText(elapsed) == NatToString(h) + "h " + NatToString(m) + "m" && ParseNat(NatToString(h)) == h
      else DurationText(elapsed) == NatToString(m) + "m"
    ensures ParseNat(NatToString(DurationParts(elapsed).1)) == DurationParts(elapsed).1
    ensures DurationParts(elapsed).0 > 0 <==> elapsed % Day >= 3600
  {
    ParseNatToString(DurationParts(elapsed).0);
    ParseNatToString(DurationParts(elapsed).1);
  }

  /** `st.session_state`, as far as the counters go: `app_stats` may be absent. */
  class StatsManager {
    var appStats: Option<AppStats>

    constructor ()
      ensures appStats.None?
    {
      appStats := None;
    }

    method InitializeStats(now: int)
      modifies this
      ensures appStats == Some(Initialized(old(appStats), now))
    {
      if appStats.None? {
        appStats := Some(Fresh(now));
      }
    }

    /** `increment_question`: one more question in total and today, asked at `now`; nothing else changes. */
    method IncrementQuestion(now: int)
      modifies this
      ensures var s := Initialized(old(appStats), now);
        appStats == Some(s.(totalQuestions := s.totalQuestions + 1, questionsToday := s.questionsToday + 1,
                            lastQuestionTime := Some(now)))
    {
      InitializeStats(now);
      var s := appStats.value;
      s := s.(totalQuestions := s.totalQuestions + 1);
      s := s.(questionsToday := s.questionsToday + 1);
      s := s.(lastQuestionTime := Some(now));
      appStats := Some(s);
    }

    /** `add_query`: one more log record, with the answer cut to 100 characters. */
    method AddQuery(query: string, answer: string, responseTime: real, now: int)
      modifies this
      ensures var s := Initialized(old(appStats), now);
        appStats == Some(s.(queries := s.queries + [QueryRecord(now, query, Prefix(answer, AnswerCut), responseTime)]))
    {
      InitializeStats(now);
      var s := appStats.value;
      appStats := Some(s.(queries := s.queries + [QueryRecord(now, query, Prefix(answer, AnswerCut), responseTime)]));
    }

    /** `update_documents`: overwrites the two document counters only. */
    method UpdateDocuments(docCount: int, chunkCount: int, now: int)
      modifies this
      ensures var s := Initialized(old(appStats), now);
        appStats == Some(s.(totalDocuments := docCount, totalChunks := chunkCount))
    {
      InitializeStats(now);
      var s := appStats.value;
      s := s.(totalDocuments := docCount);
      s := s.(totalChunks := chunkCount);
      appStats := Some(s);
    }

    /** `increment_uploads`: one more upload; nothing else changes. */
    method IncrementUploads(now: int)
      modifies this
      ensures var s := Initialized(old(appStats), now);
        appStats == Some(s.(documentsUploaded := s.documentsUploaded + 1))
    {
      InitializeStats(now);
      var s := appStats.value;
      appStats := Some(s.(documentsUploaded := s.documentsUploaded + 1));
    }

    method GetStats(now: int) returns (s: AppStats)
      modifies this
      ensures appStats == Some(Initialized(old(appStats), now)) && s == appStats.value
    {
      InitializeStats(now);
      s := appStats.value;
    }

    /** `get_session_duration` read at `now`. */
    method GetSessionDuration(now: int) returns (t: string)
      modifies this
      ensures appStats == Some(Initialized(old(appStats), now))
      ensures t == DurationText(now - appStats.value.sessionStart)
    {
      InitializeStats(now);
      var sessionStart := appStats.value.sessionStart;
      var seconds := (now - sessionStart) % Day;
      var hours := seconds / 3600;
      var minutes := (seconds % 3600) / 60;
      if hours > 0 {
        return NatToString(hours) + "h " + NatToString(minutes) + "m";
      }
      return NatToString(minutes) + "m";
    }

    /** `reset_stats`: every counter back to zero, the log emptied, a new session start. */
    method ResetStats(now: int)
      modifies this
      ensures appStats == Some(Fresh(now))
    {
      appStats := Some(AppStats(0, 0, 0, now, 0, None, 0.0, [], 0));
    }
  }
}

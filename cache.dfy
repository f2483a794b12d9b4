/**
 * The client cache of `src/context/CacheContext.js`: the signed-in user,
 * the interview list and the feedback map, mirrored in three
 * `localStorage` entries (`user_interviews`, `interviews_feedback`,
 * `cache_timestamp`). Interview copies in storage never carry `user_id`;
 * the cache is fresh for 24 hours; deletion is optimistic with rollback.
 *
 * Supabase calls are outcomes passed in; the clock is a parameter. The
 * three storage entries are fields (`None` is a missing entry), holding
 * the values their JSON text stands for.
 */
module Cache {
  import opened Wrappers

  /** An interview row; `details` stands for the columns the cache never inspects. */
  datatype Interview = Interview(id: string, userId: Option<string>, notes: Option<string>, details: string)

  datatype Feedback = Feedback(interviewId: string, content: string)

  datatype User = User(id: string)

  /** `session?.user?.id` is truthy: a session whose user id is `""`
      counts as none. */
  predicate HasUserId(session: Option<User>) {
    session.Some? && session.value.id != ""
  }

  const InterviewsKey := "user_interviews"
  const FeedbackKey := "interviews_feedback"
  const TimestampKey := "cache_timestamp"
  const CacheExpirationMs := 24 * 60 * 60 * 1000
  const NotAuthenticated := "User not authenticated"
  const NoRowsCode := "PGRST116"

  /** `isCacheValid(timestamp)` at time `now`. */
  predicate IsCacheValid(now: int, timestamp: int) {
    now - timestamp < CacheExpirationMs
  }

  /** A timestamp stays valid for exactly 86,400,000 ms, and validity only
      ever ends as time goes on. */
  lemma CacheLifetime(timestamp: int, now: int, later: int)
    ensures IsCacheValid(timestamp + 86399999, timestamp) && !IsCacheValid(timestamp + 86400000, timestamp)
    ensures now <= later && IsCacheValid(later, timestamp) ==> IsCacheValid(now, timestamp)
  {
  }

  /** `({ user_id, ...rest }) => rest` over a list. */
  function Sanitized(rows: seq<Interview>): (r: seq<Interview>)
    ensures |r| == |rows|
    ensures forall i :: 0 <= i < |rows| ==> r[i] == rows[i].(userId := None)
  {
    seq(|rows|, i requires 0 <= i < |rows| => rows[i].(userId := None))
  }

  predicate NoUserIds(rows: seq<Interview>) {
    forall i :: 0 <= i < |rows| ==> rows[i].userId.None?
  }

  /** Sanitising strips every `user_id`, and only that: a second pass
      changes nothing, and it commutes with concatenation. */
  lemma SanitizedProperties(a: seq<Interview>, b: seq<Interview>)
    ensures NoUserIds(Sanitized(a))
    ensures Sanitized(Sanitized(a)) == Sanitized(a)
    ensures Sanitized(a + b) == Sanitized(a) + Sanitized(b)
    ensures forall i :: 0 <= i < |a| ==> Sanitized(a)[i].id == a[i].id && Sanitized(a)[i].notes == a[i].notes
  {
    assert Sanitized(a + b) == Sanitized(a) + Sanitized(b);
  }

  /** `interviews.filter((i) => i.id !== interviewId)`. */
  function WithoutId(rows: seq<Interview>, id: string): (r: seq<Interview>)
    ensures |r| <= |rows|
    ensures forall x :: x in r <==> x in rows && x.id != id
  {
    if rows == [] then []
    else (if rows[0].id == id then [] else [rows[0]]) + WithoutId(rows[1..], id)
  }

  /** The filter keeps order: it works piece by piece. */
  lemma {:induction false} WithoutIdConcat(a: seq<Interview>, b: seq<Interview>, id: string)
    ensures WithoutId(a + b, id) == WithoutId(a, id) + WithoutId(b, id)
    decreases |a|
  {
    if a == [] {
      assert a + b == b;
    } else {
      assert (a + b)[0] == a[0];
      assert (a + b)[1..] == a[1..] + b;
      WithoutIdConcat(a[1..], b, id);
    }
  }

  /** Removing an id no entry has changes nothing. */
  lemma {:induction false} WithoutAbsentId(rows: seq<Interview>, id: string)
    requires forall i :: 0 <= i < |rows| ==> rows[i].id != id
    ensures WithoutId(rows, id) == rows
    decreases |rows|
  {
    if rows != [] {
      WithoutAbsentId(rows[1..], id);
      assert rows == [rows[0]] + rows[1..];
    }
  }

  /** `interviews.map(i => i.id === interviewId ? data : i)`. */
  function ReplaceById(rows: seq<Interview>, id: string, row: Interview): (r: seq<Interview>)
    ensures |r| == |rows|
    ensures forall i :: 0 <= i < |rows| ==> r[i] == if rows[i].id == id then row else rows[i]
  {
    seq(|rows|, i requires 0 <= i < |rows| => if rows[i].id == id then row else rows[i])
  }

  /** Replacing an id no row has changes nothing, and a second replacement
      of the same id keeps only the second row. */
  lemma ReplaceByIdProperties(rows: seq<Interview>, id: string, row: Interview, row2: Interview)
    ensures (forall i :: 0 <= i < |rows| ==> rows[i].id != id) ==> ReplaceById(rows, id, row) == rows
    ensures row.id == id ==> ReplaceById(ReplaceById(rows, id, row), id, row2) == ReplaceById(rows, id, row2)
  {
  }

  /** What `.select().single()` and friends return. */
  datatype Query<T> = Rows(data: T) | QueryError(code: string)

  class CacheStore {
    var user: Option<User>
    var interviews: seq<Interview>
    var feedback: map<string, Feedback>
    var loading: bool
    /** The `user_interviews` entry. */
    var cachedInterviews: Option<seq<Interview>>
    /** The `interviews_feedback` entry. */
    var cachedFeedback: Option<map<string, Feedback>>
    /** The `cache_timestamp` entry; `None` also for text that is not a number. */
    var cachedTimestamp: Option<int>

    /** Stored interview copies never carry `user_id`. */
    ghost predicate Valid()
      reads this
    {
      cachedInterviews.Some? ==> NoUserIds(cachedInterviews.value)
    }

    constructor (storedInterviews: Option<seq<Interview>>, storedFeedback: Option<map<string, Feedback>>, storedTimestamp: Option<int>)
      requires storedInterviews.Some? ==> NoUserIds(storedInterviews.value)
      ensures Valid()
      ensures user.None? && interviews == [] && feedback == map[] && loading
      ensures cachedInterviews == storedInterviews && cachedFeedback == storedFeedback && cachedTimestamp == storedTimestamp
    {
      user := None;
      interviews := [];
      feedback := map[];
      loading := true;
      cachedInterviews := storedInterviews;
      cachedFeedback := storedFeedback;
      cachedTimestamp := storedTimestamp;
    }

    /** Sets the list and its sanitised copy in storage. */
    method SetInterviews(rows: seq<Interview>)
      modifies this`interviews, this`cachedInterviews
      ensures Valid()
      ensures interviews == rows && cachedInterviews == Some(Sanitized(rows))
    {
      SanitizedProperties(rows, []);
      interviews := rows;
      cachedInterviews := Some(Sanitized(rows));
    }

    /** `fetchInterviews` with the current session and the query's outcome
        (`Rows(None)` is a `null` result). Without a truthy user id it
        returns before the query. */
    method FetchInterviews(session: Option<User>, outcome: Query<Option<seq<Interview>>>)
      requires Valid()
      modifies this`interviews, this`cachedInterviews
      ensures Valid()
      ensures HasUserId(session) && outcome.Rows? ==>
                var rows := outcome.data.GetOr([]);
                interviews == rows && cachedInterviews == Some(Sanitized(rows))
      ensures !HasUserId(session) || outcome.QueryError? ==>
                interviews == old(interviews) && cachedInterviews == old(cachedInterviews)
    {
      if !HasUserId(session) {
        return;
      }
      if outcome.Rows? {
        SetInterviews(outcome.data.GetOr([]));
      }
    }

    /** `signOutUser`: the three entries go, and so do user, list and feedback. */
    method SignOutUser()
      modifies this
      ensures Valid()
      ensures cachedInterviews.None? && cachedFeedback.None? && cachedTimestamp.None?
      ensures user.None? && interviews == [] && feedback == map[]
      ensures loading == old(loading)
    {
      cachedInterviews := None;
      cachedFeedback := None;
      cachedTimestamp := None;
      user := None;
      interviews := [];
      feedback := map[];
    }

    /** `deleteInterview(id)` with the session and whether the backend
        delete failed (with its error). Without a user nothing changes;
        otherwise the list loses the id at once and is restored on failure. */
    method DeleteInterview(session: Option<User>, id: string, failure: Option<string>) returns (r: Result<(), string>)
      requires Valid()
      modifies this`interviews, this`cachedInterviews
      ensures Valid()
      ensures session.None? ==>
                r == Failure(NotAuthenticated) && interviews == old(interviews) && cachedInterviews == old(cachedInterviews)
      ensures session.Some? && failure.None? ==>
                r.Success? && interviews == WithoutId(old(interviews), id) &&
                cachedInterviews == Some(Sanitized(WithoutId(old(interviews), id)))
      ensures session.Some? && failure.Some? ==>
                r == Failure(failure.value) && interviews == old(interviews) &&
                cachedInterviews == Some(Sanitized(old(interviews)))
    {
      if session.None? {
        return Failure(NotAuthenticated);
      }
      var previous := interviews;
      SetInterviews(WithoutId(interviews, id));
      if failure.Some? {
        SetInterviews(previous);
        return Failure(failure.value);
      }
      return Success(());
    }

    /** `updateInterviewNotes(id, notes)` with the session and the update's
        outcome (the returned row). */
    method UpdateInterviewNotes(session: Option<User>, id: string, outcome: Query<Interview>) returns (r: Result<(), string>)
      requires Valid()
      modifies this`interviews, this`cachedInterviews
      ensures Valid()
      ensures session.None? ==> r == Failure(NotAuthenticated)
      ensures session.Some? && outcome.QueryError? ==> r == Failure(outcome.code)
      ensures r.Failure? ==> interviews == old(interviews) && cachedInterviews == old(cachedInterviews)
      ensures session.Some? && outcome.Rows? ==>
                r.Success? && interviews == ReplaceById(old(interviews), id, outcome.data) &&
                cachedInterviews == Some(Sanitized(interviews))
    {
      if session.None? {
        return Failure(NotAuthenticated);
      }
      match outcome {
        case QueryError(code) =>
          return Failure(code);
        case Rows(row) =>
          SetInterviews(ReplaceById(interviews, id, row));
          return Success(());
      }
    }

    /** `fetchFeedbackForInterview(id)` with the query's outcome; `logged`
        says whether an error reaches the console (all but "no rows"). */
    method FetchFeedbackForInterview(id: string, outcome: Query<Option<Feedback>>) returns (logged: bool)
      modifies this`feedback, this`cachedFeedback
      ensures id == "" ==> feedback == old(feedback) && cachedFeedback == old(cachedFeedback) && !logged
      ensures id != "" && outcome.Rows? && outcome.data.Some? ==>
                && feedback == old(feedback)[id := outcome.data.value]
                && cachedFeedback == Some(old(cachedFeedback).GetOr(map[])[id := outcome.data.value])
                && !logged
      ensures id != "" && !(outcome.Rows? && outcome.data.Some?) ==>
                feedback == old(feedback) && cachedFeedback == old(cachedFeedback)
      ensures logged <==> id != "" && outcome.QueryError? && outcome.code != NoRowsCode
    {
      logged := false;
      if id == "" {
        return;
      }
      match outcome {
        case QueryError(code) =>
          logged := code != NoRowsCode;
        case Rows(data) =>
          if data.Some? {
            feedback := feedback[id := data.value];
            var all := cachedFeedback.GetOr(map[]);
            cachedFeedback := Some(all[id := data.value]);
          }
      }
    }

    /** `loadData` at time `now` (and `later`, after the fetch) with the
        session and the fetch's outcome. A valid cache is read from storage
        without a fetch; otherwise the list is fetched and a new timestamp
        written, whether or not the fetch succeeded. */
    method LoadData(now: int, later: int, session: Option<User>, outcome: Query<Option<seq<Interview>>>)
      requires Valid()
      modifies this
      ensures Valid()
      ensures !loading && user == session
      ensures var valid := old(cachedTimestamp).Some? && IsCacheValid(now, old(cachedTimestamp).value);
              && (session.None? ==>
                    && interviews == old(interviews) && feedback == old(feedback)
                    && cachedInterviews == old(cachedInterviews) && cachedTimestamp == old(cachedTimestamp))
              && (session.Some? && valid ==>
                    && interviews == old(cachedInterviews).GetOr(old(interviews))
                    && feedback == old(cachedFeedback).GetOr(old(feedback))
                    && cachedInterviews == old(cachedInterviews) && cachedTimestamp == old(cachedTimestamp))
              && (session.Some? && !valid ==>
                    && cachedTimestamp == Some(later) && feedback == old(feedback)
                    && (HasUserId(session) && outcome.Rows? ==>
                          var rows := outcome.data.GetOr([]);
                          interviews == rows && cachedInterviews == Some(Sanitized(rows)))
                    && (!HasUserId(session) || outcome.QueryError? ==>
                          interviews == old(interviews) && cachedInterviews == old(cachedInterviews)))
      ensures cachedFeedback == old(cachedFeedback)
    {
      loading := true;
      var valid := cachedTimestamp.Some? && IsCacheValid(now, cachedTimestamp.value);
      user := session;
      if session.Some? {
        if valid {
          if cachedInterviews.Some? {
            interviews := cachedInterviews.value;
          }
          if cachedFeedback.Some? {
            feedback := cachedFeedback.value;
          }
        } else {
          FetchInterviews(session, outcome);
          cachedTimestamp := Some(later);
        }
      }
      loading := false;
    }

    /** The auth listener: `SIGNED_IN` sets the user, writes a timestamp and
        fetches (nothing is fetched for a user id of `""`); `SIGNED_OUT` signs out; other events are ignored. */
    method OnAuthStateChange(event: string, session: User, now: int, outcome: Query<Option<seq<Interview>>>)
      requires Valid()
      modifies this
      ensures Valid()
      ensures loading == old(loading)
      ensures event == "SIGNED_IN" ==>
                && user == Some(session) && cachedTimestamp == Some(now)
                && feedback == old(feedback) && cachedFeedback == old(cachedFeedback)
                && (session.id != "" && outcome.Rows? ==>
                      var rows := outcome.data.GetOr([]);
                      interviews == rows && cachedInterviews == Some(Sanitized(rows)))
                && (session.id == "" || outcome.QueryError? ==>
                      interviews == old(interviews) && cachedInterviews == old(cachedInterviews))
      ensures event == "SIGNED_OUT" ==>
                && user.None? && interviews == [] && feedback == map[]
                && cachedInterviews.None? && cachedFeedback.None? && cachedTimestamp.None?
      ensures event != "SIGNED_IN" && event != "SIGNED_OUT" ==>
                && user == old(user) && interviews == old(interviews) && feedback == old(feedback)
                && cachedInterviews == old(cachedInterviews) && cachedFeedback == old(cachedFeedback)
                && cachedTimestamp == old(cachedTimestamp)
    {
      if event == "SIGNED_IN" {
        user := Some(session);
        cachedTimestamp := Some(now);
        FetchInterviews(Some(session), outcome);
      } else if event == "SIGNED_OUT" {
        SignOutUser();
      }
    }
  }
}

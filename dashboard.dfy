/**
 * The dashboard page of `src/app/dashboard/page.js`: the difficulty colour
 * of an interview card, and the delete confirmation with its refetch. The
 * Supabase calls are parameters; the page's state is a class.
 */
module Dashboard {
  import opened Wrappers
  import opened Strings
  import opened Cache

  const Green := "text-green-400"
  const Yellow := "text-yellow-400"
  const Red := "text-red-400"
  const Gray := "text-gray-400"
  const DeleteFailed := "Failed to delete interview. Please try again."

  /** The lower-case names an object literal inherits from `Object.prototype`
      (only those can equal a lower-cased level). Both are truthy: one is a
      function, the other the prototype object. */
  predicate InheritedLowerCaseName(key: string) {
    key == "constructor" || key == "__proto__"
  }

  /** The value of a property of the `colors` literal. */
  datatype Lookup = ClassName(name: string) | InheritedMember(key: string)

  /** `colors[key]`: an own entry, an inherited member, or `undefined`. */
  function ColorsEntry(key: string): Option<Lookup> {
    if key == "easy" then Some(ClassName(Green))
    else if key == "medium" then Some(ClassName(Yellow))
    else if key == "hard" then Some(ClassName(Red))
    else if InheritedLowerCaseName(key) then Some(InheritedMember(key))
    else None
  }

  /** `getDifficultyColor` as written: `colors[level.toLowerCase()] || 'text-gray-400'`. */
  function DifficultyColorAsWritten(level: string): (r: Lookup)
    ensures ColorsEntry(ToLower(level)).Some? ==> r == ColorsEntry(ToLower(level)).value
    ensures ColorsEntry(ToLower(level)).None? ==> r == ClassName(Gray)
  {
    match ColorsEntry(ToLower(level))
    case Some(v) => v
    case None => ClassName(Gray)
  }

  /** A level whose lower-case form is an inherited member name yields that
      member, not a class name. */
  lemma InheritedLevel(level: string)
    requires InheritedLowerCaseName(ToLower(level))
    ensures DifficultyColorAsWritten(level) == InheritedMember(ToLower(level))
  {
  }

  /** The level "Constructor" is one such level. */
  lemma ConstructorLevel()
    ensures DifficultyColorAsWritten("Constructor") == InheritedMember("constructor")
  {
    var level := "Constructor";
    LowerOf(level, "constructor");
    InheritedLevel(level);
  }

  /** `t` is the lower-case form of `s` when it is so character by character. */
  lemma LowerOf(s: string, t: string)
    requires |s| == |t|
    requires forall i :: 0 <= i < |s| ==> LowerChar(s[i]) == t[i]
    ensures ToLower(s) == t
  {
  }

  /** The colour the lookup is meant to give: the three known levels, in
      any letter case, and gray for everything else. */
  function DifficultyColor(level: string): (r: string)
    ensures ToLower(level) == "easy" ==> r == Green
    ensures ToLower(level) == "medium" ==> r == Yellow
    ensures ToLower(level) == "hard" ==> r == Red
    ensures !(ToLower(level) in {"easy", "medium", "hard"}) ==> r == Gray
  {
    var key := ToLower(level);
    if key == "easy" then Green
    else if key == "medium" then Yellow
    else if key == "hard" then Red
    else Gray
  }

  /** Lower-casing twice is lower-casing once. */
  lemma {:induction false} ToLowerIdempotent(s: string)
    ensures ToLower(ToLower(s)) == ToLower(s)
  {
    var t := ToLower(s);
    var u := ToLower(t);
    forall i | 0 <= i < |s|
      ensures u[i] == t[i]
    {
      assert t[i] == LowerChar(s[i]);
    }
  }

  /** The colour ignores letter case, and the written lookup agrees with
      the intended one on every level that is not an inherited name. */
  lemma DifficultyColorCaseInsensitive(level: string)
    ensures DifficultyColor(ToLower(level)) == DifficultyColor(level)
    ensures !InheritedLowerCaseName(ToLower(level)) ==>
              DifficultyColorAsWritten(level) == ClassName(DifficultyColor(level))
  {
    ToLowerIdempotent(level);
  }

  /** The interview cards, the pending delete confirmation, and the alerts
      the page raised. */
  class DashboardState {
    var user: Option<User>
    var interviews: seq<Interview>
    var deleteConfirmation: Option<Interview>
    var alerts: seq<string>
    var deleteRequests: seq<string>

    constructor (user: Option<User>)
      ensures this.user == user && interviews == [] && deleteConfirmation.None?
      ensures alerts == [] && deleteRequests == []
    {
      this.user := user;
      interviews := [];
      deleteConfirmation := None;
      alerts := [];
      deleteRequests := [];
    }

    /** The card's delete button opens the confirmation for that interview. */
    method AskToDelete(interview: Interview)
      modifies this
      ensures deleteConfirmation == Some(interview)
      ensures user == old(user) && interviews == old(interviews)
      ensures alerts == old(alerts) && deleteRequests == old(deleteRequests)
    {
      deleteConfirmation := Some(interview);
    }

    /** The confirmation's cancel button. */
    method CancelDelete()
      modifies this
      ensures deleteConfirmation.None?
      ensures user == old(user) && interviews == old(interviews)
      ensures alerts == old(alerts) && deleteRequests == old(deleteRequests)
    {
      deleteConfirmation := None;
    }

    /** `fetchInterviews`: nothing without a user; the rows (or `[]` for
        `null` data) on success; a failed query is only logged. */
    method FetchInterviews(outcome: Query<Option<seq<Interview>>>)
      modifies this
      ensures old(user).None? || outcome.QueryError? ==> interviews == old(interviews)
      ensures old(user).Some? && outcome.Rows? ==> interviews == outcome.data.GetOr([])
      ensures user == old(user) && deleteConfirmation == old(deleteConfirmation)
      ensures alerts == old(alerts) && deleteRequests == old(deleteRequests)
    {
      if user.Some? && outcome.Rows? {
        interviews := outcome.data.GetOr([]);
      }
    }

    /** `handleDeleteInterview`: `deleteError` is the delete call's error and
        `refetch` what the following `fetchInterviews` query returns. A failed
        delete alerts and keeps the confirmation open; a successful one
        refetches and then closes it, whatever the refetch returned. */
    method HandleDeleteInterview(id: string, deleteError: Option<string>, refetch: Query<Option<seq<Interview>>>)
      modifies this
      ensures deleteRequests == old(deleteRequests) + [id]
      ensures user == old(user)
      ensures deleteError.Some? ==>
                && alerts == old(alerts) + [DeleteFailed]
                && deleteConfirmation == old(deleteConfirmation)
                && interviews == old(interviews)
      ensures deleteError.None? ==>
                && alerts == old(alerts)
                && deleteConfirmation.None?
                && (old(user).Some? && refetch.Rows? ==> interviews == refetch.data.GetOr([]))
                && (old(user).None? || refetch.QueryError? ==> interviews == old(interviews))
    {
      deleteRequests := deleteRequests + [id];
      if deleteError.Some? {
        alerts := alerts + [DeleteFailed];
      } else {
        FetchInterviews(refetch);
        deleteConfirmation := None;
      }
    }
  }
}

/** Admission of a Telegram user by the configured allow-list of user ids
    (`ALLOWED_USER_IDS`, fixed once the process has loaded its environment). */
module Auth {

  /** `is_user_allowed`: an empty allow-list admits everyone, otherwise a user
      is admitted exactly when the id is listed. */
  function IsUserAllowed(userId: int, allowed: set<int>): (r: bool)
    ensures allowed == {} ==> r
    ensures allowed != {} ==> (r <==> userId in allowed)
  {
    |allowed| == 0 || userId in allowed
  }

  /** The users of a population `ids` that the allow-list admits. */
  function Admitted(ids: set<int>, allowed: set<int>): (r: set<int>)
    ensures forall u :: u in r <==> u in ids && IsUserAllowed(u, allowed)
  {
    set u | u in ids && IsUserAllowed(u, allowed)
  }

  /** Over any population, the admitted users are all of them when the list
      is empty and exactly the listed ones otherwise. */
  lemma AdmittedIsPopulationOrIntersection(ids: set<int>, allowed: set<int>)
    ensures allowed == {} ==> Admitted(ids, allowed) == ids
    ensures allowed != {} ==> Admitted(ids, allowed) == ids * allowed
  {
  }

  /** The empty list is not the smallest: the first id written into it
      locks out everyone else. */
  lemma FirstEntryRestricts(x: int, y: int)
    requires x != y
    ensures IsUserAllowed(y, {}) && !IsUserAllowed(y, {x})
  {
  }

  /** Growing a non-empty list only admits more users. */
  lemma GrowingNonEmptyListAdmitsMore(u: int, small: set<int>, large: set<int>)
    requires small != {} && small <= large
    requires IsUserAllowed(u, small)
    ensures IsUserAllowed(u, large)
  {
  }
}

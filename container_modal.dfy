/**
 * components/container-modal.tsx: the gate that runs after sign-in. A user
 * without a goal gets the profile dialog; a user with one gets today's
 * weigh-in looked up, and the check-in dialog when none is found. The
 * component holds `openDataModal`, `openDailyModal`, the three-valued
 * `todayCheckedIn` (unknown, yes, no) and the page's scroll lock.
 *
 * Every event method performs its state change and then the effects React
 * runs after the resulting render: the check-in effect, which only runs
 * when one of its dependencies (`todayCheckedIn`, `openDataModal`)
 * changed since it last ran, and the scroll-lock effect.
 */
module ContainerModal {
  import opened Wrappers
  import opened Types
  import opened CivilDates

  /** One item of the daily weigh-in list. */
  datatype DailyLog = DailyLog(logDate: string, weight: real)

  /**
   * The answer to the daily lookup: a transport or HTTP failure, or a body
   * whose `data.items` may be missing.
   */
  datatype DailyResponse = RequestFailed | Answered(items: Option<seq<DailyLog>>)

  /** `getToday`: today's `YYYY-MM-DD` as `toISOString().slice(0, 10)` gives it. */
  function GetToday(today: Date): (s: string)
    requires Valid(today) && 0 <= today.year <= 9999
    ensures |s| == 10 && IsFullDate(s) && ParseIso(s) == Some(today)
  {
    FormatThenParse(today);
    FormatIso(today)
  }

  /**
   * The single-day, single-item lookup of today's weigh-in: both ends of
   * the range read back as today, and at most one entry is asked for.
   */
  function DailyUrl(today: Date): (url: string)
    requires Valid(today) && 0 <= today.year <= 9999
    ensures |url| == 69 && url[..32] == "/weights?period=daily&date_from=" && url[42..51] == "&date_to="
    ensures url[61..] == "&limit=1"
    ensures ParseIso(url[32..42]) == Some(today) && ParseIso(url[51..61]) == Some(today)
  {
    var t := GetToday(today);
    var url := "/weights?period=daily&date_from=" + t + "&date_to=" + t + "&limit=1";
    assert url[..32] == "/weights?period=daily&date_from=" && url[42..51] == "&date_to=";
    assert url[32..42] == t && url[51..61] == t;
    url
  }

  /** `checkDaily`: checked in when the list is non-empty; a missing list is empty and a failure means no. */
  function CheckedIn(response: DailyResponse): (r: bool)
    ensures r <==> response.Answered? && response.items.Some? && |response.items.value| > 0
    ensures response == RequestFailed ==> !r
  {
    match response
    case RequestFailed => false
    case Answered(items) => |items.GetOr([])| > 0
  }

  /** `currentWeight={user?.current_weight_kg || 0}`. */
  function DailyModalWeight(user: Option<User>): (w: real)
    ensures user.Some? && user.value.currentWeightKg.Some? && user.value.currentWeightKg.value != 0.0 ==>
      w == user.value.currentWeightKg.value
    ensures user.None? || user.value.currentWeightKg.None? ==> w == 0.0
  {
    if user.None? then 0.0 else OrZero(user.value.currentWeightKg)
  }

  class Gate {
    var openDataModal: bool
    var openDailyModal: bool
    var todayCheckedIn: Option<bool>
    var scrollLocked: bool
    /** The daily lookups sent so far. */
    var requests: seq<string>
    /** The dependencies the check-in effect last ran with. */
    var seenCheckedIn: Option<bool>
    var seenDataOpen: bool

    /** After every commit the lock matches the dialogs and the check-in effect has seen the current state. */
    predicate Valid()
      reads this
    {
      scrollLocked == (openDataModal || openDailyModal) &&
      seenCheckedIn == todayCheckedIn && seenDataOpen == openDataModal
    }

    /** Mount: both dialogs closed, the check-in unknown, nothing sent, the page scrollable. */
    constructor()
      ensures Valid()
      ensures !openDataModal && !openDailyModal && todayCheckedIn == None && !scrollLocked && requests == []
    {
      openDataModal := false;
      openDailyModal := false;
      todayCheckedIn := None;
      scrollLocked := false;
      requests := [];
      seenCheckedIn := None;
      seenDataOpen := false;
    }

    /**
     * The effects after a render: the check-in effect (only if its
     * dependencies changed) opens the daily dialog when today is known
     * not to be checked in and the profile dialog is closed; then the
     * lock follows the dialogs.
     */
    method Commit()
      modifies this
      ensures Valid()
      ensures openDataModal == old(openDataModal) && todayCheckedIn == old(todayCheckedIn) && requests == old(requests)
      ensures ((old(todayCheckedIn) != old(seenCheckedIn) || old(openDataModal) != old(seenDataOpen)) &&
               todayCheckedIn == Some(false) && !openDataModal) ==> openDailyModal
      ensures openDailyModal != old(openDailyModal) ==>
        openDailyModal && todayCheckedIn == Some(false) && !openDataModal
      ensures old(todayCheckedIn) == old(seenCheckedIn) && old(openDataModal) == old(seenDataOpen) ==>
        openDailyModal == old(openDailyModal)
    {
      if todayCheckedIn != seenCheckedIn || openDataModal != seenDataOpen {
        seenCheckedIn := todayCheckedIn;
        seenDataOpen := openDataModal;
        if todayCheckedIn == Some(false) && !openDataModal {
          openDailyModal := true;
        }
      }
      scrollLocked := openDataModal || openDailyModal;
    }

    /**
     * The user query produced a new value. No user: nothing happens. A
     * user without a goal: the profile dialog opens and no lookup is sent.
     * Otherwise today's lookup is sent.
     */
    method UserChanged(user: Option<User>, today: Date)
      requires Valid() && CivilDates.Valid(today) && 0 <= today.year <= 9999
      modifies this
      ensures Valid()
      ensures todayCheckedIn == old(todayCheckedIn)
      ensures user.None? ==> openDataModal == old(openDataModal) && openDailyModal == old(openDailyModal) && requests == old(requests)
      ensures user.Some? && user.value.goalType.None? ==> openDataModal && requests == old(requests)
      ensures user.Some? && user.value.goalType.None? ==> openDailyModal == old(openDailyModal)
      ensures user.Some? && user.value.goalType.Some? ==>
        requests == old(requests) + [DailyUrl(today)] &&
        openDataModal == old(openDataModal) && openDailyModal == old(openDailyModal)
    {
      if user.None? {
        Commit();
        return;
      }
      if user.value.goalType.None? {
        openDataModal := true;
        Commit();
        return;
      }
      requests := requests + [DailyUrl(today)];
      Commit();
    }

    /** The lookup settled: `todayCheckedIn` becomes yes or no, and the daily dialog may open. */
    method DailyAnswered(response: DailyResponse)
      requires Valid()
      modifies this
      ensures Valid()
      ensures todayCheckedIn == Some(CheckedIn(response))
      ensures openDataModal == old(openDataModal) && requests == old(requests)
      ensures openDailyModal <==>
        old(openDailyModal) ||
        (old(todayCheckedIn) != Some(CheckedIn(response)) && !CheckedIn(response) && !openDataModal)
    {
      todayCheckedIn := Some(CheckedIn(response));
      Commit();
    }

    /** The profile dialog's `onClose`: only its own flag is cleared; a pending "no" may now open the daily dialog. */
    method CloseDataModal()
      requires Valid()
      modifies this
      ensures Valid()
      ensures !openDataModal && todayCheckedIn == old(todayCheckedIn) && requests == old(requests)
      ensures openDailyModal <==> old(openDailyModal) || (old(openDataModal) && todayCheckedIn == Some(false))
    {
      openDataModal := false;
      Commit();
    }

    /** The daily dialog's `onClose`: only its own flag is cleared, and it stays closed. */
    method CloseDailyModal()
      requires Valid()
      modifies this
      ensures Valid()
      ensures !openDailyModal
      ensures openDataModal == old(openDataModal) && todayCheckedIn == old(todayCheckedIn) && requests == old(requests)
    {
      openDailyModal := false;
      Commit();
    }

    /** Unmounting runs the lock effect's cleanup. */
    method Unmount()
      modifies this
      ensures !scrollLocked
      ensures openDataModal == old(openDataModal) && openDailyModal == old(openDailyModal)
      ensures todayCheckedIn == old(todayCheckedIn) && requests == old(requests)
    {
      scrollLocked := false;
    }
  }

  /** A user who already has a goal, whose lookup finds no weigh-in, is shown the daily dialog. */
  method NoWeighInOpensDaily(user: User, today: Date) returns (g: Gate)
    requires CivilDates.Valid(today) && 0 <= today.year <= 9999 && user.goalType.Some?
    ensures g.Valid() && g.openDailyModal && !g.openDataModal && g.scrollLocked
    ensures g.requests == [DailyUrl(today)]
  {
    g := new Gate();
    g.UserChanged(Some(user), today);
    g.DailyAnswered(Answered(Some([])));
  }

  /** A user without a goal sees only the profile dialog and no lookup is ever sent. */
  method NoGoalOpensProfile(user: User, today: Date) returns (g: Gate)
    requires CivilDates.Valid(today) && 0 <= today.year <= 9999 && user.goalType.None?
    ensures g.Valid() && g.openDataModal && !g.openDailyModal && g.scrollLocked && g.requests == []
  {
    g := new Gate();
    g.UserChanged(Some(user), today);
  }
}

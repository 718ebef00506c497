/**
 * The login activity list (app/components/LoginActivity.tsx): five fixed
 * entries, a filter chosen by three tabs, and the action buttons each
 * entry shows according to its status.
 */
module LoginActivityView {
  datatype Status = Success | Safe | Suspicious

  /** The tabs: the filter state can only take these three values. */
  datatype Filter = All | OnlySuccess | OnlySuspicious

  const InitialFilter: Filter := All

  datatype DeviceType = Mobile | Desktop

  datatype Activity = Activity(id: string, device: string, deviceType: DeviceType, location: string,
                               action: string, time: string, status: Status)

  /** The sample entries, in display order. */
  const Activities: seq<Activity> := [
    Activity("1", "iPhone 14 Pro", Mobile, "San Francisco, CA", "Face ID login successful", "2 mins ago", Success),
    Activity("2", "MacBook Pro", Desktop, "San Francisco, CA", "Password login attempt", "Yesterday", Safe),
    Activity("3", "Windows Desktop", Desktop, "New York, NY", "Failed login attempt (3x)", "2 days ago", Suspicious),
    Activity("4", "iPad Air", Mobile, "San Francisco, CA", "Touch ID login successful", "3 days ago", Success),
    Activity("5", "Android Phone", Mobile, "Los Angeles, CA", "Fingerprint login successful", "5 days ago", Success)
  ]

  /** `activities.filter(a => a.status === status)`. */
  function WithStatus(xs: seq<Activity>, status: Status): seq<Activity> {
    if xs == [] then []
    else (if xs[0].status == status then [xs[0]] else []) + WithStatus(xs[1..], status)
  }

  /** `filteredActivities`. */
  function FilteredActivities(filter: Filter): seq<Activity> {
    match filter
    case All => Activities
    case OnlySuccess => WithStatus(Activities, Success)
    case OnlySuspicious => WithStatus(Activities, Suspicious)
  }

  /** The status filter keeps exactly the entries of that status, each as often as it occurs. */
  lemma {:induction false} WithStatusExact(xs: seq<Activity>, status: Status)
    ensures var r := WithStatus(xs, status);
      && (forall x :: multiset(r)[x] == if x.status == status then multiset(xs)[x] else 0)
      && (forall x :: x in r <==> x in xs && x.status == status)
      && (forall i :: 0 <= i < |r| ==> r[i].status == status)
  {
    if xs != [] {
      WithStatusExact(xs[1..], status);
      assert xs == [xs[0]] + xs[1..];
    }
  }

  /** The status filter keeps the order: filtering a concatenation concatenates the filtered parts. */
  lemma {:induction false} WithStatusKeepsOrder(a: seq<Activity>, b: seq<Activity>, status: Status)
    ensures WithStatus(a + b, status) == WithStatus(a, status) + WithStatus(b, status)
  {
    if a != [] {
      var c := a + b;
      assert c != [] && c[0] == a[0] && c[1..] == a[1..] + b;
      WithStatusKeepsOrder(a[1..], b, status);
    } else {
      assert a + b == b;
    }
  }

  /** The ids listed under a filter. */
  function Ids(xs: seq<Activity>): (r: seq<string>)
    ensures |r| == |xs| && forall i :: 0 <= i < |xs| ==> r[i] == xs[i].id
  {
    if xs == [] then [] else [xs[0].id] + Ids(xs[1..])
  }

  /**
   * "All" lists all five entries in order; "Successful" lists ids 1, 4
   * and 5; "Suspicious" lists id 3.
   */
  lemma TabContents()
    ensures Ids(FilteredActivities(All)) == ["1", "2", "3", "4", "5"]
    ensures Ids(FilteredActivities(OnlySuccess)) == ["1", "4", "5"]
    ensures Ids(FilteredActivities(OnlySuspicious)) == ["3"]
  {
    var a := Activities;
    assert a == [a[0]] + [a[1]] + [a[2]] + [a[3]] + [a[4]];
    WithStatusKeepsOrder([a[0]] + [a[1]] + [a[2]] + [a[3]], [a[4]], Success);
    WithStatusKeepsOrder([a[0]] + [a[1]] + [a[2]], [a[3]], Success);
    WithStatusKeepsOrder([a[0]] + [a[1]], [a[2]], Success);
    WithStatusKeepsOrder([a[0]], [a[1]], Success);
    WithStatusKeepsOrder([a[0]] + [a[1]] + [a[2]] + [a[3]], [a[4]], Suspicious);
    WithStatusKeepsOrder([a[0]] + [a[1]] + [a[2]], [a[3]], Suspicious);
    WithStatusKeepsOrder([a[0]] + [a[1]], [a[2]], Suspicious);
    WithStatusKeepsOrder([a[0]], [a[1]], Suspicious);
  }

  /**
   * Every filter shows entries of its own status only, in the list's
   * order; a "safe" entry shows up only under "All", since no tab
   * selects that status.
   */
  lemma FilterShowsOwnStatus(filter: Filter, x: Activity)
    ensures filter == OnlySuccess ==> forall y :: y in FilteredActivities(filter) ==> y.status == Success
    ensures filter == OnlySuspicious ==> forall y :: y in FilteredActivities(filter) ==> y.status == Suspicious
    ensures x in FilteredActivities(filter) && x.status == Safe ==> filter == All
    ensures x in Activities && filter != All ==>
      (x in FilteredActivities(filter) <==> x.status == (if filter == OnlySuccess then Success else Suspicious))
  {
    match filter
    case All =>
    case OnlySuccess => WithStatusExact(Activities, Success);
    case OnlySuspicious => WithStatusExact(Activities, Suspicious);
  }

  /** The buttons under an entry. */
  datatype ActionButton = Report | MarkAsSafe

  function Actions(status: Status): seq<ActionButton> {
    if status == Success then []
    else if status == Suspicious then [Report, MarkAsSafe]
    else [MarkAsSafe]
  }

  /**
   * A successful login offers no action, every other entry offers "Mark as
   * Safe", and only a suspicious one offers "Report", before it.
   */
  lemma ActionsByStatus(status: Status)
    ensures Actions(status) == [] <==> status == Success
    ensures status != Success ==> MarkAsSafe in Actions(status) && Actions(status)[|Actions(status)| - 1] == MarkAsSafe
    ensures Report in Actions(status) <==> status == Suspicious
    ensures Report in Actions(status) ==> Actions(status)[0] == Report
  {
  }
}

/**
 * The driver records the dashboard lists, and the selection rule that turns
 * the fetched list, the selected tab and the search box into the rows shown.
 */
module DriverFilter {
  import opened Wrappers
  import opened Text

  /**
   * A driver record as the listing endpoint returns it. Only the fields the
   * dashboard's logic reads are kept; `full_name` may be missing.
   */
  datatype Driver = Driver(
    id: int,
    full_name: Option<string>,
    is_pending: int,
    is_verified: int,
    verification_status: string,
    license_number: string,
    nic_number: string)

  /** The tab rule: `all` passes everything, the other three test one field each. */
  predicate PassesTab(d: Driver, tab: string) {
    tab == "all"
    || (tab == "pending" && d.is_pending == 1)
    || (tab == "verified" && d.is_verified == 1)
    || (tab == "rejected" && d.verification_status == "rejected")
  }

  /**
   * The search rule: the driver has a name, and the lower-cased query occurs
   * in the lower-cased name. A missing name never matches.
   */
  predicate MatchesQuery(d: Driver, query: string) {
    d.full_name.Some? && Includes(ToLower(d.full_name.value), ToLower(query))
  }

  predicate Keep(d: Driver, tab: string, query: string) {
    PassesTab(d, tab) && MatchesQuery(d, query)
  }

  /** `drivers.filter(...)`: the drivers that pass both rules, in list order. */
  function FilteredDrivers(drivers: seq<Driver>, tab: string, query: string): seq<Driver>
    decreases |drivers|
  {
    if drivers == [] then []
    else if Keep(drivers[0], tab, query) then [drivers[0]] + FilteredDrivers(drivers[1..], tab, query)
    else FilteredDrivers(drivers[1..], tab, query)
  }

  /** `xs` is `ys` with some elements dropped and the rest in their original order. */
  predicate IsSubsequence<T(==)>(xs: seq<T>, ys: seq<T>)
    decreases |ys|
  {
    xs == []
    || (ys != [] && ((xs[0] == ys[0] && IsSubsequence(xs[1..], ys[1..])) || IsSubsequence(xs, ys[1..])))
  }

  /** The filter keeps the relative order of the drivers it keeps. */
  lemma {:induction false} FilterIsSubsequence(drivers: seq<Driver>, tab: string, query: string)
    ensures IsSubsequence(FilteredDrivers(drivers, tab, query), drivers)
    decreases |drivers|
  {
    if drivers != [] {
      FilterIsSubsequence(drivers[1..], tab, query);
    }
  }

  /**
   * The filter keeps exactly the drivers that pass both rules, each as many
   * times as it occurs in the list, and drops every other driver.
   */
  lemma {:induction false} FilterCounts(drivers: seq<Driver>, tab: string, query: string)
    ensures forall d :: multiset(FilteredDrivers(drivers, tab, query))[d]
                        == if Keep(d, tab, query) then multiset(drivers)[d] else 0
    decreases |drivers|
  {
    if drivers != [] {
      FilterCounts(drivers[1..], tab, query);
      assert drivers == [drivers[0]] + drivers[1..];
    }
  }

  /** A driver is shown exactly when it is in the list and passes both rules. */
  lemma FilterMembership(drivers: seq<Driver>, tab: string, query: string, d: Driver)
    ensures d in FilteredDrivers(drivers, tab, query) <==> d in drivers && Keep(d, tab, query)
  {
  }

  /**
   * Every shown driver passes the tab rule and has a name, so rendering its
   * initial never meets a missing name.
   */
  lemma ShownDriversAreNamed(drivers: seq<Driver>, tab: string, query: string)
    ensures forall d :: d in FilteredDrivers(drivers, tab, query) ==>
              PassesTab(d, tab) && d.full_name.Some?
              && Includes(ToLower(d.full_name.value), ToLower(query))
  {
  }

  /** A tab value other than the four the page offers shows nothing. */
  lemma {:induction false} UnknownTabShowsNothing(drivers: seq<Driver>, tab: string, query: string)
    requires tab != "all" && tab != "pending" && tab != "verified" && tab != "rejected"
    ensures FilteredDrivers(drivers, tab, query) == []
    decreases |drivers|
  {
    if drivers != [] {
      UnknownTabShowsNothing(drivers[1..], tab, query);
    }
  }

  /** With an empty search box every named driver that passes the tab rule is shown. */
  lemma EmptyQueryKeepsNamed(drivers: seq<Driver>, tab: string, d: Driver)
    requires d in drivers
    ensures d in FilteredDrivers(drivers, tab, "") <==> PassesTab(d, tab) && d.full_name.Some?
  {
    FilterMembership(drivers, tab, "", d);
    if d.full_name.Some? {
      IncludesIff(ToLower(d.full_name.value), "");
      assert OccursAt(ToLower(d.full_name.value), "", 0);
    }
  }

  /** Two queries that agree after lower-casing select the same drivers. */
  lemma {:induction false} FilterIgnoresQueryCase(drivers: seq<Driver>, tab: string, q1: string, q2: string)
    requires ToLower(q1) == ToLower(q2)
    ensures FilteredDrivers(drivers, tab, q1) == FilteredDrivers(drivers, tab, q2)
    decreases |drivers|
  {
    if drivers != [] {
      FilterIgnoresQueryCase(drivers[1..], tab, q1, q2);
    }
  }

  /** Filtering the shown rows again with the same tab and query changes nothing. */
  lemma {:induction false} FilterIdempotent(drivers: seq<Driver>, tab: string, query: string)
    ensures FilteredDrivers(FilteredDrivers(drivers, tab, query), tab, query)
            == FilteredDrivers(drivers, tab, query)
    decreases |drivers|
  {
    if drivers != [] {
      FilterIdempotent(drivers[1..], tab, query);
      var rest := FilteredDrivers(drivers[1..], tab, query);
      if Keep(drivers[0], tab, query) {
        assert ([drivers[0]] + rest)[1..] == rest;
      }
    }
  }

  /**
   * The two-driver scenario: Alice is pending, Bob is verified. The pending
   * tab with an empty query shows only Alice; all drivers with query "bo"
   * show only Bob.
   */
  lemma TwoDriverScenario(alice: Driver, bob: Driver)
    requires alice.id == 1 && alice.full_name == Some("Alice") && alice.is_pending == 1 && alice.is_verified == 0
    requires bob.id == 2 && bob.full_name == Some("Bob") && bob.is_pending == 0 && bob.is_verified == 1
    ensures FilteredDrivers([alice, bob], "pending", "") == [alice]
    ensures FilteredDrivers([alice, bob], "all", "bo") == [bob]
  {
    assert ToLower("Alice") == "alice";
    assert ToLower("Bob") == "bob";
    assert ToLower("bo") == "bo";
    assert ToLower("") == "";
    assert Keep(alice, "pending", "") by {
      assert "" <= "alice";
    }
    assert !PassesTab(bob, "pending");
    assert [alice, bob][1..] == [bob];
    assert FilteredDrivers([bob], "pending", "") == [];
    assert Keep(bob, "all", "bo") by {
      assert "bo" <= "bob";
    }
    assert !Includes("alice", "bo") by {
      assert "alice"[1..] == "lice" && "lice"[1..] == "ice" && "ice"[1..] == "ce";
      assert "ce"[1..] == "e" && "e"[1..] == "";
    }
    assert !Keep(alice, "all", "bo");
    assert FilteredDrivers([bob], "all", "bo") == [bob];
  }
}

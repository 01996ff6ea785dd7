/**
 * The bus-selection page: the fixed fleet, the rule that a bus under maintenance
 * cannot be chosen, and the two header figures (active buses, riders on board).
 */
module BusSelection {
  import opened Maybe

  datatype BusStatus = Active | Delayed | Maintenance

  datatype BusInfo = BusInfo(
    id: int,
    route: string,
    startPoint: string,
    endPoint: string,
    status: BusStatus,
    eta: string,
    passengers: nat,
    maxPassengers: nat,
    rating: real)

  const Fleet: seq<BusInfo> := [
    BusInfo(1, "Route 1", "Banjara Hills", "College", Active, "5 min", 28, 45, 4.8),
    BusInfo(2, "Route 2", "Hitech City", "College", Active, "12 min", 35, 45, 4.6),
    BusInfo(3, "Route 3", "Secunderabad", "College", Delayed, "18 min", 22, 45, 4.5),
    BusInfo(4, "Route 4", "Kukatpally", "College", Active, "8 min", 31, 45, 4.7),
    BusInfo(5, "Route 5", "Dilsukhnagar", "College", Active, "15 min", 19, 45, 4.4),
    BusInfo(6, "Route 6", "Gachibowli", "College", Maintenance, "--", 0, 45, 4.3),
    BusInfo(7, "Route 7", "LB Nagar", "College", Active, "20 min", 40, 45, 4.2),
    BusInfo(8, "Route 8", "Kompally", "College", Active, "25 min", 15, 45, 4.6),
    BusInfo(9, "Route 9", "Nizampet", "College", Delayed, "30 min", 25, 45, 4.1)
  ]

  /** `Array.prototype.find`: the first bus with that id, if any. */
  function Find(buses: seq<BusInfo>, id: int): (found: Option<BusInfo>)
    ensures found.None? <==> forall i :: 0 <= i < |buses| ==> buses[i].id != id
    ensures found.Some? ==>
      exists i :: 0 <= i < |buses| && buses[i] == found.value && buses[i].id == id &&
        (forall j :: 0 <= j < i ==> buses[j].id != id)
  {
    if buses == [] then None
    else if buses[0].id == id then Some(buses[0])
    else
      var rest := Find(buses[1..], id);
      if rest.Some? then
        assert forall j :: 1 <= j < |buses| ==> buses[j] == buses[1..][j - 1];
        rest
      else rest
  }

  /** A bus can be chosen when it exists and is not under maintenance. */
  function Selectable(buses: seq<BusInfo>, id: int): (selectable: bool)
    ensures selectable <==>
      exists i :: 0 <= i < |buses| && buses[i].id == id && buses[i].status != Maintenance &&
        (forall j :: 0 <= j < i ==> buses[j].id != id)
  {
    var bus := Find(buses, id);
    bus.Some? && bus.value.status != Maintenance
  }

  /** `filter(b => b.status === 'active')`. */
  function ActiveBuses(buses: seq<BusInfo>): (active: seq<BusInfo>)
    ensures |active| <= |buses|
    ensures forall b :: b in active <==> b in buses && b.status == Active
  {
    if buses == [] then []
    else if buses[0].status == Active then [buses[0]] + ActiveBuses(buses[1..])
    else ActiveBuses(buses[1..])
  }

  /** `filter(...).length`, counted bus by bus. */
  function ActiveCount(buses: seq<BusInfo>): nat {
    if buses == [] then 0 else (if buses[0].status == Active then 1 else 0) + ActiveCount(buses[1..])
  }

  /** The count is the length of the filtered list. */
  lemma {:induction false} ActiveCountIsFilterLength(buses: seq<BusInfo>)
    ensures ActiveCount(buses) == |ActiveBuses(buses)|
  {
    if buses != [] {
      ActiveCountIsFilterLength(buses[1..]);
    }
  }

  /** Counting active buses distributes over joining fleets; delayed and maintenance buses add nothing. */
  lemma {:induction false} ActiveCountAppend(a: seq<BusInfo>, b: seq<BusInfo>)
    ensures ActiveCount(a + b) == ActiveCount(a) + ActiveCount(b)
  {
    if a != [] {
      assert (a + b)[1..] == a[1..] + b;
      ActiveCountAppend(a[1..], b);
    } else {
      assert a + b == b;
    }
  }

  lemma ActiveCountOne(bus: BusInfo)
    ensures ActiveCount([bus]) == if bus.status == Active then 1 else 0
  {
    assert [bus][1..] == [];
  }

  /** `reduce((sum, bus) => sum + bus.passengers, 0)`, folding from the left. */
  function PassengersFrom(sum: nat, buses: seq<BusInfo>): (total: nat)
    ensures total == sum + SumPassengers(buses)
    decreases buses
  {
    if buses == [] then sum else PassengersFrom(sum + buses[0].passengers, buses[1..])
  }

  /** The header's rider total: the passengers of every bus, whatever its status. */
  function TotalPassengers(buses: seq<BusInfo>): (total: nat)
    ensures total == SumPassengers(buses)
  {
    PassengersFrom(0, buses)
  }

  /** The reference sum, from the right. */
  function SumPassengers(buses: seq<BusInfo>): nat {
    if buses == [] then 0 else buses[0].passengers + SumPassengers(buses[1..])
  }

  /** The rider total counts every bus, maintenance and delayed ones included. */
  lemma {:induction false} TotalPassengersAppend(a: seq<BusInfo>, b: seq<BusInfo>)
    ensures TotalPassengers(a + b) == TotalPassengers(a) + TotalPassengers(b)
  {
    SumAppend(a, b);
  }

  lemma {:induction false} SumAppend(a: seq<BusInfo>, b: seq<BusInfo>)
    ensures SumPassengers(a + b) == SumPassengers(a) + SumPassengers(b)
  {
    if a != [] {
      assert (a + b)[1..] == a[1..] + b;
      SumAppend(a[1..], b);
    } else {
      assert a + b == b;
    }
  }

  lemma ActiveCountStep(s: seq<BusInfo>, k: nat)
    requires k < |s|
    ensures ActiveCount(s[k..]) == (if s[k].status == Active then 1 else 0) + ActiveCount(s[k + 1..])
  {
    assert s[k..][1..] == s[k + 1..];
  }

  /** The header figures of the shipped fleet: 6 active buses and 215 riders. */
  lemma FleetActiveCount()
    ensures ActiveCount(Fleet) == 6
  {
    var s := Fleet;
    assert s[9..] == [];
    assert ActiveCount(s[9..]) == 0;
    ActiveCountStep(s, 8); assert ActiveCount(s[8..]) == 0;
    ActiveCountStep(s, 7); assert ActiveCount(s[7..]) == 1;
    ActiveCountStep(s, 6); assert ActiveCount(s[6..]) == 2;
    ActiveCountStep(s, 5); assert ActiveCount(s[5..]) == 2;
    ActiveCountStep(s, 4); assert ActiveCount(s[4..]) == 3;
    ActiveCountStep(s, 3); assert ActiveCount(s[3..]) == 4;
    ActiveCountStep(s, 2); assert ActiveCount(s[2..]) == 4;
    ActiveCountStep(s, 1); assert ActiveCount(s[1..]) == 5;
    ActiveCountStep(s, 0); assert ActiveCount(s[0..]) == 6;
    assert s[0..] == s;
  }

  lemma FoldStep(s: seq<BusInfo>, k: nat, sum: nat)
    requires k < |s|
    ensures PassengersFrom(sum, s[k..]) == PassengersFrom(sum + s[k].passengers, s[k + 1..])
  {
    assert s[k..][1..] == s[k + 1..];
  }

  lemma FleetTotalPassengers()
    ensures TotalPassengers(Fleet) == 215
  {
    var s := Fleet;
    assert s[0..] == s;
    FoldStep(s, 0, 0);   FoldStep(s, 1, 28);  FoldStep(s, 2, 63);
    FoldStep(s, 3, 85);  FoldStep(s, 4, 116); FoldStep(s, 5, 135);
    FoldStep(s, 6, 135); FoldStep(s, 7, 175); FoldStep(s, 8, 190);
    assert s[9..] == [];
  }

  lemma FindStep(s: seq<BusInfo>, k: nat, id: int)
    requires k < |s|
    ensures Find(s[k..], id) == if s[k].id == id then Some(s[k]) else Find(s[k + 1..], id)
  {
    assert s[k..][1..] == s[k + 1..];
  }

  /** Bus 6 exists but is under maintenance, so it cannot be chosen. */
  lemma MaintenanceBusNotSelectable()
    ensures !Selectable(Fleet, 6)
  {
    var s := Fleet;
    assert s[0..] == s;
    FindStep(s, 0, 6); FindStep(s, 1, 6); FindStep(s, 2, 6); FindStep(s, 3, 6); FindStep(s, 4, 6);
    FindStep(s, 5, 6);
  }

  /** Bus 3 is delayed, and a delayed bus can be chosen. */
  lemma DelayedBusSelectable()
    ensures Selectable(Fleet, 3)
  {
    var s := Fleet;
    assert s[0..] == s;
    FindStep(s, 0, 3); FindStep(s, 1, 3); FindStep(s, 2, 3);
  }

  /** No bus has id 10. */
  lemma UnknownBusNotSelectable()
    ensures !Selectable(Fleet, 10)
  {
    var s := Fleet;
    assert s[0..] == s;
    assert s[9..] == [];
    FindStep(s, 0, 10); FindStep(s, 1, 10); FindStep(s, 2, 10); FindStep(s, 3, 10); FindStep(s, 4, 10);
    FindStep(s, 5, 10); FindStep(s, 6, 10); FindStep(s, 7, 10); FindStep(s, 8, 10);
  }

  class BusSelectionPage {
    var selectedBus: Option<int>

    constructor ()
      ensures selectedBus == None
    {
      selectedBus := None;
    }

    /** handleBusSelect: only an existing bus that is not under maintenance becomes selected. */
    method HandleBusSelect(busId: int)
      modifies this
      ensures selectedBus == if Selectable(Fleet, busId) then Some(busId) else old(selectedBus)
    {
      var bus := Find(Fleet, busId);
      if bus.Some? && bus.value.status != Maintenance {
        selectedBus := Some(busId);
      }
    }
  }
}

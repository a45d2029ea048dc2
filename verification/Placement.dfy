/** Choosing which machine takes a queued task. */
module Placement {
  import opened Options

  /** The fields of a queued row that placing it depends on. None of them ever changes. */
  datatype Wish = Wish(project: string, target: Option<string>)

  /** What one machine can currently offer. */
  datatype Inventory = Inventory(index: nat, name: string, projects: seq<(int, string)>, active: nat, reachable: bool)

  datatype Placement =
    | Send(index: nat, machine: string, projectId: int, considered: seq<string>)
    | Wait(reason: string, considered: seq<string>)

  function LowerAscii(c: char): char {
    if 'A' <= c <= 'Z' then (c as int + 32) as char else c
  }

  predicate SameIgnoringCase(a: string, b: string) {
    |a| == |b| && forall i :: 0 <= i < |a| ==> LowerAscii(a[i]) == LowerAscii(b[i])
  }

  function ProjectId(projects: seq<(int, string)>, project: string): Option<int> {
    if projects == [] then None
    else if SameIgnoringCase(projects[0].1, project) then Some(projects[0].0)
    else ProjectId(projects[1..], project)
  }

  predicate Eligible(machine: Inventory, project: string) {
    machine.reachable && ProjectId(machine.projects, project).Some?
  }

  function EligibleOf(fleet: seq<Inventory>, project: string): seq<Inventory> {
    if fleet == [] then []
    else (if Eligible(fleet[0], project) then [fleet[0]] else []) + EligibleOf(fleet[1..], project)
  }

  function NamesOf(machines: seq<Inventory>): (names: seq<string>)
    ensures |names| == |machines|
  {
    if machines == [] then [] else [machines[0].name] + NamesOf(machines[1..])
  }

  /** The first machine doing least. */
  function LeastBusy(machines: seq<Inventory>): Inventory
    requires machines != []
  {
    if |machines| == 1 then machines[0]
    else
      var rest := LeastBusy(machines[1..]);
      if machines[0].active <= rest.active then machines[0] else rest
  }

  function Unreachable(fleet: seq<Inventory>): seq<Inventory> {
    if fleet == [] then []
    else (if fleet[0].reachable then [] else [fleet[0]]) + Unreachable(fleet[1..])
  }

  function Joined(names: seq<string>, between: string): string {
    if names == [] then "" else if |names| == 1 then names[0] else names[0] + between + Joined(names[1..], between)
  }

  function Unsatisfiable(project: string, fleet: seq<Inventory>): string {
    var asleep := NamesOf(Unreachable(fleet));
    if asleep != [] then
      "no machine that answered has a project called " + project + " (" + Joined(asleep, ", ") + " not answering)"
    else
      "no machine has a project called " + project + ". Register it on one."
  }

  /** The position of the first name equal to `target`, letter case aside. */
  function Home(names: seq<string>, target: string): (i: nat)
    ensures i <= |names|
  {
    if names == [] then 0 else if SameIgnoringCase(names[0], target) then 0 else 1 + Home(names[1..], target)
  }

  function PlaceNamed(wish: Wish, target: string, fleet: seq<Inventory>): Placement {
    var at := Home(NamesOf(fleet), target);
    if at == |fleet| then Wait("no machine called " + target + " is configured", [])
    else
      var machine := fleet[at];
      if !machine.reachable then Wait(machine.name + " is not answering", [machine.name])
      else match ProjectId(machine.projects, wish.project)
        case None =>
          Wait(machine.name + " does not have a project called " + wish.project + ". Register it there first.", [machine.name])
        case Some(id) => Send(machine.index, machine.name, id, [machine.name])
  }

  /** A named target is honoured or refused, never redirected. */
  function Place(wish: Wish, fleet: seq<Inventory>): Placement {
    if wish.target.Some? then PlaceNamed(wish, wish.target.value, fleet)
    else
      var eligible := EligibleOf(fleet, wish.project);
      var considered := NamesOf(eligible);
      if eligible == [] then Wait(Unsatisfiable(wish.project, fleet), considered)
      else
        var chosen := LeastBusy(eligible);
        var id := ProjectId(chosen.projects, wish.project);
        Send(chosen.index, chosen.name, if id.Some? then id.value else 0, considered)
  }

  // ---- what a placement means ----

  lemma {:induction false} NameAt(machines: seq<Inventory>, i: nat)
    requires i < |machines|
    ensures NamesOf(machines)[i] == machines[i].name
  {
    if i == 0 {
    } else {
      NameAt(machines[1..], i - 1);
    }
  }

  lemma {:induction false} HomeIsFirst(names: seq<string>, target: string)
    ensures var at := Home(names, target);
            && (at < |names| ==> SameIgnoringCase(names[at], target))
            && (forall i :: 0 <= i < at ==> !SameIgnoringCase(names[i], target))
  {
    if names == [] {
    } else {
      HomeIsFirst(names[1..], target);
    }
  }

  /** Eligibility keeps exactly the reachable machines that have the project. */
  lemma {:induction false} EligibleExactly(fleet: seq<Inventory>, project: string, m: Inventory)
    ensures m in EligibleOf(fleet, project) <==> m in fleet && Eligible(m, project)
  {
    if fleet == [] {
    } else {
      EligibleExactly(fleet[1..], project, m);
      assert m in fleet <==> m == fleet[0] || m in fleet[1..];
    }
  }

  /** The choice does least, and everything listed before it does strictly more. */
  lemma {:induction false} LeastBusyIsFirst(machines: seq<Inventory>) returns (at: nat)
    requires machines != []
    ensures at < |machines| && machines[at] == LeastBusy(machines)
    ensures forall i :: 0 <= i < |machines| ==> machines[at].active <= machines[i].active
    ensures forall i :: 0 <= i < at ==> machines[at].active < machines[i].active
  {
    if |machines| == 1 {
      at := 0;
    } else {
      var rest := LeastBusyIsFirst(machines[1..]);
      at := if machines[0].active <= LeastBusy(machines[1..]).active then 0 else rest + 1;
      forall i | 0 <= i < |machines|
        ensures LeastBusy(machines).active <= machines[i].active && (i < at ==> LeastBusy(machines).active < machines[i].active)
      {
        if i > 0 {
          assert machines[i] == machines[1..][i - 1];
        }
      }
    }
  }

  /** The inventory of a fleet whose machines have these names. */
  ghost predicate ViewOf(fleet: seq<Inventory>, names: seq<string>) {
    |fleet| == |names| && forall i :: 0 <= i < |fleet| ==> fleet[i].index == i && fleet[i].name == names[i]
  }

  lemma {:induction false} NamesOfView(fleet: seq<Inventory>, names: seq<string>)
    requires ViewOf(fleet, names)
    ensures NamesOf(fleet) == names
  {
    forall i | 0 <= i < |fleet| ensures NamesOf(fleet)[i] == names[i] {
      NameAt(fleet, i);
    }
  }

  /** Whatever is placed goes to a machine of the fleet, under that machine's own name, and it could take it. */
  lemma SendsIntoTheFleet(wish: Wish, fleet: seq<Inventory>, names: seq<string>)
    requires ViewOf(fleet, names) && Place(wish, fleet).Send?
    ensures var p := Place(wish, fleet);
            && p.index < |names| && p.machine == names[p.index]
            && Eligible(fleet[p.index], wish.project)
            && ProjectId(fleet[p.index].projects, wish.project) == Some(p.projectId)
  {
    NamesOfView(fleet, names);
    if wish.target.None? {
      var eligible := EligibleOf(fleet, wish.project);
      var at := LeastBusyIsFirst(eligible);
      EligibleExactly(fleet, wish.project, eligible[at]);
    }
  }

  /** A named target always resolves to the same machine, whatever the fleet is doing. */
  lemma NamedIsFixed(wish: Wish, fleet: seq<Inventory>, names: seq<string>)
    requires ViewOf(fleet, names) && wish.target.Some? && Place(wish, fleet).Send?
    ensures Place(wish, fleet).index == Home(names, wish.target.value) < |names|
  {
    NamesOfView(fleet, names);
  }

  /** Equal, or the two cases of one ASCII letter. */
  predicate SameLetter(a: char, b: char) {
    a == b || ('A' <= a <= 'Z' && b as int == a as int + 32) || ('A' <= b <= 'Z' && a as int == b as int + 32)
  }

  lemma SameLetters(a: string, b: string)
    ensures SameIgnoringCase(a, b) <==> |a| == |b| && forall i :: 0 <= i < |a| ==> SameLetter(a[i], b[i])
  {
    forall i | 0 <= i < |a| && i < |b| ensures LowerAscii(a[i]) == LowerAscii(b[i]) <==> SameLetter(a[i], b[i]) {
      LettersLowered(a[i], b[i]);
    }
  }

  lemma LettersLowered(a: char, b: char)
    ensures LowerAscii(a) == LowerAscii(b) <==> SameLetter(a, b)
  {
  }

  ghost predicate HasAt(projects: seq<(int, string)>, project: string, i: int) {
    && 0 <= i < |projects| && SameIgnoringCase(projects[i].1, project)
    && forall j :: 0 <= j < i ==> !SameIgnoringCase(projects[j].1, project)
  }

  /** A machine's own id for a project is that of its first one of the name. */
  lemma {:induction false} ProjectIdIsFirst(projects: seq<(int, string)>, project: string)
    ensures ProjectId(projects, project).None? <==> forall i :: 0 <= i < |projects| ==> !SameIgnoringCase(projects[i].1, project)
    ensures ProjectId(projects, project).Some? ==>
              exists i :: HasAt(projects, project, i) && projects[i].0 == ProjectId(projects, project).value
  {
    if projects == [] {
    } else if SameIgnoringCase(projects[0].1, project) {
      assert HasAt(projects, project, 0);
    } else {
      ProjectIdIsFirst(projects[1..], project);
      if ProjectId(projects, project).Some? {
        var i :| HasAt(projects[1..], project, i) && projects[1..][i].0 == ProjectId(projects[1..], project).value;
        assert HasAt(projects, project, i + 1);
      }
    }
  }

  /** The first machine of that name. */
  ghost predicate NamedAt(fleet: seq<Inventory>, target: string, i: int) {
    && 0 <= i < |fleet| && SameIgnoringCase(fleet[i].name, target)
    && forall j :: 0 <= j < i ==> !SameIgnoringCase(fleet[j].name, target)
  }

  lemma HomeOfNamed(fleet: seq<Inventory>, names: seq<string>, target: string, i: int)
    requires ViewOf(fleet, names)
    ensures NamedAt(fleet, target, i) ==> Home(NamesOf(fleet), target) == i
    ensures (forall k :: 0 <= k < |fleet| ==> !SameIgnoringCase(fleet[k].name, target)) ==> Home(NamesOf(fleet), target) == |fleet|
  {
    NamesOfView(fleet, names);
    HomeIsFirst(names, target);
  }

  /**
   A named row is sent exactly if the first machine of that name answers and has
   the project, and to that machine; otherwise it waits, and says which of the
   three it is that is missing.
   */
  lemma NamedIsHonouredOrRefused(wish: Wish, fleet: seq<Inventory>, names: seq<string>, i: int)
    requires ViewOf(fleet, names) && wish.target.Some?
    ensures (forall k :: 0 <= k < |fleet| ==> !SameIgnoringCase(fleet[k].name, wish.target.value)) ==>
              Place(wish, fleet) == Wait("no machine called " + wish.target.value + " is configured", [])
    ensures NamedAt(fleet, wish.target.value, i) ==> HonouredOrRefused(wish, fleet[i], i, Place(wish, fleet))
  {
    HomeOfNamed(fleet, names, wish.target.value, i);
    if NamedAt(fleet, wish.target.value, i) {
      ProjectIdIsFirst(fleet[i].projects, wish.project);
    }
  }

  ghost predicate HonouredOrRefused(wish: Wish, machine: Inventory, at: nat, p: Placement) {
    && p.considered == [machine.name]
    && (p.Send? <==> machine.reachable && exists k :: HasAt(machine.projects, wish.project, k))
    && (p.Send? ==> p.index == at && p.machine == machine.name
                    && exists k :: HasAt(machine.projects, wish.project, k) && machine.projects[k].0 == p.projectId)
    && (!machine.reachable ==> p == Wait(machine.name + " is not answering", [machine.name]))
    && (machine.reachable && p.Wait? ==>
          p.reason == machine.name + " does not have a project called " + wish.project + ". Register it there first.")
  }

  ghost predicate IsAt(fleet: seq<Inventory>, m: Inventory, k: nat) {
    k <= m.index < |fleet| && fleet[m.index] == m
  }

  /** Machines of the fleet from `k` on, in its own order. */
  ghost predicate InOrderFrom(fleet: seq<Inventory>, machines: seq<Inventory>, k: nat) {
    && (forall m :: m in machines ==> IsAt(fleet, m, k))
    && (forall i, j :: 0 <= i < j < |machines| ==> machines[i].index < machines[j].index)
  }

  lemma FirstOfThem(fleet: seq<Inventory>, rest: seq<Inventory>, k: nat)
    requires k < |fleet| && fleet[k].index == k && InOrderFrom(fleet, rest, k + 1)
    ensures InOrderFrom(fleet, [fleet[k]] + rest, k) && InOrderFrom(fleet, [] + rest, k)
  {
    var all := [fleet[k]] + rest;
    assert [] + rest == rest;
    forall m | m in all ensures IsAt(fleet, m, k) {
      assert m == fleet[k] || m in rest;
      assert m in rest ==> IsAt(fleet, m, k + 1);
    }
    forall i, j | 0 <= i < j < |all| ensures all[i].index < all[j].index {
      PairRises(fleet, rest, k, i, j);
    }
    forall m | m in rest ensures IsAt(fleet, m, k) {
      assert IsAt(fleet, m, k + 1);
    }
  }

  lemma PairRises(fleet: seq<Inventory>, rest: seq<Inventory>, k: nat, i: nat, j: nat)
    requires k < |fleet| && fleet[k].index == k && InOrderFrom(fleet, rest, k + 1) && i < j < 1 + |rest|
    ensures ([fleet[k]] + rest)[i].index < ([fleet[k]] + rest)[j].index
  {
    Shifted(fleet[k], rest, j);
    if i == 0 {
      assert rest[j - 1] in rest;
      assert IsAt(fleet, rest[j - 1], k + 1);
    } else {
      Shifted(fleet[k], rest, i);
    }
  }

  lemma Shifted(m: Inventory, rest: seq<Inventory>, i: nat)
    requires 0 < i < 1 + |rest|
    ensures ([m] + rest)[i] == rest[i - 1] && ([m] + rest)[0] == m
  {
  }

  lemma {:induction false} EligibleRising(fleet: seq<Inventory>, project: string, k: nat)
    requires k <= |fleet| && forall i :: 0 <= i < |fleet| ==> fleet[i].index == i
    ensures InOrderFrom(fleet, EligibleOf(fleet[k..], project), k)
    decreases |fleet| - k
  {
    if k == |fleet| {
    } else {
      EligibleRising(fleet, project, k + 1);
      assert fleet[k..][1..] == fleet[k + 1..] && fleet[k..][0] == fleet[k];
      FirstOfThem(fleet, EligibleOf(fleet[k + 1..], project), k);
    }
  }

  lemma FirstInOrder(fleet: seq<Inventory>, machines: seq<Inventory>, at: nat, k: nat)
    requires InOrderFrom(fleet, machines, 0) && at < |machines| && k < |machines|
    requires machines[at].active <= machines[k].active && (k < at ==> machines[at].active < machines[k].active)
    ensures machines[at].index < |fleet| && fleet[machines[at].index] == machines[at]
    ensures machines[k].index < machines[at].index ==> machines[at].active < machines[k].active
  {
    assert machines[at] in machines && IsAt(fleet, machines[at], 0);
    assert at < k ==> machines[at].index < machines[k].index;
  }

  /** In the fleet's own order: nothing that could take the row does less than the choice, nor as little before it. */
  lemma ChoosesTheFirstLeastBusy(wish: Wish, fleet: seq<Inventory>, names: seq<string>, i: int)
    requires ViewOf(fleet, names) && wish.target.None? && Place(wish, fleet).Send?
    requires 0 <= i < |fleet| && Eligible(fleet[i], wish.project)
    ensures var at := Place(wish, fleet).index;
            && at < |fleet| && Eligible(fleet[at], wish.project)
            && fleet[at].active <= fleet[i].active && (i < at ==> fleet[at].active < fleet[i].active)
  {
    var all := EligibleOf(fleet, wish.project);
    EligibleRising(fleet, wish.project, 0);
    assert fleet[0..] == fleet;
    EligibleExactly(fleet, wish.project, fleet[i]);
    var k :| 0 <= k < |all| && all[k] == fleet[i];
    var at := LeastBusyIsFirst(all);
    EligibleExactly(fleet, wish.project, all[at]);
    FirstInOrder(fleet, all, at, k);
    assert Place(wish, fleet).index == all[at].index && fleet[i].index == i;
  }

  lemma {:induction false} UnreachableExactly(fleet: seq<Inventory>, m: Inventory)
    ensures m in Unreachable(fleet) <==> m in fleet && !m.reachable
  {
    if fleet == [] {
    } else {
      UnreachableExactly(fleet[1..], m);
      assert m in fleet <==> m == fleet[0] || m in fleet[1..];
    }
  }

  lemma {:induction false} UnreachableRising(fleet: seq<Inventory>, k: nat)
    requires k <= |fleet| && forall i :: 0 <= i < |fleet| ==> fleet[i].index == i
    ensures InOrderFrom(fleet, Unreachable(fleet[k..]), k)
    decreases |fleet| - k
  {
    if k == |fleet| {
    } else {
      UnreachableRising(fleet, k + 1);
      assert fleet[k..][1..] == fleet[k + 1..] && fleet[k..][0] == fleet[k];
      FirstOfThem(fleet, Unreachable(fleet[k + 1..]), k);
    }
  }

  /** These are the machines that do not answer, in the fleet's order. */
  ghost predicate AreAsleep(fleet: seq<Inventory>, asleep: seq<Inventory>) {
    InOrderFrom(fleet, asleep, 0) && forall m :: m in asleep <==> m in fleet && !m.reachable
  }

  /** A row nobody can take says so, and which machines did not answer, if any did not. */
  lemma WaitingSaysWhy(wish: Wish, fleet: seq<Inventory>, names: seq<string>) returns (asleep: seq<Inventory>)
    requires ViewOf(fleet, names) && wish.target.None? && Place(wish, fleet).Wait?
    ensures AreAsleep(fleet, asleep) && Place(wish, fleet).considered == []
    ensures Place(wish, fleet).reason
         == if asleep == [] then "no machine has a project called " + wish.project + ". Register it on one."
            else "no machine that answered has a project called " + wish.project
                 + " (" + Joined(NamesOf(asleep), ", ") + " not answering)"
  {
    asleep := Unreachable(fleet);
    UnreachableRising(fleet, 0);
    assert fleet[0..] == fleet;
    forall m ensures m in asleep <==> m in fleet && !m.reachable {
      UnreachableExactly(fleet, m);
    }
  }

  ghost predicate FirstLeastBusy(machines: seq<Inventory>, at: int) {
    && 0 <= at < |machines|
    && (forall i :: 0 <= i < |machines| ==> machines[at].active <= machines[i].active)
    && (forall i :: 0 <= i < at ==> machines[at].active < machines[i].active)
  }

  /**
   An untargeted row goes to the first least busy of exactly the machines
   recorded as considered, which are the reachable ones that have the project;
   it waits only if there are none.
   */
  lemma UntargetedIsFirstLeastBusy(wish: Wish, fleet: seq<Inventory>)
    requires wish.target.None?
    ensures var eligible := EligibleOf(fleet, wish.project);
            && Place(wish, fleet).considered == NamesOf(eligible)
            && (Place(wish, fleet).Wait? <==> forall m :: m in fleet ==> !Eligible(m, wish.project))
            && (Place(wish, fleet).Send? ==>
                  exists at :: FirstLeastBusy(eligible, at) && Place(wish, fleet).index == eligible[at].index
                               && Place(wish, fleet).machine == NamesOf(eligible)[at])
  {
    var eligible := EligibleOf(fleet, wish.project);
    forall m | m in fleet ensures m in eligible <==> Eligible(m, wish.project) {
      EligibleExactly(fleet, wish.project, m);
    }
    if eligible != [] {
      EligibleExactly(fleet, wish.project, eligible[0]);
      var at := LeastBusyIsFirst(eligible);
      NameAt(eligible, at);
      assert FirstLeastBusy(eligible, at);
    }
  }
}

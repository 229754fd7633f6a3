/** Queue families: filtering a device's families by required and forbidden
    capabilities and presentation support, turning the chosen families into
    queue create-infos and role assignments, and the plan by which the
    logical device gets its graphics, compute, present and transfer
    queues. */
module QueueFamilies {
  import opened Wrappers
  import opened VkTypes

  /** A queue family together with its index on the device. */
  datatype IndexedFamily = IndexedFamily(index: nat, properties: QueueFamilyProperties)

  /** The filter of `find_queue_families_for_criteria`. A non-empty required
      set must be wholly present. A non-empty forbidden set excludes only a
      family that has ALL of its bits: one forbidden bit alone does not. A
      given surface must be presentable from the family. */
  predicate MeetsCriteria(d: PhysicalDevice, index: nat, required: QueueFlags, forbidden: QueueFlags, surface: Option<Surface>)
    requires index < |d.queueFamilies|
  {
    var flags := d.queueFamilies[index].queueFlags;
    (required != {} ==> required <= flags)
    && (forbidden != {} ==> !(forbidden <= flags))
    && (surface.Some? ==> (index, surface.value) in d.presentSupport)
  }

  function Indices(fs: seq<IndexedFamily>): (r: seq<nat>)
    ensures |r| == |fs| && forall j :: 0 <= j < |fs| ==> r[j] == fs[j].index
  {
    seq(|fs|, j requires 0 <= j < |fs| => fs[j].index)
  }

  /** How many families from index `from` on meet the criteria. */
  function CountFrom(d: PhysicalDevice, from: nat, required: QueueFlags, forbidden: QueueFlags, surface: Option<Surface>): nat
    decreases |d.queueFamilies| - from
  {
    if from >= |d.queueFamilies| then 0
    else (if MeetsCriteria(d, from, required, forbidden, surface) then 1 else 0)
         + CountFrom(d, from + 1, required, forbidden, surface)
  }

  /** The families from index `from` on that meet the criteria, in index
      order. */
  function FindFrom(d: PhysicalDevice, from: nat, required: QueueFlags, forbidden: QueueFlags, surface: Option<Surface>)
    : (r: seq<IndexedFamily>)
    decreases |d.queueFamilies| - from
    ensures forall j :: 0 <= j < |r| ==>
              from <= r[j].index < |d.queueFamilies| && r[j].properties == d.queueFamilies[r[j].index]
              && MeetsCriteria(d, r[j].index, required, forbidden, surface)
    ensures forall i :: from <= i < |d.queueFamilies| ==>
              (MeetsCriteria(d, i, required, forbidden, surface) <==> i in Indices(r))
    ensures forall j, k :: 0 <= j < k < |r| ==> r[j].index < r[k].index
    ensures |r| == CountFrom(d, from, required, forbidden, surface)
  {
    if from >= |d.queueFamilies| then []
    else
      var rest := FindFrom(d, from + 1, required, forbidden, surface);
      PrependListedMeet(d, from, required, forbidden, surface, rest);
      PrependListsAllMeeting(d, from, required, forbidden, surface, rest);
      PrependIncreasing(d, from, required, forbidden, surface, rest);
      Prepend(d, from, required, forbidden, surface, rest)
  }

  /** Every listed family lies at or after `from`, carries its own
      properties and meets the criteria. */
  predicate ListedMeet(d: PhysicalDevice, from: nat, required: QueueFlags, forbidden: QueueFlags, surface: Option<Surface>,
                       r: seq<IndexedFamily>)
  {
    forall j :: 0 <= j < |r| ==>
      from <= r[j].index < |d.queueFamilies| && r[j].properties == d.queueFamilies[r[j].index]
      && MeetsCriteria(d, r[j].index, required, forbidden, surface)
  }

  /** Every family from `from` on is listed exactly when it meets the
      criteria. */
  predicate ListsAllMeeting(d: PhysicalDevice, from: nat, required: QueueFlags, forbidden: QueueFlags, surface: Option<Surface>,
                            r: seq<IndexedFamily>)
  {
    forall i :: from <= i < |d.queueFamilies| ==>
      (MeetsCriteria(d, i, required, forbidden, surface) <==> i in Indices(r))
  }

  /** The listed families are in strictly increasing index order. */
  predicate IncreasingIndices(r: seq<IndexedFamily>)
  {
    forall j, k :: 0 <= j < k < |r| ==> r[j].index < r[k].index
  }

  /** The step of `FindFrom`: the families from `from + 1` on, with family
      `from` in front when it meets the criteria. */
  function Prepend(d: PhysicalDevice, from: nat, required: QueueFlags, forbidden: QueueFlags, surface: Option<Surface>,
                   rest: seq<IndexedFamily>): seq<IndexedFamily>
    requires from < |d.queueFamilies|
  {
    if MeetsCriteria(d, from, required, forbidden, surface)
    then [IndexedFamily(from, d.queueFamilies[from])] + rest else rest
  }

  /** The prepended family keeps every listed family meeting the criteria. */
  lemma PrependListedMeet(d: PhysicalDevice, from: nat, required: QueueFlags, forbidden: QueueFlags, surface: Option<Surface>,
                          rest: seq<IndexedFamily>)
    requires from < |d.queueFamilies| && ListedMeet(d, from + 1, required, forbidden, surface, rest)
    ensures ListedMeet(d, from, required, forbidden, surface, Prepend(d, from, required, forbidden, surface, rest))
  {
    var r := Prepend(d, from, required, forbidden, surface, rest);
    if MeetsCriteria(d, from, required, forbidden, surface) {
      assert forall j :: 1 <= j < |r| ==> r[j] == rest[j - 1];
    }
  }

  /** Prepending family `from` when it meets the criteria extends the
      selection from `from + 1` on to one from `from` on. */
  lemma PrependListsAllMeeting(d: PhysicalDevice, from: nat, required: QueueFlags, forbidden: QueueFlags, surface: Option<Surface>,
                               rest: seq<IndexedFamily>)
    requires from < |d.queueFamilies| && ListedMeet(d, from + 1, required, forbidden, surface, rest)
    requires ListsAllMeeting(d, from + 1, required, forbidden, surface, rest)
    ensures ListsAllMeeting(d, from, required, forbidden, surface, Prepend(d, from, required, forbidden, surface, rest))
  {
    assert from !in Indices(rest);
    if MeetsCriteria(d, from, required, forbidden, surface) {
      assert Indices(Prepend(d, from, required, forbidden, surface, rest)) == [from] + Indices(rest);
    }
  }

  /** Family `from` lies below every family from `from + 1` on, so the order
      stays increasing. */
  lemma PrependIncreasing(d: PhysicalDevice, from: nat, required: QueueFlags, forbidden: QueueFlags, surface: Option<Surface>,
                          rest: seq<IndexedFamily>)
    requires from < |d.queueFamilies| && ListedMeet(d, from + 1, required, forbidden, surface, rest) && IncreasingIndices(rest)
    ensures IncreasingIndices(Prepend(d, from, required, forbidden, surface, rest))
  {
    var r := Prepend(d, from, required, forbidden, surface, rest);
    if MeetsCriteria(d, from, required, forbidden, surface) {
      assert forall j :: 1 <= j < |r| ==> r[j] == rest[j - 1];
    }
  }

  /** `find_queue_families_for_criteria`: every family of the device that
      meets the criteria, with its index, in index order. */
  function FindQueueFamilies(d: PhysicalDevice, required: QueueFlags, forbidden: QueueFlags, surface: Option<Surface>)
    : (r: seq<IndexedFamily>)
    ensures forall j :: 0 <= j < |r| ==>
              r[j].index < |d.queueFamilies| && r[j].properties == d.queueFamilies[r[j].index]
              && MeetsCriteria(d, r[j].index, required, forbidden, surface)
    ensures forall i :: 0 <= i < |d.queueFamilies| ==>
              (MeetsCriteria(d, i, required, forbidden, surface) <==> i in Indices(r))
    ensures forall j, k :: 0 <= j < k < |r| ==> r[j].index < r[k].index
    ensures |r| == CountFrom(d, 0, required, forbidden, surface)
  {
    FindFrom(d, 0, required, forbidden, surface)
  }

  /** The forbidden test, spelled out: with forbidden = {Graphics, Compute}
      (the transfer search) a graphics-only or compute-only family still
      passes; only a family with both is excluded. */
  lemma ForbiddenExcludesOnlyAllBits(d: PhysicalDevice, index: nat)
    requires index < |d.queueFamilies| && Transfer in d.queueFamilies[index].queueFlags
    ensures MeetsCriteria(d, index, {Transfer}, {Graphics, Compute}, None)
            <==> !(Graphics in d.queueFamilies[index].queueFlags && Compute in d.queueFamilies[index].queueFlags)
  {
  }

  // ----- create-infos and role assignment -----

  /** One queue of priority 1.0 from the family `queueFamilyIndex`. */
  datatype QueueCreateInfo = QueueCreateInfo(queueFamilyIndex: nat, queueCount: nat)

  /** The condition `compile_create_infos_and_assign_members` asserts: one
      family per role, or a single family for all roles. */
  predicate CompileAllowed(families: nat, roles: nat)
  {
    families == roles || (families == 1 && roles >= 1)
  }

  /** One create-info with a single queue per family, in order. */
  function CreateInfosFor(fs: seq<IndexedFamily>): (r: seq<QueueCreateInfo>)
    ensures |r| == |fs| && forall j :: 0 <= j < |fs| ==> r[j] == QueueCreateInfo(fs[j].index, 1)
  {
    seq(|fs|, j requires 0 <= j < |fs| => QueueCreateInfo(fs[j].index, 1))
  }

  /** The family index each role receives: the families in order, one per
      role, or the single family for every role. */
  function RoleIndices(fs: seq<IndexedFamily>, roles: nat): (r: seq<nat>)
    requires CompileAllowed(|fs|, roles)
    ensures |r| == roles
    ensures forall k :: 0 <= k < roles ==> r[k] in Indices(fs)
    ensures |fs| == 1 ==> forall k :: 0 <= k < roles ==> r[k] == fs[0].index
    ensures |fs| == roles ==> forall k :: 0 <= k < roles ==> r[k] == fs[k].index
  {
    if |fs| == roles then Indices(fs) else seq(roles, k => fs[0].index)
  }

  /** `compile_create_infos_and_assign_members`: the create-infos of the
      families and the family index written into each role's member. */
  method CompileCreateInfosAndAssign(fs: seq<IndexedFamily>, roles: nat)
    returns (infos: seq<QueueCreateInfo>, assignment: seq<nat>)
    requires CompileAllowed(|fs|, roles)
    ensures infos == CreateInfosFor(fs)
    ensures assignment == RoleIndices(fs, roles)
  {
    infos := [];
    assignment := seq(roles, k => 0);
    for i := 0 to |fs|
      invariant infos == CreateInfosFor(fs[..i])
      invariant |assignment| == roles
      invariant |fs| == roles ==> forall k :: 0 <= k < roles ==> assignment[k] == (if k < i then fs[k].index else 0)
      invariant |fs| != roles && i > 0 ==> forall k :: 0 <= k < roles ==> assignment[k] == fs[0].index
    {
      infos := infos + [QueueCreateInfo(fs[i].index, 1)];
      if |fs| == roles {
        assignment := assignment[i := fs[i].index];
      } else {
        for k := 0 to roles
          invariant |assignment| == roles
          invariant forall m :: 0 <= m < k ==> assignment[m] == fs[i].index
        {
          assignment := assignment[k := fs[i].index];
        }
      }
    }
    assert fs[..|fs|] == fs;
  }

  // ----- the queue plan of create_and_assign_logical_device -----

  datatype QueueError =
    | NoQueueFamily(which: string)
    | RoleCountAssertion(families: nat, roles: nat)

  /** The queue family index of each role and the queue create-infos. */
  datatype QueuePlan = QueuePlan(graphics: nat, compute: nat, present: nat, transfer: nat, createInfos: seq<QueueCreateInfo>)

  /** Compiles the families for `roles` roles, or reports the failed
      assertion. */
  function Compile(fs: seq<IndexedFamily>, roles: nat): (r: Result<(seq<QueueCreateInfo>, seq<nat>), QueueError>)
    ensures r.Success? <==> CompileAllowed(|fs|, roles)
    ensures r.Success? ==> r.value.0 == CreateInfosFor(fs) && r.value.1 == RoleIndices(fs, roles)
  {
    if CompileAllowed(|fs|, roles) then Success((CreateInfosFor(fs), RoleIndices(fs, roles)))
    else Failure(RoleCountAssertion(|fs|, roles))
  }

  /** The graphics, compute and present queues, in three tiers: one family
      doing graphics, compute and presentation; else a family doing graphics
      and presentation plus a compute family without graphics; else separate
      graphics, present and compute families (transfer is set later). */
  function MainQueues(d: PhysicalDevice, surface: Surface): Result<QueuePlan, QueueError>
  {
    var everything := FindQueueFamilies(d, {Graphics, Compute}, {}, Some(surface));
    if |everything| != 0 then
      var all :- Compile(everything, 3);
      Success(QueuePlan(all.1[0], all.1[1], all.1[2], 0, all.0))
    else
      var gAndP := FindQueueFamilies(d, {Graphics}, {}, Some(surface));
      if |gAndP| != 0 then
        var gp :- Compile(gAndP, 2);
        var cOnly := FindQueueFamilies(d, {Compute}, {Graphics}, None);
        if |cOnly| == 0 then Failure(NoQueueFamily("c_only"))
        else
          var c :- Compile(cOnly, 1);
          Success(QueuePlan(gp.1[0], c.1[0], gp.1[1], 0, gp.0 + c.0))
      else
        var gOnly := FindQueueFamilies(d, {Graphics}, {}, None);
        var pOnly := FindQueueFamilies(d, {}, {}, Some(surface));
        var cOnly := FindQueueFamilies(d, {Compute}, {}, None);
        if |gOnly| == 0 then Failure(NoQueueFamily("g_only"))
        else
          var g :- Compile(gOnly, 1);
          if |pOnly| == 0 then Failure(NoQueueFamily("p_only"))
          else
            var p :- Compile(pOnly, 1);
            if |cOnly| == 0 then Failure(NoQueueFamily("c_only"))
            else
              var c :- Compile(cOnly, 1);
              Success(QueuePlan(g.1[0], c.1[0], p.1[0], 0, g.0 + p.0 + c.0))
  }

  /** The full queue plan: the main queues, then a transfer family that is
      not both graphics and compute, or, lacking one, the graphics family for
      transfer as well. */
  function PlanQueues(d: PhysicalDevice, surface: Surface): Result<QueuePlan, QueueError>
  {
    var main :- MainQueues(d, surface);
    var tOnly := FindQueueFamilies(d, {Transfer}, {Graphics, Compute}, None);
    if |tOnly| > 0 then
      var t :- Compile(tOnly, 1);
      Success(main.(transfer := t.1[0], createInfos := main.createInfos + t.0))
    else
      Success(main.(transfer := main.graphics))
  }

  predicate HasFlag(d: PhysicalDevice, index: nat, bit: QueueFlagBit)
  {
    index < |d.queueFamilies| && bit in d.queueFamilies[index].queueFlags
  }

  /** The families of `fs` each have a create-info. */
  predicate Covered(infos: seq<QueueCreateInfo>, index: nat)
  {
    exists j :: 0 <= j < |infos| && infos[j].queueFamilyIndex == index
  }

  /** What a successful plan guarantees: the graphics family supports
      graphics, the compute family compute, the present family can present
      to the surface, the transfer family supports transfer or is the
      graphics family, and each of these families has a create-info. */
  lemma PlanRolesHaveCapabilities(d: PhysicalDevice, surface: Surface)
    requires PlanQueues(d, surface).Success?
    ensures var p := PlanQueues(d, surface).value;
            HasFlag(d, p.graphics, Graphics) && HasFlag(d, p.compute, Compute)
            && p.present < |d.queueFamilies| && (p.present, surface) in d.presentSupport
            && (HasFlag(d, p.transfer, Transfer) || p.transfer == p.graphics)
            && Covered(p.createInfos, p.graphics) && Covered(p.createInfos, p.compute)
            && Covered(p.createInfos, p.present) && Covered(p.createInfos, p.transfer)
  {
    var main := MainQueues(d, surface).value;
    MainRolesHaveCapabilities(d, surface);
    var tOnly := FindQueueFamilies(d, {Transfer}, {Graphics, Compute}, None);
    if |tOnly| > 0 {
      var p := PlanQueues(d, surface).value;
      assert CompileAllowed(|tOnly|, 1);
      assert p.transfer == tOnly[0].index && MeetsCriteria(d, tOnly[0].index, {Transfer}, {Graphics, Compute}, None);
      var infos := main.createInfos + CreateInfosFor(tOnly);
      assert infos[|main.createInfos|].queueFamilyIndex == p.transfer;
      CoveredGrows(main.createInfos, CreateInfosFor(tOnly), main.graphics);
      CoveredGrows(main.createInfos, CreateInfosFor(tOnly), main.compute);
      CoveredGrows(main.createInfos, CreateInfosFor(tOnly), main.present);
    }
  }

  lemma CoveredGrows(a: seq<QueueCreateInfo>, b: seq<QueueCreateInfo>, index: nat)
    requires Covered(a, index)
    ensures Covered(a + b, index) && Covered(b + a, index)
  {
    var j :| 0 <= j < |a| && a[j].queueFamilyIndex == index;
    assert (a + b)[j] == a[j];
    assert (b + a)[|b| + j] == a[j];
  }

  /** The first family of a single-role compile is covered by its
      create-infos. */
  lemma SingleCovered(fs: seq<IndexedFamily>)
    requires |fs| == 1
    ensures Covered(CreateInfosFor(fs), RoleIndices(fs, 1)[0])
  {
    assert CreateInfosFor(fs)[0].queueFamilyIndex == fs[0].index;
  }

  /** The graphics, compute and present roles of `p` have their
      capabilities and create-infos. */
  predicate MainRolesServed(d: PhysicalDevice, surface: Surface, p: QueuePlan)
  {
    HasFlag(d, p.graphics, Graphics) && HasFlag(d, p.compute, Compute)
    && p.present < |d.queueFamilies| && (p.present, surface) in d.presentSupport
    && Covered(p.createInfos, p.graphics) && Covered(p.createInfos, p.compute)
    && Covered(p.createInfos, p.present)
  }

  lemma MainRolesHaveCapabilities(d: PhysicalDevice, surface: Surface)
    requires MainQueues(d, surface).Success?
    ensures MainRolesServed(d, surface, MainQueues(d, surface).value)
  {
    var everything := FindQueueFamilies(d, {Graphics, Compute}, {}, Some(surface));
    var gAndP := FindQueueFamilies(d, {Graphics}, {}, Some(surface));
    if |everything| != 0 {
      CombinedTierServesRoles(d, surface);
    } else if |gAndP| != 0 {
      GraphicsPresentTierServesRoles(d, surface);
    } else {
      SeparateTierServesRoles(d, surface);
    }
  }

  lemma CombinedTierServesRoles(d: PhysicalDevice, surface: Surface)
    requires MainQueues(d, surface).Success?
    requires |FindQueueFamilies(d, {Graphics, Compute}, {}, Some(surface))| != 0
    ensures MainRolesServed(d, surface, MainQueues(d, surface).value)
  {
    var everything := FindQueueFamilies(d, {Graphics, Compute}, {}, Some(surface));
    var r := RoleIndices(everything, 3);
    forall k | 0 <= k < 3
      ensures HasFlag(d, r[k], Graphics) && HasFlag(d, r[k], Compute)
      ensures (r[k], surface) in d.presentSupport && Covered(CreateInfosFor(everything), r[k])
    {
      var j :| 0 <= j < |everything| && Indices(everything)[j] == r[k];
      assert MeetsCriteria(d, everything[j].index, {Graphics, Compute}, {}, Some(surface));
      assert CreateInfosFor(everything)[j].queueFamilyIndex == r[k];
    }
  }

  lemma GraphicsPresentTierServesRoles(d: PhysicalDevice, surface: Surface)
    requires MainQueues(d, surface).Success?
    requires |FindQueueFamilies(d, {Graphics, Compute}, {}, Some(surface))| == 0
    requires |FindQueueFamilies(d, {Graphics}, {}, Some(surface))| != 0
    ensures MainRolesServed(d, surface, MainQueues(d, surface).value)
  {
    var p := MainQueues(d, surface).value;
    var gAndP := FindQueueFamilies(d, {Graphics}, {}, Some(surface));
    var gp := RoleIndices(gAndP, 2);
    var cOnly := FindQueueFamilies(d, {Compute}, {Graphics}, None);
    forall k | 0 <= k < 2
      ensures HasFlag(d, gp[k], Graphics) && (gp[k], surface) in d.presentSupport
      ensures Covered(CreateInfosFor(gAndP), gp[k])
    {
      var j :| 0 <= j < |gAndP| && Indices(gAndP)[j] == gp[k];
      assert MeetsCriteria(d, gAndP[j].index, {Graphics}, {}, Some(surface));
      assert CreateInfosFor(gAndP)[j].queueFamilyIndex == gp[k];
    }
    assert MeetsCriteria(d, cOnly[0].index, {Compute}, {Graphics}, None);
    SingleCovered(cOnly);
    CoveredGrows(CreateInfosFor(gAndP), CreateInfosFor(cOnly), gp[0]);
    CoveredGrows(CreateInfosFor(gAndP), CreateInfosFor(cOnly), gp[1]);
    CoveredGrows(CreateInfosFor(cOnly), CreateInfosFor(gAndP), p.compute);
  }

  lemma SeparateTierServesRoles(d: PhysicalDevice, surface: Surface)
    requires MainQueues(d, surface).Success?
    requires |FindQueueFamilies(d, {Graphics, Compute}, {}, Some(surface))| == 0
    requires |FindQueueFamilies(d, {Graphics}, {}, Some(surface))| == 0
    ensures MainRolesServed(d, surface, MainQueues(d, surface).value)
  {
    var p := MainQueues(d, surface).value;
    var gOnly := FindQueueFamilies(d, {Graphics}, {}, None);
    var pOnly := FindQueueFamilies(d, {}, {}, Some(surface));
    var cOnly := FindQueueFamilies(d, {Compute}, {}, None);
    assert MeetsCriteria(d, gOnly[0].index, {Graphics}, {}, None);
    assert MeetsCriteria(d, pOnly[0].index, {}, {}, Some(surface));
    assert MeetsCriteria(d, cOnly[0].index, {Compute}, {}, None);
    var gi, pi, ci := CreateInfosFor(gOnly), CreateInfosFor(pOnly), CreateInfosFor(cOnly);
    SingleCovered(gOnly);
    SingleCovered(pOnly);
    SingleCovered(cOnly);
    CoveredGrows(gi, pi, p.graphics);
    CoveredGrows(gi + pi, ci, p.graphics);
    CoveredGrows(pi, gi, p.present);
    CoveredGrows(gi + pi, ci, p.present);
    CoveredGrows(ci, gi + pi, p.compute);
    assert gi + pi + ci == (gi + pi) + ci;
  }

  /** A device whose only family able to do graphics, compute and
      presentation is one family uses that family for all three roles. */
  lemma SingleCombinedFamilyTakesAllRoles(d: PhysicalDevice, surface: Surface, i: nat)
    requires i < |d.queueFamilies| && MeetsCriteria(d, i, {Graphics, Compute}, {}, Some(surface))
    requires forall k :: 0 <= k < |d.queueFamilies| && k != i ==> !MeetsCriteria(d, k, {Graphics, Compute}, {}, Some(surface))
    ensures MainQueues(d, surface).Success?
    ensures var p := MainQueues(d, surface).value;
            p.graphics == i && p.compute == i && p.present == i && p.createInfos == [QueueCreateInfo(i, 1)]
  {
    var everything := FindQueueFamilies(d, {Graphics, Compute}, {}, Some(surface));
    assert i in Indices(everything);
    CountSingleMatch(d, 0, i, {Graphics, Compute}, {}, Some(surface));
    assert everything[0].index == i;
  }

  /** Only family `i` meets the criteria, so exactly one family from `from`
      on does when `from <= i`. */
  lemma {:induction false} CountSingleMatch(d: PhysicalDevice, from: nat, i: nat, required: QueueFlags, forbidden: QueueFlags, surface: Option<Surface>)
    requires i < |d.queueFamilies| && MeetsCriteria(d, i, required, forbidden, surface)
    requires forall k :: 0 <= k < |d.queueFamilies| && k != i ==> !MeetsCriteria(d, k, required, forbidden, surface)
    decreases |d.queueFamilies| - from
    ensures CountFrom(d, from, required, forbidden, surface) == if from <= i then 1 else 0
  {
    if from < |d.queueFamilies| {
      CountSingleMatch(d, from + 1, i, required, forbidden, surface);
    }
  }

  /** Without a family that supports transfer and is not both graphics and
      compute, the transfer role falls back to the graphics family and no
      create-info is added for it. */
  lemma TransferFallsBackToGraphics(d: PhysicalDevice, surface: Surface)
    requires MainQueues(d, surface).Success?
    requires forall k :: 0 <= k < |d.queueFamilies| ==> !MeetsCriteria(d, k, {Transfer}, {Graphics, Compute}, None)
    ensures PlanQueues(d, surface) == Success(MainQueues(d, surface).value.(transfer := MainQueues(d, surface).value.graphics))
  {
    var tOnly := FindQueueFamilies(d, {Transfer}, {Graphics, Compute}, None);
    CountNoMatch(d, 0, {Transfer}, {Graphics, Compute}, None);
    assert tOnly == [];
  }

  /** When no family meets the criteria, none is counted from any index on. */
  lemma {:induction false} CountNoMatch(d: PhysicalDevice, from: nat, required: QueueFlags, forbidden: QueueFlags, surface: Option<Surface>)
    requires forall k :: 0 <= k < |d.queueFamilies| ==> !MeetsCriteria(d, k, required, forbidden, surface)
    decreases |d.queueFamilies| - from
    ensures CountFrom(d, from, required, forbidden, surface) == 0
  {
    if from < |d.queueFamilies| {
      CountNoMatch(d, from + 1, required, forbidden, surface);
    }
  }

  /** A typical discrete GPU: family 0 does graphics, compute and transfer and
      presents; family 1 is a transfer-only family. All three main roles go
      to family 0, transfer goes to family 1, and there is one create-info
      per family. */
  lemma TypicalDevicePlan(surface: Surface)
    ensures var d := PhysicalDevice(DiscreteGpu, "gpu", true, [],
                                    [QueueFamilyProperties({Graphics, Compute, Transfer}, 16), QueueFamilyProperties({Transfer}, 2)],
                                    {(0, surface)});
            PlanQueues(d, surface) == Success(QueuePlan(0, 0, 0, 1, [QueueCreateInfo(0, 1), QueueCreateInfo(1, 1)]))
  {
    var d := PhysicalDevice(DiscreteGpu, "gpu", true, [],
                            [QueueFamilyProperties({Graphics, Compute, Transfer}, 16), QueueFamilyProperties({Transfer}, 2)],
                            {(0, surface)});
    var everything := FindQueueFamilies(d, {Graphics, Compute}, {}, Some(surface));
    assert MeetsCriteria(d, 0, {Graphics, Compute}, {}, Some(surface));
    assert !MeetsCriteria(d, 1, {Graphics, Compute}, {}, Some(surface));
    assert FindFrom(d, 1, {Graphics, Compute}, {}, Some(surface)) == [];
    assert everything == [IndexedFamily(0, d.queueFamilies[0])];
    var tOnly := FindQueueFamilies(d, {Transfer}, {Graphics, Compute}, None);
    assert !MeetsCriteria(d, 0, {Transfer}, {Graphics, Compute}, None);
    assert MeetsCriteria(d, 1, {Transfer}, {Graphics, Compute}, None);
    assert FindFrom(d, 2, {Transfer}, {Graphics, Compute}, None) == [];
    assert FindFrom(d, 1, {Transfer}, {Graphics, Compute}, None) == [IndexedFamily(1, d.queueFamilies[1])];
    assert tOnly == [IndexedFamily(1, d.queueFamilies[1])];
    assert CreateInfosFor(everything) == [QueueCreateInfo(0, 1)];
    assert RoleIndices(everything, 3) == [0, 0, 0];
    assert CreateInfosFor(tOnly) == [QueueCreateInfo(1, 1)];
    assert RoleIndices(tOnly, 1) == [1];
    assert Compile(everything, 3) == Success(([QueueCreateInfo(0, 1)], [0, 0, 0]));
    assert MainQueues(d, surface) == Success(QueuePlan(0, 0, 0, 0, [QueueCreateInfo(0, 1)]));
    assert Compile(tOnly, 1) == Success(([QueueCreateInfo(1, 1)], [1]));
    assert [QueueCreateInfo(0, 1)] + [QueueCreateInfo(1, 1)] == [QueueCreateInfo(0, 1), QueueCreateInfo(1, 1)];
  }

  /** The distinct family indices of graphics and transfer, graphics first:
      the list a buffer shared between the two queues names. */
  function TransferAndGraphics(graphics: nat, transfer: nat): (r: seq<nat>)
    ensures |r| >= 1 && r[0] == graphics && transfer in r
    ensures |r| == 1 <==> graphics == transfer
    ensures forall j, k :: 0 <= j < k < |r| ==> r[j] != r[k]
    ensures graphics != transfer ==> r == [graphics, transfer]
  {
    [graphics] + (if graphics != transfer then [transfer] else [])
  }

  /** The sharing fields of a buffer create-info. */
  datatype BufferSharing = BufferSharing(mode: SharingMode, queueFamilyIndices: seq<nat>)

  /** `set_sharing_mode_for_transfer`: exclusive when graphics and transfer
      share a family, otherwise concurrent between the two families. The
      other fields of the create-info are left alone. */
  function SetSharingModeForTransfer(info: BufferSharing, graphics: nat, transfer: nat): (r: BufferSharing)
    ensures r.mode == Exclusive <==> graphics == transfer
    ensures r.mode == Exclusive ==> r.queueFamilyIndices == info.queueFamilyIndices
    ensures r.mode == Concurrent ==>
              |r.queueFamilyIndices| == 2 && r.queueFamilyIndices[0] == graphics && r.queueFamilyIndices[1] == transfer
  {
    if graphics == transfer then info.(mode := Exclusive)
    else info.(mode := Concurrent, queueFamilyIndices := TransferAndGraphics(graphics, transfer))
  }
}

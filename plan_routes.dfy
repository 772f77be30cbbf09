/** The workout-plan collection: public reads (the sorted list, the filter
    by body type, lookup by id) and admin-only writes (create with field
    validation and normalisation, update, delete). */
module PlanRoutes {
  import opened Values
  import opened Strings
  import opened AdminGate

  const MissingFields := "Missing required fields"
  const PlanNotFound := "Plan not found"
  const DefaultIcon := "fitness"

  /** The `days` field of a create request: absent, one value, or an array. */
  datatype Days = NoDays | OneDay(day: string) | DayList(items: seq<string>)

  /** The fields of a create request. */
  datatype PlanInput = PlanInput(
    title: Option<string>,
    description: Option<string>,
    bodyType: Option<string>,
    focus: Option<string>,
    days: Days,
    tips: Option<string>,
    icon: Option<string>)

  datatype Plan = Plan(
    id: nat,
    title: string,
    description: string,
    bodyType: string,
    focus: string,
    days: seq<string>,
    tips: string,
    icon: string,
    createdBy: Option<nat>,
    createdAt: int,
    updatedAt: Option<int>)

  /** The fields an update request sets; absent ones are kept. */
  datatype PlanPatch = PlanPatch(
    title: Option<string>,
    description: Option<string>,
    bodyType: Option<string>,
    focus: Option<string>,
    days: Option<seq<string>>,
    tips: Option<string>,
    icon: Option<string>)

  /** `!!days`: an array is truthy even when empty, a string only when non-empty. */
  predicate DaysPresent(days: Days)
  {
    match days
    case NoDays => false
    case OneDay(d) => d != ""
    case DayList(_) => true
  }

  /** The create guard: every required field is truthy. */
  predicate RequiredPresent(input: PlanInput)
  {
    && Present(input.title) && Present(input.description) && Present(input.bodyType)
    && Present(input.focus) && DaysPresent(input.days) && Present(input.tips)
  }

  /** `Array.isArray(days) ? days : [days]`. */
  function NormalizeDays(days: Days): (r: seq<string>)
    requires DaysPresent(days)
    ensures days.DayList? ==> r == days.items
    ensures days.OneDay? ==> r == [days.day]
  {
    match days
    case OneDay(d) => [d]
    case DayList(items) => items
  }

  /** The creator recorded as written: `req.userId`. */
  function CreatorAsWritten(req: Request): Option<nat>
  {
    req.userId
  }

  /** The creator the route means to record: the admin the gate admitted. */
  function Creator(req: Request): Option<nat>
  {
    if req.user.Some? then Some(req.user.value.userId) else None
  }

  /** The gate sets `req.user`, not `req.userId`, so as written every plan is
      created without a creator, while reading `req.user` names the admin. */
  lemma CreatorLostAsWritten(g: Gate)
    requires g.Admit?
    ensures CreatorAsWritten(Forward(g, Request(None, None))) == None
    ensures Creator(Forward(g, Request(None, None))) == Some(g.userId)
  {
  }

  /** The plan a create request stores. */
  function NewPlan(id: nat, input: PlanInput, creator: Option<nat>, now: int): (p: Plan)
    requires RequiredPresent(input)
    ensures p.id == id && p.createdBy == creator && p.createdAt == now && p.updatedAt == None
    ensures p.title == input.title.value && p.description == input.description.value
    ensures p.bodyType == input.bodyType.value && p.focus == input.focus.value
    ensures p.tips == input.tips.value
    ensures p.days == (if input.days.DayList? then input.days.items else [input.days.day])
    ensures p.icon == (if Present(input.icon) then input.icon.value else DefaultIcon)
  {
    Plan(id, input.title.value, input.description.value, input.bodyType.value, input.focus.value,
         NormalizeDays(input.days), input.tips.value, OrElse(input.icon, DefaultIcon), creator,
         now, None)
  }

  /** `Plan.findByIdAndUpdate(id, { ...body, updatedAt: now })`. */
  function ApplyPatch(p: Plan, patch: PlanPatch, now: int): (q: Plan)
    ensures q.id == p.id && q.createdBy == p.createdBy && q.createdAt == p.createdAt
    ensures q.updatedAt == Some(now)
    ensures q.title == (if patch.title.Some? then patch.title.value else p.title)
    ensures q.description == (if patch.description.Some? then patch.description.value else p.description)
    ensures q.bodyType == (if patch.bodyType.Some? then patch.bodyType.value else p.bodyType)
    ensures q.focus == (if patch.focus.Some? then patch.focus.value else p.focus)
    ensures q.days == (if patch.days.Some? then patch.days.value else p.days)
    ensures q.tips == (if patch.tips.Some? then patch.tips.value else p.tips)
    ensures q.icon == (if patch.icon.Some? then patch.icon.value else p.icon)
  {
    p.(title := if patch.title.Some? then patch.title.value else p.title,
       description := if patch.description.Some? then patch.description.value else p.description,
       bodyType := if patch.bodyType.Some? then patch.bodyType.value else p.bodyType,
       focus := if patch.focus.Some? then patch.focus.value else p.focus,
       days := if patch.days.Some? then patch.days.value else p.days,
       tips := if patch.tips.Some? then patch.tips.value else p.tips,
       icon := if patch.icon.Some? then patch.icon.value else p.icon,
       updatedAt := Some(now))
  }

  predicate IdsUnique(plans: seq<Plan>)
  {
    forall i, j :: 0 <= i < j < |plans| ==> plans[i].id != plans[j].id
  }

  /** The position of the plan with id `id`. */
  function IndexOf(plans: seq<Plan>, id: nat): (r: Option<nat>)
    ensures r.Some? ==> r.value < |plans| && plans[r.value].id == id
    ensures r.None? <==> forall k :: 0 <= k < |plans| ==> plans[k].id != id
  {
    if plans == [] then None
    else if plans[0].id == id then Some(0)
    else match IndexOf(plans[1..], id)
      case None => None
      case Some(k) => Some(k + 1)
  }

  /** GET /:id. */
  function GetById(plans: seq<Plan>, id: nat): (r: Option<Plan>)
    ensures r.Some? ==> r.value in plans && r.value.id == id
    ensures r.None? <==> forall p :: p in plans ==> p.id != id
  {
    match IndexOf(plans, id)
    case None => None
    case Some(k) => Some(plans[k])
  }

  /** GET /bodytype/:bodyType: `Plan.find({ bodyType })`. */
  function WithBodyType(plans: seq<Plan>, bodyType: string): (r: seq<Plan>)
    ensures forall p :: p in r <==> p in plans && p.bodyType == bodyType
    ensures multiset(r) <= multiset(plans)
    ensures forall p :: multiset(r)[p] == if p.bodyType == bodyType then multiset(plans)[p] else 0
    ensures |r| <= |plans|
  {
    if plans == [] then []
    else
      var rest := WithBodyType(plans[1..], bodyType);
      assert plans == [plans[0]] + plans[1..];
      if plans[0].bodyType == bodyType then [plans[0]] + rest else rest
  }

  /** The list order: body type ascending, then newest first. */
  predicate InOrder(p: Plan, q: Plan)
  {
    Less(p.bodyType, q.bodyType) || (p.bodyType == q.bodyType && p.createdAt >= q.createdAt)
  }

  predicate Sorted(plans: seq<Plan>)
  {
    forall i, j :: 0 <= i < j < |plans| ==> InOrder(plans[i], plans[j])
  }

  lemma InOrderTotal(p: Plan, q: Plan)
    ensures InOrder(p, q) || InOrder(q, p)
  {
    if p.bodyType != q.bodyType {
      LessTotal(p.bodyType, q.bodyType);
    }
  }

  lemma InOrderTransitive(p: Plan, q: Plan, r: Plan)
    requires InOrder(p, q) && InOrder(q, r)
    ensures InOrder(p, r)
  {
    if Less(p.bodyType, q.bodyType) && Less(q.bodyType, r.bodyType) {
      LessTransitive(p.bodyType, q.bodyType, r.bodyType);
    }
  }

  function Insert(p: Plan, plans: seq<Plan>): seq<Plan>
  {
    if plans == [] then [p]
    else if InOrder(p, plans[0]) then [p] + plans
    else [plans[0]] + Insert(p, plans[1..])
  }

  /** GET /: `Plan.find().sort({ bodyType: 1, createdAt: -1 })`. */
  function SortPlans(plans: seq<Plan>): seq<Plan>
  {
    if plans == [] then [] else Insert(plans[0], SortPlans(plans[1..]))
  }

  lemma {:induction false} InsertSorted(p: Plan, plans: seq<Plan>)
    requires Sorted(plans)
    ensures Sorted(Insert(p, plans))
    ensures multiset(Insert(p, plans)) == multiset(plans) + multiset{p}
  {
    if plans == [] {
    } else if InOrder(p, plans[0]) {
      forall j | 0 <= j < |plans| ensures InOrder(p, plans[j]) {
        if j > 0 {
          InOrderTransitive(p, plans[0], plans[j]);
        }
      }
    } else {
      var head, tail := plans[0], plans[1..];
      assert plans == [head] + tail;
      InOrderTotal(p, head);
      InsertSorted(p, tail);
      var r := Insert(p, tail);
      forall j | 0 <= j < |r| ensures InOrder(head, r[j]) {
        assert r[j] in multiset(r);
        if r[j] != p {
          assert r[j] in multiset(tail);
          var k :| 0 <= k < |tail| && tail[k] == r[j];
          assert plans[k + 1] == r[j];
        }
      }
      assert Insert(p, plans) == [head] + r;
    }
  }

  /** The list is sorted by (body type ascending, creation time descending)
      and holds exactly the stored plans. */
  lemma {:induction false} SortPlansCorrect(plans: seq<Plan>)
    ensures Sorted(SortPlans(plans))
    ensures multiset(SortPlans(plans)) == multiset(plans)
  {
    if plans != [] {
      SortPlansCorrect(plans[1..]);
      InsertSorted(plans[0], SortPlans(plans[1..]));
      assert plans == [plans[0]] + plans[1..];
    }
  }

  /** The plan collection. */
  class PlanStore {
    var plans: seq<Plan>
    var nextId: nat

    ghost predicate Valid()
      reads this
    {
      IdsUnique(plans) && forall k :: 0 <= k < |plans| ==> plans[k].id < nextId
    }

    constructor ()
      ensures Valid() && plans == [] && nextId == 0
    {
      plans := [];
      nextId := 0;
    }

    /** POST / behind the admin gate. */
    method Create(gate: Gate, input: PlanInput, now: int) returns (reply: Reply)
      requires Valid()
      modifies this
      ensures Valid()
      ensures gate.Deny? ==> reply == Reply(gate.status, gate.error) && unchanged(this)
      ensures gate.Admit? && !RequiredPresent(input)
        ==> reply == Reply(400, MissingFields) && unchanged(this)
      ensures gate.Admit? && RequiredPresent(input) ==>
        && reply.status == 201
        && plans == old(plans) + [NewPlan(old(nextId), input, Some(gate.userId), now)]
        && nextId == old(nextId) + 1
    {
      if gate.Deny? {
        return Reply(gate.status, gate.error);
      }
      var req := Forward(gate, Request(None, None));
      if !Present(input.title) || !Present(input.description) || !Present(input.bodyType)
        || !Present(input.focus) || !DaysPresent(input.days) || !Present(input.tips)
      {
        return Reply(400, MissingFields);
      }
      var plan := Plan(nextId, input.title.value, input.description.value, input.bodyType.value,
                       input.focus.value, NormalizeDays(input.days), input.tips.value,
                       OrElse(input.icon, DefaultIcon), Creator(req), now, None);
      plans := plans + [plan];
      nextId := nextId + 1;
      reply := Reply(201, "");
    }

    /** PUT /:id behind the admin gate. */
    method Update(gate: Gate, id: nat, patch: PlanPatch, now: int) returns (reply: Reply)
      requires Valid()
      modifies this
      ensures Valid()
      ensures gate.Deny? ==> reply == Reply(gate.status, gate.error) && unchanged(this)
      ensures gate.Admit? ==>
        var k := IndexOf(old(plans), id);
        && (k.None? ==> reply == Reply(404, PlanNotFound) && unchanged(this))
        && (k.Some? ==>
              && reply.status == 200 && nextId == old(nextId)
              && plans == old(plans)[k.value := ApplyPatch(old(plans)[k.value], patch, now)])
    {
      if gate.Deny? {
        return Reply(gate.status, gate.error);
      }
      var k := IndexOf(plans, id);
      if k.None? {
        return Reply(404, PlanNotFound);
      }
      plans := plans[k.value := ApplyPatch(plans[k.value], patch, now)];
      reply := Reply(200, "");
    }

    /** DELETE /:id behind the admin gate. */
    method Delete(gate: Gate, id: nat) returns (reply: Reply)
      requires Valid()
      modifies this
      ensures Valid()
      ensures gate.Deny? ==> reply == Reply(gate.status, gate.error) && unchanged(this)
      ensures gate.Admit? ==>
        var k := IndexOf(old(plans), id);
        && (k.None? ==> reply == Reply(404, PlanNotFound) && unchanged(this))
        && (k.Some? ==>
              && reply == Reply(200, "Plan deleted successfully") && nextId == old(nextId)
              && plans == old(plans)[..k.value] + old(plans)[k.value + 1..])
      ensures gate.Admit? ==> forall p :: p in plans <==> p in old(plans) && p.id != id
    {
      if gate.Deny? {
        return Reply(gate.status, gate.error);
      }
      var k := IndexOf(plans, id);
      if k.None? {
        return Reply(404, PlanNotFound);
      }
      DeleteRemovesExactly(plans, k.value);
      plans := plans[..k.value] + plans[k.value + 1..];
      reply := Reply(200, "Plan deleted successfully");
    }
  }

  /** With unique ids, cutting out the plan at `k` removes exactly the plans
      with its id. */
  lemma DeleteRemovesExactly(plans: seq<Plan>, k: nat)
    requires IdsUnique(plans) && k < |plans|
    ensures forall p :: p in plans[..k] + plans[k + 1..] <==> p in plans && p.id != plans[k].id
  {
    var rest := plans[..k] + plans[k + 1..];
    forall p | p in plans && p.id != plans[k].id ensures p in rest {
      var j :| 0 <= j < |plans| && plans[j] == p;
      if j < k {
        assert rest[j] == p;
      } else {
        assert rest[j - 1] == p;
      }
    }
  }
}

/** The coupon management screen: its `coupons` list, the add, edit and delete
    handlers that replace that list, the search box and the status badge. */
module Coupons {
  import opened Models
  import opened Text
  import Lists

  /** The values the add and edit dialogs submit, already parsed: numbers are
      what `Number(...)` gave, an optional select is `None` when the field
      was not rendered. The add dialog has no status field; `status` is read
      by edit only. */
  datatype CouponForm = CouponForm(
    code: string,
    description: string,
    discountType: string,
    discountValue: real,
    startDate: string,
    endDate: string,
    maxUses: real,
    status: string,
    tenantId: Option<string>,
    companyId: Option<string>)

  /** `Number(maxUses) || undefined`: a zero limit (also what a blank field
      parses to) means no limit. */
  function UsageLimit(maxUses: real): Option<real>
  {
    if maxUses == 0.0 then None else Some(maxUses)
  }

  /** `(value as string) || undefined`: a missing or empty selection is absent. */
  function Selection(value: Option<string>): Option<string>
  {
    if Truthy(value) then value else None
  }

  /** The ids of a list of coupons, in order. */
  function IdsOf(cs: seq<Coupon>): seq<nat>
  {
    Lists.Map(cs, (c: Coupon) => c.id)
  }

  /** The largest id, or 0 for no ids. */
  function Max(ids: seq<nat>): (m: nat)
    ensures forall i :: i in ids ==> i <= m
    ensures ids != [] ==> m in ids
  {
    if ids == [] then 0
    else
      var rest := Max(ids[1..]);
      assert forall i :: i in ids ==> i == ids[0] || i in ids[1..];
      if ids[0] >= rest then ids[0] else rest
  }

  /** The id a new coupon gets: one more than the largest existing id
      (1 for an empty list), so it is larger than, hence different from,
      every existing id. */
  function NextId(ids: seq<nat>): (r: nat)
    ensures forall i :: i in ids ==> i < r
    ensures r !in ids
    ensures ids == [] ==> r == 1
    ensures ids != [] ==> r == Max(ids) + 1 && r - 1 in ids
  {
    Max(ids) + 1
  }

  /** The coupon the add handler builds from a form. */
  function NewCoupon(f: CouponForm, id: nat, today: string): Coupon
  {
    Coupon(
      id := id,
      code := f.code,
      description := Some(f.description),
      discountType := f.discountType,
      discountValue := f.discountValue,
      startDate := f.startDate,
      endDate := f.endDate,
      maxUses := UsageLimit(f.maxUses),
      currentUses := 0,
      status := "active",
      tenantId := Selection(f.tenantId),
      companyId := Selection(f.companyId),
      createdAt := today,
      createdBy := "admin",
      minPurchaseAmount := None,
      maxDiscountAmount := None)
  }

  /** The list after `handleAddCoupon`. */
  function Added(cs: seq<Coupon>, f: CouponForm, today: string): seq<Coupon>
  {
    cs + [NewCoupon(f, NextId(IdsOf(cs)), today)]
  }

  /** `{ ...coupon, ...updatedCoupon }`: the form's fields overwrite the
      coupon's; absent optional fields overwrite too. */
  function ApplyEdit(c: Coupon, f: CouponForm): Coupon
  {
    c.(code := f.code,
       description := Some(f.description),
       discountType := f.discountType,
       discountValue := f.discountValue,
       startDate := f.startDate,
       endDate := f.endDate,
       maxUses := UsageLimit(f.maxUses),
       status := f.status,
       tenantId := Selection(f.tenantId),
       companyId := Selection(f.companyId))
  }

  /** The list after `handleEditCoupon`; `selected` is the id of the coupon the
      dialog was opened for (`None` when none is selected). */
  function Edited(cs: seq<Coupon>, selected: Option<nat>, f: CouponForm): seq<Coupon>
  {
    Lists.Map(cs, (c: Coupon) => if selected == Some(c.id) then ApplyEdit(c, f) else c)
  }

  /** The list after `handleDeleteCoupon(id)`. */
  function Without(cs: seq<Coupon>, id: nat): seq<Coupon>
  {
    Lists.Filter(cs, (c: Coupon) => c.id != id)
  }

  /** The search box's test: the code, or a non-empty description, contains the
      query, ignoring case. */
  predicate Matches(c: Coupon, query: string)
  {
    ContainsIgnoringCase(c.code, query)
    || (Truthy(c.description) && ContainsIgnoringCase(c.description.value, query))
  }

  /** `filteredCoupons`: the coupons the table shows for a query. */
  function FilteredCoupons(cs: seq<Coupon>, query: string): seq<Coupon>
  {
    Lists.Filter(cs, (c: Coupon) => Matches(c, query))
  }

  /** `getStatusBadgeVariant`. */
  function StatusBadgeVariant(status: string): BadgeVariant
  {
    match status
    case "active" => Default
    case "inactive" => Secondary
    case "expired" => Destructive
    case _ => Outline
  }

  /** No two coupons share an id. */
  predicate DistinctIds(cs: seq<Coupon>)
  {
    forall i, j :: 0 <= i < j < |cs| ==> cs[i].id != cs[j].id
  }

  // ---------------------------------------------------------------- add

  /** Add appends exactly one coupon at the end, leaves the others as they
      were, and gives it a fresh id and the creation defaults. */
  lemma AddAppendsFreshCoupon(cs: seq<Coupon>, f: CouponForm, today: string)
    ensures var r := Added(cs, f, today);
      && |r| == |cs| + 1
      && r[..|cs|] == cs
      && (forall c :: c in cs ==> c.id < r[|cs|].id)
      && r[|cs|].currentUses == 0
      && r[|cs|].status == "active"
      && r[|cs|].createdBy == "admin"
      && r[|cs|].createdAt == today
      && r[|cs|].minPurchaseAmount == None
      && r[|cs|].maxDiscountAmount == None
  {
    var ids := IdsOf(cs);
    forall c | c in cs ensures c.id in ids {
      var i :| 0 <= i < |cs| && cs[i] == c;
      assert ids[i] == c.id;
    }
    assert (cs + [NewCoupon(f, NextId(ids), today)])[..|cs|] == cs;
  }

  /** Add turns a zero limit and an empty tenant or company selection into
      "absent", and copies every other form field. */
  lemma AddNormalisesBlankFields(cs: seq<Coupon>, f: CouponForm, today: string)
    ensures var c := Added(cs, f, today)[|cs|];
      && (c.maxUses == None <==> f.maxUses == 0.0)
      && (c.maxUses != None ==> c.maxUses.value == f.maxUses)
      && (c.tenantId == None <==> !Truthy(f.tenantId))
      && (c.companyId == None <==> !Truthy(f.companyId))
      && (c.tenantId != None ==> c.tenantId == f.tenantId)
      && (c.companyId != None ==> c.companyId == f.companyId)
      && c.code == f.code && c.description == Some(f.description)
      && c.discountType == f.discountType && c.discountValue == f.discountValue
      && c.startDate == f.startDate && c.endDate == f.endDate
  {
  }

  /** Add keeps the ids distinct. */
  lemma AddKeepsIdsDistinct(cs: seq<Coupon>, f: CouponForm, today: string)
    requires DistinctIds(cs)
    ensures DistinctIds(Added(cs, f, today))
  {
    AddAppendsFreshCoupon(cs, f, today);
    var r := Added(cs, f, today);
    forall i, j | 0 <= i < j < |r| ensures r[i].id != r[j].id {
      if j == |cs| {
        assert r[i] == cs[i] && cs[i] in cs;
      } else {
        assert r[i] == cs[i] && r[j] == cs[j];
      }
    }
  }

  // ---------------------------------------------------------------- edit

  /** Edit overwrites exactly the form's fields and keeps the id, the usage
      count, the creation data and the purchase limits. */
  lemma EditKeepsBookkeeping(c: Coupon, f: CouponForm)
    ensures var e := ApplyEdit(c, f);
      && e.id == c.id
      && e.currentUses == c.currentUses
      && e.createdAt == c.createdAt
      && e.createdBy == c.createdBy
      && e.minPurchaseAmount == c.minPurchaseAmount
      && e.maxDiscountAmount == c.maxDiscountAmount
      && e.code == f.code && e.description == Some(f.description)
      && e.discountType == f.discountType && e.discountValue == f.discountValue
      && e.startDate == f.startDate && e.endDate == f.endDate
      && e.maxUses == UsageLimit(f.maxUses) && e.status == f.status
      && e.tenantId == Selection(f.tenantId) && e.companyId == Selection(f.companyId)
  {
  }

  /** Edit keeps length, order and ids; it changes only coupons whose id is the
      selected one, and with no selection it changes nothing. */
  lemma EditChangesOnlyTarget(cs: seq<Coupon>, selected: Option<nat>, f: CouponForm)
    ensures var r := Edited(cs, selected, f);
      && |r| == |cs|
      && (forall i :: 0 <= i < |cs| && selected != Some(cs[i].id) ==> r[i] == cs[i])
      && (forall i :: 0 <= i < |cs| && selected == Some(cs[i].id) ==> r[i] == ApplyEdit(cs[i], f))
      && IdsOf(r) == IdsOf(cs)
      && (selected == None ==> r == cs)
  {
    var r := Edited(cs, selected, f);
    assert IdsOf(r) == IdsOf(cs);
  }

  /** Edit keeps the ids distinct. */
  lemma EditKeepsIdsDistinct(cs: seq<Coupon>, selected: Option<nat>, f: CouponForm)
    requires DistinctIds(cs)
    ensures DistinctIds(Edited(cs, selected, f))
  {
    EditChangesOnlyTarget(cs, selected, f);
  }

  // ---------------------------------------------------------------- delete

  /** Delete removes every coupon with the id, keeps each other coupon as often
      as it occurred, and keeps their order. */
  lemma DeleteRemovesOnlyTarget(cs: seq<Coupon>, id: nat)
    ensures var r := Without(cs, id);
      && (forall c :: c in r <==> c in cs && c.id != id)
      && (forall c :: multiset(r)[c] == if c.id != id then multiset(cs)[c] else 0)
      && Lists.IsSubsequence(r, cs)
  {
    Lists.FilterCounts(cs, (c: Coupon) => c.id != id);
    Lists.FilterIsSubsequence(cs, (c: Coupon) => c.id != id);
  }

  /** Delete keeps the ids distinct. */
  lemma DeleteKeepsIdsDistinct(cs: seq<Coupon>, id: nat)
    requires DistinctIds(cs)
    ensures DistinctIds(Without(cs, id))
  {
    Lists.FilterIsSubsequence(cs, (c: Coupon) => c.id != id);
    SubsequenceKeepsIdsDistinct(Without(cs, id), cs);
  }

  /** Dropping coupons from a list whose ids are distinct keeps them distinct. */
  lemma {:induction false} SubsequenceKeepsIdsDistinct(sub: seq<Coupon>, cs: seq<Coupon>)
    requires DistinctIds(cs)
    requires Lists.IsSubsequence(sub, cs)
    ensures DistinctIds(sub)
    ensures forall c :: c in sub ==> c in cs
  {
    if sub != [] {
      assert cs != [];
      if sub[0] == cs[0] {
        SubsequenceKeepsIdsDistinct(sub[1..], cs[1..]);
        forall j | 0 < j < |sub| ensures sub[0].id != sub[j].id {
          assert sub[j] == sub[1..][j - 1] && sub[1..][j - 1] in sub[1..];
          assert sub[j] in cs[1..];
          var k :| 0 <= k < |cs[1..]| && cs[1..][k] == sub[j];
          assert cs[k + 1] == sub[j];
        }
        forall c | c in sub ensures c in cs {
          if c != sub[0] {
            assert c in sub[1..];
          }
        }
      } else {
        SubsequenceKeepsIdsDistinct(sub, cs[1..]);
      }
    }
  }

  // ---------------------------------------------------------------- search

  /** Search keeps, in order, exactly the coupons that match the query. */
  lemma SearchKeepsMatchesInOrder(cs: seq<Coupon>, query: string)
    ensures var r := FilteredCoupons(cs, query);
      && (forall c :: c in r <==> c in cs && Matches(c, query))
      && Lists.IsSubsequence(r, cs)
  {
    Lists.FilterIsSubsequence(cs, (c: Coupon) => Matches(c, query));
  }

  /** An empty query shows every coupon. */
  lemma EmptySearchShowsAll(cs: seq<Coupon>)
    ensures FilteredCoupons(cs, "") == cs
  {
    forall c | c in cs ensures Matches(c, "") {
      EmptyQueryMatches(c.code);
    }
    Lists.FilterKeepsAll(cs, (c: Coupon) => Matches(c, ""));
  }

  /** A coupon is found by its own code, typed in any case. */
  lemma SearchFindsByCode(cs: seq<Coupon>, c: Coupon)
    requires c in cs
    ensures c in FilteredCoupons(cs, c.code)
    ensures c in FilteredCoupons(cs, ToLower(c.code))
  {
    SelfMatches(c.code);
    QueryCaseIrrelevant(c.code, c.code);
  }

  // ---------------------------------------------------------------- badge

  predicate KnownStatus(status: string)
  {
    status == "active" || status == "inactive" || status == "expired"
  }

  /** The three statuses get three different variants, and "outline" is what
      exactly the other strings get. */
  lemma BadgeVariantSeparatesStatuses(s: string, t: string)
    ensures KnownStatus(s) && KnownStatus(t) && s != t ==> StatusBadgeVariant(s) != StatusBadgeVariant(t)
    ensures StatusBadgeVariant(s) == Outline <==> !KnownStatus(s)
    ensures StatusBadgeVariant("active") == Default
    ensures StatusBadgeVariant("inactive") == Secondary
    ensures StatusBadgeVariant("expired") == Destructive
  {
  }

  // ---------------------------------------------------------------- the id as written

  /** A JavaScript number as far as `Math.max(...ids) + 1` can produce one from
      the ids of the list: a whole number or minus infinity. */
  datatype JsNumber = Finite(value: int) | NegativeInfinity

  /** `Math.max(...xs)`; with no arguments it is minus infinity. */
  function JsMax(xs: seq<JsNumber>): JsNumber
  {
    if xs == [] then NegativeInfinity
    else
      var rest := JsMax(xs[1..]);
      match (xs[0], rest)
      case (NegativeInfinity, _) => rest
      case (_, NegativeInfinity) => xs[0]
      case (Finite(a), Finite(b)) => Finite(if a >= b then a else b)
  }

  /** `x + 1`; minus infinity plus one is minus infinity. */
  function JsPlusOne(x: JsNumber): JsNumber
  {
    match x
    case Finite(v) => Finite(v + 1)
    case NegativeInfinity => NegativeInfinity
  }

  /** The id `handleAddCoupon` computes, as written, from `Number(c.id)` of
      every coupon in the list. */
  function NextIdAsWritten(ids: seq<JsNumber>): JsNumber
  {
    JsPlusOne(JsMax(ids))
  }

  /** On a non-empty list of numeric ids the code as written agrees with
      `NextId`. */
  lemma {:induction false} NextIdAsWrittenAgrees(ids: seq<nat>)
    requires ids != []
    ensures NextIdAsWritten(Lists.Map(ids, (n: nat) => Finite(n))) == Finite(NextId(ids))
  {
    JsMaxOfNumbers(ids);
  }

  lemma {:induction false} JsMaxOfNumbers(ids: seq<nat>)
    requires ids != []
    ensures JsMax(Lists.Map(ids, (n: nat) => Finite(n))) == Finite(Max(ids))
  {
    var xs := Lists.Map(ids, (n: nat) => Finite(n));
    assert xs[1..] == Lists.Map(ids[1..], (n: nat) => Finite(n));
    if ids[1..] != [] {
      JsMaxOfNumbers(ids[1..]);
    }
  }

  /** After every coupon has been deleted, two adds give two coupons the same
      id "-Infinity": `Math.max()` of no ids is minus infinity, its string
      converts back to minus infinity, and adding one does not change it. */
  lemma EmptyListAddsDuplicateIds()
    ensures NextIdAsWritten([]) == NegativeInfinity
    ensures NextIdAsWritten([NextIdAsWritten([])]) == NextIdAsWritten([])
  {
  }

  /** The coupon list of the screen. `Valid` is the invariant every handler
      keeps: ids are distinct. */
  class CouponStore {
    var coupons: seq<Coupon>
    var isAddDialogOpen: bool
    var isEditDialogOpen: bool

    ghost predicate Valid()
      reads this
    {
      DistinctIds(coupons)
    }

    constructor (initial: seq<Coupon>)
      requires DistinctIds(initial)
      ensures Valid() && coupons == initial
      ensures !isAddDialogOpen && !isEditDialogOpen
    {
      coupons := initial;
      isAddDialogOpen := false;
      isEditDialogOpen := false;
    }

    /** `handleAddCoupon`, once its delay has passed; `today` is the date part
        of the clock's ISO string. Returns the new coupon's id. */
    method AddCoupon(f: CouponForm, today: string) returns (id: nat)
      requires Valid()
      modifies this
      ensures Valid()
      ensures id == NextId(IdsOf(old(coupons)))
      ensures forall c :: c in old(coupons) ==> c.id < id
      ensures coupons == old(coupons) + [NewCoupon(f, id, today)]
      ensures !isAddDialogOpen && isEditDialogOpen == old(isEditDialogOpen)
    {
      AddKeepsIdsDistinct(coupons, f, today);
      AddAppendsFreshCoupon(coupons, f, today);
      id := NextId(IdsOf(coupons));
      coupons := coupons + [NewCoupon(f, id, today)];
      isAddDialogOpen := false;
    }

    /** `handleEditCoupon` for the coupon selected when the dialog opened. */
    method EditCoupon(selected: Option<nat>, f: CouponForm)
      requires Valid()
      modifies this
      ensures Valid()
      ensures coupons == Edited(old(coupons), selected, f)
      ensures |coupons| == |old(coupons)| && IdsOf(coupons) == IdsOf(old(coupons))
      ensures !isEditDialogOpen && isAddDialogOpen == old(isAddDialogOpen)
    {
      EditKeepsIdsDistinct(coupons, selected, f);
      EditChangesOnlyTarget(coupons, selected, f);
      coupons := Edited(coupons, selected, f);
      isEditDialogOpen := false;
    }

    /** `handleDeleteCoupon(id)`. */
    method DeleteCoupon(id: nat)
      requires Valid()
      modifies this`coupons
      ensures Valid()
      ensures coupons == Without(old(coupons), id)
      ensures forall c :: c in coupons ==> c.id != id
    {
      DeleteKeepsIdsDistinct(coupons, id);
      coupons := Without(coupons, id);
    }
  }
}

/** The records of the budget store (`Gift`, `Recipient`) and the pure
    part of its operations: every update of the recipient list is a
    function from the old list to the new one, and the derived totals are
    functions of the state. */
module BudgetModel {
  import opened Wrappers
  import opened Lists

  datatype Gift = Gift(
    id: string,
    name: string,
    price: real,
    recipientId: string,
    storeName: Option<string>,
    url: Option<string>,
    imageUrl: Option<string>)

  datatype Recipient = Recipient(
    id: string,
    name: string,
    budget: real,
    spent: real,
    gifts: seq<Gift>,
    age: Option<real>,
    gender: Option<string>,
    interests: Option<string>)

  /** One key of a `Partial<T>` for an optional field: absent (`Keep`), or
      present (`Put`). A key that is present but holds `undefined` is
      `Put(None)`, and spreading it clears the field. */
  datatype Slot<+T> = Keep | Put(value: Option<T>)

  /** Spreading one optional key: an absent key keeps the field, a present
      one replaces it, with `undefined` clearing it. */
  function Patch<T>(current: Option<T>, s: Slot<T>): (p: Option<T>)
    ensures s.Keep? ==> p == current
    ensures s.Put? ==> p == s.value
  {
    match s
    case Keep => current
    case Put(v) => v
  }

  /** A `Partial<Gift>`; a required field's key is either absent (`None`) or
      holds a value. */
  datatype GiftUpdate = GiftUpdate(
    id: Option<string>,
    name: Option<string>,
    price: Option<real>,
    recipientId: Option<string>,
    storeName: Slot<string>,
    url: Slot<string>,
    imageUrl: Slot<string>)

  const NoGiftChange := GiftUpdate(None, None, None, None, Keep, Keep, Keep)

  /** `{ ...g, ...u }`: every key the update carries wins, every other field
      is the gift's own. */
  function MergeGift(g: Gift, u: GiftUpdate): (m: Gift)
    ensures u == NoGiftChange ==> m == g
    ensures m.id == (if u.id.Some? then u.id.value else g.id)
    ensures m.name == (if u.name.Some? then u.name.value else g.name)
    ensures m.price == (if u.price.Some? then u.price.value else g.price)
    ensures m.recipientId == (if u.recipientId.Some? then u.recipientId.value else g.recipientId)
    ensures m.storeName == (if u.storeName.Put? then u.storeName.value else g.storeName)
    ensures m.url == (if u.url.Put? then u.url.value else g.url)
    ensures m.imageUrl == (if u.imageUrl.Put? then u.imageUrl.value else g.imageUrl)
  {
    Gift(u.id.GetOr(g.id), u.name.GetOr(g.name), u.price.GetOr(g.price),
         u.recipientId.GetOr(g.recipientId), Patch(g.storeName, u.storeName),
         Patch(g.url, u.url), Patch(g.imageUrl, u.imageUrl))
  }

  /** A `Partial<Recipient>`. It may carry `spent` and `gifts`. */
  datatype RecipientUpdate = RecipientUpdate(
    id: Option<string>,
    name: Option<string>,
    budget: Option<real>,
    spent: Option<real>,
    gifts: Option<seq<Gift>>,
    age: Slot<real>,
    gender: Slot<string>,
    interests: Slot<string>)

  const NoRecipientChange := RecipientUpdate(None, None, None, None, None, Keep, Keep, Keep)

  /** `{ ...r, ...u }`: every key the update carries wins, every other field
      is the recipient's own. */
  function MergeRecipient(r: Recipient, u: RecipientUpdate): (m: Recipient)
    ensures u == NoRecipientChange ==> m == r
    ensures m.id == (if u.id.Some? then u.id.value else r.id)
    ensures m.name == (if u.name.Some? then u.name.value else r.name)
    ensures m.budget == (if u.budget.Some? then u.budget.value else r.budget)
    ensures m.spent == (if u.spent.Some? then u.spent.value else r.spent)
    ensures m.gifts == (if u.gifts.Some? then u.gifts.value else r.gifts)
    ensures m.age == (if u.age.Put? then u.age.value else r.age)
    ensures m.gender == (if u.gender.Put? then u.gender.value else r.gender)
    ensures m.interests == (if u.interests.Put? then u.interests.value else r.interests)
  {
    Recipient(u.id.GetOr(r.id), u.name.GetOr(r.name), u.budget.GetOr(r.budget),
              u.spent.GetOr(r.spent), u.gifts.GetOr(r.gifts), Patch(r.age, u.age),
              Patch(r.gender, u.gender), Patch(r.interests, u.interests))
  }

  // ---------------------------------------------------------------- sums

  /** `gifts.reduce((sum, g) => sum + g.price, 0)`, folded from the left as
      `reduce` does. With no negative price the sum is never negative. */
  function Sum(gs: seq<Gift>): (total: real)
    ensures (forall i :: 0 <= i < |gs| ==> gs[i].price >= 0.0) ==> total >= 0.0
  {
    if |gs| == 0 then 0.0 else Sum(gs[..|gs| - 1]) + gs[|gs| - 1].price
  }

  lemma SumSnoc(gs: seq<Gift>, g: Gift)
    ensures Sum(gs + [g]) == Sum(gs) + g.price
  {
    assert (gs + [g])[..|gs|] == gs;
  }

  lemma {:induction false} SumAppend(a: seq<Gift>, b: seq<Gift>)
    ensures Sum(a + b) == Sum(a) + Sum(b)
  {
    if |b| == 0 {
      assert a + b == a;
    } else {
      var n := |b| - 1;
      assert a + b == (a + b[..n]) + [b[n]];
      SumSnoc(a + b[..n], b[n]);
      SumAppend(a, b[..n]);
      SumSnoc(b[..n], b[n]);
      assert b[..n] + [b[n]] == b;
    }
  }

  /** With positive prices (the only ones the gift form lets through) the
      sum is never negative, and is positive as soon as there is a gift. */
  lemma {:induction false} SumOfPositivePrices(gs: seq<Gift>)
    requires forall i :: 0 <= i < |gs| ==> gs[i].price > 0.0
    ensures Sum(gs) >= 0.0
    ensures |gs| > 0 ==> Sum(gs) > 0.0
  {
    if |gs| > 0 {
      SumOfPositivePrices(gs[..|gs| - 1]);
    }
  }

  /** The invariant every gift operation re-establishes. */
  predicate SpentMatches(r: Recipient)
  {
    r.spent == Sum(r.gifts)
  }

  predicate AllSpentMatch(rs: seq<Recipient>)
  {
    forall i :: 0 <= i < |rs| ==> SpentMatches(rs[i])
  }

  /** `recipients.reduce((sum, r) => sum + r.spent, 0)`. With no negative
      `spent` the total is never negative. */
  function TotalOf(rs: seq<Recipient>): (total: real)
    ensures (forall i :: 0 <= i < |rs| ==> rs[i].spent >= 0.0) ==> total >= 0.0
  {
    if |rs| == 0 then 0.0 else TotalOf(rs[..|rs| - 1]) + rs[|rs| - 1].spent
  }

  /** Every gift of every recipient, recipient by recipient. */
  function AllGifts(rs: seq<Recipient>): seq<Gift>
  {
    if |rs| == 0 then [] else AllGifts(rs[..|rs| - 1]) + rs[|rs| - 1].gifts
  }

  /** While the invariant holds, the total spent is the sum of the prices of
      all gifts of all recipients. */
  lemma {:induction false} TotalIsSumOfAllGifts(rs: seq<Recipient>)
    requires AllSpentMatch(rs)
    ensures TotalOf(rs) == Sum(AllGifts(rs))
  {
    if |rs| > 0 {
      var n := |rs| - 1;
      TotalIsSumOfAllGifts(rs[..n]);
      SumAppend(AllGifts(rs[..n]), rs[n].gifts);
    }
  }

  /** How many recipients carry the id `id` (one, when ids are unique). */
  function CountWithId(rs: seq<Recipient>, id: string): (n: nat)
    ensures n <= |rs|
    ensures n == 0 <==> forall i :: 0 <= i < |rs| ==> rs[i].id != id
  {
    if |rs| == 0 then 0
    else CountWithId(rs[..|rs| - 1], id) + (if rs[|rs| - 1].id == id then 1 else 0)
  }

  /** `d` added up `n` times; kept apart from `*` so that totals stay in
      linear arithmetic. */
  function Times(n: nat, d: real): real
  {
    if n == 0 then 0.0 else Times(n - 1, d) + d
  }

  /** When each recipient with id `id` has its `spent` moved by `d` and every
      other keeps it, the total moves by `d` once per such recipient. */
  lemma {:induction false} TotalShift(a: seq<Recipient>, b: seq<Recipient>, id: string, d: real)
    requires |a| == |b|
    requires forall i :: 0 <= i < |a| ==> b[i].spent == a[i].spent + (if a[i].id == id then d else 0.0)
    ensures TotalOf(b) == TotalOf(a) + Times(CountWithId(a, id), d)
  {
    if |a| > 0 {
      var n := |a| - 1;
      TotalShift(a[..n], b[..n], id, d);
    }
  }

  // ------------------------------------------------- recipient-level updates

  function RecipientIdIs(id: string): Recipient -> bool
  {
    (r: Recipient) => r.id == id
  }

  function GiftIdIs(gid: string): Gift -> bool
  {
    (g: Gift) => g.id == gid
  }

  /** `{ ...r, gifts: gs, spent: <sum of the prices of gs> }`, the record every
      gift operation builds: only `gifts` and `spent` change, and `spent`
      agrees with the new gifts. */
  function WithGifts(r: Recipient, gs: seq<Gift>): (out: Recipient)
    ensures out.gifts == gs && SpentMatches(out)
    ensures out.(gifts := r.gifts, spent := r.spent) == r
  {
    r.(gifts := gs, spent := Sum(gs))
  }

  /** `r.gifts.map(g => g.id === gid ? { ...g, ...u } : g)` */
  function UpdatedGifts(gs: seq<Gift>, gid: string, u: GiftUpdate): (out: seq<Gift>)
    ensures |out| == |gs|
    ensures forall j :: 0 <= j < |gs| && gs[j].id == gid ==> out[j] == MergeGift(gs[j], u)
    ensures forall j :: 0 <= j < |gs| && gs[j].id != gid ==> out[j] == gs[j]
  {
    MapIf(gs, GiftIdIs(gid), (g: Gift) => MergeGift(g, u))
  }

  /** `r.gifts.filter(g => g.id !== gid)`: no gift with that id is left,
      every other gift is kept, and nothing is added. */
  function RemainingGifts(gs: seq<Gift>, gid: string): (out: seq<Gift>)
    ensures forall j :: 0 <= j < |out| ==> out[j].id != gid
    ensures forall j :: 0 <= j < |gs| && gs[j].id != gid ==> gs[j] in out
    ensures forall g :: g in out ==> g in gs
  {
    RemoveAll(gs, GiftIdIs(gid))
  }

  /** Deleting keeps the survivors in order: the deletion of a concatenation
      is the concatenation of the deletions. */
  lemma RemainingGiftsAppend(a: seq<Gift>, b: seq<Gift>, gid: string)
    ensures RemainingGifts(a + b, gid) == RemainingGifts(a, gid) + RemainingGifts(b, gid)
  {
    RemoveAllAppend(a, b, GiftIdIs(gid));
  }

  /** Deleting an id that no gift has changes nothing. */
  lemma RemainingGiftsAbsent(gs: seq<Gift>, gid: string)
    requires forall j :: 0 <= j < |gs| ==> gs[j].id != gid
    ensures RemainingGifts(gs, gid) == gs
  {
    RemoveAllAbsent(gs, GiftIdIs(gid));
  }

  // ------------------------------------------------------ list-level updates

  /** The list after `addGift(rid, g)`: each recipient with id `rid` has `g`
      appended to its gifts and `spent` recomputed from them; every other
      recipient, the length and the order are unchanged. */
  function AddGiftTo(rs: seq<Recipient>, rid: string, g: Gift): (out: seq<Recipient>)
    ensures |out| == |rs|
    ensures forall i :: 0 <= i < |rs| && rs[i].id == rid ==>
      out[i].gifts == rs[i].gifts + [g] && SpentMatches(out[i]) &&
      out[i].(gifts := rs[i].gifts, spent := rs[i].spent) == rs[i]
    ensures forall i :: 0 <= i < |rs| && rs[i].id != rid ==> out[i] == rs[i]
  {
    MapIf(rs, RecipientIdIs(rid), (r: Recipient) => WithGifts(r, r.gifts + [g]))
  }

  /** The list after `updateGift(rid, gid, u)`: in each recipient with id
      `rid`, every gift with id `gid` has `u` merged in, the other gifts are
      unchanged, and `spent` is the sum of the new prices. */
  function UpdateGiftIn(rs: seq<Recipient>, rid: string, gid: string, u: GiftUpdate): (out: seq<Recipient>)
    ensures |out| == |rs|
    ensures forall i :: 0 <= i < |rs| && rs[i].id == rid ==>
      out[i].gifts == UpdatedGifts(rs[i].gifts, gid, u) && SpentMatches(out[i]) &&
      out[i].(gifts := rs[i].gifts, spent := rs[i].spent) == rs[i]
    ensures forall i :: 0 <= i < |rs| && rs[i].id != rid ==> out[i] == rs[i]
  {
    MapIf(rs, RecipientIdIs(rid), (r: Recipient) => WithGifts(r, UpdatedGifts(r.gifts, gid, u)))
  }

  /** The list after `deleteGift(rid, gid)`: each recipient with id `rid`
      keeps exactly its gifts whose id is not `gid`, and `spent` is the sum of
      their prices. */
  function DeleteGiftFrom(rs: seq<Recipient>, rid: string, gid: string): (out: seq<Recipient>)
    ensures |out| == |rs|
    ensures forall i :: 0 <= i < |rs| && rs[i].id == rid ==>
      out[i].gifts == RemainingGifts(rs[i].gifts, gid) && SpentMatches(out[i]) &&
      out[i].(gifts := rs[i].gifts, spent := rs[i].spent) == rs[i]
    ensures forall i :: 0 <= i < |rs| && rs[i].id != rid ==> out[i] == rs[i]
  {
    MapIf(rs, RecipientIdIs(rid), (r: Recipient) => WithGifts(r, RemainingGifts(r.gifts, gid)))
  }

  /** The list after `updateRecipient(id, u)`: `u` is spread over each
      recipient with that id, and the others are unchanged. */
  function UpdateRecipientIn(rs: seq<Recipient>, id: string, u: RecipientUpdate): (out: seq<Recipient>)
    ensures |out| == |rs|
    ensures forall i :: 0 <= i < |rs| && rs[i].id == id ==> out[i] == MergeRecipient(rs[i], u)
    ensures forall i :: 0 <= i < |rs| && rs[i].id != id ==> out[i] == rs[i]
  {
    MapIf(rs, RecipientIdIs(id), (r: Recipient) => MergeRecipient(r, u))
  }

  /** The list after `deleteRecipient(id)`: no recipient with that id is
      left, and every other one is kept. */
  function DeleteRecipientFrom(rs: seq<Recipient>, id: string): (out: seq<Recipient>)
    ensures forall i :: 0 <= i < |out| ==> out[i].id != id
    ensures forall i :: 0 <= i < |rs| && rs[i].id != id ==> rs[i] in out
    ensures forall r :: r in out ==> r in rs
  {
    RemoveAll(rs, RecipientIdIs(id))
  }

  /** Deleting an id no recipient has returns the same list. */
  lemma DeleteRecipientAbsent(rs: seq<Recipient>, id: string)
    requires forall i :: 0 <= i < |rs| ==> rs[i].id != id
    ensures DeleteRecipientFrom(rs, id) == rs
  {
    RemoveAllAbsent(rs, RecipientIdIs(id));
  }

  /** Deleting recipients keeps the others in their order. */
  lemma DeleteRecipientAppend(a: seq<Recipient>, b: seq<Recipient>, id: string)
    ensures DeleteRecipientFrom(a + b, id) == DeleteRecipientFrom(a, id) + DeleteRecipientFrom(b, id)
  {
    RemoveAllAppend(a, b, RecipientIdIs(id));
  }

  /** `recipients.find(r => r.id === id)`: the first recipient with that id,
      or `None` exactly when there is none. */
  function FindRecipient(rs: seq<Recipient>, id: string): (found: Option<Recipient>)
    ensures found.None? <==> forall i :: 0 <= i < |rs| ==> rs[i].id != id
    ensures found.Some? ==> exists k :: 0 <= k < |rs| && rs[k] == found.value && rs[k].id == id &&
                                        forall j :: 0 <= j < k ==> rs[j].id != id
  {
    match FirstIndex(rs, RecipientIdIs(id))
    case None => None
    case Some(k) => Some(rs[k])
  }

  // ------------------------------------------------- what the updates keep

  /** Every gift operation keeps `spent == sum of prices` for the whole list. */
  lemma GiftOpsKeepSpentInvariant(rs: seq<Recipient>, rid: string, gid: string, g: Gift, u: GiftUpdate)
    requires AllSpentMatch(rs)
    ensures AllSpentMatch(AddGiftTo(rs, rid, g))
    ensures AllSpentMatch(UpdateGiftIn(rs, rid, gid, u))
    ensures AllSpentMatch(DeleteGiftFrom(rs, rid, gid))
  {
  }

  /** A gift operation on an id no recipient has leaves the list as it was. */
  lemma GiftOpsOnUnknownRecipient(rs: seq<Recipient>, rid: string, gid: string, g: Gift, u: GiftUpdate)
    requires forall i :: 0 <= i < |rs| ==> rs[i].id != rid
    ensures AddGiftTo(rs, rid, g) == rs
    ensures UpdateGiftIn(rs, rid, gid, u) == rs
    ensures DeleteGiftFrom(rs, rid, gid) == rs
  {
  }

  /** Adding a gift raises the total spent by its price once per recipient
      that carries the id (once, when ids are unique). */
  lemma AddGiftRaisesTotal(rs: seq<Recipient>, rid: string, g: Gift)
    requires AllSpentMatch(rs)
    ensures TotalOf(AddGiftTo(rs, rid, g)) == TotalOf(rs) + Times(CountWithId(rs, rid), g.price)
    ensures CountWithId(rs, rid) == 1 ==> TotalOf(AddGiftTo(rs, rid, g)) == TotalOf(rs) + g.price
  {
    AddGiftShiftsSpent(rs, rid, g);
    TotalShift(rs, AddGiftTo(rs, rid, g), rid, g.price);
  }

  lemma AddGiftShiftsSpent(rs: seq<Recipient>, rid: string, g: Gift)
    requires AllSpentMatch(rs)
    ensures var out := AddGiftTo(rs, rid, g);
      forall i :: 0 <= i < |rs| ==> out[i].spent == rs[i].spent + (if rs[i].id == rid then g.price else 0.0)
  {
    var out := AddGiftTo(rs, rid, g);
    forall i | 0 <= i < |rs|
      ensures out[i].spent == rs[i].spent + (if rs[i].id == rid then g.price else 0.0)
    {
      AddGiftSpentAt(rs, rid, g, i);
    }
  }

  lemma AddGiftSpentAt(rs: seq<Recipient>, rid: string, g: Gift, i: nat)
    requires i < |rs| && SpentMatches(rs[i])
    ensures AddGiftTo(rs, rid, g)[i].spent == rs[i].spent + (if rs[i].id == rid then g.price else 0.0)
  {
    if rs[i].id == rid {
      SumSnoc(rs[i].gifts, g);
    }
  }

  /** With non-negative prices, deleting gifts never raises what was spent. */
  lemma {:induction false} DeleteNeverRaisesSpent(gs: seq<Gift>, gid: string)
    requires forall j :: 0 <= j < |gs| ==> gs[j].price >= 0.0
    ensures Sum(RemainingGifts(gs, gid)) <= Sum(gs)
  {
    if |gs| > 0 {
      var n := |gs| - 1;
      DeleteNeverRaisesSpent(gs[..n], gid);
      assert Sum(gs) == Sum(gs[..n]) + gs[n].price;
      assert RemainingGifts(gs, gid) ==
        RemainingGifts(gs[..n], gid) + (if gs[n].id == gid then [] else [gs[n]]);
      assert gs[n].price >= 0.0;
      if gs[n].id != gid {
        SumSnoc(RemainingGifts(gs[..n], gid), gs[n]);
      } else {
        assert RemainingGifts(gs, gid) == RemainingGifts(gs[..n], gid);
      }
    }
  }

  /** `updateRecipient` keeps the invariant when the update leaves `spent`
      and `gifts` alone. */
  lemma UpdateRecipientKeepsSpent(rs: seq<Recipient>, id: string, u: RecipientUpdate)
    requires AllSpentMatch(rs)
    requires u.spent.None? && u.gifts.None?
    ensures AllSpentMatch(UpdateRecipientIn(rs, id, u))
  {
  }

  /** ... and can break it otherwise: `spent` is not guarded. */
  lemma UpdateRecipientCanBreakSpent()
    ensures var r := Recipient("1", "Alex", 200.0, 0.0, [], None, None, None);
            AllSpentMatch([r]) &&
            !AllSpentMatch(UpdateRecipientIn([r], "1", NoRecipientChange.(spent := Some(5.0))))
  {
    var r := Recipient("1", "Alex", 200.0, 0.0, [], None, None, None);
    var out := UpdateRecipientIn([r], "1", NoRecipientChange.(spent := Some(5.0)));
    assert out[0].spent == 5.0 && out[0].gifts == [];
  }

  /** After `deleteRecipient(id)`, `getRecipientById(id)` finds nothing. */
  lemma DeleteRecipientThenFind(rs: seq<Recipient>, id: string)
    ensures FindRecipient(DeleteRecipientFrom(rs, id), id) == None
  {
  }

  /** After `addRecipient(r)` the list is one longer with `r` last, and a
      lookup of its id finds `r` unless an earlier recipient has that id. */
  lemma AddRecipientThenFind(rs: seq<Recipient>, r: Recipient)
    ensures |rs + [r]| == |rs| + 1 && (rs + [r])[|rs|] == r
    ensures FindRecipient(rs + [r], r.id).Some?
    ensures FindRecipient(rs, r.id).None? ==> FindRecipient(rs + [r], r.id) == Some(r)
    ensures FindRecipient(rs, r.id).Some? ==> FindRecipient(rs + [r], r.id) == FindRecipient(rs, r.id)
  {
    var out := rs + [r];
    assert out[|rs|].id == r.id;
    if FindRecipient(rs, r.id).Some? {
      var k := FirstIndex(rs, RecipientIdIs(r.id)).value;
      assert FirstIndex(out, RecipientIdIs(r.id)) == Some(k) by {
        FirstIndexOfPrefix(rs, [r], RecipientIdIs(r.id));
      }
    }
  }

  lemma {:induction false} FirstIndexOfPrefix(a: seq<Recipient>, b: seq<Recipient>, pick: Recipient -> bool)
    requires FirstIndex(a, pick).Some?
    ensures FirstIndex(a + b, pick) == FirstIndex(a, pick)
  {
    if !pick(a[0]) {
      assert (a + b)[1..] == a[1..] + b;
      FirstIndexOfPrefix(a[1..], b, pick);
    }
  }

  // ------------------------------------------------------------ derived values

  /** `totalBudget - totalSpent`: what is left, negative when overspent. */
  function Remaining(totalBudget: real, rs: seq<Recipient>): (left: real)
    ensures left + TotalOf(rs) == totalBudget
    ensures left >= 0.0 <==> TotalOf(rs) <= totalBudget
  {
    totalBudget - TotalOf(rs)
  }

  /** `totalSpent / totalBudget * 100`, and exactly 0 for a zero budget
      whatever has been spent. */
  function PercentageUsed(totalBudget: real, rs: seq<Recipient>): (p: real)
    ensures totalBudget == 0.0 ==> p == 0.0
    ensures totalBudget != 0.0 ==> p * totalBudget == TotalOf(rs) * 100.0
  {
    if totalBudget == 0.0 then 0.0 else TotalOf(rs) / totalBudget * 100.0
  }

  /** With a positive budget and spending within it, the percentage lies
      between 0 and 100; spending beyond it pushes it over 100. */
  lemma PercentageUsedBounds(totalBudget: real, rs: seq<Recipient>)
    requires totalBudget > 0.0 && TotalOf(rs) >= 0.0
    ensures TotalOf(rs) <= totalBudget ==> 0.0 <= PercentageUsed(totalBudget, rs) <= 100.0
    ensures TotalOf(rs) > totalBudget ==> PercentageUsed(totalBudget, rs) > 100.0
  {
    var t := TotalOf(rs);
    assert PercentageUsed(totalBudget, rs) == (t / totalBudget) * 100.0;
    if t <= totalBudget {
      ShareAtMostWhole(t, totalBudget);
    } else {
      ShareAboveWhole(t, totalBudget);
    }
  }

  /** A part of a positive whole is a share between 0 and 1 of it. */
  lemma ShareAtMostWhole(part: real, whole: real)
    requires whole > 0.0 && 0.0 <= part <= whole
    ensures 0.0 <= part / whole <= 1.0
  {
    var q := part / whole;
    assert q * whole == part;
    assert (1.0 - q) * whole == whole - part;
  }

  /** More than a positive whole is a share above 1 of it. */
  lemma ShareAboveWhole(part: real, whole: real)
    requires whole > 0.0 && part > whole
    ensures part / whole > 1.0
  {
    var q := part / whole;
    assert q * whole == part;
    assert (q - 1.0) * whole == part - whole;
  }
}

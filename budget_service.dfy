/** The budget store of src/app/services/budget.ts: one object whose three
    signals (`firstName`, `totalBudget`, `recipients`) are fields that its
    methods replace, with the computed values as functions of those fields. */
module BudgetService {
  import opened Wrappers
  import opened BudgetModel

  class Budget {
    var firstName: string
    var totalBudget: real
    var recipients: seq<Recipient>

    constructor ()
      ensures firstName == "" && totalBudget == 0.0 && recipients == []
    {
      firstName := "";
      totalBudget := 0.0;
      recipients := [];
    }

    /** The computed signal `totalSpent`: the recipients' `spent` added up,
        which while every `spent` agrees with its gifts is the sum of every
        gift's price. */
    function TotalSpent(): (t: real)
      reads this
      ensures t == TotalOf(recipients)
      ensures AllSpentMatch(recipients) ==> t == Sum(AllGifts(recipients))
    {
      if AllSpentMatch(recipients) then
        TotalIsSumOfAllGifts(recipients);
        TotalOf(recipients)
      else
        TotalOf(recipients)
    }

    /** The computed signal `budgetRemaining`. */
    function BudgetRemaining(): (left: real)
      reads this
      ensures left + TotalSpent() == totalBudget
    {
      Remaining(totalBudget, recipients)
    }

    /** The computed signal `budgetPercentageUsed`. */
    function BudgetPercentageUsed(): (p: real)
      reads this
      ensures totalBudget == 0.0 ==> p == 0.0
      ensures totalBudget != 0.0 ==> p * totalBudget == TotalSpent() * 100.0
    {
      PercentageUsed(totalBudget, recipients)
    }

    method SetUserData(name: string, budget: real)
      modifies this
      ensures firstName == name && totalBudget == budget
      ensures recipients == old(recipients)
    {
      firstName := name;
      totalBudget := budget;
    }

    method AddRecipient(r: Recipient)
      modifies this
      ensures recipients == old(recipients) + [r]
      ensures firstName == old(firstName) && totalBudget == old(totalBudget)
      ensures old(AllSpentMatch(recipients)) && SpentMatches(r) ==> AllSpentMatch(recipients)
    {
      recipients := recipients + [r];
    }

    method UpdateRecipient(id: string, u: RecipientUpdate)
      modifies this
      ensures recipients == UpdateRecipientIn(old(recipients), id, u)
      ensures firstName == old(firstName) && totalBudget == old(totalBudget)
    {
      recipients := UpdateRecipientIn(recipients, id, u);
    }

    method DeleteRecipient(id: string)
      modifies this
      ensures recipients == DeleteRecipientFrom(old(recipients), id)
      ensures firstName == old(firstName) && totalBudget == old(totalBudget)
      ensures GetRecipientById(id) == None
      ensures old(AllSpentMatch(recipients)) ==> AllSpentMatch(recipients)
    {
      recipients := DeleteRecipientFrom(recipients, id);
    }

    method AddGift(rid: string, g: Gift)
      modifies this
      ensures recipients == AddGiftTo(old(recipients), rid, g)
      ensures firstName == old(firstName) && totalBudget == old(totalBudget)
      ensures old(AllSpentMatch(recipients)) ==> AllSpentMatch(recipients)
    {
      recipients := AddGiftTo(recipients, rid, g);
    }

    method UpdateGift(rid: string, gid: string, u: GiftUpdate)
      modifies this
      ensures recipients == UpdateGiftIn(old(recipients), rid, gid, u)
      ensures firstName == old(firstName) && totalBudget == old(totalBudget)
      ensures old(AllSpentMatch(recipients)) ==> AllSpentMatch(recipients)
    {
      recipients := UpdateGiftIn(recipients, rid, gid, u);
    }

    method DeleteGift(rid: string, gid: string)
      modifies this
      ensures recipients == DeleteGiftFrom(old(recipients), rid, gid)
      ensures firstName == old(firstName) && totalBudget == old(totalBudget)
      ensures old(AllSpentMatch(recipients)) ==> AllSpentMatch(recipients)
    {
      recipients := DeleteGiftFrom(recipients, rid, gid);
    }

    function GetRecipientById(id: string): (found: Option<Recipient>)
      reads this
      ensures found.None? <==> forall i :: 0 <= i < |recipients| ==> recipients[i].id != id
      ensures found.Some? ==> found.value.id == id && found.value in recipients
      ensures found == FindRecipient(recipients, id)
    {
      FindRecipient(recipients, id)
    }
  }

  /** The walk-through of a first session: a budget of 500, a recipient
      "Alex" with a budget of 200, then a book at 20 and a game at 35. */
  method FirstSessionTotals() returns (alexSpent: real, spent: real, remaining: real)
    ensures alexSpent == 55.0 && spent == 55.0 && remaining == 445.0
  {
    var store := new Budget();
    store.SetUserData("Sam", 500.0);
    store.AddRecipient(Recipient("1", "Alex", 200.0, 0.0, [], None, None, None));
    var book := Gift("10", "Book", 20.0, "1", None, None, None);
    var game := Gift("11", "Game", 35.0, "1", None, None, None);
    store.AddGift("1", book);
    store.AddGift("1", game);
    assert store.recipients[0].gifts == [book, game];
    assert [book, game][..1] == [book];
    var alex := store.GetRecipientById("1");
    assert alex == Some(store.recipients[0]);
    alexSpent := alex.value.spent;
    assert |store.recipients| == 1 && store.recipients[..0] == [];
    assert TotalOf(store.recipients) == TotalOf([]) + store.recipients[0].spent;
    spent := store.TotalSpent();
    remaining := store.BudgetRemaining();
  }
}

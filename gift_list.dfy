/** The gift-list page of src/app/gift-list/gift-list.ts: the add/edit modal
    and its form, the submit that validates the form and sends either an
    update or an addition to the budget store, the two derived per-recipient
    figures, and the chat panel's toggling. Navigation, `alert` and
    `confirm` are outside the model; the answer to `confirm` and every
    `Date.now()` id are parameters. */
module GiftListPage {
  import opened Wrappers
  import opened BudgetModel
  import opened ChatModel
  import BudgetService

  /** JavaScript truthiness of a `string | null`. */
  predicate Truthy(s: Option<string>)
  {
    s.Some? && s.value != ""
  }

  /** `text || undefined`: an empty form field becomes an absent field. */
  function FromField(text: string): (o: Option<string>)
    ensures o.None? <==> text == ""
    ensures o.Some? ==> o.value == text
  {
    if text == "" then None else Some(text)
  }

  /** `field || ''`: an absent field becomes an empty form field. */
  function ToField(o: Option<string>): (text: string)
    ensures text == "" <==> o.None? || o == Some("")
  {
    o.GetOr("")
  }

  /** Filling a form field from a gift and reading it back gives the field
      unchanged, except that a present but empty text comes back absent. */
  lemma FieldRoundTrip(o: Option<string>)
    ensures FromField(ToField(o)) == (if o == Some("") then None else o)
  {
  }

  /** The modal and its form. */
  datatype ModalForm = ModalForm(
    showModal: bool,
    isEditMode: bool,
    editingGiftId: Option<string>,
    giftName: string,
    giftPrice: Option<real>,
    storeName: string,
    url: string)

  const ClosedForm := ModalForm(false, false, None, "", None, "", "")

  /** The guard of the submit handler: a name, a positive price and a
      recipient id. */
  predicate FormValid(f: ModalForm, recipientId: Option<string>)
  {
    f.giftName != "" && f.giftPrice.Some? && f.giftPrice.value > 0.0 && Truthy(recipientId)
  }

  /** Whether a valid submit edits: edit mode with a (truthy) gift id. */
  predicate EditsExisting(f: ModalForm)
  {
    f.isEditMode && Truthy(f.editingGiftId)
  }

  /** What a submit sends to the store. */
  datatype Dispatch =
    | UpdateExisting(rid: string, gid: string, u: GiftUpdate)
    | AddNew(rid: string, g: Gift)

  /** The submit handler's decision: nothing for an invalid form; for a valid
      one, an update of the edited gift with the form's name, price, store
      and link, or a new gift for the page's recipient. An empty store or
      link field is sent as absent. */
  function Submit(f: ModalForm, recipientId: Option<string>, newId: string): (d: Option<Dispatch>)
    ensures d.None? <==> !FormValid(f, recipientId)
    ensures d.Some? ==> d.value.rid == recipientId.value
    ensures d.Some? ==> (d.value.UpdateExisting? <==> EditsExisting(f))
    ensures d.Some? && d.value.UpdateExisting? ==>
      d.value.gid == f.editingGiftId.value &&
      d.value.u.name == Some(f.giftName) && d.value.u.price == f.giftPrice &&
      d.value.u.id.None? && d.value.u.recipientId.None? && d.value.u.imageUrl.Keep? &&
      d.value.u.storeName == Put(FromField(f.storeName)) && d.value.u.url == Put(FromField(f.url))
    ensures d.Some? && d.value.AddNew? ==>
      d.value.g.id == newId && d.value.g.recipientId == recipientId.value &&
      d.value.g.name == f.giftName && d.value.g.name != "" &&
      d.value.g.price == f.giftPrice.value && d.value.g.price > 0.0 &&
      d.value.g.storeName == FromField(f.storeName) && d.value.g.url == FromField(f.url) &&
      d.value.g.imageUrl.None?
  {
    if !FormValid(f, recipientId) then None
    else
      var rid := recipientId.value;
      var price := f.giftPrice.value;
      if EditsExisting(f) then
        Some(UpdateExisting(rid, f.editingGiftId.value,
          GiftUpdate(None, Some(f.giftName), Some(price), None,
                     Put(FromField(f.storeName)), Put(FromField(f.url)), Keep)))
      else
        Some(AddNew(rid, Gift(newId, f.giftName, price, rid, FromField(f.storeName), FromField(f.url), None)))
  }

  /** The store's list after a dispatch. */
  function Perform(rs: seq<Recipient>, d: Dispatch): seq<Recipient>
  {
    match d
    case UpdateExisting(rid, gid, u) => UpdateGiftIn(rs, rid, gid, u)
    case AddNew(rid, g) => AddGiftTo(rs, rid, g)
  }

  /** The form `editGift(g)` fills in: the modal open in edit mode on the
      gift, with its name and price, and an absent store or link as the empty
      text. */
  function EditForm(g: Gift): (f: ModalForm)
    ensures f.showModal && f.isEditMode && f.editingGiftId == Some(g.id)
    ensures f.giftName == g.name && f.giftPrice == Some(g.price)
    ensures g.storeName.None? ==> f.storeName == ""
    ensures g.storeName.Some? ==> f.storeName == g.storeName.value
    ensures g.url.None? ==> f.url == ""
    ensures g.url.Some? ==> f.url == g.url.value
  {
    ModalForm(true, true, Some(g.id), g.name, Some(g.price), ToField(g.storeName), ToField(g.url))
  }

  /** Opening a gift for editing and saving it untouched writes the gift back
      as it was (a present but empty store or link is saved as absent). */
  lemma EditThenSaveKeepsGift(g: Gift, rid: string, newId: string)
    requires g.name != "" && g.price > 0.0 && rid != ""
    requires g.storeName != Some("") && g.url != Some("")
    ensures var d := Submit(EditForm(g), Some(rid), newId);
      d.Some? && d.value.UpdateExisting? ==> MergeGift(g, d.value.u) == g
    ensures g.id != "" ==> Submit(EditForm(g), Some(rid), newId).value.UpdateExisting?
  {
    FieldRoundTrip(g.storeName);
    FieldRoundTrip(g.url);
  }

  /** Valid add-mode submits reach the recipient the page shows: when the
      store has that recipient, the refreshed recipient holds the old gifts
      followed by the new one, and its spent rises by the new price. */
  lemma AddedGiftIsLast(rs: seq<Recipient>, f: ModalForm, rid: string, newId: string)
    requires FormValid(f, Some(rid)) && !EditsExisting(f)
    requires FindRecipient(rs, rid).Some? && SpentMatches(FindRecipient(rs, rid).value)
    ensures var g := Submit(f, Some(rid), newId).value.g;
      var before := FindRecipient(rs, rid).value;
      var after := FindRecipient(Perform(rs, AddNew(rid, g)), rid);
      after.Some? && after.value.gifts == before.gifts + [g] &&
      after.value.spent == before.spent + g.price
  {
    var g := Submit(f, Some(rid), newId).value.g;
    var out := AddGiftTo(rs, rid, g);
    SameIdsSameFind(rs, out, rid);
    var k := FirstIndexOfId(rs, rid);
    SumSnoc(rs[k].gifts, g);
  }

  /** Where `FindRecipient` looks: the first index with the id. */
  function FirstIndexOfId(rs: seq<Recipient>, id: string): (k: nat)
    requires FindRecipient(rs, id).Some?
    ensures k < |rs| && rs[k].id == id && FindRecipient(rs, id) == Some(rs[k])
    ensures forall j :: 0 <= j < k ==> rs[j].id != id
  {
    Lists.FirstIndex(rs, RecipientIdIs(id)).value
  }

  /** Two lists with the same ids position by position are searched alike. */
  lemma SameIdsSameFind(a: seq<Recipient>, b: seq<Recipient>, id: string)
    requires |a| == |b| && forall i :: 0 <= i < |a| ==> a[i].id == b[i].id
    requires FindRecipient(a, id).Some?
    ensures FindRecipient(b, id).Some?
    ensures FindRecipient(b, id) == Some(b[FirstIndexOfId(a, id)])
  {
    var k := FirstIndexOfId(a, id);
    assert b[k].id == id;
    var k' := FirstIndexOfId(b, id);
    assert a[k'].id == id;
  }

  /** `getRemainingBudget`: the loaded recipient's budget less its spent
      (negative when overspent), and 0 with no recipient loaded. */
  function RemainingFor(rec: Option<Recipient>): (left: real)
    ensures rec.None? ==> left == 0.0
    ensures rec.Some? ==> left + rec.value.spent == rec.value.budget
    ensures rec.Some? && SpentMatches(rec.value) ==> left == rec.value.budget - Sum(rec.value.gifts)
  {
    match rec
    case None => 0.0
    case Some(r) => r.budget - r.spent
  }

  /** `getBudgetPercentage`: spent as a percentage of the loaded recipient's
      budget, and 0 with no recipient or a budget that is not positive. */
  function PercentageFor(rec: Option<Recipient>): (p: real)
    ensures rec.None? || rec.value.budget <= 0.0 ==> p == 0.0
    ensures rec.Some? && rec.value.budget > 0.0 ==> p * rec.value.budget == rec.value.spent * 100.0
  {
    if rec.Some? && rec.value.budget > 0.0 then rec.value.spent / rec.value.budget * 100.0 else 0.0
  }

  /** Spending within the budget keeps the percentage between 0 and 100;
      spending more takes it over 100. */
  lemma PercentageForBounds(r: Recipient)
    requires r.budget > 0.0 && r.spent >= 0.0
    ensures r.spent <= r.budget ==> 0.0 <= PercentageFor(Some(r)) <= 100.0
    ensures r.spent > r.budget ==> PercentageFor(Some(r)) > 100.0
  {
    var q := r.spent / r.budget;
    assert q * r.budget == r.spent;
    assert PercentageFor(Some(r)) == q * 100.0;
    assert r.spent <= r.budget ==> 0.0 <= q <= 1.0;
    assert r.spent > r.budget ==> q > 1.0;
  }

  /** `String.prototype.trim` removes exactly these characters. */
  predicate IsJsWhitespace(c: char)
  {
    c == '\t' || c == '\n' || c == '\U{000B}' || c == '\U{000C}' || c == '\r' || c == ' ' ||
    c == '\U{00A0}' || c == '\U{1680}' || ('\U{2000}' <= c <= '\U{200A}') ||
    c == '\U{2028}' || c == '\U{2029}' || c == '\U{202F}' || c == '\U{205F}' ||
    c == '\U{3000}' || c == '\U{FEFF}'
  }

  /** `trimStart`: drops the leading whitespace and keeps the rest. */
  function TrimStart(s: string): (t: string)
    ensures |t| <= |s| && t == s[|s| - |t|..]
    ensures t != "" ==> !IsJsWhitespace(t[0])
    ensures forall i :: 0 <= i < |s| - |t| ==> IsJsWhitespace(s[i])
  {
    if |s| > 0 && IsJsWhitespace(s[0]) then TrimStart(s[1..]) else s
  }

  /** `trimEnd`: drops the trailing whitespace and keeps the rest. */
  function TrimEnd(s: string): (t: string)
    ensures |t| <= |s| && t == s[..|t|]
    ensures t != "" ==> !IsJsWhitespace(t[|t| - 1])
    ensures forall i :: |t| <= i < |s| ==> IsJsWhitespace(s[i])
  {
    if |s| > 0 && IsJsWhitespace(s[|s| - 1]) then TrimEnd(s[..|s| - 1]) else s
  }

  /** `String.prototype.trim` */
  function Trim(s: string): string
  {
    TrimEnd(TrimStart(s))
  }

  /** `!text.trim()`: the text is blank exactly when every character of it is
      whitespace, the empty text included. */
  function IsBlank(text: string): (b: bool)
    ensures b <==> forall i :: 0 <= i < |text| ==> IsJsWhitespace(text[i])
  {
    Trim(text) == ""
  }

  /** `${this.recipient?.name}`, which reads "undefined" with no recipient. */
  function NameOrUndefined(rec: Option<Recipient>): string
  {
    match rec
    case Some(r) => r.name
    case None => "undefined"
  }

  class GiftList {
    const budgetService: BudgetService.Budget

    var recipientId: Option<string>
    var recipient: Option<Recipient>

    var showModal: bool
    var isEditMode: bool
    var editingGiftId: Option<string>
    var giftName: string
    var giftPrice: Option<real>
    var storeName: string
    var url: string

    var chatMessages: seq<ChatMessage>
    var userInput: string
    var showChat: bool

    /** The modal and form fields as one value. */
    function Modal(): ModalForm
      reads this
    {
      ModalForm(showModal, isEditMode, editingGiftId, giftName, giftPrice, storeName, url)
    }

    constructor (store: BudgetService.Budget)
      ensures budgetService == store
      ensures recipientId == None && recipient == None && Modal() == ClosedForm
      ensures chatMessages == [] && userInput == "" && !showChat
    {
      budgetService := store;
      recipientId, recipient := None, None;
      showModal, isEditMode, editingGiftId := false, false, None;
      giftName, giftPrice, storeName, url := "", None, "", "";
      chatMessages, userInput, showChat := [], "", false;
    }

    /** `ngOnInit` with the route's `id` parameter; the redirects are not
        modelled. */
    method OnInit(routeId: Option<string>)
      modifies this
      ensures recipientId == routeId
      ensures recipient == if Truthy(routeId) then budgetService.GetRecipientById(routeId.value) else old(recipient)
      ensures Modal() == old(Modal())
      ensures chatMessages == old(chatMessages) && userInput == old(userInput) && showChat == old(showChat)
    {
      recipientId := routeId;
      if Truthy(recipientId) {
        recipient := budgetService.GetRecipientById(recipientId.value);
      }
    }

    method OpenModal()
      modifies this
      ensures Modal() == old(Modal()).(showModal := true, isEditMode := false, editingGiftId := None)
      ensures recipientId == old(recipientId) && recipient == old(recipient)
      ensures chatMessages == old(chatMessages) && userInput == old(userInput) && showChat == old(showChat)
    {
      isEditMode := false;
      editingGiftId := None;
      showModal := true;
    }

    method CloseModal()
      modifies this
      ensures Modal() == ClosedForm
      ensures recipientId == old(recipientId) && recipient == old(recipient)
      ensures chatMessages == old(chatMessages) && userInput == old(userInput) && showChat == old(showChat)
    {
      showModal := false;
      isEditMode := false;
      editingGiftId := None;
      giftName := "";
      giftPrice := None;
      storeName := "";
      url := "";
    }

    method EditGift(g: Gift)
      modifies this
      ensures Modal() == EditForm(g)
      ensures recipientId == old(recipientId) && recipient == old(recipient)
      ensures chatMessages == old(chatMessages) && userInput == old(userInput) && showChat == old(showChat)
    {
      isEditMode := true;
      editingGiftId := Some(g.id);
      giftName := g.name;
      giftPrice := Some(g.price);
      storeName := ToField(g.storeName);
      url := ToField(g.url);
      showModal := true;
    }

    /** The submit handler (`addGift`). An invalid form changes nothing here
        or in the store; a valid one performs `Submit`'s dispatch on the
        store, reloads the recipient and closes the modal. */
    method AddGift(newId: string)
      modifies this, budgetService
      ensures var d := Submit(old(Modal()), old(recipientId), newId);
        if d.None? then
          Modal() == old(Modal()) && recipient == old(recipient) &&
          budgetService.recipients == old(budgetService.recipients)
        else
          budgetService.recipients == Perform(old(budgetService.recipients), d.value) &&
          recipient == FindRecipient(budgetService.recipients, d.value.rid) &&
          Modal() == ClosedForm
      ensures recipientId == old(recipientId)
      ensures budgetService.firstName == old(budgetService.firstName)
      ensures budgetService.totalBudget == old(budgetService.totalBudget)
      ensures chatMessages == old(chatMessages) && userInput == old(userInput) && showChat == old(showChat)
    {
      var d := Submit(Modal(), recipientId, newId);
      if d.Some? {
        match d.value {
          case UpdateExisting(rid, gid, u) =>
            budgetService.UpdateGift(rid, gid, u);
          case AddNew(rid, g) =>
            budgetService.AddGift(rid, g);
        }
        recipient := budgetService.GetRecipientById(d.value.rid);
        CloseModal();
      }
    }

    /** `deleteGift(giftId)` once the user has answered the confirmation. */
    method DeleteGift(giftId: string, confirmed: bool)
      modifies this, budgetService
      ensures Truthy(old(recipientId)) && confirmed ==>
        budgetService.recipients == DeleteGiftFrom(old(budgetService.recipients), old(recipientId).value, giftId) &&
        recipient == FindRecipient(budgetService.recipients, old(recipientId).value)
      ensures !(Truthy(old(recipientId)) && confirmed) ==>
        budgetService.recipients == old(budgetService.recipients) && recipient == old(recipient)
      ensures recipientId == old(recipientId) && Modal() == old(Modal())
      ensures budgetService.firstName == old(budgetService.firstName)
      ensures budgetService.totalBudget == old(budgetService.totalBudget)
      ensures chatMessages == old(chatMessages) && userInput == old(userInput) && showChat == old(showChat)
    {
      if Truthy(recipientId) && confirmed {
        var rid := recipientId.value;
        budgetService.DeleteGift(rid, giftId);
        recipient := FindRecipient(budgetService.recipients, rid);  // `getRecipientById`
      }
    }

    function GetRemainingBudget(): (left: real)
      reads this
      ensures recipient.None? ==> left == 0.0
      ensures recipient.Some? ==> left + recipient.value.spent == recipient.value.budget
    {
      RemainingFor(recipient)
    }

    function GetBudgetPercentage(): (p: real)
      reads this
      ensures recipient.None? || recipient.value.budget <= 0.0 ==> p == 0.0
      ensures recipient.Some? && recipient.value.budget > 0.0 ==>
        p * recipient.value.budget == recipient.value.spent * 100.0
    {
      PercentageFor(recipient)
    }

    /** Flips the chat panel; opening it on an empty history with a
        recipient loaded greets the user. */
    method ToggleChat(welcomeId: string)
      modifies this
      ensures showChat == !old(showChat)
      ensures chatMessages ==
        if showChat && old(chatMessages) == [] && recipient.Some?
        then [WelcomeMessage(recipient.value, welcomeId)]
        else old(chatMessages)
      ensures recipientId == old(recipientId) && recipient == old(recipient)
      ensures Modal() == old(Modal()) && userInput == old(userInput)
    {
      showChat := !showChat;
      if showChat && |chatMessages| == 0 && recipient.Some? {
        chatMessages := chatMessages + [WelcomeMessage(recipient.value, welcomeId)];
      }
    }

    /** The synchronous part of `sendMessage`: a non-blank input, with a
        recipient loaded, is appended as the user's message and the input is
        cleared. The reply scheduled on a timer is not modelled. */
    method SendMessage(messageId: string)
      modifies this
      ensures !IsBlank(old(userInput)) && recipient.Some? ==>
        chatMessages == old(chatMessages) + [ChatMessage(messageId, User, old(userInput), None)] &&
        userInput == ""
      ensures IsBlank(old(userInput)) || recipient.None? ==>
        chatMessages == old(chatMessages) && userInput == old(userInput)
      ensures recipientId == old(recipientId) && recipient == old(recipient)
      ensures Modal() == old(Modal()) && showChat == old(showChat)
    {
      if IsBlank(userInput) || recipient.None? {
        return;
      }
      chatMessages := chatMessages + [ChatMessage(messageId, User, userInput, None)];
      userInput := "";
    }

    /** `addSuggestedGift`: the suggestion becomes a gift of the page's
        recipient carrying only its name and estimated price, the recipient
        is reloaded, and a confirmation is appended to the chat. */
    method AddSuggestedGift(s: GiftSuggestion, giftId: string, messageId: string)
      modifies this, budgetService
      ensures Truthy(old(recipientId)) ==>
        var rid := old(recipientId).value;
        budgetService.recipients ==
          AddGiftTo(old(budgetService.recipients), rid, Gift(giftId, s.name, s.estimatedPrice, rid, None, None, None)) &&
        recipient == FindRecipient(budgetService.recipients, rid) &&
        chatMessages == old(chatMessages) + [ChatMessage(messageId, Bot,
          "Great! I've added \"" + s.name + "\" to " + NameOrUndefined(recipient) + "'s gift list.", None)]
      ensures !Truthy(old(recipientId)) ==>
        budgetService.recipients == old(budgetService.recipients) &&
        recipient == old(recipient) && chatMessages == old(chatMessages)
      ensures recipientId == old(recipientId) && Modal() == old(Modal())
      ensures userInput == old(userInput) && showChat == old(showChat)
      ensures budgetService.firstName == old(budgetService.firstName)
      ensures budgetService.totalBudget == old(budgetService.totalBudget)
    {
      if !Truthy(recipientId) {
        return;
      }
      var rid := recipientId.value;
      budgetService.AddGift(rid, Gift(giftId, s.name, s.estimatedPrice, rid, None, None, None));
      recipient := budgetService.GetRecipientById(rid);
      var text := "Great! I've added \"" + s.name + "\" to " + NameOrUndefined(recipient) + "'s gift list.";
      chatMessages := chatMessages + [ChatMessage(messageId, Bot, text, None)];
    }
  }
}

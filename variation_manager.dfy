/**
 * The variation editor of one product: an add form, at most one edit form
 * (the variation whose id is `editingId`), and a processing flag that is set
 * while a backend call is outstanding.
 *
 * The backend calls (`addVariation`, `updateVariation`, `deleteVariation`) and
 * `confirm()` are inputs. Each async handler is split at its `await` into a
 * Begin method (validation, the request sent, `isProcessing` set) and a Finish
 * method (the outcome applied, `isProcessing` cleared); the Handle method runs
 * both.
 */
module VariationManager {
  import opened Wrappers

  /** A product, as far as the editor reads it. */
  datatype Product = Product(id: string, name: string, basePrice: real)

  /** A stored variation; its image URL may be missing. */
  datatype ProductVariation = ProductVariation(
    id: string, name: string, quantityMg: real, price: real, stockQuantity: int, imageUrl: Option<string>)

  /** The contents of the add form or of the edit form; an empty image field is "". */
  datatype VariationForm = VariationForm(name: string, quantityMg: real, price: real, stockQuantity: int, imageUrl: string)

  /** The fields sent to the backend; an empty image field is sent as absent. */
  datatype VariationFields = VariationFields(
    name: string, quantityMg: real, price: real, stockQuantity: int, imageUrl: Option<string>)

  datatype BackendRequest =
    | AddVariation(productId: string, fields: VariationFields)
    | UpdateVariation(id: string, fields: VariationFields)
    | DeleteVariation(id: string)

  /** How a backend call ended: `{success: true}`, `{success: false, error?}`, or an exception. */
  datatype CallOutcome = Succeeded | Failed(error: Option<string>) | Threw

  /** The form as the page first shows it, and as a successful add leaves it. */
  function BlankForm(basePrice: real): (form: VariationForm)
    ensures form.name == "" && form.quantityMg == 5.0 && form.price == basePrice
    ensures form.stockQuantity == 0 && form.imageUrl == ""
    ensures !FormValid(form)
  {
    VariationForm("", 5.0, basePrice, 0, "")
  }

  /** The check both save buttons make: a name, a positive price and a positive size; stock is not checked. */
  predicate FormValid(form: VariationForm): (ok: bool)
    ensures ok ==> form.name != "" && form.price > 0.0 && form.quantityMg > 0.0
    ensures !ok ==> form.name == "" || form.price <= 0.0 || form.quantityMg <= 0.0
  {
    form.name != "" && form.price > 0.0 && form.quantityMg > 0.0
  }

  /** `image_url || undefined`: the empty string is sent as absent. */
  function SentImage(url: string): (sent: Option<string>)
    ensures sent.None? <==> url == ""
    ensures sent.Some? ==> sent.value == url
  {
    if url == "" then None else Some(url)
  }

  /** `image_url || ''`: a missing image is shown as an empty field. */
  function FormImage(url: Option<string>): (shown: string)
    ensures url.None? ==> shown == ""
    ensures url.Some? ==> shown == url.value
  {
    url.GetOr("")
  }

  /** The payload built from a form. */
  function FieldsOf(form: VariationForm): (fields: VariationFields)
    ensures fields.name == form.name && fields.quantityMg == form.quantityMg && fields.price == form.price
    ensures fields.stockQuantity == form.stockQuantity
    ensures fields.imageUrl.None? <==> form.imageUrl == ""
    ensures fields.imageUrl.Some? ==> fields.imageUrl.value == form.imageUrl
  {
    VariationFields(form.name, form.quantityMg, form.price, form.stockQuantity, SentImage(form.imageUrl))
  }

  /** The edit form filled from a stored variation. */
  function FormOf(v: ProductVariation): (form: VariationForm)
    ensures form.name == v.name && form.quantityMg == v.quantityMg && form.price == v.price
    ensures form.stockQuantity == v.stockQuantity
    ensures form.imageUrl == "" <==> v.imageUrl.None? || v.imageUrl == Some("")
    ensures v.imageUrl.Some? ==> form.imageUrl == v.imageUrl.value
  {
    VariationForm(v.name, v.quantityMg, v.price, v.stockQuantity, FormImage(v.imageUrl))
  }

  /** Whether the add form is open and which variation, if any, is being edited. */
  datatype EditorMode = EditorMode(isAdding: bool, editingId: Option<string>)

  /** The add form and an edit form are never open together. */
  predicate Exclusive(mode: EditorMode)
  {
    !(mode.isAdding && mode.editingId.Some?)
  }

  /** The events that move the editor between modes. */
  datatype ModeEvent =
    | ToggleAdd                // "Add New Size" / "Cancel" above the add form
    | StartEdit(id: string)    // the edit icon of a variation
    | CancelEdit               // "Cancel" in an edit form
    | CancelAdd                // "Cancel" in the add form
    | AddSucceeded             // the backend accepted an add
    | UpdateSucceeded          // the backend accepted an update
    | ModeUnchanged            // a rejected form, a declined confirm, a failed or thrown call, any delete

  function ModeAfter(mode: EditorMode, event: ModeEvent): (next: EditorMode)
    ensures next.isAdding && !mode.isAdding ==> event.ToggleAdd?
    ensures next.editingId.Some? && next.editingId != mode.editingId ==> event.StartEdit?
    ensures event.StartEdit? ==> !next.isAdding && next.editingId == Some(event.id)
    ensures event.ToggleAdd? ==> next.isAdding == !mode.isAdding && next.editingId.None?
    ensures event.ModeUnchanged? ==> next == mode
  {
    match event
    case ToggleAdd => EditorMode(!mode.isAdding, None)
    case StartEdit(id) => EditorMode(false, Some(id))
    case CancelEdit => mode.(editingId := None)
    case CancelAdd => mode.(isAdding := false)
    case AddSucceeded => mode.(isAdding := false)
    case UpdateSucceeded => mode.(editingId := None)
    case ModeUnchanged => mode
  }

  function ModeAfterAll(mode: EditorMode, events: seq<ModeEvent>): EditorMode
    decreases |events|
  {
    if events == [] then mode else ModeAfterAll(ModeAfter(mode, events[0]), events[1..])
  }

  /** Every single event keeps the two forms exclusive. */
  lemma ModeAfterExclusive(mode: EditorMode, event: ModeEvent)
    requires Exclusive(mode)
    ensures Exclusive(ModeAfter(mode, event))
  {
  }

  /** From the initial mode, no sequence of events opens both forms at once. */
  lemma {:induction false} NeverBothOpen(events: seq<ModeEvent>)
    ensures Exclusive(ModeAfterAll(EditorMode(false, None), events))
  {
    ExclusiveAlong(EditorMode(false, None), events);
  }

  lemma {:induction false} ExclusiveAlong(mode: EditorMode, events: seq<ModeEvent>)
    requires Exclusive(mode)
    ensures Exclusive(ModeAfterAll(mode, events))
    decreases |events|
  {
    if events != [] {
      ModeAfterExclusive(mode, events[0]);
      ExclusiveAlong(ModeAfter(mode, events[0]), events[1..]);
    }
  }

  /** Opening a variation for edit and saving it untouched sends its own fields back, image included. */
  lemma EditRoundTrip(v: ProductVariation)
    requires v.imageUrl != Some("")
    ensures FieldsOf(FormOf(v)) == VariationFields(v.name, v.quantityMg, v.price, v.stockQuantity, v.imageUrl)
  {
  }

  /** The image field survives the trip to the backend and back into a form. */
  lemma ImageRoundTrip(url: string)
    ensures FormImage(SentImage(url)) == url
  {
  }

  /** The editor of one product's variations. */
  class Editor {
    const product: Product
    var isAdding: bool
    var editingId: Option<string>
    var isProcessing: bool
    var newVariation: VariationForm
    var editingVariation: VariationForm

    function Mode(): EditorMode
      reads this
    {
      EditorMode(isAdding, editingId)
    }

    ghost predicate Valid()
      reads this
    {
      Exclusive(Mode())
    }

    constructor (product: Product)
      ensures Valid() && this.product == product
      ensures !isAdding && editingId == None && !isProcessing
      ensures newVariation == BlankForm(product.basePrice) && editingVariation == BlankForm(product.basePrice)
    {
      this.product := product;
      isAdding := false;
      editingId := None;
      isProcessing := false;
      newVariation := BlankForm(product.basePrice);
      editingVariation := BlankForm(product.basePrice);
    }

    /** The button above the add form: flips it and closes any edit form. */
    method ToggleAdd()
      modifies this`isAdding, this`editingId
      ensures Valid() && Mode() == ModeAfter(old(Mode()), ModeEvent.ToggleAdd)
    {
      isAdding := !isAdding;
      editingId := None;
    }

    /** `handleEditVariation`: opens `v` for edit, copying its fields, and closes the add form. */
    method StartEdit(v: ProductVariation)
      modifies this`isAdding, this`editingId, this`editingVariation
      ensures Valid() && Mode() == ModeAfter(old(Mode()), ModeEvent.StartEdit(v.id))
      ensures editingVariation == FormOf(v)
    {
      editingId := Some(v.id);
      editingVariation := VariationForm(v.name, v.quantityMg, v.price, v.stockQuantity,
                                        if v.imageUrl.Some? then v.imageUrl.value else "");
      isAdding := false;
    }

    /** "Cancel" in an edit form. */
    method CancelEdit()
      requires Valid()
      modifies this`editingId
      ensures Valid() && Mode() == ModeAfter(old(Mode()), ModeEvent.CancelEdit)
    {
      editingId := None;
    }

    /** "Cancel" in the add form. */
    method CancelAdd()
      requires Valid()
      modifies this`isAdding
      ensures Valid() && Mode() == ModeAfter(old(Mode()), ModeEvent.CancelAdd)
    {
      isAdding := false;
    }

    /** Typing in the add form (values already parsed). */
    method ChangeNewVariation(form: VariationForm)
      modifies this`newVariation
      ensures newVariation == form
    {
      newVariation := form;
    }

    /** Typing in the edit form (values already parsed). */
    method ChangeEditingVariation(form: VariationForm)
      modifies this`editingVariation
      ensures editingVariation == form
    {
      editingVariation := form;
    }

    /** `handleAddVariation` up to its `await`: a form that fails validation sends nothing and changes nothing. */
    method BeginAdd() returns (sent: Option<BackendRequest>)
      modifies this`isProcessing
      ensures sent.Some? <==> FormValid(newVariation)
      ensures sent.Some? ==> sent.value == AddVariation(product.id, FieldsOf(newVariation)) && isProcessing
      ensures sent.None? ==> isProcessing == old(isProcessing)
    {
      if newVariation.name == "" || newVariation.price <= 0.0 || newVariation.quantityMg <= 0.0 {
        return None;
      }
      isProcessing := true;
      sent := Some(AddVariation(product.id, VariationFields(
        newVariation.name, newVariation.quantityMg, newVariation.price, newVariation.stockQuantity,
        if newVariation.imageUrl == "" then None else Some(newVariation.imageUrl))));
    }

    /** `handleAddVariation` after its `await`: success resets and closes the add form. */
    method FinishAdd(outcome: CallOutcome)
      requires Valid()
      modifies this`isProcessing, this`newVariation, this`isAdding
      ensures Valid() && !isProcessing
      ensures outcome.Succeeded? ==> Mode() == ModeAfter(old(Mode()), AddSucceeded)
      ensures outcome.Succeeded? ==> newVariation == BlankForm(product.basePrice)
      ensures !outcome.Succeeded? ==> Mode() == old(Mode()) && newVariation == old(newVariation)
    {
      if outcome.Succeeded? {
        newVariation := VariationForm("", 5.0, product.basePrice, 0, "");
        isAdding := false;
      }
      isProcessing := false;
    }

    /** `handleAddVariation` run to completion. */
    method HandleAddVariation(outcome: CallOutcome) returns (sent: Option<BackendRequest>)
      requires Valid()
      modifies this`isProcessing, this`newVariation, this`isAdding
      ensures Valid()
      ensures sent.Some? <==> old(FormValid(newVariation))
      ensures sent.Some? ==> sent.value == AddVariation(product.id, old(FieldsOf(newVariation))) && !isProcessing
      ensures sent.Some? && outcome.Succeeded? ==>
                Mode() == ModeAfter(old(Mode()), AddSucceeded) && newVariation == BlankForm(product.basePrice)
      ensures sent.None? || !outcome.Succeeded? ==> Mode() == old(Mode()) && newVariation == old(newVariation)
      ensures sent.None? ==> isProcessing == old(isProcessing)
    {
      sent := BeginAdd();
      if sent.Some? {
        FinishAdd(outcome);
      }
    }

    /** `handleUpdateVariation` up to its `await`: needs a truthy `editingId` (neither null nor "") and a valid form. */
    method BeginUpdate() returns (sent: Option<BackendRequest>)
      modifies this`isProcessing
      ensures sent.Some? <==> editingId.Some? && editingId.value != "" && FormValid(editingVariation)
      ensures sent.Some? ==>
                sent.value == UpdateVariation(editingId.value, FieldsOf(editingVariation)) && isProcessing
      ensures sent.None? ==> isProcessing == old(isProcessing)
    {
      if editingId.None? || editingId.value == "" || editingVariation.name == "" || editingVariation.price <= 0.0
         || editingVariation.quantityMg <= 0.0 {
        return None;
      }
      isProcessing := true;
      sent := Some(UpdateVariation(editingId.value, VariationFields(
        editingVariation.name, editingVariation.quantityMg, editingVariation.price,
        editingVariation.stockQuantity,
        if editingVariation.imageUrl == "" then None else Some(editingVariation.imageUrl))));
    }

    /** `handleUpdateVariation` after its `await`: success closes the edit form, failure keeps it open. */
    method FinishUpdate(outcome: CallOutcome)
      requires Valid()
      modifies this`isProcessing, this`editingId
      ensures Valid() && !isProcessing
      ensures outcome.Succeeded? ==> Mode() == ModeAfter(old(Mode()), UpdateSucceeded)
      ensures !outcome.Succeeded? ==> Mode() == old(Mode())
    {
      if outcome.Succeeded? {
        editingId := None;
      }
      isProcessing := false;
    }

    /** `handleUpdateVariation` run to completion. */
    method HandleUpdateVariation(outcome: CallOutcome) returns (sent: Option<BackendRequest>)
      requires Valid()
      modifies this`isProcessing, this`editingId
      ensures Valid()
      ensures sent.Some? <==> old(editingId).Some? && old(editingId).value != "" && old(FormValid(editingVariation))
      ensures sent.Some? ==>
                sent.value == UpdateVariation(old(editingId).value, old(FieldsOf(editingVariation))) && !isProcessing
      ensures sent.Some? && outcome.Succeeded? ==> Mode() == ModeAfter(old(Mode()), UpdateSucceeded)
      ensures sent.None? || !outcome.Succeeded? ==> Mode() == old(Mode())
      ensures sent.None? ==> isProcessing == old(isProcessing)
    {
      sent := BeginUpdate();
      if sent.Some? {
        FinishUpdate(outcome);
      }
    }

    /** `handleDeleteVariation` up to its `await`: a declined confirmation sends nothing. */
    method BeginDelete(id: string, confirmed: bool) returns (sent: Option<BackendRequest>)
      modifies this`isProcessing
      ensures sent.Some? <==> confirmed
      ensures sent.Some? ==> sent.value == DeleteVariation(id) && isProcessing
      ensures sent.None? ==> isProcessing == old(isProcessing)
    {
      if !confirmed {
        return None;
      }
      isProcessing := true;
      sent := Some(DeleteVariation(id));
    }

    /** `handleDeleteVariation` after its `await`: whatever the outcome, only the flag changes. */
    method FinishDelete(outcome: CallOutcome)
      modifies this`isProcessing
      ensures !isProcessing
    {
      isProcessing := false;
    }

    /** `handleDeleteVariation` run to completion. */
    method HandleDeleteVariation(id: string, confirmed: bool, outcome: CallOutcome)
      returns (sent: Option<BackendRequest>)
      modifies this`isProcessing
      ensures sent.Some? <==> confirmed
      ensures sent.Some? ==> sent.value == DeleteVariation(id) && !isProcessing
      ensures sent.None? ==> isProcessing == old(isProcessing)
    {
      sent := BeginDelete(id, confirmed);
      if sent.Some? {
        FinishDelete(outcome);
      }
    }
  }
}

/** The payment history page: the search by student name, the lookups of a
    payment's student, and the form that records or edits a payment, with
    the receipt it opens. */
module PaiementsList {
  import opened Common
  import opened Text
  import opened Records
  import ElevesList

  // ---------------------------------------------------------------------
  // Looking up a payment's student.

  /** Whether a student has id `id` (compared exactly). */
  function HasId(id: int): Eleve -> bool {
    (e: Eleve) => e.id == id
  }

  /** `eleves.find((e) => e.id === id)`. */
  function FindEleve(eleves: seq<Eleve>, id: int): (r: Option<Eleve>)
    ensures r.None? <==> forall i :: 0 <= i < |eleves| ==> eleves[i].id != id
    ensures r.Some? ==> exists i :: FirstMatch(eleves, HasId(id), i) && eleves[i] == r.value
  {
    Find(eleves, HasId(id))
  }

  /** The label shown for a payment whose student no longer exists. */
  const ELEVE_SUPPRIME: string := "Élève supprimé"

  /** `getEleveName`: the name of the first student with that id, or
      `Élève supprimé` when there is none. */
  function GetEleveName(eleves: seq<Eleve>, eleveId: int): (r: string)
    ensures (forall i :: 0 <= i < |eleves| ==> eleves[i].id != eleveId) ==> r == ELEVE_SUPPRIME
    ensures forall i :: FirstMatch(eleves, HasId(eleveId), i) ==> r == eleves[i].nom
  {
    var found := FindEleve(eleves, eleveId);
    forall i | FirstMatch(eleves, HasId(eleveId), i)
      ensures found.Some? && found.value == eleves[i]
    {
      var j :| FirstMatch(eleves, HasId(eleveId), j) && eleves[j] == found.value;
      FirstMatchUnique(eleves, HasId(eleveId), i, j);
    }
    match found
    case Some(e) => e.nom
    case None => ELEVE_SUPPRIME
  }

  /** `getEleveNiveau`: the level of the first student with that id, or the
      empty string when there is none. */
  function GetEleveNiveau(eleves: seq<Eleve>, eleveId: int): (r: string)
    ensures (forall i :: 0 <= i < |eleves| ==> eleves[i].id != eleveId) ==> r == ""
    ensures forall i :: FirstMatch(eleves, HasId(eleveId), i) ==> r == eleves[i].niveau
  {
    var found := FindEleve(eleves, eleveId);
    forall i | FirstMatch(eleves, HasId(eleveId), i)
      ensures found.Some? && found.value == eleves[i]
    {
      var j :| FirstMatch(eleves, HasId(eleveId), j) && eleves[j] == found.value;
      FirstMatchUnique(eleves, HasId(eleveId), i, j);
    }
    match found
    case Some(e) => e.niveau
    case None => ""
  }

  // ---------------------------------------------------------------------
  // Search.

  /** Whether a payment is listed for the search `term`: its student exists
      and that student's name matches. */
  function Shown(eleves: seq<Eleve>, term: string): Paiement -> bool {
    (p: Paiement) =>
      match FindEleve(eleves, p.eleveId)
      case None => false
      case Some(e) => ElevesList.NameMatches(e.nom, term)
  }

  /** Whether the student of a payment exists. */
  function Known(eleves: seq<Eleve>): Paiement -> bool {
    (p: Paiement) => FindEleve(eleves, p.eleveId).Some?
  }

  /** `filteredPaiements`: the payments listed, in list order. A payment
      whose student no longer exists is never listed. */
  function FilteredPaiements(paiements: seq<Paiement>, eleves: seq<Eleve>, term: string): (r: seq<Paiement>)
    ensures IsSubsequence(r, paiements)
    ensures forall i :: 0 <= i < |r| ==> exists j :: 0 <= j < |eleves| && eleves[j].id == r[i].eleveId
    ensures forall i :: 0 <= i < |paiements| && (forall j :: 0 <= j < |eleves| ==> eleves[j].id != paiements[i].eleveId)
                        ==> paiements[i] !in r
    ensures forall i :: 0 <= i < |paiements| ==> (paiements[i] in r <==> Shown(eleves, term)(paiements[i]))
  {
    var r := Filter(paiements, Shown(eleves, term));
    assert forall i :: 0 <= i < |r| ==> Shown(eleves, term)(r[i]);
    r
  }

  /** With an empty search, the list is exactly the payments whose student
      exists. */
  lemma EmptySearchShowsKnown(paiements: seq<Paiement>, eleves: seq<Eleve>)
    ensures FilteredPaiements(paiements, eleves, "") == Filter(paiements, Known(eleves))
  {
    forall i | 0 <= i < |paiements|
      ensures Shown(eleves, "")(paiements[i]) == Known(eleves)(paiements[i])
    {
      var found := FindEleve(eleves, paiements[i].eleveId);
      if found.Some? {
        assert OccursAt(Lower(found.value.nom), Lower(""), 0);
      }
    }
    FilterCongruent(paiements, Shown(eleves, ""), Known(eleves));
  }

  // ---------------------------------------------------------------------
  // The form.

  /** The form's fields, as the inputs hold them: text. */
  datatype PaiementForm = PaiementForm(eleveId: string, montant: string, mois: string, dateVersement: string)

  /** The form as it is opened for a new payment, or reset: empty fields and
      today's date (`today`, which the source reads from the clock). */
  function BlankForm(today: string): PaiementForm {
    PaiementForm("", "", "", today)
  }

  /** A payment as the form sends it: the student id read by `parseInt` and
      the amount by `parseFloat` (`None` when no number can be read). */
  datatype PaiementDraft = PaiementDraft(eleveId: Option<int>, montant: Option<int>, mois: string, dateVersement: string)

  function DraftOf(form: PaiementForm): (r: PaiementDraft)
    ensures r.mois == form.mois && r.dateVersement == form.dateVersement
    ensures r.eleveId.Some? ==> exists i :: 0 <= i < |form.eleveId| && IsDigit(form.eleveId[i])
    ensures r.montant.Some? ==> exists i :: 0 <= i < |form.montant| && IsDigit(form.montant[i])
  {
    PaiementDraft(ParseInt(form.eleveId), ParseInt(form.montant), form.mois, form.dateVersement)
  }

  /** `String(n)` of the amount; an amount that is not a number prints as `NaN`. */
  function AmountText(montant: Option<int>): (r: string)
    ensures r != ""
  {
    match montant
    case Some(m) => IntToString(m)
    case None => "NaN"
  }

  /** The printed amount reads back as the amount, NaN included. */
  lemma AmountTextRoundTrip(montant: Option<int>)
    ensures ParseInt(AmountText(montant)) == montant
  {
    match montant
    case Some(m) => ParseIntRoundTrip(m);
    case None => ParseNaN();
  }

  /** What `handleEdit` loads into the form: the student id and the amount
      printed, the month as it is, and the payment date, or today when the
      payment has none. */
  function FormOf(p: Paiement, today: string): (r: PaiementForm)
    ensures r.eleveId != "" && r.montant != "" && r.mois == p.mois
    ensures r.dateVersement == (if p.dateVersement == "" then today else p.dateVersement)
  {
    PaiementForm(IntToString(p.eleveId), AmountText(p.montant), p.mois, OrElse(p.dateVersement, today))
  }

  /** Loading a payment into the form and reading the form back gives the
      payment's own student, amount, month and date. */
  lemma FormOfRoundTrip(p: Paiement, today: string)
    requires p.dateVersement != ""
    ensures DraftOf(FormOf(p, today)) == PaiementDraft(Some(p.eleveId), p.montant, p.mois, p.dateVersement)
  {
    ParseIntRoundTrip(p.eleveId);
    match p.montant
    case Some(m) => ParseIntRoundTrip(m);
    case None => ParseNaN();
  }

  const ALERT_CHAMPS: string := "Veuillez remplir tous les champs"

  /** A call the page makes to the application, with the form it was made
      from; the payment handed over is `Sent(call)`. */
  datatype PaiementCall =
    | AddPaiement(form: PaiementForm)
    | UpdatePaiement(id: int, form: PaiementForm)

  /** The payment a call hands to the application: the form's fields, with
      the student id and the amount read as numbers. */
  function Sent(call: PaiementCall): PaiementDraft {
    DraftOf(call.form)
  }

  /** What submitting the form does: warn, or send the payment. */
  datatype Submission = Rejected(alert: string) | Dispatched(call: PaiementCall)

  /** The decision `handleSubmit` takes: an empty student, amount or month
      field is refused with a warning (any non-empty text passes, `0`
      included, and nothing is trimmed); otherwise the payment read from
      the form is sent, as an update of the payment being edited or as a new
      payment. */
  function Submit(form: PaiementForm, editing: Option<Paiement>): (r: Submission)
    ensures r.Rejected? <==> form.eleveId == "" || form.montant == "" || form.mois == ""
    ensures r.Rejected? ==> r.alert == ALERT_CHAMPS
    ensures r.Dispatched? ==> r.call.form == form
    ensures r.Dispatched? ==> (r.call.UpdatePaiement? <==> editing.Some?)
    ensures r.Dispatched? && editing.Some? ==> r.call.id == editing.value.id
  {
    if form.eleveId == "" || form.montant == "" || form.mois == "" then Rejected(ALERT_CHAMPS)
    else match editing
      case Some(p) => Dispatched(UpdatePaiement(p.id, form))
      case None => Dispatched(AddPaiement(form))
  }

  /** A payment with a month, opened for editing and submitted unchanged, is
      sent back as itself under its own id. */
  lemma EditThenSubmit(p: Paiement, today: string)
    requires p.mois != "" && p.dateVersement != ""
    ensures var r := Submit(FormOf(p, today), Some(p));
            r.Dispatched? && r.call.UpdatePaiement? && r.call.id == p.id
            && Sent(r.call) == PaiementDraft(Some(p.eleveId), p.montant, p.mois, p.dateVersement)
  {
    FormOfRoundTrip(p, today);
  }

  /** The field an input of the form edits. */
  datatype Field = EleveId | Montant | Mois | DateVersement

  function WithField(form: PaiementForm, field: Field, value: string): PaiementForm {
    match field
    case EleveId => form.(eleveId := value)
    case Montant => form.(montant := value)
    case Mois => form.(mois := value)
    case DateVersement => form.(dateVersement := value)
  }

  /** Whether what the add callback returned opens the receipt: it must be
      a payment whose id is set (not 0). `None` stands for a result without
      an id, such as nothing or a pending promise. */
  predicate OpensReceipt(added: Option<Paiement>) {
    added.Some? && added.value.id != 0
  }

  /** The state of the page: the form's content, the payment being edited
      (none when the form records a new payment), whether the form is shown
      and the payment whose receipt is open. */
  class FormState {
    var formData: PaiementForm
    var editingPaiement: Option<Paiement>
    var showForm: bool
    var selectedReceipt: Option<Paiement>

    /** A payment is only ever edited in a visible form. */
    ghost predicate Valid()
      reads this
    {
      editingPaiement.Some? ==> showForm
    }

    constructor(today: string)
      ensures Valid()
      ensures formData == BlankForm(today) && editingPaiement.None? && !showForm && selectedReceipt.None?
    {
      formData := BlankForm(today);
      editingPaiement := None;
      showForm := false;
      selectedReceipt := None;
    }

    /** The add button: a blank form for a new payment. */
    method OpenAddForm(today: string)
      modifies this
      ensures Valid()
      ensures formData == BlankForm(today) && editingPaiement.None? && showForm
      ensures selectedReceipt == old(selectedReceipt)
    {
      editingPaiement := None;
      formData := BlankForm(today);
      showForm := true;
    }

    /** Typing into one input of the form. */
    method Type(field: Field, value: string)
      requires Valid()
      modifies this
      ensures Valid()
      ensures formData == WithField(old(formData), field, value)
      ensures editingPaiement == old(editingPaiement) && showForm == old(showForm)
      ensures selectedReceipt == old(selectedReceipt)
    {
      formData := WithField(formData, field, value);
    }

    /** `handleSubmit`. A refused form stays as it is. A sent form is reset
        and hidden and the edit ends; a new payment opens its receipt when
        the add callback returned it with an id (`added`). */
    method HandleSubmit(today: string, added: Option<Paiement>) returns (call: Option<PaiementCall>, alert: Option<string>)
      requires Valid()
      modifies this
      ensures Valid()
      ensures Submit(old(formData), old(editingPaiement)).Rejected? ==>
                call.None? && alert == Some(ALERT_CHAMPS)
                && formData == old(formData) && editingPaiement == old(editingPaiement)
                && showForm == old(showForm) && selectedReceipt == old(selectedReceipt)
      ensures Submit(old(formData), old(editingPaiement)).Dispatched? ==>
                alert.None? && call == Some(Submit(old(formData), old(editingPaiement)).call)
                && formData == BlankForm(today) && editingPaiement.None? && !showForm
                && selectedReceipt == (if old(editingPaiement).None? && OpensReceipt(added) then added
                                       else old(selectedReceipt))
      ensures call.Some? && call.value.UpdatePaiement? ==> old(showForm)
    {
      var outcome := Submit(formData, editingPaiement);
      if outcome.Rejected? {
        call, alert := None, Some(outcome.alert);
      } else {
        call, alert := Some(outcome.call), None;
        if editingPaiement.None? && OpensReceipt(added) {
          selectedReceipt := added;
        }
        editingPaiement := None;
        formData := BlankForm(today);
        showForm := false;
      }
    }

    /** `handleEdit`: the payment's fields in a visible form. */
    method HandleEdit(p: Paiement, today: string)
      modifies this
      ensures Valid()
      ensures editingPaiement == Some(p) && formData == FormOf(p, today) && showForm
      ensures selectedReceipt == old(selectedReceipt)
    {
      editingPaiement := Some(p);
      formData := FormOf(p, today);
      showForm := true;
    }

    /** `handleDelete`: the payment is deleted when the user confirms
        (`confirmed` is the answer to the confirmation dialog). The form is
        not touched. */
    method HandleDelete(id: int, confirmed: bool) returns (deleted: Option<int>)
      ensures deleted.Some? <==> confirmed
      ensures deleted.Some? ==> deleted.value == id
    {
      deleted := if confirmed then Some(id) else None;
    }

    /** `handleCancel`: the form is reset, the edit ends and the form is
        hidden; an open receipt stays open. */
    method HandleCancel(today: string)
      modifies this
      ensures Valid()
      ensures formData == BlankForm(today) && editingPaiement.None? && !showForm
      ensures selectedReceipt == old(selectedReceipt)
    {
      formData := BlankForm(today);
      editingPaiement := None;
      showForm := false;
    }

    /** The receipt button of a row. */
    method ShowReceipt(p: Paiement)
      requires Valid()
      modifies this
      ensures Valid()
      ensures selectedReceipt == Some(p)
      ensures formData == old(formData) && editingPaiement == old(editingPaiement) && showForm == old(showForm)
    {
      selectedReceipt := Some(p);
    }

    /** Closing the receipt. */
    method CloseReceipt()
      requires Valid()
      modifies this
      ensures Valid()
      ensures selectedReceipt.None?
      ensures formData == old(formData) && editingPaiement == old(editingPaiement) && showForm == old(showForm)
    {
      selectedReceipt := None;
    }
  }
}

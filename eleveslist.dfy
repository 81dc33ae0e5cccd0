/** The student list page: the name search, and the form that adds or
    edits a student, with its guards. */
module ElevesList {
  import opened Common
  import opened Text
  import opened Records

  // ---------------------------------------------------------------------
  // Search.

  /** The search test on one name: the lower-cased name contains the
      lower-cased term, or the name contains the term as typed. */
  function NameMatches(nom: string, term: string): bool {
    Includes(Lower(nom), Lower(term)) || Includes(nom, term)
  }

  /** Lower-casing a slice is slicing the lower-cased text. */
  lemma LowerSlice(s: string, i: nat, j: nat)
    requires i <= j <= |s|
    ensures Lower(s)[i..j] == Lower(s[i..j])
  {
    forall k | 0 <= k < j - i
      ensures Lower(s)[i..j][k] == Lower(s[i..j])[k]
    {
      LowerSliceAt(s, i, j, k);
    }
  }

  lemma LowerSliceAt(s: string, i: nat, j: nat, k: nat)
    requires i <= j <= |s| && k < j - i
    ensures Lower(s)[i..j][k] == Lower(s[i..j])[k]
  {
    assert s[i..j][k] == s[i + k];
  }

  /** The search is case-insensitive matching: the verbatim test it also
      makes never keeps a name the lower-cased test rejects. */
  lemma NameMatchesCaseInsensitive(nom: string, term: string)
    ensures NameMatches(nom, term) <==> Includes(Lower(nom), Lower(term))
  {
    if Includes(nom, term) {
      var i :| OccursAt(nom, term, i);
      LowerSlice(nom, i, i + |term|);
      assert OccursAt(Lower(nom), Lower(term), i);
    }
  }

  /** Whether a student's name passes the search for `term`. */
  function Searched(term: string): Eleve -> bool {
    (e: Eleve) => NameMatches(e.nom, term)
  }

  /** `filteredEleves`: the students whose name matches the search, in list
      order. A student whose name contains the term verbatim is kept. */
  function FilteredEleves(eleves: seq<Eleve>, term: string): (r: seq<Eleve>)
    ensures IsSubsequence(r, eleves)
    ensures forall i :: 0 <= i < |r| ==> Includes(Lower(r[i].nom), Lower(term))
    ensures forall i :: 0 <= i < |eleves| && Includes(eleves[i].nom, term) ==> eleves[i] in r
    ensures forall i :: 0 <= i < |eleves| ==> (eleves[i] in r <==> Includes(Lower(eleves[i].nom), Lower(term)))
  {
    var r := Filter(eleves, Searched(term));
    forall i | 0 <= i < |r|
      ensures Includes(Lower(r[i].nom), Lower(term))
    {
      NameMatchesCaseInsensitive(r[i].nom, term);
    }
    r
  }

  /** An empty search keeps every student. */
  lemma EmptySearchKeepsAll(eleves: seq<Eleve>)
    ensures FilteredEleves(eleves, "") == eleves
  {
    forall i | 0 <= i < |eleves|
      ensures Searched("")(eleves[i])
    {
      assert OccursAt(eleves[i].nom, "", 0);
    }
    FilterKeepsAll(eleves, Searched(""));
  }

  // ---------------------------------------------------------------------
  // The form.

  /** The fields the form edits. */
  datatype EleveForm = EleveForm(nom: string, niveau: string, dateInscription: string, typeCours: string)

  /** The form as it is opened for a new student, or reset: empty name and
      level, today's date (`today`, which the source reads from the clock as
      `YYYY-MM-DD`) and the default course type. */
  function BlankForm(today: string): EleveForm {
    EleveForm("", "", today, DEFAULT_TYPE_COURS)
  }

  /** What `handleEdit` loads into the form: the student's fields, a missing
      date replaced by today and a missing course type by `classe`. */
  function FormOf(e: Eleve, today: string): (r: EleveForm)
    ensures r.nom == e.nom && r.niveau == e.niveau
    ensures e.dateInscription != "" ==> r.dateInscription == e.dateInscription
    ensures e.dateInscription == "" ==> r.dateInscription == today
    ensures r.typeCours != ""
    ensures e.typeCours != "" ==> r.typeCours == e.typeCours
    ensures e.typeCours == "" ==> r.typeCours == DEFAULT_TYPE_COURS
  {
    EleveForm(OrElse(e.nom, ""), OrElse(e.niveau, ""), OrElse(e.dateInscription, today),
              OrElse(e.typeCours, DEFAULT_TYPE_COURS))
  }

  /** A student with every field filled in is loaded into the form as is. */
  lemma FormOfComplete(e: Eleve, today: string)
    requires e.dateInscription != "" && e.typeCours != ""
    ensures FormOf(e, today) == EleveForm(e.nom, e.niveau, e.dateInscription, e.typeCours)
  {
  }

  const ALERT_CHAMPS: string := "Veuillez remplir tous les champs"
  const ALERT_PAIEMENTS: string := "Cet élève a des paiements enregistrés. Veuillez d'abord supprimer ses paiements."

  /** A call the page makes to the application. */
  datatype EleveCall =
    | AddEleve(data: EleveForm)
    | UpdateEleve(id: int, data: EleveForm)

  /** What submitting the form does: warn, or send the form. */
  datatype Submission = Rejected(alert: string) | Dispatched(call: EleveCall)

  /** The decision `handleSubmit` takes: a name or a level that is empty
      once trimmed is refused with a warning; otherwise the form is sent as
      it is, as an update of the student being edited, or as a new student
      when none is. */
  function Submit(form: EleveForm, editing: Option<Eleve>): (r: Submission)
    ensures r.Rejected? <==> IsBlank(form.nom) || IsBlank(form.niveau)
    ensures r.Rejected? ==> r.alert == ALERT_CHAMPS
    ensures r.Dispatched? ==> r.call.data == form
    ensures r.Dispatched? ==> (r.call.UpdateEleve? <==> editing.Some?)
    ensures r.Dispatched? && editing.Some? ==> r.call.id == editing.value.id
  {
    if IsBlank(form.nom) || IsBlank(form.niveau) then Rejected(ALERT_CHAMPS)
    else match editing
      case Some(e) => Dispatched(UpdateEleve(e.id, form))
      case None => Dispatched(AddEleve(form))
  }

  /** The form as it is opened for a new student is refused until a name and
      a level are entered. */
  lemma BlankFormRejected(today: string, editing: Option<Eleve>)
    ensures Submit(BlankForm(today), editing) == Rejected(ALERT_CHAMPS)
  {
    assert IsBlank("");
  }

  /** Opening a complete student record for editing and submitting it
      unchanged sends that student's own fields back under its id. */
  lemma EditThenSubmit(e: Eleve, today: string)
    requires !IsBlank(e.nom) && !IsBlank(e.niveau)
    requires e.dateInscription != "" && e.typeCours != ""
    ensures Submit(FormOf(e, today), Some(e))
            == Dispatched(UpdateEleve(e.id, EleveForm(e.nom, e.niveau, e.dateInscription, e.typeCours)))
  {
    FormOfComplete(e, today);
  }

  /** Whether a payment belongs to student `id`. */
  function PaidBy(id: int): Paiement -> bool {
    (p: Paiement) => p.eleveId == id
  }

  /** The field an input of the form edits. */
  datatype Field = Nom | Niveau | DateInscription | TypeCours

  function WithField(form: EleveForm, field: Field, value: string): EleveForm {
    match field
    case Nom => form.(nom := value)
    case Niveau => form.(niveau := value)
    case DateInscription => form.(dateInscription := value)
    case TypeCours => form.(typeCours := value)
  }

  /** The state of the page: the form's content, the student being edited
      (none when the form adds a student) and whether the form is shown. */
  class FormState {
    var formData: EleveForm
    var editingEleve: Option<Eleve>
    var showForm: bool

    /** A student is only ever edited in a visible form. */
    ghost predicate Valid()
      reads this
    {
      editingEleve.Some? ==> showForm
    }

    constructor(today: string)
      ensures Valid()
      ensures formData == BlankForm(today) && editingEleve.None? && !showForm
    {
      formData := BlankForm(today);
      editingEleve := None;
      showForm := false;
    }

    /** The add button: a blank form for a new student. */
    method OpenAddForm(today: string)
      modifies this
      ensures Valid()
      ensures formData == BlankForm(today) && editingEleve.None? && showForm
    {
      editingEleve := None;
      formData := BlankForm(today);
      showForm := true;
    }

    /** Typing into one input of the form. */
    method Type(field: Field, value: string)
      requires Valid()
      modifies this
      ensures Valid()
      ensures formData == WithField(old(formData), field, value)
      ensures editingEleve == old(editingEleve) && showForm == old(showForm)
    {
      formData := WithField(formData, field, value);
    }

    /** `handleSubmit`: a refused form stays as it is; a sent form is
        reset, the edit ends and the form is hidden. */
    method HandleSubmit(today: string) returns (call: Option<EleveCall>, alert: Option<string>)
      requires Valid()
      modifies this
      ensures Valid()
      ensures Submit(old(formData), old(editingEleve)).Rejected? ==>
                call.None? && alert == Some(ALERT_CHAMPS)
                && formData == old(formData) && editingEleve == old(editingEleve) && showForm == old(showForm)
      ensures Submit(old(formData), old(editingEleve)).Dispatched? ==>
                alert.None? && call == Some(Submit(old(formData), old(editingEleve)).call)
                && formData == BlankForm(today) && editingEleve.None? && !showForm
      ensures call.Some? && call.value.UpdateEleve? ==> old(showForm)
    {
      var outcome := Submit(formData, editingEleve);
      if outcome.Rejected? {
        call, alert := None, Some(outcome.alert);
      } else {
        call, alert := Some(outcome.call), None;
        editingEleve := None;
        formData := BlankForm(today);
        showForm := false;
      }
    }

    /** `handleEdit`: the student's fields in a visible form. */
    method HandleEdit(e: Eleve, today: string)
      modifies this
      ensures Valid()
      ensures editingEleve == Some(e) && formData == FormOf(e, today) && showForm
    {
      editingEleve := Some(e);
      formData := FormOf(e, today);
      showForm := true;
    }

    /** `handleDelete`: a student who has a payment is never deleted, and the
        user is told why; no confirmation is asked then, and `confirmed` is
        not consulted. Otherwise the confirmation dialog is shown and the
        student is deleted when the user confirms (`confirmed` is the answer).
        The form is not touched. */
    method HandleDelete(id: int, paiements: seq<Paiement>, confirmed: bool) returns (deleted: Option<int>, alert: Option<string>)
      ensures alert.Some? <==> exists i :: 0 <= i < |paiements| && paiements[i].eleveId == id
      ensures alert.Some? ==> alert.value == ALERT_PAIEMENTS
      ensures deleted.Some? <==> confirmed && forall i :: 0 <= i < |paiements| ==> paiements[i].eleveId != id
      ensures deleted.Some? ==> deleted.value == id
    {
      if Any(paiements, PaidBy(id)) {
        return None, Some(ALERT_PAIEMENTS);
      }
      alert := None;
      if confirmed {
        deleted := Some(id);
      } else {
        deleted := None;
      }
    }

    /** `handleCancel`: the form is reset, the edit ends and the form is
        hidden. */
    method HandleCancel(today: string)
      modifies this
      ensures Valid()
      ensures formData == BlankForm(today) && editingEleve.None? && !showForm
    {
      formData := BlankForm(today);
      editingEleve := None;
      showForm := false;
    }
  }
}

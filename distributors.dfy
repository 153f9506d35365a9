/** The distributor administration page: the create/edit dialog whose form is a plain
    object updated field by field, the error shown when a save fails, and the delete
    confirmation. */
module Distributors {
  import opened Wrappers
  import FormErrors

  datatype Distributor = Distributor(id: nat, name: string, code: string, contactPerson: string, mobile: string,
                                     address: string, isInternal: bool, isActive: bool)

  /** A member of the form object: text from an input, a checkbox's state, or the id that
      editing copies in with the other members. */
  datatype Value = Str(s: string) | Flag(b: bool) | Num(n: nat)

  const InitialForm: map<string, Value> := map[
    "name" := Str(""), "code" := Str(""), "contact_person" := Str(""), "mobile" := Str(""),
    "address" := Str(""), "is_internal" := Flag(false), "is_active" := Flag(true)]

  const SaveFallback := "Failed to save distributor"
  const DeleteMessage := "Failed to delete distributor"

  /** `{ ...distributor }`: every member of the record, the id included. */
  function FieldsOf(d: Distributor): (f: map<string, Value>)
    ensures f.Keys == InitialForm.Keys + {"id"}
  {
    map["id" := Num(d.id), "name" := Str(d.name), "code" := Str(d.code), "contact_person" := Str(d.contactPerson),
        "mobile" := Str(d.mobile), "address" := Str(d.address), "is_internal" := Flag(d.isInternal),
        "is_active" := Flag(d.isActive)]
  }

  /** `handleFormChange`: the named member becomes the checkbox's state or the input's
      text; nothing else changes. */
  function Changed(form: map<string, Value>, name: string, value: string, inputType: string, checked: bool)
    : (f: map<string, Value>)
    ensures f.Keys == form.Keys + {name}
    ensures f[name] == if inputType == "checkbox" then Flag(checked) else Str(value)
    ensures forall k :: k in form && k != name ==> f[k] == form[k]
  {
    form[name := if inputType == "checkbox" then Flag(checked) else Str(value)]
  }

  /** Changes to two different members can be made in either order. */
  lemma ChangesToDifferentFieldsCommute(form: map<string, Value>, a: string, va: string, ta: string, ca: bool,
                                        b: string, vb: string, tb: string, cb: bool)
    requires a != b
    ensures Changed(Changed(form, a, va, ta, ca), b, vb, tb, cb) == Changed(Changed(form, b, vb, tb, cb), a, va, ta, ca)
  {
  }

  /** Typing into a text member the text it already holds leaves the form as it was. */
  lemma RetypingIsNoOp(form: map<string, Value>, name: string, value: string, inputType: string, checked: bool)
    requires name in form && form[name] == Str(value) && inputType != "checkbox"
    ensures Changed(form, name, value, inputType, checked) == form
  {
  }

  /** The request a save sends: an update of the edited distributor, or a create; both
      carry the form object as it stands. */
  datatype Request = Put(id: nat, body: map<string, Value>) | Post(body: map<string, Value>)

  class DistributorsPage {
    var distributors: seq<Distributor>
    var openDialog: bool
    var form: map<string, Value>
    var formError: Option<string>
    var editingDistributor: Option<Distributor>
    var deleteDialogOpen: bool
    var deletingDistributor: Option<Distributor>
    var deleteError: Option<string>

    constructor()
      ensures distributors == [] && !openDialog && form == InitialForm && formError.None?
      ensures editingDistributor.None? && !deleteDialogOpen && deletingDistributor.None? && deleteError.None?
    {
      distributors := [];
      openDialog := false;
      form := InitialForm;
      formError := None;
      editingDistributor := None;
      deleteDialogOpen := false;
      deletingDistributor := None;
      deleteError := None;
    }

    /** `handleDialogOpen`: a fresh create dialog. */
    method HandleDialogOpen()
      modifies this`form, this`formError, this`editingDistributor, this`openDialog
      ensures form == InitialForm && formError.None? && editingDistributor.None? && openDialog
    {
      form := InitialForm;
      formError := None;
      editingDistributor := None;
      openDialog := true;
    }

    /** `handleEdit`: the dialog opens on a copy of the distributor's members. */
    method HandleEdit(d: Distributor)
      modifies this`form, this`formError, this`editingDistributor, this`openDialog
      ensures form == FieldsOf(d) && formError.None? && editingDistributor == Some(d) && openDialog
    {
      form := FieldsOf(d);
      formError := None;
      editingDistributor := Some(d);
      openDialog := true;
    }

    method HandleFormChange(name: string, value: string, inputType: string, checked: bool)
      modifies this`form
      ensures form == Changed(old(form), name, value, inputType, checked)
    {
      var fieldValue := Str(value);
      if inputType == "checkbox" {
        fieldValue := Flag(checked);
      }
      form := form[name := fieldValue];
    }

    /** `handleFormSubmit`: `outcome` is how the request ended and `refreshed` the list the
        follow-up fetch returns (`None` when it fails). */
    method HandleFormSubmit(outcome: FormErrors.Outcome, refreshed: Option<seq<Distributor>>) returns (sent: Request)
      modifies this`openDialog, this`form, this`editingDistributor, this`formError, this`distributors
      ensures sent == match old(editingDistributor)
                      case Some(d) => Put(d.id, old(form))
                      case None => Post(old(form))
      ensures formError == FormErrors.SaveError(outcome, SaveFallback)
      ensures outcome.Succeeded? ==>
                !openDialog && form == InitialForm && editingDistributor.None?
                && distributors == (if refreshed.Some? then refreshed.value else old(distributors))
      ensures !outcome.Succeeded? ==>
                openDialog == old(openDialog) && form == old(form)
                && editingDistributor == old(editingDistributor) && distributors == old(distributors)
    {
      formError := None;
      if editingDistributor.Some? {
        sent := Put(editingDistributor.value.id, form);
      } else {
        sent := Post(form);
      }
      match outcome {
        case Refused(detail) =>
          formError := Some(if detail.Some? && detail.value != "" then detail.value else SaveFallback);
        case Unreachable(message) =>
          formError := Some(message);
        case Succeeded =>
          openDialog := false;
          form := InitialForm;
          editingDistributor := None;
          if refreshed.Some? {
            distributors := refreshed.value;
          }
      }
    }

    /** `handleDelete`: the confirmation dialog opens for `d`. */
    method HandleDelete(d: Distributor)
      modifies this`deletingDistributor, this`deleteError, this`deleteDialogOpen
      ensures deletingDistributor == Some(d) && deleteError.None? && deleteDialogOpen
    {
      deletingDistributor := Some(d);
      deleteError := None;
      deleteDialogOpen := true;
    }

    /** `confirmDelete`: nothing happens unless a distributor is pending; the id of the
        deleted distributor is returned when a request is sent. */
    method ConfirmDelete(outcome: FormErrors.Outcome, refreshed: Option<seq<Distributor>>) returns (sent: Option<nat>)
      modifies this`deleteDialogOpen, this`deletingDistributor, this`deleteError, this`distributors
      ensures old(deletingDistributor).None? ==>
                sent.None? && deleteDialogOpen == old(deleteDialogOpen) && deletingDistributor == old(deletingDistributor)
                && deleteError == old(deleteError) && distributors == old(distributors)
      ensures old(deletingDistributor).Some? ==>
                sent == Some(old(deletingDistributor).value.id)
                && deleteError == FormErrors.DeleteError(outcome, DeleteMessage)
      ensures old(deletingDistributor).Some? && outcome.Succeeded? ==>
                !deleteDialogOpen && deletingDistributor.None?
                && distributors == (if refreshed.Some? then refreshed.value else old(distributors))
      ensures old(deletingDistributor).Some? && !outcome.Succeeded? ==>
                deleteDialogOpen == old(deleteDialogOpen) && deletingDistributor == old(deletingDistributor)
                && distributors == old(distributors)
    {
      if deletingDistributor.None? {
        return None;
      }
      deleteError := None;
      sent := Some(deletingDistributor.value.id);
      match outcome {
        case Refused(_) =>
          deleteError := Some(DeleteMessage);
        case Unreachable(message) =>
          deleteError := Some(message);
        case Succeeded =>
          deleteDialogOpen := false;
          deletingDistributor := None;
          if refreshed.Some? {
            distributors := refreshed.value;
          }
      }
    }
  }
}

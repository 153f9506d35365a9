/** The delivery-team administration page: the dialog's text form, the conversions between a
    team's numeric ids and the form's strings, the error shown when a save fails, and the
    delete confirmation. */
module DeliveryTeams {
  import opened Wrappers
  import Text
  import FormErrors

  datatype DeliveryTeam = DeliveryTeam(id: nat, name: string, distributor: nat, distributorName: string,
                                       route: nat, routeName: string)

  /** The form holds the chosen distributor and route as the select's strings. */
  datatype TeamForm = TeamForm(name: string, distributor: string, route: string)

  datatype TeamField = NameField | DistributorField | RouteField

  /** The request body; an id that is not a number (`NaN`) is sent as `null` (`None`). */
  datatype Payload = Payload(name: string, distributor: Option<nat>, route: Option<nat>)

  const InitialForm := TeamForm("", "", "")
  const SaveFallback := "Failed to save delivery team"
  const DeleteMessage := "Failed to delete delivery team"

  /** `handleEdit`'s form: the name, and the ids through `String(...)`. */
  function EditForm(team: DeliveryTeam): (f: TeamForm)
    ensures Text.AllDigits(f.distributor) && Text.AllDigits(f.route) && f.distributor != "" && f.route != ""
  {
    TeamForm(team.name, Text.DecimalString(team.distributor), Text.DecimalString(team.route))
  }

  /** `handleFormChange`: only the named field takes the new value. */
  function Changed(form: TeamForm, field: TeamField, value: string): (f: TeamForm)
    ensures field == NameField ==> f.name == value && f.distributor == form.distributor && f.route == form.route
    ensures field == DistributorField ==> f.distributor == value && f.name == form.name && f.route == form.route
    ensures field == RouteField ==> f.route == value && f.name == form.name && f.distributor == form.distributor
  {
    match field
    case NameField => form.(name := value)
    case DistributorField => form.(distributor := value)
    case RouteField => form.(route := value)
  }

  /** The payload: the name, and the ids through `Number(...)`. */
  function PayloadOf(form: TeamForm): (p: Payload)
    ensures p.name == form.name
    ensures p.distributor.Some? <==> Text.AllDigits(form.distributor)
    ensures p.route.Some? <==> Text.AllDigits(form.route)
  {
    Payload(form.name, Text.NumberOf(form.distributor), Text.NumberOf(form.route))
  }

  /** Saving an edited team without changes sends its own name and ids back. */
  lemma UnchangedEditResubmitsIds(team: DeliveryTeam)
    ensures PayloadOf(EditForm(team)) == Payload(team.name, Some(team.distributor), Some(team.route))
  {
    Text.NumberOfDecimalString(team.distributor);
    Text.NumberOfDecimalString(team.route);
  }

  /** Choosing a distributor or route by its id string sends that id. */
  lemma ChosenIdIsSent(form: TeamForm, id: nat)
    ensures PayloadOf(Changed(form, DistributorField, Text.DecimalString(id))).distributor == Some(id)
    ensures PayloadOf(Changed(form, RouteField, Text.DecimalString(id))).route == Some(id)
  {
    Text.NumberOfDecimalString(id);
  }

  /** A create with nothing chosen sends id 0 for both, since `Number('')` is 0. */
  lemma BlankFormSendsZeroIds()
    ensures PayloadOf(InitialForm) == Payload("", Some(0), Some(0))
  {
  }

  datatype Request = Put(id: nat, body: Payload) | Post(body: Payload)

  class DeliveryTeamsPage {
    var teams: seq<DeliveryTeam>
    var openDialog: bool
    var form: TeamForm
    var formError: Option<string>
    var editingTeam: Option<DeliveryTeam>
    var deleteDialogOpen: bool
    var deletingTeam: Option<DeliveryTeam>
    var deleteError: Option<string>

    constructor()
      ensures teams == [] && !openDialog && form == InitialForm && formError.None?
      ensures editingTeam.None? && !deleteDialogOpen && deletingTeam.None? && deleteError.None?
    {
      teams := [];
      openDialog := false;
      form := InitialForm;
      formError := None;
      editingTeam := None;
      deleteDialogOpen := false;
      deletingTeam := None;
      deleteError := None;
    }

    /** `handleDialogOpen`: a fresh create dialog (the dropdown lists are fetched alongside). */
    method HandleDialogOpen()
      modifies this`form, this`formError, this`editingTeam, this`openDialog
      ensures form == InitialForm && formError.None? && editingTeam.None? && openDialog
    {
      form := InitialForm;
      formError := None;
      editingTeam := None;
      openDialog := true;
    }

    /** `handleEdit`. */
    method HandleEdit(team: DeliveryTeam)
      modifies this`form, this`formError, this`editingTeam, this`openDialog
      ensures form == EditForm(team) && formError.None? && editingTeam == Some(team) && openDialog
    {
      form := EditForm(team);
      formError := None;
      editingTeam := Some(team);
      openDialog := true;
    }

    method HandleFormChange(field: TeamField, value: string)
      modifies this`form
      ensures form == Changed(old(form), field, value)
    {
      form := Changed(form, field, value);
    }

    /** `handleFormSubmit`: `outcome` is how the request ended and `refreshed` the list the
        follow-up fetch returns (`None` when it fails). */
    method HandleFormSubmit(outcome: FormErrors.Outcome, refreshed: Option<seq<DeliveryTeam>>) returns (sent: Request)
      modifies this`openDialog, this`form, this`editingTeam, this`formError, this`teams
      ensures sent == match old(editingTeam)
                      case Some(t) => Put(t.id, PayloadOf(old(form)))
                      case None => Post(PayloadOf(old(form)))
      ensures formError == FormErrors.SaveError(outcome, SaveFallback)
      ensures outcome.Succeeded? ==>
                !openDialog && form == InitialForm && editingTeam.None?
                && teams == (if refreshed.Some? then refreshed.value else old(teams))
      ensures !outcome.Succeeded? ==>
                openDialog == old(openDialog) && form == old(form)
                && editingTeam == old(editingTeam) && teams == old(teams)
    {
      formError := None;
      var payload := PayloadOf(form);
      if editingTeam.Some? {
        sent := Put(editingTeam.value.id, payload);
      } else {
        sent := Post(payload);
      }
      match outcome {
        case Refused(detail) =>
          formError := Some(if detail.Some? && detail.value != "" then detail.value else SaveFallback);
        case Unreachable(message) =>
          formError := Some(message);
        case Succeeded =>
          openDialog := false;
          form := InitialForm;
          editingTeam := None;
          if refreshed.Some? {
            teams := refreshed.value;
          }
      }
    }

    /** `handleDelete`: the confirmation dialog opens for `team`. */
    method HandleDelete(team: DeliveryTeam)
      modifies this`deletingTeam, this`deleteError, this`deleteDialogOpen
      ensures deletingTeam == Some(team) && deleteError.None? && deleteDialogOpen
    {
      deletingTeam := Some(team);
      deleteError := None;
      deleteDialogOpen := true;
    }

    /** `confirmDelete`: nothing happens unless a team is pending; the id of the deleted
        team is returned when a request is sent. */
    method ConfirmDelete(outcome: FormErrors.Outcome, refreshed: Option<seq<DeliveryTeam>>) returns (sent: Option<nat>)
      modifies this`deleteDialogOpen, this`deletingTeam, this`deleteError, this`teams
      ensures old(deletingTeam).None? ==>
                sent.None? && deleteDialogOpen == old(deleteDialogOpen) && deletingTeam == old(deletingTeam)
                && deleteError == old(deleteError) && teams == old(teams)
      ensures old(deletingTeam).Some? ==>
                sent == Some(old(deletingTeam).value.id)
                && deleteError == FormErrors.DeleteError(outcome, DeleteMessage)
      ensures old(deletingTeam).Some? && outcome.Succeeded? ==>
                !deleteDialogOpen && deletingTeam.None?
                && teams == (if refreshed.Some? then refreshed.value else old(teams))
      ensures old(deletingTeam).Some? && !outcome.Succeeded? ==>
                deleteDialogOpen == old(deleteDialogOpen) && deletingTeam == old(deletingTeam)
                && teams == old(teams)
    {
      if deletingTeam.None? {
        return None;
      }
      deleteError := None;
      sent := Some(deletingTeam.value.id);
      match outcome {
        case Refused(_) =>
          deleteError := Some(DeleteMessage);
        case Unreachable(message) =>
          deleteError := Some(message);
        case Succeeded =>
          deleteDialogOpen := false;
          deletingTeam := None;
          if refreshed.Some? {
            teams := refreshed.value;
          }
      }
    }
  }
}

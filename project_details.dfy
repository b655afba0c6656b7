/** The project details page: the edit form derived from a project, the
    project rebuilt from the form, and the edit/save/delete state. */
module ProjectDetails {
  import opened Common
  import opened SharedTypes

  /** The editable fields; `status` is one of the project statuses or "". */
  datatype ProjectForm = ProjectForm(
    name: string,
    description: string,
    status: string,
    customerName: string,
    customerPhone: string,
    customerEmail: string,
    customerAddress: string)

  /** `toForm`: each field, or "" where the project has none. */
  function ToForm(p: ProjectView): (f: ProjectForm)
    ensures f.name == p.name.GetOr("") && f.description == p.description.GetOr("")
    ensures f.status == p.status.GetOr("")
    ensures f.customerName == p.customerName.GetOr("") && f.customerPhone == p.customerPhone.GetOr("")
    ensures f.customerEmail == p.customerEmail.GetOr("") && f.customerAddress == p.customerAddress.GetOr("")
  {
    ProjectForm(p.name.GetOr(""), p.description.GetOr(""), p.status.GetOr(""), p.customerName.GetOr(""),
      p.customerPhone.GetOr(""), p.customerEmail.GetOr(""), p.customerAddress.GetOr(""))
  }

  /** `toUpdatedProject`: the project with the seven form fields taken from
      the form (an empty status left unset) and every other field kept. */
  function ToUpdatedProject(p: ProjectView, f: ProjectForm): (r: ProjectView)
    ensures r.name == Some(f.name) && r.description == Some(f.description)
    ensures r.status.None? <==> f.status == ""
    ensures r.status.Some? ==> r.status.value == f.status
    ensures r.customerName == Some(f.customerName) && r.customerPhone == Some(f.customerPhone)
    ensures r.customerEmail == Some(f.customerEmail) && r.customerAddress == Some(f.customerAddress)
    ensures r.internalId == p.internalId && r.ownerId == p.ownerId && r.usersList == p.usersList
    ensures r.budget == p.budget && r.isActive == p.isActive && r.startDate == p.startDate
  {
    p.(name := Some(f.name), description := Some(f.description),
       status := if f.status == "" then None else Some(f.status),
       customerName := Some(f.customerName), customerPhone := Some(f.customerPhone),
       customerEmail := Some(f.customerEmail), customerAddress := Some(f.customerAddress))
  }

  /** A saved form reloads unchanged, whatever project it was applied to. */
  lemma SavedFormReloads(p: ProjectView, f: ProjectForm)
    ensures ToForm(ToUpdatedProject(p, f)) == f
  {
  }

  /** Saving an untouched form changes nothing in a project whose seven
      fields are all set (with a non-empty status). */
  lemma UntouchedFormKeepsProject(p: ProjectView)
    requires p.name.Some? && p.description.Some? && p.customerName.Some? && p.customerPhone.Some?
    requires p.customerEmail.Some? && p.customerAddress.Some?
    requires p.status.Some? && p.status.value != ""
    ensures ToUpdatedProject(p, ToForm(p)) == p
  {
  }

  /** The page state for one project. */
  class ProjectDetailsPage {
    /** The loaded project, if any. */
    const project: Option<ProjectView>
    /** The route parameter. */
    const internalId: Option<string>
    var isEditing: bool
    var form: Option<ProjectForm>

    constructor (project: Option<ProjectView>, internalId: Option<string>)
      ensures this.project == project && this.internalId == internalId
      ensures !isEditing && form == None
    {
      this.project := project;
      this.internalId := internalId;
      isEditing := false;
      form := None;
    }

    /** `isDirty`: a form exists and differs from the loaded project's form. */
    predicate IsDirty()
      reads this
    {
      project.Some? && form.Some? && ToForm(project.value) != form.value
    }

    /** The save button is enabled exactly when the form is dirty and no
        update is pending. */
    function SaveEnabled(pending: bool): (r: bool)
      reads this
      ensures r <==> project.Some? && form.Some? && form.value != ToForm(project.value) && !pending
    {
      IsDirty() && !pending
    }

    /** `startEdit`: fill the form from the project; nothing without one.
        The fresh form is not dirty, so it cannot be saved yet. */
    method StartEdit()
      modifies this
      ensures project.None? ==> isEditing == old(isEditing) && form == old(form)
      ensures project.Some? ==> isEditing && form == Some(ToForm(project.value))
      ensures project.Some? ==> forall pending :: !SaveEnabled(pending)
    {
      if project.None? {
        return;
      }
      form := Some(ToForm(project.value));
      isEditing := true;
    }

    /** `cancelEdit` */
    method CancelEdit()
      modifies this
      ensures !isEditing && form == None
      ensures forall pending :: !SaveEnabled(pending)
    {
      isEditing := false;
      form := None;
    }

    /** `saveEdit`: without a project and a form nothing is sent; otherwise
        the rebuilt project is sent, and editing ends when the update
        succeeds. */
    method SaveEdit(updateSucceeds: bool) returns (sent: Option<ProjectView>)
      modifies this
      ensures project.None? || old(form).None? ==> sent == None && isEditing == old(isEditing) && form == old(form)
      ensures project.Some? && old(form).Some? ==> sent == Some(ToUpdatedProject(project.value, old(form).value))
      ensures sent.Some? ==> ToForm(sent.value) == old(form).value
      ensures sent.Some? && updateSucceeds ==> !isEditing && form == None
      ensures sent.Some? && !updateSucceeds ==> isEditing == old(isEditing) && form == old(form)
    {
      if project.None? || form.None? {
        return None;
      }
      sent := Some(ToUpdatedProject(project.value, form.value));
      SavedFormReloads(project.value, form.value);
      if updateSucceeds {
        isEditing := false;
        form := None;
      }
    }

    /** `onDelete`: the ID to delete, sent only with a route ID and the
        user's confirmation. */
    method OnDelete(confirmed: bool) returns (deleted: Option<string>)
      ensures deleted.Some? <==> internalId.Some? && internalId.value != "" && confirmed
      ensures deleted.Some? ==> deleted == internalId
    {
      if internalId.None? || internalId.value == "" {
        return None;
      }
      if !confirmed {
        return None;
      }
      deleted := internalId;
    }
  }
}

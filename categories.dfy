/** The product-category administration page: the category list kept in step with the
    server's answers to create and update. */
module Categories {
  import opened Wrappers
  import Text
  import ListUpdates

  datatype Category = Category(id: nat, name: string, code: string)

  datatype CategoryForm = CategoryForm(name: string, code: string)

  function CategoryId(c: Category): nat {
    c.id
  }

  function FormFor(editing: Option<Category>): (f: CategoryForm)
    ensures editing.Some? ==> f.name == editing.value.name && f.code == editing.value.code
    ensures editing.None? ==> f == CategoryForm("", "")
  {
    match editing
    case Some(c) => CategoryForm(c.name, c.code)
    case None => CategoryForm("", "")
  }

  class CategoriesPage {
    var categories: seq<Category>
    var openDialog: bool
    var editingCategory: Option<Category>
    var form: CategoryForm

    constructor()
      ensures categories == [] && !openDialog && editingCategory.None? && form == FormFor(None)
    {
      categories := [];
      openDialog := false;
      editingCategory := None;
      form := FormFor(None);
    }

    /** The edit button on a row. */
    method StartEdit(c: Category)
      modifies this`editingCategory, this`openDialog
      ensures editingCategory == Some(c) && openDialog
    {
      editingCategory := Some(c);
      openDialog := true;
    }

    /** The effect that fills the form from the edited category or resets it. */
    method SyncForm()
      modifies this`form
      ensures form == FormFor(editingCategory)
    {
      form := FormFor(editingCategory);
    }

    /** `onSubmit`: without a token nothing is sent; `reply` is the server's record, `None`
        when the request fails, in which case only an error is shown. */
    method OnSubmit(data: CategoryForm, token: Option<string>, reply: Option<Category>) returns (sent: bool)
      modifies this`categories, this`openDialog, this`editingCategory, this`form
      ensures sent <==> Text.Present(token)
      ensures sent && reply.Some? ==>
                !openDialog && editingCategory.None? && form == FormFor(None)
                && categories == match old(editingCategory)
                                 case Some(e) => ListUpdates.ReplaceById(old(categories), CategoryId, e.id, reply.value)
                                 case None => old(categories) + [reply.value]
      ensures !(sent && reply.Some?) ==>
                categories == old(categories) && openDialog == old(openDialog)
                && editingCategory == old(editingCategory) && form == old(form)
    {
      if !Text.Present(token) {
        return false;
      }
      sent := true;
      if reply.None? {
        return;
      }
      if editingCategory.Some? {
        categories := ListUpdates.ReplaceById(categories, CategoryId, editingCategory.value.id, reply.value);
      } else {
        categories := categories + [reply.value];
      }
      openDialog := false;
      editingCategory := None;
      form := FormFor(None);
    }
  }
}

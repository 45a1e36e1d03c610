/**
 * The invoice templates page: the item rows of the template form (a default
 * row, rows filled from a stored template, removal), the items a save posts,
 * and the ids the create, use and delete modals remember.
 *
 * A numeric input is held as the result of `parseFloat` on it: `None` stands
 * for NaN.
 */
module TemplatesPage {
  import opened Wrappers
  import opened Strings
  import opened SaveUrls

  /** An item of a stored template, as the detail endpoint returns it. */
  datatype StoredItem = StoredItem(description: string, quantity: real, unitPrice: real)

  /** The three inputs of an item row. */
  datatype ItemRow = ItemRow(description: string, quantity: Option<real>, price: Option<real>)

  /** A posted template item: the row's inputs and its index among the rows. */
  datatype ItemJson = ItemJson(description: string, quantity: Option<real>, unitPrice: Option<real>, order: int)

  /**
   * The description a row shows when it is written into the `value="..."`
   * attribute of the row's markup: the attribute ends at the first double
   * quote, so the text after it is lost.
   */
  function AttributeValue(s: string): (r: string)
    ensures '"' !in s ==> r == s
    ensures '"' in s ==> |r| < |s| && '"' !in r
  {
    var k := IndexOf(s, '"');
    if k == -1 then s else s[..k]
  }

  /** `addTemplateItem(item)` as written: the stored description goes through the attribute. */
  function RowAsWritten(item: Option<StoredItem>): ItemRow {
    match item
    case None => ItemRow("", Some(1.0), Some(0.0))
    case Some(it) => ItemRow(AttributeValue(it.description), Some(it.quantity), Some(it.unitPrice))
  }

  /** An item described as `12" pipe` comes back as `12` once its row is filled in. */
  lemma QuotedDescriptionTruncated()
    ensures RowAsWritten(Some(StoredItem("12\" pipe", 2.0, 5.0))).description == "12"
  {
    var s := "12\" pipe";
    var k := IndexOf(s, '"');
    assert s[0] == '1' && s[1] == '2' && s[2] == '"';
    assert s[2] in s;
    assert s[..2] == "12";
  }

  /** `addTemplateItem(item)` with the description set as the input's value: no item gives '', 1 and 0. */
  function Row(item: Option<StoredItem>): (r: ItemRow)
    ensures item.None? ==> r == ItemRow("", Some(1.0), Some(0.0))
    ensures item.Some? ==> r.description == item.value.description
    ensures item.Some? ==> r.quantity == Some(item.value.quantity) && r.price == Some(item.value.unitPrice)
  {
    match item
    case None => ItemRow("", Some(1.0), Some(0.0))
    case Some(it) => ItemRow(it.description, Some(it.quantity), Some(it.unitPrice))
  }

  /** The two agree on every description without a double quote. */
  lemma RowsAgreeWithoutQuotes(item: Option<StoredItem>)
    requires item.Some? ==> '"' !in item.value.description
    ensures RowAsWritten(item) == Row(item)
  {
  }

  /** The posted form of row i. */
  function JsonOf(row: ItemRow, index: int): ItemJson {
    ItemJson(row.description, row.quantity, row.price, index)
  }

  /** What a template save posts. */
  datatype TemplatePost = TemplatePost(url: string, items: seq<ItemJson>)

  /** What `createFromTemplate` and `confirmDeleteTemplate` send, when they send anything. */
  datatype UseRequest = UseRequest(url: string, clientId: string, invoiceDate: string, dueDate: string)

  class TemplateForm {
    var currentTemplateId: Option<int>
    var deleteTemplateId: Option<int>
    var useTemplateId: Option<int>
    var rows: seq<ItemRow>

    constructor ()
      ensures currentTemplateId.None? && deleteTemplateId.None? && useTemplateId.None? && rows == []
    {
      currentTemplateId, deleteTemplateId, useTemplateId := None, None, None;
      rows := [];
    }

    /** `addTemplateItem`: one row is appended. */
    method AddTemplateItem(item: Option<StoredItem>)
      modifies this`rows
      ensures rows == old(rows) + [Row(item)]
    {
      rows := rows + [Row(item)];
    }

    /** `removeTemplateItem`: the row whose button was pressed goes. */
    method RemoveTemplateItem(k: int)
      requires 0 <= k < |rows|
      modifies this`rows
      ensures rows == old(rows)[..k] + old(rows)[k + 1..]
    {
      rows := rows[..k] + rows[k + 1..];
    }

    /** `openCreateTemplateModal`: nothing is being edited and the form holds one default row. */
    method OpenCreateTemplateModal()
      modifies this`currentTemplateId, this`rows
      ensures currentTemplateId.None? && rows == [Row(None)]
    {
      currentTemplateId := None;
      rows := [];
      AddTemplateItem(None);
    }

    /** `closeTemplateModal`: the edited id is forgotten. */
    method CloseTemplateModal()
      modifies this`currentTemplateId
      ensures currentTemplateId.None?
    {
      currentTemplateId := None;
    }

    /** `editTemplate`, given the stored template's items: one row per item, in order. */
    method EditTemplate(templateId: int, items: seq<StoredItem>)
      modifies this`currentTemplateId, this`rows
      ensures currentTemplateId == Some(templateId)
      ensures |rows| == |items|
      ensures forall i :: 0 <= i < |items| ==> rows[i] == Row(Some(items[i]))
    {
      currentTemplateId := Some(templateId);
      rows := [];
      for i := 0 to |items|
        invariant currentTemplateId == Some(templateId)
        invariant |rows| == i
        invariant forall j :: 0 <= j < i ==> rows[j] == Row(Some(items[j]))
      {
        AddTemplateItem(Some(items[i]));
      }
    }

    /** `saveTemplate`: every row is posted, none filtered, each with its index as order. */
    method SaveTemplate() returns (post: TemplatePost)
      ensures post.url == SaveUrl("/templates/", currentTemplateId)
      ensures |post.items| == |rows|
      ensures forall i :: 0 <= i < |rows| ==> post.items[i] == JsonOf(rows[i], i)
    {
      var items := [];
      for index := 0 to |rows|
        invariant |items| == index
        invariant forall i :: 0 <= i < index ==> items[i] == JsonOf(rows[i], i)
      {
        var row := rows[index];
        items := items + [ItemJson(row.description, row.quantity, row.price, index)];
      }
      var url := if currentTemplateId.Some? && currentTemplateId.value != 0
        then ActionUrl("/templates/", currentTemplateId.value, "edit")
        else "/templates/create/";
      post := TemplatePost(url, items);
    }

    /** `useTemplate`: the template to use is remembered. */
    method UseTemplate(templateId: int)
      modifies this`useTemplateId
      ensures useTemplateId == Some(templateId)
    {
      useTemplateId := Some(templateId);
    }

    /** `closeUseTemplateModal`: it is forgotten. */
    method CloseUseTemplateModal()
      modifies this`useTemplateId
      ensures useTemplateId.None?
    {
      useTemplateId := None;
    }

    /** `createFromTemplate`: nothing without a remembered template, else a post to its use URL. */
    method CreateFromTemplate(clientId: string, invoiceDate: string, dueDate: string) returns (request: Option<UseRequest>)
      ensures request.None? <==> !TruthyId(useTemplateId)
      ensures request.Some? ==> request.value == UseRequest(ActionUrl("/templates/", useTemplateId.value, "use"), clientId, invoiceDate, dueDate)
    {
      if useTemplateId.None? || useTemplateId.value == 0 {
        return None;
      }
      request := Some(UseRequest(ActionUrl("/templates/", useTemplateId.value, "use"), clientId, invoiceDate, dueDate));
    }

    /** `deleteTemplate`: the template to delete is remembered. */
    method DeleteTemplate(templateId: int)
      modifies this`deleteTemplateId
      ensures deleteTemplateId == Some(templateId)
    {
      deleteTemplateId := Some(templateId);
    }

    /** `closeDeleteModal`: it is forgotten. */
    method CloseDeleteModal()
      modifies this`deleteTemplateId
      ensures deleteTemplateId.None?
    {
      deleteTemplateId := None;
    }

    /** `confirmDeleteTemplate`: the delete URL of the remembered template, or nothing. */
    method ConfirmDeleteTemplate() returns (url: Option<string>)
      ensures url.None? <==> !TruthyId(deleteTemplateId)
      ensures url.Some? ==> url.value == ActionUrl("/templates/", deleteTemplateId.value, "delete")
    {
      if deleteTemplateId.None? || deleteTemplateId.value == 0 {
        return None;
      }
      url := Some(ActionUrl("/templates/", deleteTemplateId.value, "delete"));
    }
  }

  /** Editing a stored template and saving it unchanged posts its items back, numbered in order, to its edit URL. */
  method EditThenSave(form: TemplateForm, templateId: int, items: seq<StoredItem>) returns (post: TemplatePost)
    requires templateId != 0
    modifies form
    ensures post.url == ActionUrl("/templates/", templateId, "edit")
    ensures |post.items| == |items|
    ensures forall i :: 0 <= i < |items| ==>
              post.items[i] == ItemJson(items[i].description, Some(items[i].quantity), Some(items[i].unitPrice), i)
  {
    form.EditTemplate(templateId, items);
    post := form.SaveTemplate();
  }

  /** After the use modal is closed, creating from a template sends nothing. */
  method CloseThenCreate(form: TemplateForm, clientId: string, invoiceDate: string, dueDate: string) returns (request: Option<UseRequest>)
    modifies form
    ensures request.None?
  {
    form.CloseUseTemplateModal();
    request := form.CreateFromTemplate(clientId, invoiceDate, dueDate);
  }
}

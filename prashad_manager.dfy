/**
 * The prashad manager of the admin portal: the list of items split into three meal-time tabs,
 * and the add/edit form whose handlers insert, update and delete rows of the `prashad` table.
 */
module PrashadManager {
  import opened Options
  import opened Catalog
  import opened Tables
  import Seqs

  /** An item as listed: its id and the stored row. */
  datatype Listed = Listed(id: string, row: PrashadRow)

  /** `formData`: the description and image fields are plain text, never null. */
  datatype FormData = FormData(
    name: string,
    description: string,
    mealTime: MealTime,
    imageUrl: string,
    isAvailable: bool)

  /** The form's starting value, restored by `resetForm`. */
  const InitialForm: FormData := FormData("", "", Breakfast, "", true)

  /** The row that `insert([formData])` or `update(formData)` writes: empty text stays `""`. */
  function RowOf(f: FormData): (r: PrashadRow)
    ensures r.name == f.name && r.mealTime == f.mealTime && r.isAvailable == f.isAvailable
    ensures r.description == Some(f.description) && r.imageUrl == Some(f.imageUrl)
  {
    PrashadRow(f.name, Some(f.description), f.mealTime, Some(f.imageUrl), f.isAvailable)
  }

  /** The form `handleEdit` fills in from an item: a null description or image becomes `""`. */
  function FormOf(p: PrashadRow): (f: FormData)
    ensures f.name == p.name && f.mealTime == p.mealTime && f.isAvailable == p.isAvailable
    ensures f.description == p.description.GetOr("") && f.imageUrl == p.imageUrl.GetOr("")
  {
    FormData(p.name, p.description.GetOr(""), p.mealTime, p.imageUrl.GetOr(""), p.isAvailable)
  }

  /** `update(formData)` sets every column the form holds. */
  function Overwrite(f: FormData): PrashadRow -> PrashadRow {
    (_: PrashadRow) => RowOf(f)
  }

  /** Opening an item for editing and saving it unchanged writes the same row back, except
      that a null description or image is stored as `""`; so the row comes back unchanged
      exactly when neither was null. */
  lemma EditThenSaveRow(p: PrashadRow)
    ensures RowOf(FormOf(p)) == p.(description := Some(p.description.GetOr("")), imageUrl := Some(p.imageUrl.GetOr("")))
    ensures RowOf(FormOf(p)) == p <==> p.description.Some? && p.imageUrl.Some?
  {
  }

  /** Filling the form from the row it would write gives the same form back. */
  lemma FormRoundTrip(f: FormData)
    ensures FormOf(RowOf(f)) == f
  {
  }

  // ---------------------------------------------------------------- the tabs

  function HasMealTime(m: MealTime): Listed -> bool {
    (p: Listed) => p.row.mealTime == m
  }

  /** `getPrashadsByMealTime(m)`. */
  function ByMealTime(items: seq<Listed>, m: MealTime): seq<Listed> {
    Seqs.Filter(HasMealTime(m), items)
  }

  /** A tab lists exactly the items of its meal time. */
  lemma ByMealTimeMember(items: seq<Listed>, m: MealTime, p: Listed)
    ensures p in ByMealTime(items, m) <==> p in items && p.row.mealTime == m
  {
    Seqs.FilterMember(HasMealTime(m), items, p);
  }

  /** The three tab counts add up to the whole list: every item is in exactly one tab. */
  lemma {:induction false} TabCountsSum(items: seq<Listed>)
    ensures |ByMealTime(items, Breakfast)| + |ByMealTime(items, Lunch)| + |ByMealTime(items, Dinner)| == |items|
  {
    if items != [] {
      TabCountsSum(items[1..]);
      assert ByMealTime(items, Breakfast) ==
        (if items[0].row.mealTime == Breakfast then [items[0]] else []) + ByMealTime(items[1..], Breakfast);
      assert ByMealTime(items, Lunch) ==
        (if items[0].row.mealTime == Lunch then [items[0]] else []) + ByMealTime(items[1..], Lunch);
      assert ByMealTime(items, Dinner) ==
        (if items[0].row.mealTime == Dinner then [items[0]] else []) + ByMealTime(items[1..], Dinner);
    }
  }

  // ---------------------------------------------------------------- the component

  class Manager {
    var prashads: seq<Listed>
    var isLoading: bool
    var showForm: bool
    var editingId: Option<string>
    var formData: FormData

    constructor ()
      ensures prashads == [] && isLoading && !showForm && editingId.None? && formData == InitialForm
    {
      prashads := [];
      isLoading := true;
      showForm := false;
      editingId := None;
      formData := InitialForm;
    }

    /** `loadPrashads`; `response` is the list the select returns, `None` when it reports an
        error or no data. */
    method LoadPrashads(response: Option<seq<Listed>>)
      modifies this`prashads, this`isLoading
      ensures !isLoading
      ensures prashads == if response.Some? then response.value else old(prashads)
    {
      isLoading := true;
      if response.Some? {
        prashads := response.value;
      }
      isLoading := false;
    }

    /** `resetForm`. */
    method ResetForm()
      modifies this`formData, this`editingId, this`showForm
      ensures formData == InitialForm && editingId.None? && !showForm
    {
      formData := InitialForm;
      editingId := None;
      showForm := false;
    }

    /** The "Add New Prashad" button. */
    method OpenForm()
      modifies this`showForm
      ensures showForm
    {
      showForm := true;
    }

    /** `handleEdit`. */
    method HandleEdit(item: Listed)
      modifies this`formData, this`editingId, this`showForm
      ensures formData == FormOf(item.row) && editingId == Some(item.id) && showForm
    {
      formData := FormOf(item.row);
      editingId := Some(item.id);
      showForm := true;
    }

    /** `if (editingId)`: an empty id counts as none. */
    predicate IsEditing()
      reads this
    {
      editingId.Some? && editingId.value != ""
    }

    /**
     * `handleSubmit`. `writeFails` says whether the update or insert returns an error,
     * `newId` is the id the table gives an inserted row (an id already in use is a key
     * conflict, which fails like any other error), and `response` is what the reload returns.
     */
    method HandleSubmit(db: Database, writeFails: bool, newId: string, response: Option<seq<Listed>>)
      returns (saved: bool)
      modifies db`prashads, this`prashads, this`isLoading, this`formData, this`editingId, this`showForm
      ensures saved == (!writeFails && (old(IsEditing()) || newId !in old(db.prashads)))
      ensures old(IsEditing()) ==>
        db.prashads == (if saved then UpdateWhere(old(db.prashads), old(editingId).value, Overwrite(old(formData)))
                        else old(db.prashads))
      ensures !old(IsEditing()) ==>
        db.prashads == (if saved then old(db.prashads)[newId := RowOf(old(formData))] else old(db.prashads))
      ensures !saved ==>
        prashads == old(prashads) && isLoading == old(isLoading) && formData == old(formData)
        && editingId == old(editingId) && showForm == old(showForm)
      ensures saved ==>
        && !isLoading && prashads == (if response.Some? then response.value else old(prashads))
        && formData == InitialForm && editingId.None? && !showForm
    {
      var f := formData;
      if IsEditing() {
        saved := !writeFails;
        if saved {
          db.prashads := UpdateWhere(db.prashads, editingId.value, Overwrite(f));
        }
      } else {
        saved := !writeFails && newId !in db.prashads;
        if saved {
          db.prashads := db.prashads[newId := RowOf(f)];
        }
      }
      if saved {
        LoadPrashads(response);
        ResetForm();
      }
    }

    /** `handleDelete`; `confirmed` is the answer to `confirm(...)`. */
    method HandleDelete(db: Database, id: string, confirmed: bool, deleteFails: bool, response: Option<seq<Listed>>)
      modifies db`prashads, this`prashads, this`isLoading
      ensures confirmed && !deleteFails ==>
        db.prashads == old(db.prashads) - {id}
        && !isLoading && prashads == (if response.Some? then response.value else old(prashads))
      ensures !(confirmed && !deleteFails) ==>
        db.prashads == old(db.prashads) && prashads == old(prashads) && isLoading == old(isLoading)
    {
      if confirmed {
        if !deleteFails {
          db.prashads := db.prashads - {id};
          LoadPrashads(response);
        }
      }
    }
  }

  /** A successful insert adds one row under the new id and leaves every other row alone; a
      successful update replaces only the edited row, and only when it exists. */
  lemma SubmitTouchesOneRow(rows: map<string, PrashadRow>, id: string, newId: string, f: FormData)
    requires newId !in rows
    ensures var inserted := rows[newId := RowOf(f)];
      inserted.Keys == rows.Keys + {newId} && inserted[newId] == RowOf(f)
      && forall k :: k in rows ==> inserted[k] == rows[k]
    ensures var updated := UpdateWhere(rows, id, Overwrite(f));
      updated.Keys == rows.Keys && (id in rows ==> updated[id] == RowOf(f))
      && forall k :: k in rows && k != id ==> updated[k] == rows[k]
  {
  }
}

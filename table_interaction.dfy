/** `useTableInteraction`: the hover / selection / edit-buffer state behind
    the admin tables. Rows carry an optional numeric `id` and an optional
    string `key`; the row's other properties are a map from field name to
    value, and the edit buffer (`Partial<T>`) is such a map too. */
module TableInteraction {
  import opened Wrappers

  /** The JavaScript values an identity can evaluate to. Strict equality
      (`===`) on these is structural equality. */
  datatype JsValue = Num(n: int) | Str(s: string) | Undefined

  datatype Row<V> = Row(id: Option<int>, key: Option<string>, fields: map<string, V>)

  /** `item?.id || item?.key`: the id when it is truthy (present and not 0),
      otherwise the key as it is, which may be absent or the empty string. */
  function Identity<V>(item: Option<Row<V>>): (r: JsValue)
    ensures item.None? ==> r == Undefined
    ensures r.Num? <==> item.Some? && item.value.id.Some? && item.value.id.value != 0
    ensures r.Num? ==> r.n == item.value.id.value
    ensures r.Str? <==>
      item.Some? && !(item.value.id.Some? && item.value.id.value != 0) && item.value.key.Some?
    ensures r.Str? ==> r.s == item.value.key.value
  {
    match item
    case None => Undefined
    case Some(r) =>
      if r.id.Some? && r.id.value != 0 then Num(r.id.value)
      else if r.key.Some? then Str(r.key.value)
      else Undefined
  }

  /** The selection after clicking `item`: cleared when its identity equals
      that of the current selection, otherwise `item`. */
  function NextSelection<V>(selected: Option<Row<V>>, item: Row<V>): (r: Option<Row<V>>)
    ensures r == None <==> Identity(Some(item)) == Identity(selected)
    ensures r != None ==> r == Some(item)
    ensures selected == Some(item) ==> r == None
  {
    if Identity(Some(item)) == Identity(selected) then None else Some(item)
  }

  /** Because `||` tests truthiness, an id of 0 is passed over exactly as a
      missing id is, and a non-zero id always wins over the key. */
  lemma ZeroIdFallsBackToKey<V>(r: Row<V>)
    ensures Identity(Some(r.(id := Some(0)))) == Identity(Some(r.(id := None)))
    ensures r.id.Some? && r.id.value != 0 ==> Identity(Some(r)) == Num(r.id.value)
  {
  }

  /** With nothing selected, a click selects its row exactly when the row has
      an identity: a row with neither a truthy id nor a key compares equal to
      the empty selection and can never be selected from it. */
  lemma SelectFromEmpty<V>(item: Row<V>)
    ensures NextSelection(None, item) == Some(item) <==> Identity(Some(item)) != Undefined
  {
  }

  class TableInteraction<V> {
    var hoveredItem: Option<Row<V>>
    var selectedItem: Option<Row<V>>
    var editData: map<string, V>
    var saving: bool
    /** The caller's `getInitialEditData`. */
    const initialEditData: Row<V> -> map<string, V>

    constructor(getInitialEditData: Row<V> -> map<string, V>)
      ensures hoveredItem == None && selectedItem == None
      ensures editData == map[] && !saving
      ensures initialEditData == getInitialEditData
    {
      hoveredItem := None;
      selectedItem := None;
      editData := map[];
      saving := false;
      initialEditData := getInitialEditData;
    }

    method HandleHover(item: Option<Row<V>>)
      modifies this`hoveredItem
      ensures hoveredItem == item
    {
      hoveredItem := item;
    }

    /** Toggle the selection on `item`. Deselecting empties the edit buffer;
      selecting fills it from `getInitialEditData`. Hover is always cleared. */
    method HandleSelect(item: Row<V>)
      modifies this`selectedItem, this`editData, this`hoveredItem
      ensures selectedItem == NextSelection(old(selectedItem), item)
      ensures selectedItem == None ==> editData == map[]
      ensures selectedItem != None ==> editData == initialEditData(item)
      ensures hoveredItem == None
    {
      var itemId := Identity(Some(item));
      var selectedId := Identity(selectedItem);
      if itemId == selectedId {
        selectedItem := None;
        editData := map[];
      } else {
        selectedItem := Some(item);
        editData := initialEditData(item);
      }
      hoveredItem := None;
    }

    /** Overwrite one field of the edit buffer, keeping every other field. */
    method HandleEditDataChange(field: string, value: V)
      modifies this`editData
      ensures field in editData && editData[field] == value
      ensures editData.Keys == old(editData).Keys + {field}
      ensures forall f :: f in old(editData) && f != field ==> editData[f] == old(editData)[f]
    {
      editData := editData[field := value];
    }

    /** The exported `setEditData`: replace the whole buffer. */
    method SetEditData(data: map<string, V>)
      modifies this`editData
      ensures editData == data
    {
      editData := data;
    }

    /** The exported `setSaving`. */
    method SetSaving(value: bool)
      modifies this`saving
      ensures saving == value
    {
      saving := value;
    }
  }
}

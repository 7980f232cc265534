/** The menu routes of the server (backend/routes/menu.js): the filtered item
    list, the creation of an item with its modifiers and options (required
    fields, defaults), and the partial update restricted to an allow-list of
    columns. Generated ids other than the item's are not modelled: modifier
    and option rows are linked by the modifier's position in the request. */
module BackendMenu {
  import opened Types
  import opened Seqs
  import opened SqlText

  // The item list

  const ItemsBase: seq<Fragment> := [
    Text("\n      SELECT mi.*, mc.name as category_name \n      FROM menu_items mi\n"
      + "      LEFT JOIN menu_categories mc ON mi.category_id = mc.id\n      WHERE 1=1\n    ")
  ]
  const CategoryColumn: string := " AND mi.category_id = "
  const AvailableOnly: Fragment := Text(" AND mi.is_available = TRUE")
  const ByName: Fragment := Text(" ORDER BY mi.name")

  /** The GET /items handler's statement: a category condition bound to the
      category exactly when one is given, the availability condition only for
      the literal string `true`, and the result ordered by name. */
  method BuildItemsQuery(category: Option<string>, available: Option<string>)
    returns (query: seq<Fragment>, params: seq<string>)
    ensures query == ItemsBase
      + (if Given(category) then [Text(CategoryColumn), Placeholder] else [])
      + (if available == Some("true") then [AvailableOnly] else [])
      + [ByName]
    ensures params == if Given(category) then [category.value] else []
    ensures Labels(query) == if Given(category) then [CategoryColumn] else []
    ensures Placeholders(query) == |params|
    ensures AvailableOnly in query <==> available == Some("true")
    ensures query[|query| - 1] == ByName
  {
    query := ItemsBase;
    params := [];
    TextLabels(ItemsBase[0].text);
    ClauseLabel(CategoryColumn);
    TextLabels(AvailableOnly.text);
    TextLabels(ByName.text);
    if Given(category) {
      LabelsConcat(query, [Text(CategoryColumn), Placeholder], "");
      query := query + [Text(CategoryColumn), Placeholder];
      params := params + [category.value];
    }
    if available == Some("true") {
      LabelsConcat(query, [AvailableOnly], "");
      query := query + [AvailableOnly];
    }
    LabelsConcat(query, [ByName], "");
    query := query + [ByName];
  }

  // The partial update

  /** The columns a PUT may write, in the order the statement lists them. */
  const AllowedFields: seq<string> := [
    "name", "description", "category_id", "subcategory", "food_type",
    "image_url", "price_dine_in", "price_takeaway", "price_delivery",
    "gst_percent", "preparation_time", "kitchen_station", "is_available"
  ]

  /** `updates[field] !== undefined`. */
  function IsSent(updates: map<string, Value>): string -> bool
  {
    (field: string) => Get(updates, field) != Undefined
  }

  /** The columns of an allow-list that the body sends, in allow-list order. */
  function SentFields(allowed: seq<string>, updates: map<string, Value>): (fs: seq<string>)
    ensures |fs| <= |allowed|
    ensures forall f :: f in fs <==> f in allowed && Get(updates, f) != Undefined
  {
    Filter(allowed, IsSent(updates))
  }

  /** `${field} = ?` for each column. */
  function Assignments(fs: seq<string>): (r: seq<seq<Fragment>>)
    ensures |r| == |fs| && forall k :: 0 <= k < |fs| ==> r[k] == [Text(fs[k] + " = "), Placeholder]
  {
    seq(|fs|, k requires 0 <= k < |fs| => [Text(fs[k] + " = "), Placeholder])
  }

  /** The text each column's placeholder follows. */
  function Columns(fs: seq<string>): (r: seq<string>)
    ensures |r| == |fs| && forall k :: 0 <= k < |fs| ==> r[k] == fs[k] + " = "
  {
    seq(|fs|, k requires 0 <= k < |fs| => fs[k] + " = ")
  }

  /** The values the body sends for the given columns, in order. */
  function SentValues(updates: map<string, Value>, fs: seq<string>): (vs: seq<Value>)
    ensures |vs| == |fs| && forall k :: 0 <= k < |fs| ==> vs[k] == Get(updates, fs[k])
  {
    seq(|fs|, k requires 0 <= k < |fs| => Get(updates, fs[k]))
  }

  lemma SentValuesSnoc(updates: map<string, Value>, fs: seq<string>, f: string)
    ensures SentValues(updates, fs + [f]) == SentValues(updates, fs) + [Get(updates, f)]
  {
  }

  lemma AssignmentsSnoc(fs: seq<string>, f: string)
    ensures Assignments(fs + [f]) == Assignments(fs) + [[Text(f + " = "), Placeholder]]
  {
  }

  const Comma: seq<Fragment> := [Text(", ")]
  const UpdateHead: seq<Fragment> := [Text("UPDATE menu_items SET ")]
  const ById: string := " WHERE id = "

  datatype UpdateResult = NoValidFields | Update(sql: seq<Fragment>, values: seq<Value>)

  /** The statement and values of an update restricted to `allowed`: one
      assignment per allowed column that is sent, the column's value bound to
      its own placeholder, then the id; with no such column, a 400 and no
      statement. */
  function UpdateFor(allowed: seq<string>, updates: map<string, Value>, id: string): (r: UpdateResult)
    ensures r.NoValidFields? <==> forall f :: f in allowed ==> Get(updates, f) == Undefined
    ensures r.Update? ==> |r.values| == |SentFields(allowed, updates)| + 1 && r.values[|r.values| - 1] == Str(id)
    ensures r.Update? ==> forall k :: 0 <= k < |SentFields(allowed, updates)| ==>
      r.values[k] == Get(updates, SentFields(allowed, updates)[k]) && r.values[k] != Undefined
    ensures r.Update? ==> Labels(r.sql) == Columns(SentFields(allowed, updates)) + [ById]
    ensures r.Update? ==> Placeholders(r.sql) == |r.values|
    ensures r.Update? ==>
      r.sql == UpdateHead + Join(Assignments(SentFields(allowed, updates)), Comma) + [Text(ById), Placeholder]
  {
    var fs := SentFields(allowed, updates);
    if fs == [] then
      NoValidFields
    else
      var sql := UpdateHead + Join(Assignments(fs), Comma) + [Text(ById), Placeholder];
      UpdateLabels(fs);
      assert fs[0] in fs;
      Update(sql, SentValues(updates, fs) + [Str(id)])
  }

  /** The PUT /items/:id statement, over the menu's allow-list. */
  function MenuUpdate(updates: map<string, Value>, id: string): UpdateResult
  {
    UpdateFor(AllowedFields, updates, id)
  }

  /** The labels of the assembled update statement. */
  lemma UpdateLabels(fs: seq<string>)
    requires fs != []
    ensures Labels(UpdateHead + Join(Assignments(fs), Comma) + [Text(ById), Placeholder]) == Columns(fs) + [ById]
  {
    var j := Join(Assignments(fs), Comma);
    JoinStartsWithText(fs);
    LabelsConcat(UpdateHead + j, [Text(ById), Placeholder], "");
    LabelsConcat(UpdateHead, j, "");
    TextLabels(UpdateHead[0].text);
    ClauseLabel(ById);
    AssignmentLabels(fs, "");
  }

  lemma JoinStartsWithText(fs: seq<string>)
    requires fs != []
    ensures Join(Assignments(fs), Comma) != [] && Join(Assignments(fs), Comma)[0] == Text(fs[0] + " = ")
  {
  }

  /** Each assignment's placeholder is labelled by its own column. */
  lemma {:induction false} AssignmentLabels(fs: seq<string>, prev: string)
    ensures LabelsFrom(Join(Assignments(fs), Comma), prev) == Columns(fs)
  {
    if |fs| == 1 {
      ClauseLabel(fs[0] + " = ");
      assert [Text(fs[0] + " = "), Placeholder][1..] == [Placeholder];
      assert [Placeholder][1..] == [];
    } else if |fs| > 1 {
      var first := [Text(fs[0] + " = "), Placeholder];
      var rest := Join(Assignments(fs[1..]), Comma);
      assert Assignments(fs)[1..] == Assignments(fs[1..]);
      assert Join(Assignments(fs), Comma) == first + Comma + rest;
      JoinStartsWithText(fs[1..]);
      LabelsConcat(first + Comma, rest, prev);
      assert first + Comma == [Text(fs[0] + " = "), Placeholder, Text(", ")];
      assert LabelsFrom(first + Comma, prev) == [fs[0] + " = "] by {
        var q := first + Comma;
        assert q[1..] == [Placeholder, Text(", ")];
        assert q[1..][1..] == [Text(", ")];
        assert q[1..][1..][1..] == [];
      }
      AssignmentLabels(fs[1..], "");
      assert Columns(fs) == [fs[0] + " = "] + Columns(fs[1..]);
    }
  }

  /** The PUT handler's loop over an allow-list, then the id. */
  method BuildUpdate(allowed: seq<string>, updates: map<string, Value>, id: string) returns (r: UpdateResult)
    ensures r == UpdateFor(allowed, updates, id)
  {
    var updateFields: seq<seq<Fragment>> := [];
    var values: seq<Value> := [];
    ghost var sent: seq<string> := [];
    var i := 0;
    while i < |allowed|
      invariant 0 <= i <= |allowed|
      invariant sent == Filter(allowed[..i], IsSent(updates))
      invariant updateFields == Assignments(sent)
      invariant values == SentValues(updates, sent)
    {
      var field := allowed[i];
      assert allowed[..i + 1] == allowed[..i] + [field];
      FilterConcat(allowed[..i], [field], IsSent(updates));
      FilterSingleton(field, IsSent(updates));
      if Get(updates, field) != Undefined {
        AssignmentsSnoc(sent, field);
        SentValuesSnoc(updates, sent, field);
        updateFields := updateFields + [[Text(field + " = "), Placeholder]];
        values := values + [Get(updates, field)];
        sent := sent + [field];
      }
      i := i + 1;
    }
    assert allowed[..i] == allowed;
    assert sent == SentFields(allowed, updates);
    if |updateFields| == 0 {
      return NoValidFields;
    }
    values := values + [Str(id)];
    r := Update(UpdateHead + Join(updateFields, Comma) + [Text(ById), Placeholder], values);
  }

  /** The body restricted to the keys of an allow-list. */
  function Restrict(updates: map<string, Value>, allowed: seq<string>): (m: map<string, Value>)
    ensures forall f :: f in m <==> f in updates && f in allowed
    ensures forall f :: f in allowed ==> Get(m, f) == Get(updates, f)
  {
    map f | f in updates && f in allowed :: updates[f]
  }

  /** Keys outside the allow-list never reach the statement. */
  lemma OtherKeysIgnored(allowed: seq<string>, updates: map<string, Value>, id: string)
    ensures UpdateFor(allowed, updates, id) == UpdateFor(allowed, Restrict(updates, allowed), id)
  {
    var kept := Restrict(updates, allowed);
    forall k | 0 <= k < |allowed|
      ensures IsSent(updates)(allowed[k]) == IsSent(kept)(allowed[k])
    {
      assert allowed[k] in allowed;
    }
    FilterSameTest(allowed, IsSent(updates), IsSent(kept));
    var fs := SentFields(allowed, updates);
    assert fs == SentFields(allowed, kept);
    var v1 := SentValues(updates, fs);
    var v2 := SentValues(kept, fs);
    forall k | 0 <= k < |fs| ensures v1[k] == v2[k] {
      assert fs[k] in fs;
    }
    assert v1 == v2;
  }

  /** A null sent for a column is written as NULL: only absence skips a column. */
  lemma NullIsWritten(allowed: seq<string>, updates: map<string, Value>, id: string, f: string)
    requires f in allowed && f in updates && updates[f] == Null
    ensures UpdateFor(allowed, updates, id).Update?
    ensures f in SentFields(allowed, updates)
  {
  }

  /** Every allowed column name is at least four characters long. */
  lemma AllowedFieldsLong()
    ensures forall f :: f in AllowedFields ==> |f| >= 4
  {
  }

  /** The row's id is not on the menu's allow-list, so a PUT never rewrites it. */
  lemma IdNeverWritten(updates: map<string, Value>)
    ensures "id" !in SentFields(AllowedFields, updates)
  {
    AllowedFieldsLong();
  }

  // Creation

  const RequiredFields: seq<string> := ["name", "category_id", "food_type", "price_dine_in", "kitchen_station"]

  /** A `menu_items` row as inserted; `isAvailable` is always TRUE. */
  datatype ItemRow = ItemRow(
    id: string,
    name: Value,
    description: Value,
    categoryId: Value,
    subcategory: Value,
    foodType: Value,
    imageUrl: Value,
    priceDineIn: Value,
    priceTakeaway: Value,
    priceDelivery: Value,
    gstPercent: Value,
    preparationTime: Value,
    kitchenStation: Value,
    isAvailable: bool)

  /** A `modifiers` row; `modifier` is the position of its request entry. */
  datatype ModifierRow = ModifierRow(modifier: nat, menuItemId: string, name: Value, isRequired: Value, multiSelect: Value)

  /** A `modifier_options` row of the modifier at position `modifier`. */
  datatype OptionRow = OptionRow(modifier: nat, name: Value, priceAdjustment: Value, isAvailable: bool)

  datatype Inserted = Inserted(modifiers: seq<ModifierRow>, options: seq<OptionRow>)

  datatype CreateResult =
    | MissingFields
    | Rejected
    | CreatedItem(item: ItemRow, modifiers: seq<ModifierRow>, options: seq<OptionRow>)

  /** Reading a property of an entry that is `null` throws. */
  predicate Throws(v: Value)
  {
    v == Null || v == Undefined
  }

  /** The entries of `v` when it is an array (`v && Array.isArray(v)`), else none. */
  function Entries(v: Value): seq<Value>
  {
    if v.Arr? then v.elems else []
  }

  /** The option rows of modifier `m`, or None when an entry throws. */
  function OptionRows(m: nat, os: seq<Value>): (r: Option<seq<OptionRow>>)
    ensures r.None? <==> exists k :: 0 <= k < |os| && Throws(os[k])
    ensures r.Some? ==> |r.value| == |os|
    ensures r.Some? ==> forall k :: 0 <= k < |os| ==>
      r.value[k].modifier == m && r.value[k].isAvailable &&
      r.value[k].name == Prop(os[k], "name").value &&
      r.value[k].priceAdjustment == Or(Prop(os[k], "price_adjustment").value, Num(0.0))
  {
    if os == [] then Some([])
    else if Throws(os[0]) then None
    else
      var rest := OptionRows(m, os[1..]);
      if rest.None? then
        var k :| 0 <= k < |os[1..]| && Throws(os[1..][k]);
        assert Throws(os[k + 1]);
        None
      else
        var row := OptionRow(m, Prop(os[0], "name").value, Or(Prop(os[0], "price_adjustment").value, Num(0.0)), true);
        assert forall k :: 1 <= k < |os| ==> !Throws(os[k]) by {
          forall k | 1 <= k < |os| ensures !Throws(os[k]) {
            assert os[k] == os[1..][k - 1];
          }
        }
        Some([row] + rest.value)
  }

  /** The entries of the `options` array of modifier entry `m` (none when reading it throws). */
  function OptionEntries(m: Value): seq<Value>
  {
    if Throws(m) then [] else Entries(Prop(m, "options").value)
  }

  /** A modifier entry throws, or one of its options does. */
  predicate EntryThrows(m: Value)
  {
    Throws(m) || OptionRows(0, OptionEntries(m)).None?
  }

  /** The modifier and option rows of the modifier entries from position
      `start` on, or None when an entry throws: each modifier row carries its
      position and the item, and its flags default to false. */
  function ModifierRows(itemId: string, ms: seq<Value>, start: nat): (r: Option<Inserted>)
    ensures r.Some? ==> |r.value.modifiers| == |ms|
    ensures r.Some? ==> forall k :: 0 <= k < |ms| ==>
      !Throws(ms[k]) && r.value.modifiers[k].modifier == start + k && r.value.modifiers[k].menuItemId == itemId &&
      r.value.modifiers[k].name == Prop(ms[k], "name").value &&
      r.value.modifiers[k].isRequired == Or(Prop(ms[k], "is_required").value, Bool(false)) &&
      r.value.modifiers[k].multiSelect == Or(Prop(ms[k], "multi_select").value, Bool(false))
    ensures r.Some? ==> forall k :: 0 <= k < |r.value.options| ==>
      start <= r.value.options[k].modifier < start + |ms|
    decreases |ms|
  {
    if ms == [] then Some(Inserted([], []))
    else if Throws(ms[0]) then None
    else
      var m := ms[0];
      var os := OptionRows(start, OptionEntries(m));
      if os.None? then None
      else
        var rest := ModifierRows(itemId, ms[1..], start + 1);
        if rest.None? then None
        else
          var row := ModifierRow(start, itemId, Prop(m, "name").value,
            Or(Prop(m, "is_required").value, Bool(false)), Or(Prop(m, "multi_select").value, Bool(false)));
          Some(Inserted([row] + rest.value.modifiers, os.value + rest.value.options))
  }

  /** The rows are inserted in one transaction: it fails, and none is kept,
      exactly when some modifier entry or one of its options is null. */
  lemma {:induction false} ModifierRowsFail(itemId: string, ms: seq<Value>, start: nat)
    ensures ModifierRows(itemId, ms, start).None? <==> exists k :: 0 <= k < |ms| && EntryThrows(ms[k])
    decreases |ms|
  {
    if ms != [] && !Throws(ms[0]) {
      ModifierRowsFail(itemId, ms[1..], start + 1);
      OptionRowsThrowAlike(start, 0, OptionEntries(ms[0]));
      if !EntryThrows(ms[0]) {
        forall k | 0 <= k < |ms[1..]| ensures ms[1..][k] == ms[k + 1] {
        }
        assert (exists k :: 0 <= k < |ms| && EntryThrows(ms[k])) <==>
          (exists k :: 0 <= k < |ms[1..]| && EntryThrows(ms[1..][k])) by {
          if k :| 0 <= k < |ms| && EntryThrows(ms[k]) {
            assert k != 0;
            assert EntryThrows(ms[1..][k - 1]);
          }
        }
      }
    }
  }

  /** The rows of the options of modifier `m`. */
  function OfModifier(m: nat): OptionRow -> bool
  {
    (o: OptionRow) => o.modifier == m
  }

  /** Option rows ordered by their modifier. */
  predicate Grouped(rows: seq<OptionRow>)
  {
    forall i, j :: 0 <= i < j < |rows| ==> rows[i].modifier <= rows[j].modifier
  }

  /** One modifier's rows put before the rows of later modifiers stay grouped. */
  lemma GroupedPrefix(os: seq<OptionRow>, rest: seq<OptionRow>, m: nat)
    requires forall n :: 0 <= n < |os| ==> os[n].modifier == m
    requires forall n :: 0 <= n < |rest| ==> rest[n].modifier > m
    requires Grouped(rest)
    ensures Grouped(os + rest)
  {
    var all := os + rest;
    forall i, j | 0 <= i < j < |all| ensures all[i].modifier <= all[j].modifier {
      if j >= |os| && i >= |os| {
        assert all[i] == rest[i - |os|] && all[j] == rest[j - |os|];
      }
    }
  }

  /** Picking one modifier's rows out of its own rows followed by later ones. */
  lemma FilterPrefix(os: seq<OptionRow>, rest: seq<OptionRow>, m: nat, target: nat)
    requires forall n :: 0 <= n < |os| ==> os[n].modifier == m
    requires forall n :: 0 <= n < |rest| ==> rest[n].modifier > m
    requires target >= m
    ensures target == m ==> Filter(os + rest, OfModifier(target)) == os
    ensures target > m ==> Filter(os + rest, OfModifier(target)) == Filter(rest, OfModifier(target))
  {
    FilterConcat(os, rest, OfModifier(target));
    if target == m {
      FilterKeepsAll(os, OfModifier(target));
      FilterKeepsNone(rest, OfModifier(target));
    } else {
      FilterKeepsNone(os, OfModifier(target));
    }
  }

  /** The rows built from an option list, none when it throws. */
  function RowsOrNone(rows: Option<seq<OptionRow>>): seq<OptionRow>
  {
    if rows.Some? then rows.value else []
  }

  /** Blocks of rows, one after another. */
  function Flatten(blocks: seq<seq<OptionRow>>): seq<OptionRow>
  {
    if blocks == [] then [] else blocks[0] + Flatten(blocks[1..])
  }

  /** Every row of block `i` belongs to the modifier at position `start + i`. */
  predicate Numbered(blocks: seq<seq<OptionRow>>, start: nat)
  {
    forall i, n :: 0 <= i < |blocks| && 0 <= n < |blocks[i]| ==> blocks[i][n].modifier == start + i
  }

  lemma NumberedTail(blocks: seq<seq<OptionRow>>, start: nat)
    requires blocks != [] && Numbered(blocks, start)
    ensures Numbered(blocks[1..], start + 1)
    ensures forall n :: 0 <= n < |blocks[0]| ==> blocks[0][n].modifier == start
  {
    forall i, n | 0 <= i < |blocks[1..]| && 0 <= n < |blocks[1..][i]|
      ensures blocks[1..][i][n].modifier == start + 1 + i
    {
      assert blocks[1..][i] == blocks[i + 1];
    }
  }

  /** The rows of numbered blocks all belong to modifiers from `start` on. */
  lemma {:induction false} FlattenFrom(blocks: seq<seq<OptionRow>>, start: nat)
    requires Numbered(blocks, start)
    ensures forall n :: 0 <= n < |Flatten(blocks)| ==> Flatten(blocks)[n].modifier >= start
    decreases |blocks|
  {
    if blocks != [] {
      NumberedTail(blocks, start);
      FlattenFrom(blocks[1..], start + 1);
      var all := blocks[0] + Flatten(blocks[1..]);
      forall n | 0 <= n < |all| ensures all[n].modifier >= start {
        if n >= |blocks[0]| {
          assert all[n] == Flatten(blocks[1..])[n - |blocks[0]|];
        }
      }
    }
  }

  /** Picking modifier `start + k`'s rows out of numbered blocks gives block `k`. */
  lemma {:induction false} FlattenFilter(blocks: seq<seq<OptionRow>>, start: nat, k: nat)
    requires Numbered(blocks, start) && k < |blocks|
    ensures Filter(Flatten(blocks), OfModifier(start + k)) == blocks[k]
    decreases k
  {
    NumberedTail(blocks, start);
    FlattenFrom(blocks[1..], start + 1);
    FilterPrefix(blocks[0], Flatten(blocks[1..]), start, start + k);
    if k != 0 {
      assert blocks[k] == blocks[1..][k - 1];
      FlattenFilter(blocks[1..], start + 1, k - 1);
    }
  }

  /** Numbered blocks, one after another, are grouped by modifier. */
  lemma {:induction false} FlattenGrouped(blocks: seq<seq<OptionRow>>, start: nat)
    requires Numbered(blocks, start)
    ensures Grouped(Flatten(blocks))
    decreases |blocks|
  {
    if blocks != [] {
      NumberedTail(blocks, start);
      FlattenFrom(blocks[1..], start + 1);
      FlattenGrouped(blocks[1..], start + 1);
      GroupedPrefix(blocks[0], Flatten(blocks[1..]), start);
    }
  }

  /** The option rows of each modifier entry from position `start` on, entry by entry. */
  function OptionBlocks(ms: seq<Value>, start: nat): (b: seq<seq<OptionRow>>)
    ensures |b| == |ms|
  {
    seq(|ms|, i requires 0 <= i < |ms| => RowsOrNone(OptionRows(start + i, OptionEntries(ms[i]))))
  }

  /** Each entry's rows belong to that entry's modifier. */
  lemma OptionBlocksNumbered(ms: seq<Value>, start: nat)
    ensures Numbered(OptionBlocks(ms, start), start)
  {
  }

  /** The blocks of the entries after the first are the blocks after the first. */
  lemma OptionBlocksTail(ms: seq<Value>, start: nat)
    requires ms != []
    ensures OptionBlocks(ms, start) == [RowsOrNone(OptionRows(start, OptionEntries(ms[0])))] + OptionBlocks(ms[1..], start + 1)
  {
    var b := OptionBlocks(ms, start);
    var t := OptionBlocks(ms[1..], start + 1);
    forall i | 0 <= i < |t| ensures t[i] == b[i + 1] {
      assert ms[1..][i] == ms[i + 1];
      assert start + 1 + i == start + (i + 1);
    }
  }

  /** The option rows inserted are the entries' option rows, one entry after another. */
  lemma {:induction false} ModifierRowsOptions(itemId: string, ms: seq<Value>, start: nat)
    requires ModifierRows(itemId, ms, start).Some?
    ensures ModifierRows(itemId, ms, start).value.options == Flatten(OptionBlocks(ms, start))
    decreases |ms|
  {
    if ms != [] {
      ModifierRowsOptions(itemId, ms[1..], start + 1);
      OptionBlocksTail(ms, start);
      var b := OptionBlocks(ms, start);
      assert b[1..] == OptionBlocks(ms[1..], start + 1);
    }
  }

  /** The option rows are inserted modifier by modifier, in the order of the modifiers. */
  lemma ModifierRowsGrouped(itemId: string, ms: seq<Value>, start: nat)
    requires ModifierRows(itemId, ms, start).Some?
    ensures Grouped(ModifierRows(itemId, ms, start).value.options)
  {
    ModifierRowsOptions(itemId, ms, start);
    OptionBlocksNumbered(ms, start);
    FlattenGrouped(OptionBlocks(ms, start), start);
  }

  /** Whether an option list throws does not depend on which modifier it belongs to. */
  lemma OptionRowsThrowAlike(m1: nat, m2: nat, os: seq<Value>)
    ensures OptionRows(m1, os).None? == OptionRows(m2, os).None?
  {
  }

  /** The POST /items handler: a 400 when a required field is falsy (a dine-in
      price of 0 included), a failed transaction when a modifier or option
      entry is null, otherwise the item row with its defaults and the rows of
      the modifiers and options sent as arrays. */
  function CreateMenuItem(body: map<string, Value>, itemId: string): (r: CreateResult)
    ensures r == MissingFields <==> exists f :: f in RequiredFields && !Truthy(Get(body, f))
    ensures r.CreatedItem? ==>
      r.item.id == itemId && r.item.isAvailable &&
      r.item.priceDineIn == Get(body, "price_dine_in") &&
      r.item.priceTakeaway == Or(Get(body, "price_takeaway"), Get(body, "price_dine_in")) &&
      r.item.priceDelivery == Or(Get(body, "price_delivery"), Get(body, "price_dine_in")) &&
      r.item.gstPercent == Or(Get(body, "gst_percent"), Num(5.0)) &&
      r.item.preparationTime == Or(Get(body, "preparation_time"), Num(15.0)) &&
      r.item.description == Or(Get(body, "description"), Null)
    ensures r.CreatedItem? ==>
      r.item.name == Get(body, "name") && r.item.categoryId == Get(body, "category_id") &&
      r.item.foodType == Get(body, "food_type") && r.item.kitchenStation == Get(body, "kitchen_station") &&
      r.item.subcategory == Or(Get(body, "subcategory"), Null) && r.item.imageUrl == Or(Get(body, "image_url"), Null)
    ensures r.CreatedItem? ==> |r.modifiers| == |Entries(Get(body, "modifiers"))|
    ensures r.CreatedItem? ==>
      ModifierRows(itemId, Entries(Get(body, "modifiers")), 0) == Some(Inserted(r.modifiers, r.options))
    ensures r == Rejected <==>
      (forall f :: f in RequiredFields ==> Truthy(Get(body, f))) &&
      exists k :: 0 <= k < |Entries(Get(body, "modifiers"))| && EntryThrows(Entries(Get(body, "modifiers"))[k])
  {
    if !Truthy(Get(body, "name")) || !Truthy(Get(body, "category_id")) || !Truthy(Get(body, "food_type"))
      || !Truthy(Get(body, "price_dine_in")) || !Truthy(Get(body, "kitchen_station"))
    then
      MissingFields
    else
      var dineIn := Get(body, "price_dine_in");
      var item := ItemRow(itemId, Get(body, "name"), Or(Get(body, "description"), Null), Get(body, "category_id"),
        Or(Get(body, "subcategory"), Null), Get(body, "food_type"), Or(Get(body, "image_url"), Null),
        dineIn, Or(Get(body, "price_takeaway"), dineIn), Or(Get(body, "price_delivery"), dineIn),
        Or(Get(body, "gst_percent"), Num(5.0)), Or(Get(body, "preparation_time"), Num(15.0)),
        Get(body, "kitchen_station"), true);
      var rows := ModifierRows(itemId, Entries(Get(body, "modifiers")), 0);
      ModifierRowsFail(itemId, Entries(Get(body, "modifiers")), 0);
      if rows.None? then Rejected else CreatedItem(item, rows.value.modifiers, rows.value.options)
  }

  /** A dine-in price of 0 is a missing price. */
  lemma ZeroPriceRejected(body: map<string, Value>, itemId: string)
    requires Get(body, "price_dine_in") == Num(0.0)
    ensures CreateMenuItem(body, itemId) == MissingFields
  {
    assert "price_dine_in" in RequiredFields;
  }

  /** Without takeaway and delivery prices, both are the dine-in price; without
      GST and preparation time, they are 5 and 15. */
  lemma DefaultsApplied(body: map<string, Value>, itemId: string)
    requires CreateMenuItem(body, itemId).CreatedItem?
    requires "price_takeaway" !in body && "price_delivery" !in body
    requires "gst_percent" !in body && "preparation_time" !in body
    ensures CreateMenuItem(body, itemId).item.priceTakeaway == Get(body, "price_dine_in")
    ensures CreateMenuItem(body, itemId).item.priceDelivery == Get(body, "price_dine_in")
    ensures CreateMenuItem(body, itemId).item.gstPercent == Num(5.0)
    ensures CreateMenuItem(body, itemId).item.preparationTime == Num(15.0)
  {
  }

  /** Modifier flags left out are stored as false. */
  lemma FlagsDefaultToFalse(body: map<string, Value>, itemId: string, k: nat)
    requires CreateMenuItem(body, itemId).CreatedItem?
    requires k < |Entries(Get(body, "modifiers"))|
    requires Entries(Get(body, "modifiers"))[k].Obj?
    requires "is_required" !in Entries(Get(body, "modifiers"))[k].fields
    requires "multi_select" !in Entries(Get(body, "modifiers"))[k].fields
    ensures CreateMenuItem(body, itemId).modifiers[k].isRequired == Bool(false)
    ensures CreateMenuItem(body, itemId).modifiers[k].multiSelect == Bool(false)
  {
    var ms := Entries(Get(body, "modifiers"));
    assert ModifierRows(itemId, ms, 0).Some?;
  }

  /** An option sent without a price adjustment is stored with 0. */
  lemma AdjustmentDefaultsToZero(m: nat, os: seq<Value>, k: nat)
    requires OptionRows(m, os).Some? && k < |os| && os[k].Obj? && "price_adjustment" !in os[k].fields
    ensures OptionRows(m, os).value[k].priceAdjustment == Num(0.0)
  {
  }

  /** The option rows inserted for the modifier at position k are exactly the
      rows of that entry's own options, in order. */
  lemma ModifierRowsEntry(itemId: string, ms: seq<Value>, k: nat)
    requires ModifierRows(itemId, ms, 0).Some? && k < |ms|
    ensures Some(Filter(ModifierRows(itemId, ms, 0).value.options, OfModifier(k))) == OptionRows(k, OptionEntries(ms[k]))
  {
    var rows := ModifierRows(itemId, ms, 0).value.options;
    var own := OptionRows(k, OptionEntries(ms[k]));
    assert own == Some(RowsOrNone(own)) by {
      EntryOptionsKept(itemId, ms, k);
    }
    assert rows == Flatten(OptionBlocks(ms, 0)) by {
      ModifierRowsOptions(itemId, ms, 0);
    }
    assert Filter(rows, OfModifier(k)) == RowsOrNone(own) by {
      OptionBlocksNumbered(ms, 0);
      FlattenFilter(OptionBlocks(ms, 0), 0, k);
    }
  }

  /** When the rows are inserted, no option of any entry throws. */
  lemma EntryOptionsKept(itemId: string, ms: seq<Value>, k: nat)
    requires ModifierRows(itemId, ms, 0).Some? && k < |ms|
    ensures OptionRows(k, OptionEntries(ms[k])).Some?
  {
    ModifierRowsFail(itemId, ms, 0);
    assert !EntryThrows(ms[k]);
    OptionRowsThrowAlike(k, 0, OptionEntries(ms[k]));
  }

  /** The rows stored for the k-th modifier of a created item: its name, and
      the rows of its own options, each with the adjustment defaulting to 0. */
  lemma CreatedModifier(body: map<string, Value>, itemId: string, k: nat)
    requires CreateMenuItem(body, itemId).CreatedItem?
    requires k < |Entries(Get(body, "modifiers"))|
    ensures var m := Entries(Get(body, "modifiers"))[k];
      !Throws(m) && CreateMenuItem(body, itemId).modifiers[k].name == Prop(m, "name").value &&
      Some(Filter(CreateMenuItem(body, itemId).options, OfModifier(k))) == OptionRows(k, OptionEntries(m))
  {
    var ms := Entries(Get(body, "modifiers"));
    assert ModifierRows(itemId, ms, 0).value.options == CreateMenuItem(body, itemId).options;
    ModifierRowsEntry(itemId, ms, k);
  }

  /** The option rows of a created item are stored modifier by modifier. */
  lemma CreatedOptionsGrouped(body: map<string, Value>, itemId: string)
    requires CreateMenuItem(body, itemId).CreatedItem?
    ensures Grouped(CreateMenuItem(body, itemId).options)
  {
    ModifierRowsGrouped(itemId, Entries(Get(body, "modifiers")), 0);
  }

  /** An option sent without a price adjustment is stored by the handler with 0. */
  lemma StoredAdjustmentDefaultsToZero(body: map<string, Value>, itemId: string, k: nat, j: nat)
    requires CreateMenuItem(body, itemId).CreatedItem?
    requires k < |Entries(Get(body, "modifiers"))|
    requires Entries(Get(body, "modifiers"))[k].Obj?
    requires j < |Entries(Get(Entries(Get(body, "modifiers"))[k].fields, "options"))|
    requires Entries(Get(Entries(Get(body, "modifiers"))[k].fields, "options"))[j].Obj?
    requires "price_adjustment" !in Entries(Get(Entries(Get(body, "modifiers"))[k].fields, "options"))[j].fields
    ensures j < |Filter(CreateMenuItem(body, itemId).options, OfModifier(k))|
    ensures Filter(CreateMenuItem(body, itemId).options, OfModifier(k))[j].priceAdjustment == Num(0.0)
  {
    CreatedModifier(body, itemId, k);
    var m := Entries(Get(body, "modifiers"))[k];
    AdjustmentDefaultsToZero(k, OptionEntries(m), j);
  }
}

/**
 * `init`: the category table of the COCO-style output, the fixed map that folds
 * non-standard class names into standard ones, and the name-to-id dictionary
 * derived from the table.
 */
module Registry {

  /** One entry of `coco["categories"]`. */
  datatype Category = Category(supercategory: string, id: int, name: string)

  /** The annotation dictionary; of its keys only "categories" is filled in. */
  datatype Coco = Coco(categories: seq<Category>)

  /** The eight categories every mode starts from, with ids 1 to 8. */
  const BaseCategories: seq<Category> := [
    Category("human", 1, "pedestrian"),
    Category("human", 2, "rider"),
    Category("vehicle", 3, "car"),
    Category("vehicle", 4, "truck"),
    Category("vehicle", 5, "bus"),
    Category("vehicle", 6, "train"),
    Category("bike", 7, "motorcycle"),
    Category("bike", 8, "bicycle")
  ]

  const TrafficLight := Category("traffic light", 9, "traffic light")
  const TrafficSign := Category("traffic sign", 10, "traffic sign")

  /** The fixed folding of non-standard class names into standard ones. */
  const IgnoreMap: map<string, string> := map[
    "other person" := "pedestrian",
    "other vehicle" := "car",
    "trailer" := "truck"
  ]

  /** Entry `i` has id `i + 1`: ids are 1-based and follow table order. */
  ghost predicate ContiguousIds(categories: seq<Category>)
  {
    forall i :: 0 <= i < |categories| ==> categories[i].id == i + 1
  }

  ghost predicate UniqueNames(categories: seq<Category>)
  {
    forall i, j :: 0 <= i < j < |categories| ==> categories[i].name != categories[j].name
  }

  ghost function Names(categories: seq<Category>): set<string>
  {
    set c | c in categories :: c.name
  }

  /** No later entry of the table has the same name as entry `i`. */
  ghost predicate LastWithName(categories: seq<Category>, i: int)
    requires 0 <= i < |categories|
  {
    forall j :: i < j < |categories| ==> categories[j].name != categories[i].name
  }

  /**
   * `{c["name"]: c["id"] for c in categories}`: every name of the table is a key,
   * and a name is bound to the id of its last entry, as a later entry of a dict
   * comprehension overwrites an earlier one.
   */
  function NameToId(categories: seq<Category>): (d: map<string, int>)
    ensures d.Keys == Names(categories)
    ensures forall i :: 0 <= i < |categories| && LastWithName(categories, i) ==>
              d[categories[i].name] == categories[i].id
  {
    if categories == [] then map[]
    else
      var n := |categories| - 1;
      var front := categories[..n];
      NamesSnoc(categories);
      var d := NameToId(front)[categories[n].name := categories[n].id];
      forall i | 0 <= i < |categories| && LastWithName(categories, i)
        ensures d[categories[i].name] == categories[i].id
      {
        if i < n {
          assert front[i] == categories[i];
          assert LastWithName(front, i);
        }
      }
      d
  }

  lemma NamesSnoc(categories: seq<Category>)
    requires categories != []
    ensures Names(categories) == Names(categories[..|categories| - 1]) + {categories[|categories| - 1].name}
  {
    var front := categories[..|categories| - 1];
    assert forall i :: 0 <= i < |front| ==> front[i] == categories[i];
  }

  /** With unique names there is one name per entry. */
  lemma {:induction false} NamesCount(categories: seq<Category>)
    requires UniqueNames(categories)
    ensures |Names(categories)| == |categories|
  {
    if categories != [] {
      var n := |categories| - 1;
      var front := categories[..n];
      NamesSnoc(categories);
      assert categories[n].name !in Names(front);
      NamesCount(front);
    }
  }

  /** `d` maps the name of every entry to its id, and has no other keys and no more keys than entries. */
  ghost predicate AgreesWith(d: map<string, int>, categories: seq<Category>)
  {
    && d.Keys == Names(categories)
    && |d| == |categories|
    && forall i :: 0 <= i < |categories| ==> categories[i].name in d && d[categories[i].name] == categories[i].id
  }

  /**
   * For a table with unique names the derived dictionary agrees with every entry
   * and has exactly one key per entry.
   */
  lemma AttrIdDictAgrees(categories: seq<Category>)
    requires UniqueNames(categories)
    ensures AgreesWith(NameToId(categories), categories)
  {
    NamesCount(categories);
    assert forall i :: 0 <= i < |categories| ==> LastWithName(categories, i);
  }

  /** The base table is numbered 1 to 8 and has no "ignored" entry. */
  lemma BaseTable()
    ensures ContiguousIds(BaseCategories) && UniqueNames(BaseCategories)
    ensures "ignored" !in Names(BaseCategories)
  {
  }

  /** The detection table is numbered 1 to 10 and has no "ignored" entry. */
  lemma DetectionTable()
    ensures var det := BaseCategories + [TrafficLight, TrafficSign];
      ContiguousIds(det) && UniqueNames(det) && "ignored" !in Names(det)
  {
  }

  /** Appending "ignored" with the next id keeps ids contiguous and names unique. */
  lemma AppendIgnored(categories: seq<Category>)
    requires ContiguousIds(categories) && UniqueNames(categories) && "ignored" !in Names(categories)
    ensures var extended := categories + [Category("none", |categories| + 1, "ignored")];
      ContiguousIds(extended) && UniqueNames(extended)
  {
    var extended := categories + [Category("none", |categories| + 1, "ignored")];
    forall i, j | 0 <= i < j < |extended|
      ensures extended[i].name != extended[j].name
    {
      if j == |categories| {
        assert extended[i].name == categories[i].name;
      }
    }
  }

  /**
   * `init(mode, ignore_as_class)`: the eight base categories, then traffic light and
   * traffic sign when `mode` is "det" (any other mode is accepted and adds nothing),
   * then "ignored" with the next id when `ignoreAsClass` holds.
   */
  method Init(mode: string := "det", ignoreAsClass: bool := false)
    returns (coco: Coco, ignoreMap: map<string, string>, attrIdDict: map<string, int>)
    ensures |coco.categories| == 8 + (if mode == "det" then 2 else 0) + (if ignoreAsClass then 1 else 0)
    ensures coco.categories[..8] == BaseCategories
    ensures mode == "det" ==> coco.categories[8] == TrafficLight && coco.categories[9] == TrafficSign
    ensures ignoreAsClass ==> coco.categories[|coco.categories| - 1] == Category("none", |coco.categories|, "ignored")
    ensures ContiguousIds(coco.categories) && UniqueNames(coco.categories)
    ensures ignoreMap == IgnoreMap
    ensures AgreesWith(attrIdDict, coco.categories)
  {
    var categories := BaseCategories;
    BaseTable();
    if mode == "det" {
      categories := categories + [TrafficLight, TrafficSign];
      DetectionTable();
      assert categories[8] == TrafficLight && categories[9] == TrafficSign;
    }
    assert categories[..8] == BaseCategories;
    if ignoreAsClass {
      AppendIgnored(categories);
      ghost var built := categories;
      categories := categories + [Category("none", |categories| + 1, "ignored")];
      assert categories[..8] == built[..8];
    }
    coco := Coco(categories);
    ignoreMap := IgnoreMap;
    attrIdDict := NameToId(categories);
    AttrIdDictAgrees(categories);
  }
}
